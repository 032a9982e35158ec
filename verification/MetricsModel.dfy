/**
 * The metrics registry as a transition system on values: lazily defined counters under one or two
 * prefixes, capped families of distinct series, and every call made to the host.
 */
module MetricsModel {
  import opened Text

  type Label = (string, string)

  datatype Options = Options(
    labels: seq<Label>, enabled: bool, perRuleId: bool, ruleTags: bool, dualPrefix: bool)

  datatype HostCall = Define(name: string) | Incremented(name: string) | GaugeSet(name: string)

  /** Whether the host grants the definition it was asked for last; it may depend on everything before. */
  type Host = seq<HostCall> -> bool

  datatype Registry = Registry(
    options: Options, suffix: string, defined: set<string>, txCount: nat,
    distinctRules: nat, distinctTags: nat, calls: seq<HostCall>)

  // ---------------------------------------------------------------------------
  // Labels
  // ---------------------------------------------------------------------------

  predicate IsReservedKey(k: string) {
    k == "waf_namespace" || k == "waf_name" || k == "engine" || k == "owner"
  }

  const FRAGMENTS: seq<string> :=
    ["_waf_namespace=", "_waf_name=", "_engine=", "_owner=", "_phase=", "_ruleid=", "_severity=", "_tag="]

  predicate ExtraLabelUnsafe(k: string, v: string) {
    || '=' in k || '=' in v
    || exists i :: 0 <= i < |FRAGMENTS| &&
         (Contains(Composed(k, v), FRAGMENTS[i]) || Contains(k, FRAGMENTS[i]) || Contains(v, FRAGMENTS[i]))
  }

  function Composed(k: string, v: string): string { "_" + k + "=" + v }

  function LabelSuffix(labels: seq<Label>): string {
    if labels == [] then ""
    else
      var (k, v) := labels[0];
      (if !IsReservedKey(k) && ExtraLabelUnsafe(k, v) then "" else Composed(k, v)) + LabelSuffix(labels[1..])
  }

  // ---------------------------------------------------------------------------
  // Names
  // ---------------------------------------------------------------------------

  function Legacy(): string { "modsecurity_proxy_wasm." }
  function Product(): string { "kubewaf_waf." }

  function Decimal(n: int): string {
    if n < 0 then "-" + DecimalNat(-n) else DecimalNat(n)
  }

  function PhaseName(rulePhase: int): string {
    if rulePhase == 0 then "http_request_headers"
    else if rulePhase == 1 then "http_request_body"
    else if rulePhase == 2 then "http_response_headers"
    else if rulePhase == 3 then "http_response_body"
    else if rulePhase == 4 then "http_logging"
    else "unknown"
  }

  predicate IsInteresting(tag: string) {
    || StartsWith(tag, "attack-") || StartsWith(tag, "OWASP_CRS")
    || StartsWith(tag, "paranoia-level") || StartsWith(tag, "kubewaf")
  }

  predicate IsNameChar(c: char) {
    'a' <= c <= 'z' || 'A' <= c <= 'Z' || '0' <= c <= '9' || c == '-' || c == '_' || c == '.'
  }

  function NameChars(tag: string): string {
    if tag == "" then ""
    else (if IsNameChar(tag[0]) then [tag[0]] else if tag[0] == '/' then "-" else "") + NameChars(tag[1..])
  }

  function SanitizedTag(tag: string): string {
    if NameChars(tag) == "" then "unknown" else NameChars(tag)
  }

  function TxTotalCore(): string { "tx.total" }
  function TxAllowedCore(): string { "tx.allowed" }
  function SanitizedCore(): string { "response_body.sanitized" }
  function FallbackCore(): string { "configure.fallback_rules" }
  function HeapCore(): string { "memory.wasm_heap_bytes" }
  function MatchesCore(): string { "rule.matches" }
  function DisruptiveCore(): string { "rule.matches_disruptive" }

  function InterruptionsFamily(): string { "tx.interruptions_phase=" }
  function MatchesFamily(): string { "rule.matches_phase=" }
  function DisruptiveFamily(): string { "rule.matches_disruptive_phase=" }
  function InterruptionsByRuleFamily(): string { "tx.interruptions_ruleid=" }
  function MatchesByRuleFamily(): string { "rule.matches_ruleid=" }
  function MatchesByTagFamily(): string { "rule.matches_tag=" }

  function WithSeverity(phase: string, severity: int): string { phase + "_severity=" + Decimal(severity) }
  function InPhase(what: string, phase: string): string { what + "_phase=" + phase }

  // ---------------------------------------------------------------------------
  // Counters, gauges and the caps
  // ---------------------------------------------------------------------------

  function Ensured(h: Host, r: Registry, name: string): Registry {
    if name in r.defined then r
    else
      var asked := r.(calls := r.calls + [Define(name)]);
      if h(asked.calls) then asked.(defined := asked.defined + {name}) else asked
  }

  function Increment(h: Host, r: Registry, name: string): Registry {
    if !r.options.enabled then r
    else
      var d := Ensured(h, r, name);
      if name in d.defined then d.(calls := d.calls + [Incremented(name)]) else d
  }

  function SetGauge(h: Host, r: Registry, name: string): Registry {
    if !r.options.enabled then r
    else
      var d := Ensured(h, r, name);
      if name in d.defined then d.(calls := d.calls + [GaugeSet(name)]) else d
  }

  /** A counter under the first prefix, and under the second as well when both are on. */
  function IncrementCore(h: Host, r: Registry, core: string): Registry {
    var first := Increment(h, r, Legacy() + (core + r.suffix));
    if r.options.dualPrefix then Increment(h, first, Product() + (core + r.suffix)) else first
  }

  function RecordMemory(h: Host, r: Registry): Registry {
    var first := SetGauge(h, r, Legacy() + (HeapCore() + r.suffix));
    if r.options.dualPrefix then SetGauge(h, first, Product() + (HeapCore() + r.suffix)) else first
  }

  datatype Kind = Rules | Tags

  const MAX_RULES := 512
  const MAX_TAGS := 128

  /** A slot for a series, unless it has one or there are none left; false when it gets none. */
  function Track(r: Registry, name: string, kind: Kind): (Registry, bool) {
    if name in r.defined then (r, true)
    else match kind
      case Rules => if r.distinctRules >= MAX_RULES then (r, false)
                    else (r.(distinctRules := r.distinctRules + 1), true)
      case Tags => if r.distinctTags >= MAX_TAGS then (r, false)
                   else (r.(distinctTags := r.distinctTags + 1), true)
  }

  function IncrementTracked(h: Host, r: Registry, name: string, kind: Kind): Registry {
    var (tracked, ok) := Track(r, name, kind);
    if ok then Increment(h, tracked, name) else r
  }

  /** A capped series and its twin; `evenAlone` tries the twin when the first got no slot. */
  function IncrementSeries(h: Host, r: Registry, core: string, kind: Kind, evenAlone: bool): Registry {
    var legacy := Legacy() + (core + r.suffix);
    var first := IncrementTracked(h, r, legacy, kind);
    if r.options.dualPrefix && (evenAlone || Track(r, legacy, kind).1)
    then IncrementTracked(h, first, Product() + (core + r.suffix), kind)
    else first
  }

  // ---------------------------------------------------------------------------
  // Operations
  // ---------------------------------------------------------------------------

  /** Configuring forgets every definition but nothing that was told to the host. */
  function Configured(h: Host, options: Options, calls: seq<HostCall>): Registry {
    RecordMemory(h, Registry(options, LabelSuffix(options.labels), {}, 0, 0, 0, calls))
  }

  const TWO_64 := 0x1_0000_0000_0000_0000

  function CountTxTotal(h: Host, r: Registry): Registry {
    var counted := IncrementCore(h, r, TxTotalCore());
    var next := counted.(txCount := (counted.txCount + 1) % TWO_64);
    if next.txCount % 100 == 0 then RecordMemory(h, next) else next
  }

  function CountTxInterruption(h: Host, r: Registry, phase: string, ruleId: int): Registry {
    if !r.options.enabled then r
    else
      var named := if phase == "" then "unknown" else phase;
      var counted := IncrementCore(h, r, InterruptionsFamily() + named);
      if !r.options.perRuleId || ruleId <= 0 then counted
      else IncrementSeries(h, counted, InterruptionsByRuleFamily() + InPhase(Decimal(ruleId), named), Rules, false)
  }

  function CountTags(h: Host, r: Registry, phase: string, tags: seq<string>): Registry
    decreases |tags|
  {
    if tags == [] then r
    else
      var counted :=
        if IsInteresting(tags[0])
        then IncrementSeries(h, r, MatchesByTagFamily() + InPhase(SanitizedTag(tags[0]), phase), Tags, false)
        else r;
      CountTags(h, counted, phase, tags[1..])
  }

  function CountMatch(h: Host, r: Registry, phase: string, severity: int): Registry {
    IncrementCore(h, IncrementCore(h, r, MatchesCore()), MatchesFamily() + WithSeverity(phase, severity))
  }

  function CountDisruptive(h: Host, r: Registry, phase: string, severity: int): Registry {
    IncrementCore(h, IncrementCore(h, r, DisruptiveCore()), DisruptiveFamily() + WithSeverity(phase, severity))
  }

  function CountRule(h: Host, r: Registry, phase: string, ruleId: int): Registry {
    if r.options.perRuleId && ruleId > 0
    then IncrementSeries(h, r, MatchesByRuleFamily() + InPhase(Decimal(ruleId), phase), Rules, true)
    else r
  }

  function CountRuleMatch(
      h: Host, r: Registry, rulePhase: int, severity: int, disruptive: bool, ruleId: int, tags: seq<string>): Registry
  {
    if !r.options.enabled then r
    else
      var phase := PhaseName(rulePhase);
      var matched := CountMatch(h, r, phase, severity);
      var blocked := if disruptive then CountDisruptive(h, matched, phase, severity) else matched;
      var byRule := CountRule(h, blocked, phase, ruleId);
      if r.options.ruleTags then CountTags(h, byRule, phase, tags) else byRule
  }

  /** Counted even while statistics are off. */
  function CountFallback(h: Host, r: Registry): Registry {
    var on := r.(options := r.options.(enabled := true));
    IncrementCore(h, on, FallbackCore()).(options := r.options)
  }

  datatype Op =
    | TxTotalOp
    | TxAllowedOp
    | InterruptionOp(phase: string, ruleId: int)
    | MatchOp(rulePhase: int, severity: int, disruptive: bool, rule: int, tags: seq<string>)
    | SanitizedOp
    | FallbackOp
    | MemoryOp

  function Apply(h: Host, r: Registry, op: Op): Registry {
    match op
    case TxTotalOp => CountTxTotal(h, r)
    case TxAllowedOp => IncrementCore(h, r, TxAllowedCore())
    case InterruptionOp(phase, ruleId) => CountTxInterruption(h, r, phase, ruleId)
    case MatchOp(rulePhase, severity, disruptive, rule, tags) =>
      CountRuleMatch(h, r, rulePhase, severity, disruptive, rule, tags)
    case SanitizedOp => IncrementCore(h, r, SanitizedCore())
    case FallbackOp => CountFallback(h, r)
    case MemoryOp => RecordMemory(h, r)
  }

  function ApplyAll(h: Host, r: Registry, ops: seq<Op>): Registry
    decreases |ops|
  {
    if ops == [] then r else ApplyAll(h, Apply(h, r, ops[0]), ops[1..])
  }
}
