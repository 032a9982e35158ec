/**
 * What a dashboard sees of each operation: the full names, in order, of the series that a granting host is
 * told to count, caps and prefixes included.
 */
module MetricsSeries {
  import opened Text
  import opened MetricsModel
  import opened MetricsLedger

  /** What the host was told, definitions apart. */
  function Told(calls: seq<HostCall>): seq<HostCall> {
    if calls == [] then []
    else
      var last := calls[|calls| - 1];
      Told(calls[..|calls| - 1]) + if last.Define? then [] else [last]
  }

  /** What was told, the names defined, and the slots taken. */
  datatype Book = Book(told: seq<HostCall>, defined: set<string>, rules: nat, tags: nat)

  function BookOf(r: Registry): Book { Book(Told(r.calls), r.defined, r.distinctRules, r.distinctTags) }

  /** One entry of a dashboard: a counter, a capped counter, or the gauge. */
  datatype Entry = Counter(core: string) | Capped(core: string, kind: Kind, together: bool) | Gauge(core: string)

  const PHASES := ["http_request_headers", "http_request_body", "http_response_headers", "http_response_body",
                   "http_logging"]

  function Phase(rulePhase: int): string { if 0 <= rulePhase < 5 then PHASES[rulePhase] else "unknown" }

  function TagEntries(phase: string, tags: seq<string>): seq<Entry> {
    if tags == [] then []
    else
      var t := tags[0];
      (if "attack-" <= t || "OWASP_CRS" <= t || "paranoia-level" <= t || "kubewaf" <= t
       then [Capped("rule.matches_tag=" + (SanitizedTag(t) + "_phase=" + phase), Tags, true)] else [])
      + TagEntries(phase, tags[1..])
  }

  function MatchEntries(phase: string, severity: int): seq<Entry> {
    [Counter("rule.matches"), Counter("rule.matches_phase=" + (phase + "_severity=" + Decimal(severity)))]
  }

  function DisruptiveEntries(phase: string, severity: int): seq<Entry> {
    [Counter("rule.matches_disruptive"),
     Counter("rule.matches_disruptive_phase=" + (phase + "_severity=" + Decimal(severity)))]
  }

  function RuleEntries(o: Options, series: string, rule: int, phase: string, together: bool): seq<Entry> {
    if o.perRuleId && rule > 0 then [Capped(series + (Decimal(rule) + "_phase=" + phase), Rules, together)] else []
  }

  /** The entries of an operation; `tx` is the number of transactions counted so far. */
  function Entries(o: Options, tx: nat, op: Op): seq<Entry> {
    if !o.enabled then if op.FallbackOp? then [Counter("configure.fallback_rules")] else []
    else match op
      case TxTotalOp =>
        [Counter("tx.total")]
        + if (tx + 1) % 0x1_0000_0000_0000_0000 % 100 == 0 then [Gauge("memory.wasm_heap_bytes")] else []
      case TxAllowedOp => [Counter("tx.allowed")]
      case InterruptionOp(phase, rule) =>
        var named := if phase == "" then "unknown" else phase;
        [Counter("tx.interruptions_phase=" + named)] + RuleEntries(o, "tx.interruptions_ruleid=", rule, named, true)
      case MatchOp(rulePhase, severity, disruptive, rule, tags) =>
        var phase := Phase(rulePhase);
        MatchEntries(phase, severity)
        + (if disruptive then DisruptiveEntries(phase, severity) else [])
        + RuleEntries(o, "rule.matches_ruleid=", rule, phase, false)
        + if o.ruleTags then TagEntries(phase, tags) else []
      case SanitizedOp => [Counter("response_body.sanitized")]
      case FallbackOp => [Counter("configure.fallback_rules")]
      case MemoryOp => [Gauge("memory.wasm_heap_bytes")]
  }

  // ---------------------------------------------------------------------------
  // Names, prefixes and caps
  // ---------------------------------------------------------------------------

  function First(core: string, suffix: string): string { "modsecurity_proxy_wasm." + (core + suffix) }
  function Second(core: string, suffix: string): string { "kubewaf_waf." + (core + suffix) }

  function Tell(b: Book, call: HostCall): Book { b.(told := b.told + [call], defined := b.defined + {call.name}) }

  predicate HasRoom(b: Book, name: string, kind: Kind) {
    name in b.defined || if kind.Rules? then b.rules < 512 else b.tags < 128
  }

  /** A capped series that has its slot, or takes one, is counted. */
  function TellCapped(b: Book, name: string, kind: Kind): Book {
    if !HasRoom(b, name, kind) then b
    else if name in b.defined then Tell(b, Incremented(name))
    else if kind.Rules? then Tell(b.(rules := b.rules + 1), Incremented(name))
    else Tell(b.(tags := b.tags + 1), Incremented(name))
  }

  /** With both prefixes on, the second name follows the first; `together` leaves it out with the first. */
  function Enter(dual: bool, suffix: string, b: Book, e: Entry): Book {
    match e
    case Counter(core) =>
      var first := Tell(b, Incremented(First(core, suffix)));
      if dual then Tell(first, Incremented(Second(core, suffix))) else first
    case Gauge(core) =>
      var first := Tell(b, GaugeSet(First(core, suffix)));
      if dual then Tell(first, GaugeSet(Second(core, suffix))) else first
    case Capped(core, kind, together) =>
      var first := TellCapped(b, First(core, suffix), kind);
      if dual && (together ==> HasRoom(b, First(core, suffix), kind))
      then TellCapped(first, Second(core, suffix), kind) else first
  }

  function EnterAll(dual: bool, suffix: string, b: Book, es: seq<Entry>): Book
    decreases |es|
  {
    if es == [] then b else EnterAll(dual, suffix, Enter(dual, suffix, b, es[0]), es[1..])
  }

  lemma {:induction false} EnterBoth(dual: bool, suffix: string, b: Book, es: seq<Entry>, more: seq<Entry>)
    ensures EnterAll(dual, suffix, b, es + more) == EnterAll(dual, suffix, EnterAll(dual, suffix, b, es), more)
    decreases |es|
  {
    hide Enter;
    if es == [] {
      assert es + more == more;
    } else {
      assert (es + more)[0] == es[0] && (es + more)[1..] == es[1..] + more;
      EnterBoth(dual, suffix, Enter(dual, suffix, b, es[0]), es[1..], more);
    }
  }

  lemma EnterOne(dual: bool, suffix: string, b: Book, e: Entry)
    ensures EnterAll(dual, suffix, b, [e]) == Enter(dual, suffix, b, e)
  {
    assert [e][1..] == [];
  }

  // ---------------------------------------------------------------------------
  // The registry tells the host just these
  // ---------------------------------------------------------------------------

  lemma ToldMore(calls: seq<HostCall>, c: HostCall)
    ensures Told(calls + [c]) == Told(calls) + if c.Define? then [] else [c]
  {
    assert (calls + [c])[..|calls|] == calls;
  }

  /** The registry still is the one configured, and its book is this. */
  ghost predicate Shows(r: Registry, s: Registry, b: Book) {
    s.options == r.options && s.suffix == r.suffix && s.txCount == r.txCount && BookOf(s) == b
  }

  lemma EnsuredTells(h: Host, r: Registry, name: string)
    requires Grants(h)
    ensures var d := Ensured(h, r, name);
      d == r.(calls := d.calls, defined := r.defined + {name}) && Told(d.calls) == Told(r.calls)
  {
    hide Told;
    ToldMore(r.calls, Define(name));
  }

  lemma IncrementTells(h: Host, r: Registry, name: string)
    requires Grants(h) && r.options.enabled
    ensures Shows(r, Increment(h, r, name), Tell(BookOf(r), Incremented(name)))
  {
    hide Told, Ensured;
    EnsuredTells(h, r, name);
    ToldMore(Ensured(h, r, name).calls, Incremented(name));
  }

  lemma GaugeTells(h: Host, r: Registry, name: string)
    requires Grants(h) && r.options.enabled
    ensures Shows(r, SetGauge(h, r, name), Tell(BookOf(r), GaugeSet(name)))
  {
    hide Told, Ensured;
    EnsuredTells(h, r, name);
    ToldMore(Ensured(h, r, name).calls, GaugeSet(name));
  }

  lemma TrackedTells(h: Host, r: Registry, name: string, kind: Kind)
    requires Grants(h) && r.options.enabled
    ensures Shows(r, IncrementTracked(h, r, name, kind), TellCapped(BookOf(r), name, kind))
    ensures Track(r, name, kind).1 == HasRoom(BookOf(r), name, kind)
  {
    hide Told, Increment;
    IncrementTells(h, Track(r, name, kind).0, name);
  }

  lemma Prefixes(core: string, suffix: string)
    ensures Legacy() + (core + suffix) == First(core, suffix) && Product() + (core + suffix) == Second(core, suffix)
  {
  }

  lemma CoreTells(h: Host, r: Registry, core: string)
    requires Grants(h) && r.options.enabled
    ensures Shows(r, IncrementCore(h, r, core), Enter(r.options.dualPrefix, r.suffix, BookOf(r), Counter(core)))
  {
    hide Told, Increment, Tell, First, Second, Legacy, Product;
    Prefixes(core, r.suffix);
    var first := Increment(h, r, First(core, r.suffix));
    IncrementTells(h, r, First(core, r.suffix));
    IncrementTells(h, first, Second(core, r.suffix));
  }

  lemma MemoryTells(h: Host, r: Registry)
    requires Grants(h) && r.options.enabled
    ensures Shows(r, RecordMemory(h, r),
                  Enter(r.options.dualPrefix, r.suffix, BookOf(r), Gauge("memory.wasm_heap_bytes")))
  {
    hide Told, SetGauge, Tell, First, Second, Legacy, Product;
    var core := "memory.wasm_heap_bytes";
    Prefixes(core, r.suffix);
    var first := SetGauge(h, r, First(core, r.suffix));
    GaugeTells(h, r, First(core, r.suffix));
    GaugeTells(h, first, Second(core, r.suffix));
  }

  lemma SeriesTells(h: Host, r: Registry, core: string, kind: Kind, evenAlone: bool)
    requires Grants(h) && r.options.enabled
    ensures Shows(r, IncrementSeries(h, r, core, kind, evenAlone),
                  Enter(r.options.dualPrefix, r.suffix, BookOf(r), Capped(core, kind, !evenAlone)))
  {
    hide Told, IncrementTracked, TellCapped, HasRoom, Track, First, Second, Legacy, Product;
    Prefixes(core, r.suffix);
    var first := IncrementTracked(h, r, First(core, r.suffix), kind);
    TrackedTells(h, r, First(core, r.suffix), kind);
    TrackedTells(h, first, Second(core, r.suffix), kind);
  }

  /** The registry has made these entries. */
  ghost predicate Makes(r: Registry, s: Registry, es: seq<Entry>) {
    Shows(r, s, EnterAll(r.options.dualPrefix, r.suffix, BookOf(r), es))
  }

  lemma MakesNone(r: Registry)
    ensures Makes(r, r, [])
  {
  }

  lemma MakesOne(r: Registry, s: Registry, e: Entry)
    requires Shows(r, s, Enter(r.options.dualPrefix, r.suffix, BookOf(r), e))
    ensures Makes(r, s, [e])
  {
    hide BookOf, Enter;
    EnterOne(r.options.dualPrefix, r.suffix, BookOf(r), e);
  }

  lemma MakesBoth(r: Registry, s: Registry, t: Registry, es: seq<Entry>, more: seq<Entry>)
    requires Makes(r, s, es) && Makes(s, t, more)
    ensures Makes(r, t, es + more)
  {
    hide BookOf, Enter;
    EnterBoth(r.options.dualPrefix, r.suffix, BookOf(r), es, more);
  }

  lemma CoreMakes(h: Host, r: Registry, core: string)
    requires Grants(h) && r.options.enabled
    ensures Makes(r, IncrementCore(h, r, core), [Counter(core)])
  {
    hide IncrementCore, Enter, BookOf;
    CoreTells(h, r, core);
    MakesOne(r, IncrementCore(h, r, core), Counter(core));
  }

  lemma SeriesMakes(h: Host, r: Registry, core: string, kind: Kind, evenAlone: bool)
    requires Grants(h) && r.options.enabled
    ensures Makes(r, IncrementSeries(h, r, core, kind, evenAlone), [Capped(core, kind, !evenAlone)])
  {
    hide IncrementSeries, Enter, BookOf;
    SeriesTells(h, r, core, kind, evenAlone);
    MakesOne(r, IncrementSeries(h, r, core, kind, evenAlone), Capped(core, kind, !evenAlone));
  }

  lemma Cores()
    ensures TxTotalCore() == "tx.total" && TxAllowedCore() == "tx.allowed"
    ensures SanitizedCore() == "response_body.sanitized" && FallbackCore() == "configure.fallback_rules"
    ensures MatchesCore() == "rule.matches" && DisruptiveCore() == "rule.matches_disruptive"
    ensures InterruptionsFamily() == "tx.interruptions_phase="
    ensures MatchesFamily() == "rule.matches_phase=" && DisruptiveFamily() == "rule.matches_disruptive_phase="
    ensures InterruptionsByRuleFamily() == "tx.interruptions_ruleid="
    ensures MatchesByRuleFamily() == "rule.matches_ruleid=" && MatchesByTagFamily() == "rule.matches_tag="
  {
  }

  lemma CountMatchMakes(h: Host, r: Registry, phase: string, severity: int)
    requires Grants(h) && r.options.enabled
    ensures Makes(r, CountMatch(h, r, phase, severity), MatchEntries(phase, severity))
  {
    hide IncrementCore, Makes, Decimal;
    Cores();
    var s := IncrementCore(h, r, MatchesCore());
    var core := MatchesFamily() + WithSeverity(phase, severity);
    CoreMakes(h, r, MatchesCore());
    assert s.options == r.options by { Unconfigured(r, s, [Counter(MatchesCore())]); }
    CoreMakes(h, s, core);
    MakesBoth(r, s, IncrementCore(h, s, core), [Counter(MatchesCore())], [Counter(core)]);
    assert [Counter(MatchesCore())] + [Counter(core)] == MatchEntries(phase, severity);
  }

  lemma CountDisruptiveMakes(h: Host, r: Registry, phase: string, severity: int)
    requires Grants(h) && r.options.enabled
    ensures Makes(r, CountDisruptive(h, r, phase, severity), DisruptiveEntries(phase, severity))
  {
    hide IncrementCore, Makes, Decimal;
    Cores();
    var s := IncrementCore(h, r, DisruptiveCore());
    var core := DisruptiveFamily() + WithSeverity(phase, severity);
    CoreMakes(h, r, DisruptiveCore());
    assert s.options == r.options by { Unconfigured(r, s, [Counter(DisruptiveCore())]); }
    CoreMakes(h, s, core);
    MakesBoth(r, s, IncrementCore(h, s, core), [Counter(DisruptiveCore())], [Counter(core)]);
    assert [Counter(DisruptiveCore())] + [Counter(core)] == DisruptiveEntries(phase, severity);
  }

  lemma Unconfigured(r: Registry, s: Registry, es: seq<Entry>)
    requires Makes(r, s, es)
    ensures s.options == r.options && s.txCount == r.txCount
  {
  }

  lemma CountRuleMakes(h: Host, r: Registry, phase: string, rule: int)
    requires Grants(h) && r.options.enabled
    ensures Makes(r, CountRule(h, r, phase, rule), RuleEntries(r.options, "rule.matches_ruleid=", rule, phase, false))
  {
    hide IncrementSeries, Makes, Decimal;
    Cores();
    MakesNone(r);
    SeriesMakes(h, r, MatchesByRuleFamily() + InPhase(Decimal(rule), phase), Rules, true);
  }

  lemma {:induction false} CountTagsMakes(h: Host, r: Registry, phase: string, tags: seq<string>)
    requires Grants(h) && r.options.enabled
    ensures Makes(r, CountTags(h, r, phase, tags), TagEntries(phase, tags))
    decreases |tags|
  {
    hide IncrementSeries, Makes, SanitizedTag;
    if tags == [] {
      MakesNone(r);
    } else {
      Cores();
      var core := MatchesByTagFamily() + InPhase(SanitizedTag(tags[0]), phase);
      var counted := if IsInteresting(tags[0]) then IncrementSeries(h, r, core, Tags, false) else r;
      var es := if IsInteresting(tags[0]) then [Capped(core, Tags, true)] else [];
      MakesNone(r);
      SeriesMakes(h, r, core, Tags, false);
      assert counted.options == r.options by { Unconfigured(r, counted, es); }
      CountTagsMakes(h, counted, phase, tags[1..]);
      MakesBoth(r, counted, CountTags(h, counted, phase, tags[1..]), es, TagEntries(phase, tags[1..]));
    }
  }

  lemma CountRuleMatchMakes(
      h: Host, r: Registry, rulePhase: int, severity: int, disruptive: bool, rule: int, tags: seq<string>)
    requires Grants(h) && r.options.enabled
    ensures Makes(r, CountRuleMatch(h, r, rulePhase, severity, disruptive, rule, tags),
                  Entries(r.options, r.txCount, MatchOp(rulePhase, severity, disruptive, rule, tags)))
  {
    hide Makes, CountMatch, CountDisruptive, CountRule, CountTags, MatchEntries, DisruptiveEntries, RuleEntries;
    hide TagEntries, PhaseName, Phase;
    PhaseIs(rulePhase);
    var o, phase := r.options, PhaseName(rulePhase);
    var s := CountMatch(h, r, phase, severity);
    var es := MatchEntries(phase, severity);
    CountMatchMakes(h, r, phase, severity);
    Unconfigured(r, s, es);
    if disruptive {
      CountDisruptiveMakes(h, s, phase, severity);
      MakesBoth(r, s, CountDisruptive(h, s, phase, severity), es, DisruptiveEntries(phase, severity));
      s, es := CountDisruptive(h, s, phase, severity), es + DisruptiveEntries(phase, severity);
      Unconfigured(r, s, es);
    } else {
      assert es + [] == es;
    }
    var byRule := RuleEntries(o, "rule.matches_ruleid=", rule, phase, false);
    CountRuleMakes(h, s, phase, rule);
    MakesBoth(r, s, CountRule(h, s, phase, rule), es, byRule);
    s, es := CountRule(h, s, phase, rule), es + byRule;
    Unconfigured(r, s, es);
    if o.ruleTags {
      CountTagsMakes(h, s, phase, tags);
      MakesBoth(r, s, CountTags(h, s, phase, tags), es, TagEntries(phase, tags));
    } else {
      assert es + [] == es;
    }
  }

  lemma PhaseIs(rulePhase: int)
    ensures PhaseName(rulePhase) == Phase(rulePhase)
  {
  }

  lemma InterruptionMakes(h: Host, r: Registry, phase: string, rule: int)
    requires Grants(h) && r.options.enabled
    ensures Makes(r, CountTxInterruption(h, r, phase, rule), Entries(r.options, r.txCount, InterruptionOp(phase, rule)))
  {
    hide Makes, IncrementCore, IncrementSeries, Decimal;
    Cores();
    var named := if phase == "" then "unknown" else phase;
    var core := InterruptionsFamily() + named;
    var s := IncrementCore(h, r, core);
    CoreMakes(h, r, core);
    Unconfigured(r, s, [Counter(core)]);
    if r.options.perRuleId && rule > 0 {
      var series := InterruptionsByRuleFamily() + InPhase(Decimal(rule), named);
      SeriesMakes(h, s, series, Rules, false);
      MakesBoth(r, s, IncrementSeries(h, s, series, Rules, false), [Counter(core)], [Capped(series, Rules, true)]);
    } else {
      assert [Counter(core)] + [] == [Counter(core)];
    }
  }

  /** The state that an operation leaves, told in terms of what it was before. */
  ghost predicate TellsJust(r: Registry, s: Registry, op: Op) {
    && s.options == r.options && s.suffix == r.suffix
    && s.txCount == (if op.TxTotalOp? then (r.txCount + 1) % 0x1_0000_0000_0000_0000 else r.txCount)
    && BookOf(s) == EnterAll(r.options.dualPrefix, r.suffix, BookOf(r), Entries(r.options, r.txCount, op))
  }

  lemma TotalTells(h: Host, r: Registry)
    requires Grants(h) && r.options.enabled
    ensures TellsJust(r, CountTxTotal(h, r), TxTotalOp)
  {
    hide IncrementCore, RecordMemory, Enter;
    Cores();
    var dual, b := r.options.dualPrefix, BookOf(r);
    var counted := IncrementCore(h, r, TxTotalCore());
    var next := counted.(txCount := (counted.txCount + 1) % TWO_64);
    CoreTells(h, r, TxTotalCore());
    EnterOne(dual, r.suffix, b, Counter("tx.total"));
    MemoryTells(h, next);
    EnterOne(dual, r.suffix, BookOf(next), Gauge("memory.wasm_heap_bytes"));
    EnterBoth(dual, r.suffix, b, [Counter("tx.total")], [Gauge("memory.wasm_heap_bytes")]);
  }

  lemma FallbackTells(h: Host, r: Registry)
    requires Grants(h)
    ensures TellsJust(r, CountFallback(h, r), FallbackOp)
  {
    hide IncrementCore, Enter;
    Cores();
    var on := r.(options := r.options.(enabled := true));
    CoreTells(h, on, FallbackCore());
    EnterOne(r.options.dualPrefix, r.suffix, BookOf(r), Counter("configure.fallback_rules"));
  }

  lemma OneTells(h: Host, r: Registry, op: Op)
    requires Grants(h) && r.options.enabled && (op.TxAllowedOp? || op.SanitizedOp? || op.MemoryOp?)
    ensures TellsJust(r, Apply(h, r, op), op)
  {
    hide IncrementCore, RecordMemory, Enter, BookOf;
    Cores();
    if op.MemoryOp? {
      MemoryTells(h, r);
      EnterOne(r.options.dualPrefix, r.suffix, BookOf(r), Gauge("memory.wasm_heap_bytes"));
    } else {
      var core := if op.TxAllowedOp? then TxAllowedCore() else SanitizedCore();
      CoreTells(h, r, core);
      EnterOne(r.options.dualPrefix, r.suffix, BookOf(r), Counter(core));
    }
  }

  lemma OffTells(h: Host, r: Registry, op: Op)
    requires !r.options.enabled && !op.FallbackOp?
    ensures TellsJust(r, Apply(h, r, op), op)
  {
    hide Enter, Told;
  }

  /** An operation tells a granting host exactly the series of its table, and nothing while statistics are off. */
  lemma OpTells(h: Host, r: Registry, op: Op)
    requires Grants(h)
    ensures TellsJust(r, Apply(h, r, op), op)
  {
    hide IncrementCore, CountTxTotal, CountTxInterruption, CountRuleMatch, CountFallback, RecordMemory, Enter;
    hide EnterAll, BookOf, Entries;
    if op.FallbackOp? {
      FallbackTells(h, r);
    } else if !r.options.enabled {
      OffTells(h, r, op);
    } else {
      match op {
        case TxTotalOp => TotalTells(h, r);
        case InterruptionOp(phase, rule) => InterruptionMakes(h, r, phase, rule);
        case MatchOp(rulePhase, severity, disruptive, rule, tags) =>
          CountRuleMatchMakes(h, r, rulePhase, severity, disruptive, rule, tags);
        case _ => OneTells(h, r, op);
      }
    }
  }

  /** So it is from configuration on: the heap gauge, then the series of every operation in order. */
  function AllEntries(o: Options, tx: nat, ops: seq<Op>): seq<Entry>
    decreases |ops|
  {
    if ops == [] then []
    else
      Entries(o, tx, ops[0])
      + AllEntries(o, if ops[0].TxTotalOp? then (tx + 1) % 0x1_0000_0000_0000_0000 else tx, ops[1..])
  }

  lemma {:induction false} OpsTell(h: Host, r: Registry, ops: seq<Op>)
    requires Grants(h)
    ensures BookOf(ApplyAll(h, r, ops)) ==
      EnterAll(r.options.dualPrefix, r.suffix, BookOf(r), AllEntries(r.options, r.txCount, ops))
    decreases |ops|
  {
    hide BookOf, Enter, Entries, Apply;
    if ops != [] {
      var s := Apply(h, r, ops[0]);
      OpTells(h, r, ops[0]);
      OpsTell(h, s, ops[1..]);
      EnterBoth(r.options.dualPrefix, r.suffix, BookOf(r), Entries(r.options, r.txCount, ops[0]),
                AllEntries(r.options, s.txCount, ops[1..]));
    }
  }

  /**
   * What a granting host is told after a configuration and any operations: the heap gauge if statistics are
   * on, then the series of each operation.
   */
  lemma RunTells(h: Host, options: Options, calls: seq<HostCall>, ops: seq<Op>)
    requires Grants(h)
    ensures var suffix := LabelSuffix(options.labels);
      BookOf(ApplyAll(h, Configured(h, options, calls), ops)) ==
        EnterAll(options.dualPrefix, suffix, Book(Told(calls), {}, 0, 0),
                 (if options.enabled then [Gauge("memory.wasm_heap_bytes")] else []) + AllEntries(options, 0, ops))
  {
    hide RecordMemory, Enter, AllEntries, ApplyAll, LabelSuffix, Told;
    var suffix := LabelSuffix(options.labels);
    var empty := Registry(options, suffix, {}, 0, 0, 0, calls);
    var r := RecordMemory(h, empty);
    var gauge := if options.enabled then [Gauge("memory.wasm_heap_bytes")] else [];
    OpTells(h, empty, MemoryOp);
    OpsTell(h, r, ops);
    EnterBoth(options.dualPrefix, suffix, BookOf(empty), gauge, AllEntries(options, 0, ops));
  }
}
