/**
 * When the two prefixes tell the same story: for hosts that answer by name, in every run exactly if the
 * host treats alike the two names of every counter that the options let the registry count.
 */
module MetricsTwins {
  import opened Prelude
  import opened Text
  import opened MetricsModel
  import opened MetricsNames
  import opened MetricsCaps
  import opened MetricsLedger
  import opened MetricsRuns

  /** Some operation may count this counter. */
  ghost predicate Countable(options: Options, core: string) {
    exists op :: core in CountedBy(options, op)
  }

  /** The host treats alike the two names of everything that may be counted. */
  ghost predicate AllAlike(g: string -> bool, options: Options) {
    forall core :: Countable(options, core) ==> Alike(g, core + LabelSuffix(options.labels))
  }

  ghost predicate EvenTold(calls: seq<HostCall>) {
    forall rest :: SameTally(calls, rest)
  }

  /** The registry after such a configuration and such operations, `calls` being told to the host before. */
  function After(h: Host, options: Options, calls: seq<HostCall>, ops: seq<Op>): Registry {
    ApplyAll(h, Configured(h, options, calls), ops)
  }

  ghost predicate AlwaysEven(h: Host, options: Options, calls: seq<HostCall>) {
    forall ops :: EvenTold(After(h, options, calls, ops).calls)
  }

  // ---------------------------------------------------------------------------
  // Fair hosts
  // ---------------------------------------------------------------------------

  lemma AlikeIsFair(v: View, options: Options)
    requires AllAlike(v.g, options)
    ensures forall op, r: Registry ::
      r.options == options && r.suffix == LabelSuffix(options.labels) ==> FairTo(v, r, op)
  {
    hide CountedBy, LabelSuffix, Alike;
    forall op, r: Registry | r.options == options && r.suffix == LabelSuffix(options.labels) ensures FairTo(v, r, op) {
      assert forall core :: core in CountedBy(r.options, op) ==> Countable(options, core);
    }
  }

  lemma FairStaysEven(h: Host, g: string -> bool, options: Options, calls: seq<HostCall>, ops: seq<Op>)
    requires ByName(h, g) && options.dualPrefix && EvenTold(calls) && AllAlike(g, options)
    ensures EvenTold(After(h, options, calls, ops).calls)
  {
    hide ByName, AllAlike, FairTo, Configured, ApplyAll, SameTally, RegistryInv, Paired;
    var r := Configured(h, options, calls);
    forall x ensures SameTally(ApplyAll(h, r, ops).calls, x) {
      var v := View(h, g, true, x, Always());
      ConfiguredStarts(v, options, calls);
      AlikeIsFair(v, options);
      OpsKeep(v, r, ops);
    }
  }

  // ---------------------------------------------------------------------------
  // Unfair hosts: the granted twin runs ahead
  // ---------------------------------------------------------------------------

  /** How far the granted twin of a pair is ahead of the refused one. */
  ghost function Lead(g: string -> bool, r: Registry, x: string): int {
    var legacy, product := Tally(r.calls, Exactly(Legacy() + x)), Tally(r.calls, Exactly(Product() + x));
    if g(Legacy() + x) then legacy - product else product - legacy
  }

  /** From r to s the granted twin gained at least k, and the host is still taken at its word. */
  ghost predicate Gains(g: string -> bool, r: Registry, s: Registry, x: string, k: nat) {
    && (Honest(g, r.defined) ==> Honest(g, s.defined) && Lead(g, s, x) >= Lead(g, r, x) + k)
    && SameSettings(s, r)
  }

  ghost predicate SameSlots(r: Registry, s: Registry) {
    r.distinctRules == s.distinctRules && r.distinctTags == s.distinctTags
  }

  lemma GainsAdd(g: string -> bool, r: Registry, s: Registry, t: Registry, x: string, j: nat, k: nat)
    requires Gains(g, r, s, x, j) && Gains(g, s, t, x, k)
    ensures Gains(g, r, t, x, j + k)
  {
    hide Lead, Honest;
  }

  /** A name of the pair gains if it is the granted one; other names and the refused one are neutral. */
  lemma NameGains(h: Host, g: string -> bool, r: Registry, name: string, x: string)
    requires ByName(h, g) && !Alike(g, x)
    ensures var s := Increment(h, r, name);
      && Gains(g, r, s, x, Bit(r.options.enabled && g(name) && (name == Legacy() + x || name == Product() + x)))
      && SameSlots(r, s)
    ensures Gains(g, r, SetGauge(h, r, name), x, 0)
  {
    hide Increment, SetGauge, Tally, ByName, Honest, Legacy, Product;
    DefinesAtMost(h, r, name);
    if Honest(g, r.defined) {
      NameOf(x, x);
      Counted(h, g, r, name, Exactly(Legacy() + x));
      Counted(h, g, r, name, Exactly(Product() + x));
    }
  }

  lemma CoreGains(h: Host, g: string -> bool, r: Registry, core: string, x: string)
    requires ByName(h, g) && !Alike(g, x) && r.options.dualPrefix
    ensures var s := IncrementCore(h, r, core);
      Gains(g, r, s, x, Bit(r.options.enabled && core + r.suffix == x)) && SameSlots(r, s)
  {
    hide Increment, ByName, Gains, Legacy, Product;
    var rest := core + r.suffix;
    var first := Increment(h, r, Legacy() + rest);
    DefinesAtMost(h, r, Legacy() + rest);
    NameGains(h, g, r, Legacy() + rest, x);
    NameGains(h, g, first, Product() + rest, x);
    NameOf(rest, x);
    NameOf(x, rest);
    GainsAdd(g, r, first, IncrementCore(h, r, core), x, Bit(r.options.enabled && g(Legacy() + rest) && rest == x),
             Bit(r.options.enabled && g(Product() + rest) && rest == x));
  }

  lemma MemoryGains(h: Host, g: string -> bool, r: Registry, x: string)
    requires ByName(h, g) && !Alike(g, x)
    ensures Gains(g, r, RecordMemory(h, r), x, 0)
  {
    hide SetGauge, ByName, Gains, Legacy, Product, HeapCore;
    var rest := HeapCore() + r.suffix;
    var first := SetGauge(h, r, Legacy() + rest);
    NameGains(h, g, r, Legacy() + rest, x);
    NameGains(h, g, first, Product() + rest, x);
    GainsAdd(g, r, first, SetGauge(h, first, Product() + rest), x, 0, 0);
    DefinesAtMost(h, r, Legacy() + rest);
  }

  /** Nothing is capped away while the slots last. */
  lemma SlotGains(h: Host, g: string -> bool, r: Registry, name: string, kind: Kind, x: string)
    requires ByName(h, g) && !Alike(g, x) && r.distinctRules < MAX_TAGS && r.distinctTags < MAX_TAGS
    ensures var s := IncrementTracked(h, r, name, kind);
      && Gains(g, r, s, x, Bit(r.options.enabled && g(name) && (name == Legacy() + x || name == Product() + x)))
      && s.distinctRules <= r.distinctRules + 1 && s.distinctTags <= r.distinctTags + 1
  {
    hide Increment, ByName, Legacy, Product, Honest, Tally;
    var tracked := Track(r, name, kind).0;
    NameGains(h, g, tracked, name, x);
  }

  lemma SeriesGains(h: Host, g: string -> bool, r: Registry, core: string, kind: Kind, evenAlone: bool, x: string)
    requires ByName(h, g) && !Alike(g, x) && r.options.dualPrefix && r.distinctRules == 0 && r.distinctTags == 0
    ensures Gains(g, r, IncrementSeries(h, r, core, kind, evenAlone), x, Bit(r.options.enabled && core + r.suffix == x))
  {
    hide IncrementTracked, ByName, Legacy, Product, Honest, Lead;
    var rest := core + r.suffix;
    var first := IncrementTracked(h, r, Legacy() + rest, kind);
    SlotGains(h, g, r, Legacy() + rest, kind, x);
    SlotGains(h, g, first, Product() + rest, kind, x);
    NameOf(rest, x);
    NameOf(x, rest);
    GainsAdd(g, r, first, IncrementTracked(h, first, Product() + rest, kind), x,
             Bit(r.options.enabled && g(Legacy() + rest) && rest == x),
             Bit(r.options.enabled && g(Product() + rest) && rest == x));
  }

  // ---------------------------------------------------------------------------
  // An operation that makes the granted twin gain
  // ---------------------------------------------------------------------------

  /** Two plain counters in a row. */
  lemma CoresGain(h: Host, g: string -> bool, r: Registry, one: string, two: string, x: string)
    requires ByName(h, g) && !Alike(g, x) && r.options.dualPrefix && r.options.enabled
    ensures var s := IncrementCore(h, IncrementCore(h, r, one), two);
      Gains(g, r, s, x, Bit(one + r.suffix == x) + Bit(two + r.suffix == x)) && SameSlots(r, s)
  {
    hide ByName, Alike, Honest, Lead, IncrementCore;
    var first := IncrementCore(h, r, one);
    CoreGains(h, g, r, one, x);
    CoreGains(h, g, first, two, x);
    GainsAdd(g, r, first, IncrementCore(h, first, two), x, Bit(one + r.suffix == x), Bit(two + r.suffix == x));
  }

  /** A match and its disruptive counters. */
  lemma MatchGains(h: Host, g: string -> bool, r: Registry, phase: string, severity: int, disruptive: bool, x: string)
    requires ByName(h, g) && !Alike(g, x) && r.options.dualPrefix && r.options.enabled
    ensures var matched := CountMatch(h, r, phase, severity);
      var s := if disruptive then CountDisruptive(h, matched, phase, severity) else matched;
      var cores := MatchCores(phase, severity) + if disruptive then DisruptiveCores(phase, severity) else [];
      && SameSlots(r, s)
      && Gains(g, r, s, x, Bit(exists core :: core in cores && core + r.suffix == x))
  {
    hide ByName, Alike, Honest, Lead, IncrementCore, MatchesCore, MatchesFamily, DisruptiveCore, DisruptiveFamily;
    hide WithSeverity;
    var matched := CountMatch(h, r, phase, severity);
    CoresGain(h, g, r, MatchesCore(), MatchesFamily() + WithSeverity(phase, severity), x);
    if disruptive {
      CoresGain(h, g, matched, DisruptiveCore(), DisruptiveFamily() + WithSeverity(phase, severity), x);
    }
  }

  /** The operation without its capped series. */
  function Bare(op: Op): Op {
    match op
    case InterruptionOp(phase, _) => InterruptionOp(phase, 0)
    case MatchOp(rulePhase, severity, disruptive, _, _) => MatchOp(rulePhase, severity, disruptive, 0, [])
    case _ => op
  }

  lemma BareGains(h: Host, g: string -> bool, r: Registry, op: Op, core: string, x: string)
    requires ByName(h, g) && !Alike(g, x) && r.options.dualPrefix && (r.options.enabled || op.FallbackOp?)
    requires core in CoresOf(op) && x == core + r.suffix
    ensures Gains(g, r, Apply(h, r, Bare(op)), x, 1)
  {
    hide ByName, Alike, Gains, IncrementCore, RecordMemory, CountMatch, CountDisruptive, MatchCores, DisruptiveCores;
    hide TxTotalCore, TxAllowedCore, SanitizedCore, FallbackCore, InterruptionsFamily, PhaseName;
    match op
    case TxTotalOp =>
      TotalGains(h, g, r, x);
    case MatchOp(rulePhase, severity, disruptive, _, _) =>
      MatchGains(h, g, r, PhaseName(rulePhase), severity, disruptive, x);
    case FallbackOp =>
      FallbackGains(h, g, r, x);
    case _ =>
      CoreGains(h, g, r, core, x);
  }

  lemma TotalGains(h: Host, g: string -> bool, r: Registry, x: string)
    requires ByName(h, g) && !Alike(g, x) && r.options.dualPrefix && r.options.enabled
    requires x == TxTotalCore() + r.suffix
    ensures Gains(g, r, CountTxTotal(h, r), x, 1)
  {
    hide ByName, Alike, Honest, IncrementCore, RecordMemory, TxTotalCore, Tally;
    var counted := IncrementCore(h, r, TxTotalCore());
    var next := counted.(txCount := (counted.txCount + 1) % TWO_64);
    CoreGains(h, g, r, TxTotalCore(), x);
    MemoryGains(h, g, next, x);
    assert Gains(g, r, next, x, 1);
    GainsAdd(g, r, next, RecordMemory(h, next), x, 1, 0);
  }

  lemma FallbackGains(h: Host, g: string -> bool, r: Registry, x: string)
    requires ByName(h, g) && !Alike(g, x) && r.options.dualPrefix && x == FallbackCore() + r.suffix
    ensures Gains(g, r, CountFallback(h, r), x, 1)
  {
    hide ByName, Alike, Honest, IncrementCore, FallbackCore, Tally;
    CoreGains(h, g, r.(options := r.options.(enabled := true)), FallbackCore(), x);
  }

  lemma InterruptionGains(h: Host, g: string -> bool, r: Registry, phase: string, ruleId: int, x: string)
    requires ByName(h, g) && !Alike(g, x) && r.options.dualPrefix && r.options.enabled
    requires r.distinctRules == 0 && r.distinctTags == 0 && r.options.perRuleId && ruleId > 0
    requires x == InterruptedRuleCore(ruleId, PhaseOr(phase)) + r.suffix
    ensures Gains(g, r, CountTxInterruption(h, r, phase, ruleId), x, 1)
  {
    hide ByName, Alike, Honest, Lead, IncrementCore, IncrementSeries, InterruptionsFamily, InterruptionsByRuleFamily;
    hide InPhase, Decimal;
    var counted := IncrementCore(h, r, InterruptionsFamily() + PhaseOr(phase));
    var core := InterruptedRuleCore(ruleId, PhaseOr(phase));
    CoreGains(h, g, r, InterruptionsFamily() + PhaseOr(phase), x);
    SeriesGains(h, g, counted, core, Rules, false, x);
    GainsAdd(g, r, counted, IncrementSeries(h, counted, core, Rules, false), x, 0, 1);
  }

  lemma MatchedRuleGains(h: Host, g: string -> bool, r: Registry, rulePhase: int, severity: int, ruleId: int, x: string)
    requires ByName(h, g) && !Alike(g, x) && r.options.dualPrefix && r.options.enabled
    requires r.distinctRules == 0 && r.distinctTags == 0 && r.options.perRuleId && ruleId > 0
    requires x == MatchedRuleCore(ruleId, PhaseName(rulePhase)) + r.suffix
    ensures Gains(g, r, Apply(h, r, MatchOp(rulePhase, severity, false, ruleId, [])), x, 1)
  {
    hide ByName, Alike, Honest, Lead, CountMatch, IncrementSeries, MatchesByRuleFamily, InPhase, Decimal, PhaseName;
    hide MatchCores;
    var matched := CountMatch(h, r, PhaseName(rulePhase), severity);
    var core := MatchedRuleCore(ruleId, PhaseName(rulePhase));
    MatchGains(h, g, r, PhaseName(rulePhase), severity, false, x);
    SeriesGains(h, g, matched, core, Rules, true, x);
    GainsAdd(g, r, matched, IncrementSeries(h, matched, core, Rules, true), x, 0, 1);
  }

  lemma MatchedTagGains(h: Host, g: string -> bool, r: Registry, rulePhase: int, severity: int, tag: string, x: string)
    requires ByName(h, g) && !Alike(g, x) && r.options.dualPrefix && r.options.enabled
    requires r.distinctRules == 0 && r.distinctTags == 0 && r.options.ruleTags && IsInteresting(tag)
    requires x == MatchedTagCore(tag, PhaseName(rulePhase)) + r.suffix
    ensures Gains(g, r, Apply(h, r, MatchOp(rulePhase, severity, false, 0, [tag])), x, 1)
  {
    hide ByName, Alike, Honest, Lead, CountMatch, IncrementSeries, MatchesByTagFamily, InPhase, SanitizedTag, PhaseName;
    hide MatchCores, IsInteresting;
    var phase := PhaseName(rulePhase);
    var matched := CountMatch(h, r, phase, severity);
    var core := MatchedTagCore(tag, phase);
    MatchGains(h, g, r, phase, severity, false, x);
    SeriesGains(h, g, matched, core, Tags, false, x);
    var s := IncrementSeries(h, matched, core, Tags, false);
    GainsAdd(g, r, matched, s, x, 0, 1);
    assert CountTags(h, matched, phase, [tag]) == s by { OneTag(h, matched, phase, tag); }
  }

  lemma OneTag(h: Host, r: Registry, phase: string, tag: string)
    requires IsInteresting(tag)
    ensures CountTags(h, r, phase, [tag]) == IncrementSeries(h, r, MatchedTagCore(tag, phase), Tags, false)
  {
    hide IncrementSeries, IsInteresting, MatchesByTagFamily, InPhase, SanitizedTag;
    assert [tag][1..] == [];
  }

  lemma {:induction false} TagOf(phase: string, tags: seq<string>, core: string) returns (tag: string)
    requires core in TagCores(phase, tags)
    ensures IsInteresting(tag) && core == MatchedTagCore(tag, phase)
  {
    hide IsInteresting, MatchedTagCore;
    if IsInteresting(tags[0]) && core == MatchedTagCore(tags[0], phase) {
      tag := tags[0];
    } else {
      tag := TagOf(phase, tags[1..], core);
    }
  }

  /** Whatever may be counted is counted by some operation right after configuring. */
  lemma SomeOpGains(h: Host, g: string -> bool, r: Registry, op: Op, core: string, x: string) returns (gaining: Op)
    requires ByName(h, g) && !Alike(g, x) && r.options.dualPrefix && r.distinctRules == 0 && r.distinctTags == 0
    requires core in CountedBy(r.options, op) && x == core + r.suffix
    ensures Gains(g, r, Apply(h, r, gaining), x, 1)
  {
    hide ByName, Alike, Gains, Apply, CoresOf, TagCores, InterruptedRuleCore, MatchedRuleCore, PhaseName, PhaseOr;
    gaining := Bare(op);
    if core in CoresOf(op) {
      BareGains(h, g, r, op, core, x);
    } else if op.InterruptionOp? {
      gaining := op;
      InterruptionCase(h, g, r, op.phase, op.ruleId, x);
    } else if r.options.perRuleId && op.rule > 0 && core == MatchedRuleCore(op.rule, PhaseName(op.rulePhase)) {
      gaining := MatchOp(op.rulePhase, op.severity, false, op.rule, []);
      MatchedRuleGains(h, g, r, op.rulePhase, op.severity, op.rule, x);
    } else {
      var tag := TagOf(PhaseName(op.rulePhase), op.tags, core);
      gaining := MatchOp(op.rulePhase, op.severity, false, 0, [tag]);
      MatchedTagGains(h, g, r, op.rulePhase, op.severity, tag, x);
    }
  }

  lemma InterruptionCase(h: Host, g: string -> bool, r: Registry, phase: string, ruleId: int, x: string)
    requires ByName(h, g) && !Alike(g, x) && r.options.dualPrefix && r.options.enabled
    requires r.distinctRules == 0 && r.distinctTags == 0 && r.options.perRuleId && ruleId > 0
    requires x == InterruptedRuleCore(ruleId, PhaseOr(phase)) + r.suffix
    ensures Gains(g, r, Apply(h, r, InterruptionOp(phase, ruleId)), x, 1)
  {
    hide ByName, Alike, Gains, CountTxInterruption, InterruptedRuleCore, PhaseOr;
    InterruptionGains(h, g, r, phase, ruleId, x);
  }

  lemma ConfiguredIsBlank(h: Host, g: string -> bool, options: Options, calls: seq<HostCall>, x: string)
    requires ByName(h, g) && SameTally(calls, x)
    ensures var r := Configured(h, options, calls);
      && Honest(g, r.defined) && Even(r, x) && r.distinctRules == 0 && r.distinctTags == 0
      && r.options == options && r.suffix == LabelSuffix(options.labels)
  {
    hide SetGauge, ByName, Tally, Legacy, Product, HeapCore, LabelSuffix;
    var r := Registry(options, LabelSuffix(options.labels), {}, 0, 0, 0, calls);
    var rest := HeapCore() + r.suffix;
    var first := SetGauge(h, r, Legacy() + rest);
    Counted(h, g, r, Legacy() + rest, Exactly(Legacy() + x));
    Counted(h, g, r, Legacy() + rest, Exactly(Product() + x));
    Counted(h, g, first, Product() + rest, Exactly(Legacy() + x));
    Counted(h, g, first, Product() + rest, Exactly(Product() + x));
  }

  lemma UnfairDrifts(h: Host, g: string -> bool, options: Options, calls: seq<HostCall>, core: string)
    requires ByName(h, g) && options.dualPrefix && EvenTold(calls)
    requires Countable(options, core) && !Alike(g, core + LabelSuffix(options.labels))
    ensures !AlwaysEven(h, options, calls)
  {
    hide ByName, Alike, Honest, Apply, Configured, Tally, Legacy, Product, LabelSuffix, CountedBy;
    var x := core + LabelSuffix(options.labels);
    var op :| core in CountedBy(options, op);
    var r := Configured(h, options, calls);
    ConfiguredIsBlank(h, g, options, calls, x);
    var gaining := SomeOpGains(h, g, r, op, core, x);
    var s := Apply(h, r, gaining);
    assert !SameTally(s.calls, x);
    OneOp(h, r, gaining);
    assert After(h, options, calls, [gaining]) == s;
  }

  lemma OneOp(h: Host, r: Registry, op: Op)
    ensures ApplyAll(h, r, [op]) == Apply(h, r, op)
  {
    hide Apply;
    assert [op][1..] == [];
  }

  // ---------------------------------------------------------------------------
  // Main results
  // ---------------------------------------------------------------------------

  /**
   * With both prefixes on, and a host that answers by name: after every run, whatever is counted, the two
   * prefixes show the same numbers exactly if the host treats alike the two names of every counter that
   * the options let the registry count. Names refused together keep even, capped ones included.
   */
  lemma TwinsAgreeExactly(h: Host, g: string -> bool, options: Options, calls: seq<HostCall>)
    requires ByName(h, g) && options.dualPrefix && EvenTold(calls)
    ensures AlwaysEven(h, options, calls) <==> AllAlike(g, options)
  {
    hide ByName, Alike, EvenTold, Countable, After, LabelSuffix;
    if AllAlike(g, options) {
      forall ops ensures EvenTold(After(h, options, calls, ops).calls) {
        FairStaysEven(h, g, options, calls, ops);
      }
    } else {
      var core :| Countable(options, core) && !Alike(g, core + LabelSuffix(options.labels));
      UnfairDrifts(h, g, options, calls, core);
    }
  }

  /** A life of the plugin: a configuration and the operations until the next one. */
  datatype Life = Life(options: Options, ops: seq<Op>)

  function Told(h: Host, calls: seq<HostCall>, lives: seq<Life>): seq<HostCall>
    decreases |lives|
  {
    if lives == [] then calls
    else Told(h, After(h, lives[0].options, calls, lives[0].ops).calls, lives[1..])
  }

  /** However often the plugin is configured anew, twins agree if each configuration is treated alike. */
  lemma {:induction false} TwinsAgree(h: Host, g: string -> bool, calls: seq<HostCall>, lives: seq<Life>)
    requires ByName(h, g) && EvenTold(calls)
    requires forall life :: life in lives ==> life.options.dualPrefix && AllAlike(g, life.options)
    ensures EvenTold(Told(h, calls, lives))
    decreases |lives|
  {
    hide ByName, AllAlike, EvenTold, After;
    if lives != [] {
      FairStaysEven(h, g, lives[0].options, calls, lives[0].ops);
      TwinsAgree(h, g, After(h, lives[0].options, calls, lives[0].ops).calls, lives[1..]);
    }
  }

  /** A granting host treats everything alike. */
  lemma GrantedTwinsAgree(h: Host, lives: seq<Life>)
    requires Grants(h) && forall life :: life in lives ==> life.options.dualPrefix
    ensures EvenTold(Told(h, [], lives))
  {
    hide Told;
    GrantsByName(h);
    assert forall life :: life in lives ==> AllAlike(Always(), life.options);
    assert forall rest :: SameTally([], rest);
    TwinsAgree(h, Always(), [], lives);
  }

  /** One count, any host: even twins stay even exactly if both names end up defined or neither does. */
  lemma StepStaysEven(h: Host, r: Registry, core: string)
    requires r.options.enabled && r.options.dualPrefix && Even(r, core + r.suffix)
    ensures var s, rest := IncrementCore(h, r, core), core + r.suffix;
      Even(s, rest) <==> (Legacy() + rest in s.defined <==> Product() + rest in s.defined)
  {
    hide Tally, Legacy, Product, Increment;
    var rest := core + r.suffix;
    var first := Increment(h, r, Legacy() + rest);
    NameOf(rest, rest);
    CountedIfDefined(h, r, Legacy() + rest, Legacy() + rest);
    CountedIfDefined(h, r, Legacy() + rest, Product() + rest);
    CountedIfDefined(h, first, Product() + rest, Legacy() + rest);
    CountedIfDefined(h, first, Product() + rest, Product() + rest);
  }

  lemma CountedIfDefined(h: Host, r: Registry, name: string, other: string)
    requires r.options.enabled
    ensures var s := Increment(h, r, name);
      && Tally(s.calls, Exactly(other)) == Tally(r.calls, Exactly(other)) + Bit(name in s.defined && name == other)
      && SameSettings(s, r) && (name != other ==> (other in s.defined <==> other in r.defined))
  {
    hide Tally;
    var asked := r.calls + [Define(name)];
    TallyOneMore(r.calls, Define(name), Exactly(other));
    TallyOneMore(r.calls, Incremented(name), Exactly(other));
    TallyOneMore(asked, Incremented(name), Exactly(other));
  }

  function IsLegacy(): string -> bool { n => StartsWith(n, Legacy()) }

  /** A host that grants the names under one prefix only. */
  function OnePrefix(): Host {
    (calls: seq<HostCall>) => calls != [] && calls[|calls| - 1].Define? && IsLegacy()(calls[|calls| - 1].name)
  }

  lemma OnePrefixByName()
    ensures ByName(OnePrefix(), IsLegacy())
  {
    hide IsLegacy;
    forall calls: seq<HostCall>, name ensures OnePrefix()(calls + [Define(name)]) == IsLegacy()(name) {
      assert (calls + [Define(name)])[|calls|] == Define(name);
    }
  }

  lemma OnePrefixIsUnfair(rest: string)
    ensures !Alike(IsLegacy(), rest)
  {
    StartsWithItself(Legacy(), rest);
    PrefixesDiffer(rest, "");
    assert Legacy() + "" == Legacy();
  }

  /** With such a host, one allowed transaction is enough. */
  lemma OnePrefixDrifts(options: Options)
    requires options.dualPrefix && options.enabled
    ensures var s := After(OnePrefix(), options, [], [TxAllowedOp]);
      !Even(s, TxAllowedCore() + LabelSuffix(options.labels))
  {
    hide Configured, IncrementCore, Legacy, Product, ByName, LabelSuffix, OnePrefix, IsLegacy, Alike, Honest;
    hide TxAllowedCore;
    var h, g, rest := OnePrefix(), IsLegacy(), TxAllowedCore() + LabelSuffix(options.labels);
    var r := Configured(h, options, []);
    OnePrefixByName();
    OnePrefixIsUnfair(rest);
    ConfiguredIsBlank(h, g, options, [], rest);
    CoreGains(h, g, r, TxAllowedCore(), rest);
    OneOp(h, r, TxAllowedOp);
  }
}
