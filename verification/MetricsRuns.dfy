/** Whole runs of the metrics registry: the caps, the twins and the counting laws after any operations. */
module MetricsRuns {
  import opened Prelude
  import opened MetricsModel
  import opened MetricsNames
  import opened MetricsCaps
  import opened MetricsLedger

  /**
   * What is watched of a registry: its host, how that answers by name, whether it is fair to the pairs
   * that are counted, one pair, and a set of names.
   */
  datatype View = View(h: Host, g: string -> bool, fair: bool, x: string, q: string -> bool)

  /** Capped always; twins when the host answers by name and is fair. */
  ghost predicate Inv(v: View, r: Registry) {
    RegistryInv(r) && (v.fair && ByName(v.h, v.g) && r.options.dualPrefix ==> Twins(v.g, r, v.x))
  }

  predicate FairAt(v: View, rest: string) { v.fair ==> Alike(v.g, rest) }

  /** From r to s the invariant is kept, and of the plain counters exactly these cores were counted. */
  ghost predicate Step(v: View, r: Registry, s: Registry, cores: seq<string>) {
    && SameSettings(s, r) && (Inv(v, r) ==> Inv(v, s))
    && (Grants(v.h) && r.options.enabled && Plain(v.q) ==>
          Tally(s.calls, v.q) == Tally(r.calls, v.q) + Hits(cores, v.q, r.suffix))
  }

  lemma Compose(v: View, r: Registry, s: Registry, t: Registry, a: seq<string>, b: seq<string>)
    requires Step(v, r, s, a) && Step(v, s, t, b)
    ensures Step(v, r, t, a + b)
  {
    hide Inv, Plain, Tally, Hits, Grants;
    HitsConcat(a, b, v.q, r.suffix);
  }

  lemma Stays(v: View, r: Registry)
    ensures Step(v, r, r, [])
  {
    hide Inv, Tally, Plain, Grants;
  }

  lemma CoreStep(v: View, r: Registry, core: string)
    requires RegistryInv(r) && Untracked(core + r.suffix)
    requires r.options.enabled ==> FairAt(v, core + r.suffix)
    ensures Step(v, r, IncrementCore(v.h, r, core), [core])
  {
    hide RegistryInv, Untracked, IncrementCore, Twins, Tally, Hits, Plain, Grants, ByName, Alike;
    CoreKeeps(v.h, r, core);
    if Grants(v.h) && r.options.enabled && Plain(v.q) {
      CoreTally(v.h, r, core, v.q);
    }
    if !r.options.enabled {
      DisabledCore(v.h, r, core);
    } else if v.fair && ByName(v.h, v.g) && r.options.dualPrefix && Twins(v.g, r, v.x) {
      CoreTwins(v.h, v.g, r, core, v.x);
    }
  }

  lemma DisabledCore(h: Host, r: Registry, core: string)
    requires !r.options.enabled
    ensures IncrementCore(h, r, core) == r
  {
  }

  lemma MemoryStep(v: View, r: Registry)
    requires RegistryInv(r)
    ensures Step(v, r, RecordMemory(v.h, r), [])
  {
    hide RegistryInv, RecordMemory, Twins, Tally, Plain, Grants, ByName;
    MemoryKeeps(v.h, r);
    if Grants(v.h) {
      MemoryTally(v.h, r, v.q);
    }
    if ByName(v.h, v.g) && r.options.dualPrefix && Twins(v.g, r, v.x) {
      MemoryTwins(v.h, v.g, r, v.x);
    }
  }

  lemma SeriesStep(v: View, r: Registry, core: string, kind: Kind, evenAlone: bool)
    requires RegistryInv(r) && r.options.enabled && TrackedOnly(core + r.suffix, kind)
    requires FairAt(v, core + r.suffix)
    ensures Step(v, r, IncrementSeries(v.h, r, core, kind, evenAlone), [])
  {
    hide RegistryInv, IncrementSeries, Twins, Tally, Plain, Grants, TrackedOnly, ByName, Alike;
    SeriesKeeps(v.h, r, core, kind, evenAlone);
    if Grants(v.h) && Plain(v.q) {
      SeriesTally(v.h, r, core, kind, evenAlone, v.q);
    }
    if v.fair && ByName(v.h, v.g) && r.options.dualPrefix && Twins(v.g, r, v.x) {
      SeriesTwins(v.h, v.g, r, core, kind, evenAlone, v.x);
    }
  }

  // ---------------------------------------------------------------------------
  // The operations
  // ---------------------------------------------------------------------------

  function PhaseOr(phase: string): string { if phase == "" then "unknown" else phase }

  /** The plain counters that each operation counts. */
  function CoresOf(op: Op): seq<string> {
    match op
    case TxTotalOp => [TxTotalCore()]
    case TxAllowedOp => [TxAllowedCore()]
    case InterruptionOp(phase, _) => [InterruptionsFamily() + PhaseOr(phase)]
    case MatchOp(rulePhase, severity, disruptive, _, _) =>
      MatchCores(PhaseName(rulePhase), severity)
      + if disruptive then DisruptiveCores(PhaseName(rulePhase), severity) else []
    case SanitizedOp => [SanitizedCore()]
    case FallbackOp => [FallbackCore()]
    case MemoryOp => []
  }

  function MatchCores(phase: string, severity: int): seq<string> {
    [MatchesCore(), MatchesFamily() + WithSeverity(phase, severity)]
  }

  function DisruptiveCores(phase: string, severity: int): seq<string> {
    [DisruptiveCore(), DisruptiveFamily() + WithSeverity(phase, severity)]
  }

  function InterruptedRuleCore(ruleId: int, phase: string): string {
    InterruptionsByRuleFamily() + InPhase(Decimal(ruleId), phase)
  }

  function MatchedRuleCore(ruleId: int, phase: string): string {
    MatchesByRuleFamily() + InPhase(Decimal(ruleId), phase)
  }

  function MatchedTagCore(tag: string, phase: string): string {
    MatchesByTagFamily() + InPhase(SanitizedTag(tag), phase)
  }

  function TagCores(phase: string, tags: seq<string>): seq<string> {
    if tags == [] then []
    else (if IsInteresting(tags[0]) then [MatchedTagCore(tags[0], phase)] else []) + TagCores(phase, tags[1..])
  }

  /** The capped counters that an operation may count under these options. */
  function SeriesOf(options: Options, op: Op): seq<string> {
    match op
    case InterruptionOp(phase, ruleId) =>
      if options.perRuleId && ruleId > 0 then [InterruptedRuleCore(ruleId, PhaseOr(phase))] else []
    case MatchOp(rulePhase, _, _, rule, tags) =>
      (if options.perRuleId && rule > 0 then [MatchedRuleCore(rule, PhaseName(rulePhase))] else [])
      + if options.ruleTags then TagCores(PhaseName(rulePhase), tags) else []
    case _ => []
  }

  /** All counters that an operation may count under these options. */
  function CountedBy(options: Options, op: Op): seq<string> {
    if options.enabled || op.FallbackOp? then CoresOf(op) + SeriesOf(options, op) else []
  }

  /** The host is fair to everything the operation counts. */
  ghost predicate FairTo(v: View, r: Registry, op: Op) {
    forall core :: core in CountedBy(r.options, op) ==> FairAt(v, core + r.suffix)
  }

  lemma PairStep(v: View, r: Registry, core: string, family: string, more: string)
    requires Inv(v, r) && Untracked(core + r.suffix) && Untracked(family + (more + r.suffix))
    requires r.options.enabled ==> FairAt(v, core + r.suffix) && FairAt(v, (family + more) + r.suffix)
    ensures Step(v, r, IncrementCore(v.h, IncrementCore(v.h, r, core), family + more), [core, family + more])
  {
    hide Untracked, RegistryInv, IncrementCore, Twins, Tally, Hits, Plain, Grants, ByName, FairAt;
    Associate(family, more, r.suffix);
    var first := IncrementCore(v.h, r, core);
    CoreStep(v, r, core);
    CoreStep(v, first, family + more);
    assert [core] + [family + more] == [core, family + more];
    Compose(v, r, first, IncrementCore(v.h, first, family + more), [core], [family + more]);
  }

  lemma {:induction false} TagsStep(v: View, r: Registry, phase: string, tags: seq<string>)
    requires Inv(v, r) && r.options.enabled
    requires forall core :: core in TagCores(phase, tags) ==> FairAt(v, core + r.suffix)
    ensures Step(v, r, CountTags(v.h, r, phase, tags), [])
    decreases |tags|
  {
    hide RegistryInv, Twins, Grants, Tally, Hits, Plain, ByName, FairAt;
    hide IncrementSeries, IsInteresting, TrackedOnly, MatchesByTagFamily, InPhase, SanitizedTag;
    Stays(v, r);
    if tags != [] {
      var more := InPhase(SanitizedTag(tags[0]), phase);
      var core := MatchesByTagFamily() + more;
      var counted := if IsInteresting(tags[0]) then IncrementSeries(v.h, r, core, Tags, false) else r;
      Associate(MatchesByTagFamily(), more, r.suffix);
      Families(more + r.suffix);
      TagCoresUnfold(phase, tags);
      if IsInteresting(tags[0]) {
        SeriesStep(v, r, core, Tags, false);
      }
      TagsStep(v, counted, phase, tags[1..]);
      Compose(v, r, counted, CountTags(v.h, r, phase, tags), [], []);
    }
  }

  lemma TagCoresUnfold(phase: string, tags: seq<string>)
    requires tags != []
    ensures IsInteresting(tags[0]) ==> MatchedTagCore(tags[0], phase) in TagCores(phase, tags)
    ensures forall core :: core in TagCores(phase, tags[1..]) ==> core in TagCores(phase, tags)
  {
    hide IsInteresting, MatchedTagCore;
  }

  lemma RuleStep(v: View, r: Registry, phase: string, ruleId: int)
    requires Inv(v, r) && r.options.enabled
    requires r.options.perRuleId && ruleId > 0 ==> FairAt(v, MatchedRuleCore(ruleId, phase) + r.suffix)
    ensures Step(v, r, CountRule(v.h, r, phase, ruleId), [])
  {
    hide Inv, Step, IncrementSeries, TrackedOnly, MatchesByRuleFamily, InPhase, Decimal, RegistryInv, FairAt;
    InvHasRegistry(v, r);
    Stays(v, r);
    Associate(MatchesByRuleFamily(), InPhase(Decimal(ruleId), phase), r.suffix);
    Families(InPhase(Decimal(ruleId), phase) + r.suffix);
    if r.options.perRuleId && ruleId > 0 {
      SeriesStep(v, r, MatchesByRuleFamily() + InPhase(Decimal(ruleId), phase), Rules, true);
    }
  }

  lemma InvHasRegistry(v: View, r: Registry)
    requires Inv(v, r)
    ensures RegistryInv(r)
  {
  }

  lemma StepKeeps(v: View, r: Registry, s: Registry, cores: seq<string>)
    requires Step(v, r, s, cores) && Inv(v, r)
    ensures Inv(v, s) && SameSettings(s, r)
  {
    hide Inv;
  }

  lemma MatchStep(v: View, r: Registry, phase: string, severity: int)
    requires Inv(v, r) && forall core :: core in MatchCores(phase, severity) ==> FairAt(v, core + r.suffix)
    ensures Step(v, r, CountMatch(v.h, r, phase, severity), MatchCores(phase, severity))
  {
    MatchesIsUntracked(r.suffix);
    hide Inv, Step, Untracked, IncrementCore, WithSeverity, FairAt, MatchesCore, MatchesFamily;
    PlainFamilies(WithSeverity(phase, severity) + r.suffix);
    PairStep(v, r, MatchesCore(), MatchesFamily(), WithSeverity(phase, severity));
  }

  lemma DisruptiveStep(v: View, r: Registry, phase: string, severity: int)
    requires Inv(v, r) && forall core :: core in DisruptiveCores(phase, severity) ==> FairAt(v, core + r.suffix)
    ensures Step(v, r, CountDisruptive(v.h, r, phase, severity), DisruptiveCores(phase, severity))
  {
    hide Inv, Step, Untracked, IncrementCore, WithSeverity, FairAt, DisruptiveCore, DisruptiveFamily;
    PlainFamilies(WithSeverity(phase, severity) + r.suffix);
    PlainFamilies(r.suffix);
    PairStep(v, r, DisruptiveCore(), DisruptiveFamily(), WithSeverity(phase, severity));
  }

  lemma RuleMatchStep(
      v: View, r: Registry, rulePhase: int, severity: int, disruptive: bool, ruleId: int, tags: seq<string>)
    requires Inv(v, r) && FairTo(v, r, MatchOp(rulePhase, severity, disruptive, ruleId, tags))
    ensures Step(v, r, CountRuleMatch(v.h, r, rulePhase, severity, disruptive, ruleId, tags),
                 if r.options.enabled then CoresOf(MatchOp(rulePhase, severity, disruptive, ruleId, tags)) else [])
  {
    hide Inv, Step, CountMatch, CountDisruptive, CountRule, CountTags, PhaseName, MatchCores, DisruptiveCores;
    hide TagCores, MatchedRuleCore, FairAt;
    Stays(v, r);
    if r.options.enabled {
      var phase := PhaseName(rulePhase);
      var cores := MatchCores(phase, severity);
      var more := if disruptive then DisruptiveCores(phase, severity) else [];
      MatchIsFair(v, r, rulePhase, severity, disruptive, ruleId, tags);
      var matched := CountMatch(v.h, r, phase, severity);
      var blocked := if disruptive then CountDisruptive(v.h, matched, phase, severity) else matched;
      MatchStep(v, r, phase, severity);
      StepKeeps(v, r, matched, cores);
      Stays(v, matched);
      if disruptive {
        DisruptiveStep(v, matched, phase, severity);
      }
      Compose(v, r, matched, blocked, cores, more);
      RestStep(v, r, blocked, cores + more, phase, ruleId, tags);
    }
  }

  lemma MatchIsFair(
      v: View, r: Registry, rulePhase: int, severity: int, disruptive: bool, ruleId: int, tags: seq<string>)
    requires r.options.enabled && FairTo(v, r, MatchOp(rulePhase, severity, disruptive, ruleId, tags))
    ensures var phase := PhaseName(rulePhase);
      && (forall core :: core in MatchCores(phase, severity) ==> FairAt(v, core + r.suffix))
      && (disruptive ==> forall core :: core in DisruptiveCores(phase, severity) ==> FairAt(v, core + r.suffix))
      && (r.options.perRuleId && ruleId > 0 ==> FairAt(v, MatchedRuleCore(ruleId, phase) + r.suffix))
      && (r.options.ruleTags ==> forall core :: core in TagCores(phase, tags) ==> FairAt(v, core + r.suffix))
  {
    hide PhaseName, MatchCores, DisruptiveCores, TagCores, MatchedRuleCore, FairAt;
    var op := MatchOp(rulePhase, severity, disruptive, ruleId, tags);
    assert forall core :: core in CoresOf(op) || core in SeriesOf(r.options, op) ==> core in CountedBy(r.options, op);
  }

  lemma RestStep(
      v: View, r: Registry, blocked: Registry, cores: seq<string>, phase: string, ruleId: int, tags: seq<string>)
    requires Inv(v, r) && r.options.enabled && Step(v, r, blocked, cores)
    requires r.options.perRuleId && ruleId > 0 ==> FairAt(v, MatchedRuleCore(ruleId, phase) + r.suffix)
    requires r.options.ruleTags ==> forall core :: core in TagCores(phase, tags) ==> FairAt(v, core + r.suffix)
    ensures var byRule := CountRule(v.h, blocked, phase, ruleId);
      Step(v, r, if r.options.ruleTags then CountTags(v.h, byRule, phase, tags) else byRule, cores)
    ensures SameSettings(CountRule(v.h, blocked, phase, ruleId), r)
  {
    hide Inv, Step, CountRule, CountTags, FairAt, TagCores, MatchedRuleCore;
    var byRule := CountRule(v.h, blocked, phase, ruleId);
    StepKeeps(v, r, blocked, cores);
    RuleStep(v, blocked, phase, ruleId);
    StepKeeps(v, blocked, byRule, []);
    Compose(v, r, blocked, byRule, cores, []);
    assert cores + [] == cores;
    if r.options.ruleTags {
      TagsStep(v, byRule, phase, tags);
      Compose(v, r, byRule, CountTags(v.h, byRule, phase, tags), cores, []);
    }
  }

  lemma InterruptionStep(v: View, r: Registry, phase: string, ruleId: int)
    requires Inv(v, r) && FairTo(v, r, InterruptionOp(phase, ruleId))
    ensures Step(v, r, CountTxInterruption(v.h, r, phase, ruleId),
                 if r.options.enabled then CoresOf(InterruptionOp(phase, ruleId)) else [])
  {
    hide Inv, Step, IncrementCore, IncrementSeries, Untracked, TrackedOnly, InPhase, Decimal, FairAt;
    hide InterruptionsFamily, InterruptionsByRuleFamily, RegistryInv;
    InvHasRegistry(v, r);
    Stays(v, r);
    if r.options.enabled {
      var named := PhaseOr(phase);
      var core, more := InterruptionsFamily() + named, InPhase(Decimal(ruleId), named);
      var counted := IncrementCore(v.h, r, core);
      var op := InterruptionOp(phase, ruleId);
      assert core in CountedBy(r.options, op);
      Associate(InterruptionsFamily(), named, r.suffix);
      PlainFamilies(named + r.suffix);
      CoreStep(v, r, core);
      StepKeeps(v, r, counted, [core]);
      InvHasRegistry(v, counted);
      Associate(InterruptionsByRuleFamily(), more, r.suffix);
      Families(more + r.suffix);
      if r.options.perRuleId && ruleId > 0 {
        assert InterruptedRuleCore(ruleId, named) in CountedBy(r.options, op);
        SeriesStep(v, counted, InterruptionsByRuleFamily() + more, Rules, false);
        Compose(v, r, counted, IncrementSeries(v.h, counted, InterruptionsByRuleFamily() + more, Rules, false),
                [core], []);
        assert [core] + [] == [core];
      }
    }
  }

  lemma TotalStep(v: View, r: Registry)
    requires Inv(v, r) && FairTo(v, r, TxTotalOp)
    ensures Step(v, r, CountTxTotal(v.h, r), [TxTotalCore()])
  {
    hide IncrementCore, RecordMemory, Untracked, TxTotalCore, SafeSuffix, Tally, Hits, Plain, Grants, Series;
    hide PairedNames, Exactly, FairAt, ByName, Honest;
    PlainWords(r.suffix);
    CoresAreFair(v, r, TxTotalOp);
    CoreStep(v, r, TxTotalCore());
    var counted := IncrementCore(v.h, r, TxTotalCore());
    var next := counted.(txCount := (counted.txCount + 1) % TWO_64);
    assert Step(v, r, next, [TxTotalCore()]);
    MemoryStep(v, next);
    Compose(v, r, next, RecordMemory(v.h, next), [TxTotalCore()], []);
    assert [TxTotalCore()] + [] == [TxTotalCore()];
  }

  /** The fallback is counted whether or not statistics are on. */
  lemma FallbackStep(v: View, r: Registry)
    requires Inv(v, r) && FairTo(v, r, FallbackOp)
    ensures Step(v, r, CountFallback(v.h, r), [FallbackCore()])
  {
    hide IncrementCore, Untracked, FallbackCore, SafeSuffix, Tally, Hits, Plain, Grants, Series, PairedNames, Exactly;
    hide FairAt, ByName, Honest;
    PlainWords(r.suffix);
    CoresAreFair(v, r, FallbackOp);
    CoreStep(v, r.(options := r.options.(enabled := true)), FallbackCore());
  }

  /** Fairness to an operation is fairness to its plain counters, if they are counted. */
  lemma CoresAreFair(v: View, r: Registry, op: Op)
    requires FairTo(v, r, op)
    ensures r.options.enabled || op.FallbackOp? ==> forall core :: core in CoresOf(op) ==> FairAt(v, core + r.suffix)
  {
    hide FairAt, CoresOf, SeriesOf;
    if r.options.enabled || op.FallbackOp? {
      assert forall core :: core in CoresOf(op) ==> core in CountedBy(r.options, op);
    }
  }

  lemma OpStep(v: View, r: Registry, op: Op)
    requires Inv(v, r) && FairTo(v, r, op)
    ensures SameSettings(Apply(v.h, r, op), r) && Inv(v, Apply(v.h, r, op))
    ensures Grants(v.h) && r.options.enabled && Plain(v.q) ==>
      Tally(Apply(v.h, r, op).calls, v.q) == Tally(r.calls, v.q) + Hits(CoresOf(op), v.q, r.suffix)
  {
    hide RegistryInv, IncrementCore, RecordMemory, CountTxTotal, CountTxInterruption, CountRuleMatch, CountFallback;
    hide Untracked, TxAllowedCore, SanitizedCore, Twins, Tally, Hits, Plain, Grants, CoresOf, FairTo, FairAt, ByName;
    PlainWords(r.suffix);
    CoresAreFair(v, r, op);
    CoresOfPlain();
    match op
    case TxTotalOp => TotalStep(v, r);
    case TxAllowedOp => CoreStep(v, r, TxAllowedCore());
    case InterruptionOp(phase, ruleId) => InterruptionStep(v, r, phase, ruleId);
    case MatchOp(rulePhase, severity, disruptive, rule, tags) =>
      RuleMatchStep(v, r, rulePhase, severity, disruptive, rule, tags);
    case SanitizedOp => CoreStep(v, r, SanitizedCore());
    case FallbackOp => FallbackStep(v, r);
    case MemoryOp => MemoryStep(v, r);
  }

  lemma CoresOfPlain()
    ensures CoresOf(TxTotalOp) == [TxTotalCore()] && CoresOf(TxAllowedOp) == [TxAllowedCore()]
    ensures CoresOf(SanitizedOp) == [SanitizedCore()] && CoresOf(FallbackOp) == [FallbackCore()]
    ensures CoresOf(MemoryOp) == []
  {
  }

  lemma {:induction false} OpsKeep(v: View, r: Registry, ops: seq<Op>)
    requires Inv(v, r) && forall op :: FairTo(v, r, op)
    ensures SameSettings(ApplyAll(v.h, r, ops), r) && Inv(v, ApplyAll(v.h, r, ops))
    decreases |ops|
  {
    hide Inv, Apply, FairAt, CountedBy;
    if ops != [] {
      OpStep(v, r, ops[0]);
      var next := Apply(v.h, r, ops[0]);
      forall op ensures FairTo(v, next, op) {
        assert FairTo(v, r, op);
      }
      OpsKeep(v, next, ops[1..]);
    }
  }

  /** Configuring starts anew, whatever was told to the host before. */
  lemma ConfiguredStarts(v: View, options: Options, calls: seq<HostCall>)
    requires SameTally(calls, v.x)
    ensures var r := Configured(v.h, options, calls);
      && Inv(v, r) && r.options == options && r.suffix == LabelSuffix(options.labels)
  {
    hide RecordMemory, LabelSuffix, Legacy, Product, IsSeries, SafeSuffix, Tally, ByName;
    var empty := Registry(options, LabelSuffix(options.labels), {}, 0, 0, 0, calls);
    SuffixIsSafe(options.labels);
    assert Series({}, Rules) == {} && Series({}, Tags) == {};
    assert Twins(v.g, empty, v.x);
    MemoryStep(v, empty);
  }

  /** A view for what holds of any host. */
  function Any(h: Host, q: string -> bool): View { View(h, Always(), false, "", q) }

  lemma AnyStarts(h: Host, options: Options, calls: seq<HostCall>, q: string -> bool)
    ensures var r := Configured(h, options, calls);
      && Inv(Any(h, q), r) && r.options == options && r.suffix == LabelSuffix(options.labels)
    ensures forall op :: FairTo(Any(h, q), Configured(h, options, calls), op)
  {
    hide RecordMemory, LabelSuffix, IsSeries, SafeSuffix, CountedBy;
    var empty := Registry(options, LabelSuffix(options.labels), {}, 0, 0, 0, calls);
    SuffixIsSafe(options.labels);
    assert Series({}, Rules) == {} && Series({}, Tags) == {};
    MemoryStep(Any(h, q), empty);
  }

  /**
   * In every reachable state, however the host answers and however often the registry was configured
   * before: at most 512 rule series and 128 tag series.
   */
  lemma EveryRunIsCapped(h: Host, options: Options, calls: seq<HostCall>, ops: seq<Op>)
    ensures Capped(ApplyAll(h, Configured(h, options, calls), ops))
  {
    hide Configured, ApplyAll, Capped, FairTo;
    AnyStarts(h, options, calls, Always());
    OpsKeep(Any(h, Always()), Configured(h, options, calls), ops);
  }
}
