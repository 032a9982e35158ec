/**
 * The accounting laws on the counters themselves, and their meaning for the streams of a worker:
 * what the dashboards add up to is what happened to the transactions.
 */
module MetricsTotals {
  import opened Prelude
  import opened Text
  import opened MetricsModel
  import opened MetricsNames
  import opened MetricsCaps
  import opened MetricsLedger
  import opened MetricsRuns

  function Number(ops: seq<Op>, p: Op -> bool): nat {
    if ops == [] then 0 else Bit(p(ops[0])) + Number(ops[1..], p)
  }

  /** If each such operation hits the counters of q once, their sum is the number of those operations. */
  lemma {:induction false} RunCounts(h: Host, r: Registry, ops: seq<Op>, q: string -> bool, p: Op -> bool)
    requires Inv(Any(h, q), r) && Grants(h) && r.options.enabled && Plain(q)
    requires forall op :: Hits(CoresOf(op), q, r.suffix) == Bit(p(op))
    ensures Tally(ApplyAll(h, r, ops).calls, q) == Tally(r.calls, q) + Number(ops, p)
    decreases |ops|
  {
    hide Inv, Plain, Grants, Hits, CoresOf, Apply, Tally;
    if ops != [] {
      AnyIsFair(h, q, r, ops[0]);
      OpStep(Any(h, q), r, ops[0]);
      RunCounts(h, Apply(h, r, ops[0]), ops[1..], q, p);
    }
  }

  lemma AnyIsFair(h: Host, q: string -> bool, r: Registry, op: Op)
    ensures FairTo(Any(h, q), r, op)
  {
  }

  // ---------------------------------------------------------------------------
  // Single counters
  // ---------------------------------------------------------------------------

  function Total(core: string, suffix: string): string -> bool { Exactly(Legacy() + (core + suffix)) }

  lemma TotalIsPlain(core: string, suffix: string)
    requires Untracked(core + suffix)
    ensures Plain(Total(core, suffix))
  {
    hide Legacy, Product, Untracked;
    var q := Total(core, suffix);
    forall rest ensures PlainAt(q, rest) {
      NameOf(rest, core + suffix);
      NameOf(core + suffix, rest);
    }
  }

  lemma TotalHits(core: string, c: string, suffix: string)
    ensures Total(core, suffix)(Legacy() + (c + suffix)) <==> c == core
  {
    hide Legacy;
    NameOf(c + suffix, core + suffix);
    if c + suffix == core + suffix {
      assert c == (c + suffix)[..|c|] && core == (core + suffix)[..|core|];
    }
  }

  function Among(cores: seq<string>, core: string): nat {
    if cores == [] then 0 else Bit(cores[0] == core) + Among(cores[1..], core)
  }

  lemma {:induction false} TotalHitsAll(core: string, cores: seq<string>, suffix: string)
    ensures Hits(cores, Total(core, suffix), suffix) == Among(cores, core)
  {
    hide Total;
    if cores != [] {
      TotalHits(core, cores[0], suffix);
      TotalHitsAll(core, cores[1..], suffix);
    }
  }

  lemma AmongFew(a: string, b: string, core: string)
    ensures Among([a], core) == Bit(a == core)
    ensures Among([a, b], core) == Bit(a == core) + Bit(b == core)
  {
    assert [a][1..] == [] && [b][1..] == [] && [a, b][1..] == [b];
    assert Among([b], core) == Bit(b == core) + Among([], core);
  }

  lemma {:induction false} AmongConcat(a: seq<string>, b: seq<string>, core: string)
    ensures Among(a + b, core) == Among(a, core) + Among(b, core)
  {
    if a == [] {
      assert a + b == b;
    } else {
      assert (a + b)[1..] == a[1..] + b;
      AmongConcat(a[1..], b, core);
    }
  }

  lemma Apart(a: string, more: string, core: string, i: nat)
    requires i < |a| && i < |core| && a[i] != core[i]
    ensures a + more != core
  {
    assert (a + more)[i] == a[i];
  }

  lemma Longer(a: string, more: string, core: string)
    requires |a| > |core|
    ensures a + more != core
  {
  }

  /** Which counters an operation counts, in terms of four single ones. */
  lemma SingleCores(phase: string, named: string, severity: int)
    ensures TxTotalCore() != TxAllowedCore() && TxTotalCore() != SanitizedCore() && TxTotalCore() != FallbackCore()
    ensures TxAllowedCore() != SanitizedCore() && TxAllowedCore() != FallbackCore()
    ensures MatchesCore() !in [TxTotalCore(), TxAllowedCore(), SanitizedCore(), FallbackCore(), DisruptiveCore()]
    ensures DisruptiveCore() !in [TxTotalCore(), TxAllowedCore(), SanitizedCore(), FallbackCore()]
    ensures var more := WithSeverity(phase, severity);
      && NoFamily(TxTotalCore(), named, more) && NoFamily(TxAllowedCore(), named, more)
      && NoFamily(MatchesCore(), named, more) && NoFamily(DisruptiveCore(), named, more)
  {
    hide WithSeverity;
    assert TxTotalCore()[3] != TxAllowedCore()[3];
    assert TxTotalCore()[0] != SanitizedCore()[0] && TxTotalCore()[0] != FallbackCore()[0];
    assert TxAllowedCore()[0] != SanitizedCore()[0] && TxAllowedCore()[0] != FallbackCore()[0];
    assert MatchesCore()[0] != TxTotalCore()[0] && MatchesCore()[0] != TxAllowedCore()[0];
    assert MatchesCore()[1] != SanitizedCore()[1] && MatchesCore()[0] != FallbackCore()[0];
    assert |MatchesCore()| < |DisruptiveCore()|;
    assert DisruptiveCore()[0] != TxTotalCore()[0] && DisruptiveCore()[0] != TxAllowedCore()[0];
    assert DisruptiveCore()[1] != SanitizedCore()[1] && DisruptiveCore()[0] != FallbackCore()[0];
    FamiliesAreNoCores(named, WithSeverity(phase, severity));
  }

  predicate NoFamily(core: string, named: string, more: string) {
    InterruptionsFamily() + named != core && MatchesFamily() + more != core && DisruptiveFamily() + more != core
  }

  lemma FamiliesAreNoCores(named: string, more: string)
    ensures NoFamily(TxTotalCore(), named, more) && NoFamily(TxAllowedCore(), named, more)
    ensures NoFamily(MatchesCore(), named, more) && NoFamily(DisruptiveCore(), named, more)
  {
    Apart(InterruptionsFamily(), named, TxTotalCore(), 3);
    Apart(InterruptionsFamily(), named, TxAllowedCore(), 3);
    Apart(InterruptionsFamily(), named, MatchesCore(), 0);
    Apart(InterruptionsFamily(), named, DisruptiveCore(), 0);
    Apart(MatchesFamily(), more, TxTotalCore(), 0);
    Apart(MatchesFamily(), more, TxAllowedCore(), 0);
    Longer(MatchesFamily(), more, MatchesCore());
    Apart(MatchesFamily(), more, DisruptiveCore(), 13);
    Apart(DisruptiveFamily(), more, TxTotalCore(), 0);
    Apart(DisruptiveFamily(), more, TxAllowedCore(), 0);
    Longer(DisruptiveFamily(), more, MatchesCore());
    Longer(DisruptiveFamily(), more, DisruptiveCore());
  }

  function IsTotal(): Op -> bool { (op: Op) => op.TxTotalOp? }
  function IsAllowed(): Op -> bool { (op: Op) => op.TxAllowedOp? }
  function IsMatch(): Op -> bool { (op: Op) => op.MatchOp? }
  function IsDisruptive(): Op -> bool { (op: Op) => op.MatchOp? && op.disruptive }
  function IsInterruption(): Op -> bool { (op: Op) => op.InterruptionOp? }

  lemma SingleHits(op: Op)
    ensures Among(CoresOf(op), TxTotalCore()) == Bit(IsTotal()(op))
    ensures Among(CoresOf(op), TxAllowedCore()) == Bit(IsAllowed()(op))
    ensures Among(CoresOf(op), MatchesCore()) == Bit(IsMatch()(op))
    ensures Among(CoresOf(op), DisruptiveCore()) == Bit(IsDisruptive()(op))
  {
    hide Among, CoresOf, NoFamily, WithSeverity, PhaseName, PhaseOr;
    hide TxTotalCore, TxAllowedCore, SanitizedCore, FallbackCore;
    hide MatchesCore, DisruptiveCore, InterruptionsFamily, MatchesFamily, DisruptiveFamily;
    var named := if op.InterruptionOp? then PhaseOr(op.phase) else "";
    var phase := if op.MatchOp? then PhaseName(op.rulePhase) else "";
    var severity := if op.MatchOp? then op.severity else 0;
    SingleCores(phase, named, severity);
    HitsOne(op, TxTotalCore(), phase, named, severity);
    HitsOne(op, TxAllowedCore(), phase, named, severity);
    HitsOne(op, MatchesCore(), phase, named, severity);
    HitsOne(op, DisruptiveCore(), phase, named, severity);
  }

  lemma HitsOne(op: Op, core: string, phase: string, named: string, severity: int)
    requires op.InterruptionOp? ==> named == PhaseOr(op.phase)
    requires op.MatchOp? ==> phase == PhaseName(op.rulePhase) && severity == op.severity
    requires NoFamily(core, named, WithSeverity(phase, severity))
    ensures Among(CoresOf(op), core) ==
      match op
      case TxTotalOp => Bit(core == TxTotalCore())
      case TxAllowedOp => Bit(core == TxAllowedCore())
      case InterruptionOp(_, _) => 0
      case MatchOp(_, _, disruptive, _, _) => Bit(core == MatchesCore()) + Bit(disruptive && core == DisruptiveCore())
      case SanitizedOp => Bit(core == SanitizedCore())
      case FallbackOp => Bit(core == FallbackCore())
      case MemoryOp => 0
  {
    hide Among, WithSeverity, PhaseName, PhaseOr, TxTotalCore, TxAllowedCore, SanitizedCore, FallbackCore;
    hide MatchesCore, DisruptiveCore, InterruptionsFamily, MatchesFamily, DisruptiveFamily;
    AmongNone(core);
    match op
    case TxTotalOp => AmongFew(TxTotalCore(), "", core);
    case TxAllowedOp => AmongFew(TxAllowedCore(), "", core);
    case InterruptionOp(_, _) => AmongFew(InterruptionsFamily() + named, "", core);
    case MatchOp(_, _, disruptive, _, _) =>
      AmongFew(MatchesCore(), MatchesFamily() + WithSeverity(phase, severity), core);
      AmongFew(DisruptiveCore(), DisruptiveFamily() + WithSeverity(phase, severity), core);
      AmongConcat(MatchCores(phase, severity), if disruptive then DisruptiveCores(phase, severity) else [], core);
    case SanitizedOp => AmongFew(SanitizedCore(), "", core);
    case FallbackOp => AmongFew(FallbackCore(), "", core);
    case MemoryOp =>
  }

  lemma AmongNone(core: string)
    ensures Among([], core) == 0
  {
  }

  // ---------------------------------------------------------------------------
  // Families
  // ---------------------------------------------------------------------------

  function Family(family: string): string -> bool { Beginning(Legacy() + family) }

  lemma FamilyIsPlain(family: string)
    requires forall more :: Untracked(family + more)
    ensures Plain(Family(family))
  {
    hide Legacy, Product, Untracked;
    var q := Family(family);
    forall rest ensures PlainAt(q, rest) {
      SeriesUnder(rest, family);
      if StartsWith(rest, family) {
        assert rest == family + rest[|family|..];
      }
    }
  }

  /** Counters whose name, after the prefix, begins with the family. */
  function Beginners(cores: seq<string>, family: string, suffix: string): nat {
    if cores == [] then 0
    else Bit(StartsWith(cores[0] + suffix, family)) + Beginners(cores[1..], family, suffix)
  }

  lemma {:induction false} FamilyHitsAll(family: string, cores: seq<string>, suffix: string)
    ensures Hits(cores, Family(family), suffix) == Beginners(cores, family, suffix)
  {
    hide Legacy, StartsWith;
    if cores != [] {
      SeriesUnder(cores[0] + suffix, family);
      FamilyHitsAll(family, cores[1..], suffix);
    }
  }

  lemma BeginnersFew(a: string, b: string, family: string, suffix: string)
    ensures Beginners([a], family, suffix) == Bit(StartsWith(a + suffix, family))
    ensures Beginners([a, b], family, suffix) ==
      Bit(StartsWith(a + suffix, family)) + Bit(StartsWith(b + suffix, family))
  {
    hide StartsWith;
    assert [a][1..] == [] && [b][1..] == [] && [a, b][1..] == [b];
    assert Beginners([b], family, suffix) == Bit(StartsWith(b + suffix, family)) + Beginners([], family, suffix);
  }

  lemma {:induction false} BeginnersConcat(a: seq<string>, b: seq<string>, family: string, suffix: string)
    ensures Beginners(a + b, family, suffix) == Beginners(a, family, suffix) + Beginners(b, family, suffix)
  {
    hide StartsWith;
    if a == [] {
      assert a + b == b;
    } else {
      assert (a + b)[1..] == a[1..] + b;
      BeginnersConcat(a[1..], b, family, suffix);
    }
  }

  /** Single counters belong to no family, whatever the labels. */
  lemma SinglesApart(suffix: string)
    requires SafeSuffix(suffix)
    ensures forall core, family ::
      core in [TxTotalCore(), TxAllowedCore(), SanitizedCore(), FallbackCore(), MatchesCore(), DisruptiveCore()]
      && family in [InterruptionsFamily(), MatchesFamily(), DisruptiveFamily()] ==>
        !StartsWith(core + suffix, family)
  {
    hide StartsWith, SafeSuffix;
    DiffersAt(TxTotalCore(), suffix, InterruptionsFamily(), 3);
    DiffersAt(TxTotalCore(), suffix, MatchesFamily(), 0);
    DiffersAt(TxTotalCore(), suffix, DisruptiveFamily(), 0);
    DiffersAt(TxAllowedCore(), suffix, InterruptionsFamily(), 3);
    DiffersAt(TxAllowedCore(), suffix, MatchesFamily(), 0);
    DiffersAt(TxAllowedCore(), suffix, DisruptiveFamily(), 0);
    DiffersAt(SanitizedCore(), suffix, InterruptionsFamily(), 0);
    DiffersAt(SanitizedCore(), suffix, MatchesFamily(), 1);
    DiffersAt(SanitizedCore(), suffix, DisruptiveFamily(), 1);
    DiffersAt(FallbackCore(), suffix, InterruptionsFamily(), 0);
    DiffersAt(FallbackCore(), suffix, MatchesFamily(), 0);
    DiffersAt(FallbackCore(), suffix, DisruptiveFamily(), 0);
    DiffersAt(MatchesCore(), suffix, InterruptionsFamily(), 0);
    DiffersAt(DisruptiveCore(), suffix, InterruptionsFamily(), 0);
    DiffersAt(DisruptiveCore(), suffix, MatchesFamily(), 13);
    LabelsApart(suffix);
  }

  lemma LabelsApart(suffix: string)
    requires SafeSuffix(suffix)
    ensures !StartsWith(MatchesCore() + suffix, MatchesFamily())
    ensures !StartsWith(MatchesCore() + suffix, DisruptiveFamily())
    ensures !StartsWith(DisruptiveCore() + suffix, DisruptiveFamily())
  {
    hide StartsWith, SafeSuffix, MatchesCore, DisruptiveCore, MatchesFamily, DisruptiveFamily;
    SafeAgainst(suffix, "phase");
    SafeAgainst(suffix, "disruptive_phase");
    MatchesLabel();
    DisruptiveLabel();
    DisruptiveFromMatches();
    PrefixFalls(MatchesCore(), suffix, "_" + "phase" + "=");
    PrefixFalls(MatchesCore(), suffix, "_" + "disruptive_phase" + "=");
    PrefixFalls(DisruptiveCore(), suffix, "_" + "phase" + "=");
  }

  lemma MatchesLabel()
    ensures MatchesFamily() == MatchesCore() + ("_" + "phase" + "=")
  {
  }

  lemma DisruptiveLabel()
    ensures DisruptiveFamily() == DisruptiveCore() + ("_" + "phase" + "=")
  {
  }

  lemma DisruptiveFromMatches()
    ensures DisruptiveFamily() == MatchesCore() + ("_" + "disruptive_phase" + "=")
  {
  }

  /** Each family is apart from the others. */
  lemma FamiliesApart(family: string, more: string, suffix: string)
    requires family in [InterruptionsFamily(), MatchesFamily(), DisruptiveFamily()]
    ensures StartsWith((family + more) + suffix, family)
    ensures forall other :: other in [InterruptionsFamily(), MatchesFamily(), DisruptiveFamily()] && other != family ==>
      !StartsWith((family + more) + suffix, other)
  {
    hide StartsWith;
    Associate(family, more, suffix);
    StartsWithItself(family, more + suffix);
    DiffersAt(InterruptionsFamily(), more + suffix, MatchesFamily(), 0);
    DiffersAt(InterruptionsFamily(), more + suffix, DisruptiveFamily(), 0);
    DiffersAt(MatchesFamily(), more + suffix, InterruptionsFamily(), 0);
    DiffersAt(MatchesFamily(), more + suffix, DisruptiveFamily(), 13);
    DiffersAt(DisruptiveFamily(), more + suffix, InterruptionsFamily(), 0);
    DiffersAt(DisruptiveFamily(), more + suffix, MatchesFamily(), 13);
  }

  lemma DifferentFamilies()
    ensures InterruptionsFamily() != MatchesFamily() && InterruptionsFamily() != DisruptiveFamily()
    ensures MatchesFamily() != DisruptiveFamily()
  {
    assert InterruptionsFamily()[0] != MatchesFamily()[0] && InterruptionsFamily()[0] != DisruptiveFamily()[0];
    assert MatchesFamily()[13] != DisruptiveFamily()[13];
  }

  lemma FamilyHits(op: Op, suffix: string, family: string)
    requires SafeSuffix(suffix) && family in [InterruptionsFamily(), MatchesFamily(), DisruptiveFamily()]
    ensures Beginners(CoresOf(op), family, suffix) ==
      match op
      case InterruptionOp(_, _) => Bit(family == InterruptionsFamily())
      case MatchOp(_, _, disruptive, _, _) =>
        Bit(family == MatchesFamily()) + Bit(disruptive && family == DisruptiveFamily())
      case _ => 0
  {
    hide Beginners, WithSeverity, PhaseName, PhaseOr, TxTotalCore, TxAllowedCore, SanitizedCore, FallbackCore;
    hide MatchesCore, DisruptiveCore, InterruptionsFamily, MatchesFamily, DisruptiveFamily, StartsWith, SafeSuffix;
    SinglesApart(suffix);
    DifferentFamilies();
    BeginnersNone(family, suffix);
    match op
    case TxTotalOp => BeginnersFew(TxTotalCore(), "", family, suffix);
    case TxAllowedOp => BeginnersFew(TxAllowedCore(), "", family, suffix);
    case InterruptionOp(phase, _) =>
      BeginnersFew(InterruptionsFamily() + PhaseOr(phase), "", family, suffix);
      FamiliesApart(InterruptionsFamily(), PhaseOr(phase), suffix);
    case MatchOp(rulePhase, severity, disruptive, _, _) =>
      var phase := PhaseName(rulePhase);
      MatchFamilyHits(phase, severity, disruptive, suffix, family);
    case SanitizedOp => BeginnersFew(SanitizedCore(), "", family, suffix);
    case FallbackOp => BeginnersFew(FallbackCore(), "", family, suffix);
    case MemoryOp =>
  }

  lemma MatchFamilyHits(phase: string, severity: int, disruptive: bool, suffix: string, family: string)
    requires SafeSuffix(suffix) && family in [InterruptionsFamily(), MatchesFamily(), DisruptiveFamily()]
    ensures Beginners(
      MatchCores(phase, severity) + (if disruptive then DisruptiveCores(phase, severity) else []), family, suffix) ==
        Bit(family == MatchesFamily()) + Bit(disruptive && family == DisruptiveFamily())
  {
    hide Beginners, WithSeverity, TxTotalCore, TxAllowedCore, SanitizedCore, FallbackCore;
    hide MatchesCore, DisruptiveCore, InterruptionsFamily, MatchesFamily, DisruptiveFamily, StartsWith, SafeSuffix;
    SinglesApart(suffix);
    DifferentFamilies();
    BeginnersNone(family, suffix);
    var more := WithSeverity(phase, severity);
    FamiliesApart(MatchesFamily(), more, suffix);
    FamiliesApart(DisruptiveFamily(), more, suffix);
    BeginnersFew(MatchesCore(), MatchesFamily() + more, family, suffix);
    BeginnersFew(DisruptiveCore(), DisruptiveFamily() + more, family, suffix);
    BeginnersConcat(
      MatchCores(phase, severity), if disruptive then DisruptiveCores(phase, severity) else [], family, suffix);
  }

  lemma BeginnersNone(family: string, suffix: string)
    ensures Beginners([], family, suffix) == 0
  {
  }

  // ---------------------------------------------------------------------------
  // The laws
  // ---------------------------------------------------------------------------

  lemma TotalCounts(h: Host, r: Registry, ops: seq<Op>, core: string, p: Op -> bool)
    requires Inv(Any(h, Total(core, r.suffix)), r) && Grants(h) && r.options.enabled && Untracked(core + r.suffix)
    requires forall op :: Among(CoresOf(op), core) == Bit(p(op))
    ensures Tally(ApplyAll(h, r, ops).calls, Total(core, r.suffix)) ==
      Tally(r.calls, Total(core, r.suffix)) + Number(ops, p)
  {
    hide Inv, Grants, Untracked, Among, CoresOf, Hits, Total, Tally, ApplyAll;
    TotalIsPlain(core, r.suffix);
    forall op ensures Hits(CoresOf(op), Total(core, r.suffix), r.suffix) == Bit(p(op)) {
      TotalHitsAll(core, CoresOf(op), r.suffix);
    }
    RunCounts(h, r, ops, Total(core, r.suffix), p);
  }

  lemma FamilyCounts(h: Host, r: Registry, ops: seq<Op>, family: string, p: Op -> bool)
    requires Inv(Any(h, Family(family)), r) && Grants(h) && r.options.enabled
    requires forall more :: Untracked(family + more)
    requires forall op :: Beginners(CoresOf(op), family, r.suffix) == Bit(p(op))
    ensures Tally(ApplyAll(h, r, ops).calls, Family(family)) == Tally(r.calls, Family(family)) + Number(ops, p)
  {
    hide Inv, Grants, Untracked, Beginners, CoresOf, Hits, Family, Tally, ApplyAll;
    FamilyIsPlain(family);
    forall op ensures Hits(CoresOf(op), Family(family), r.suffix) == Bit(p(op)) {
      FamilyHitsAll(family, CoresOf(op), r.suffix);
    }
    RunCounts(h, r, ops, Family(family), p);
  }

  /** The books of the registry after these operations. */
  ghost predicate Booked(r: Registry, ops: seq<Op>) {
    && Tally(r.calls, Total(TxTotalCore(), r.suffix)) == Number(ops, IsTotal())
    && Tally(r.calls, Total(TxAllowedCore(), r.suffix)) == Number(ops, IsAllowed())
    && Tally(r.calls, Total(MatchesCore(), r.suffix)) == Number(ops, IsMatch())
         == Tally(r.calls, Family(MatchesFamily()))
    && Tally(r.calls, Total(DisruptiveCore(), r.suffix)) == Number(ops, IsDisruptive())
         == Tally(r.calls, Family(DisruptiveFamily()))
    && Tally(r.calls, Family(InterruptionsFamily())) == Number(ops, IsInterruption())
  }

  lemma NothingCounted(h: Host, options: Options, q: string -> bool)
    requires Grants(h)
    ensures Tally(Configured(h, options, []).calls, q) == 0
  {
    hide RecordMemory, LabelSuffix;
    MemoryTally(h, Registry(options, LabelSuffix(options.labels), {}, 0, 0, 0, []), q);
  }

  lemma TotalBalances(h: Host, options: Options, ops: seq<Op>, core: string, p: Op -> bool)
    requires Grants(h) && options.enabled && forall suffix :: SafeSuffix(suffix) ==> Untracked(core + suffix)
    requires forall op :: Among(CoresOf(op), core) == Bit(p(op))
    ensures var r := ApplyAll(h, Configured(h, options, []), ops);
      Tally(r.calls, Total(core, r.suffix)) == Number(ops, p)
  {
    hide Configured, ApplyAll, Inv, Grants, Number, Tally, Total, Untracked, CoresOf, Among, SafeSuffix, LabelSuffix;
    hide FairTo;
    var r := Configured(h, options, []);
    var q := Total(core, r.suffix);
    AnyStarts(h, options, [], q);
    OpsKeep(Any(h, q), r, ops);
    SuffixIsSafe(options.labels);
    TotalCounts(h, r, ops, core, p);
    NothingCounted(h, options, Total(core, r.suffix));
  }

  /**
   * With a granting host, rule.matches is the number of matches and the sum of all its
   * phase and severity series; so it is for disruptive matches; the transaction counters are exact.
   */
  lemma BooksBalance(h: Host, options: Options, ops: seq<Op>)
    requires Grants(h) && options.enabled
    ensures Booked(ApplyAll(h, Configured(h, options, []), ops), ops)
  {
    hide Configured, ApplyAll, Grants, Number, Tally, Total, Family, Untracked, CoresOf, Among, SafeSuffix;
    hide TxTotalCore, TxAllowedCore, MatchesCore, DisruptiveCore, MatchesFamily, DisruptiveFamily, InterruptionsFamily;
    hide IsTotal, IsAllowed, IsMatch, IsDisruptive, IsInterruption;
    forall suffix ensures Untracked(TxTotalCore() + suffix) && Untracked(TxAllowedCore() + suffix)
                          && Untracked(DisruptiveCore() + suffix) {
      PlainWords(suffix);
      PlainFamilies(suffix);
    }
    forall suffix | SafeSuffix(suffix) ensures Untracked(MatchesCore() + suffix) {
      MatchesIsUntracked(suffix);
    }
    forall op { SingleHits(op); }
    TotalBalances(h, options, ops, TxTotalCore(), IsTotal());
    TotalBalances(h, options, ops, TxAllowedCore(), IsAllowed());
    TotalBalances(h, options, ops, MatchesCore(), IsMatch());
    TotalBalances(h, options, ops, DisruptiveCore(), IsDisruptive());
    SumsBalance(h, options, ops);
  }

  lemma SumsBalance(h: Host, options: Options, ops: seq<Op>)
    requires Grants(h) && options.enabled
    ensures var calls := ApplyAll(h, Configured(h, options, []), ops).calls;
      && Tally(calls, Family(MatchesFamily())) == Number(ops, IsMatch())
      && Tally(calls, Family(DisruptiveFamily())) == Number(ops, IsDisruptive())
      && Tally(calls, Family(InterruptionsFamily())) == Number(ops, IsInterruption())
  {
    var r := Configured(h, options, []);
    AnyStarts(h, options, [], Family(MatchesFamily()));
    AnyStarts(h, options, [], Family(DisruptiveFamily()));
    AnyStarts(h, options, [], Family(InterruptionsFamily()));
    SuffixIsSafe(options.labels);
    hide Configured, ApplyAll, Inv, Grants, Number, Tally, Family, Untracked, CoresOf, Beginners;
    hide MatchesFamily, DisruptiveFamily, InterruptionsFamily, SafeSuffix, LabelSuffix;
    forall more ensures Untracked(InterruptionsFamily() + more) && Untracked(MatchesFamily() + more)
                        && Untracked(DisruptiveFamily() + more) {
      PlainFamilies(more);
    }
    DifferentFamilies();
    forall op, family | family in [InterruptionsFamily(), MatchesFamily(), DisruptiveFamily()]
      ensures Beginners(CoresOf(op), family, r.suffix) == Bit(Wanted(family)(op))
    {
      FamilyHits(op, r.suffix, family);
    }
    FamilyCounts(h, r, ops, MatchesFamily(), Wanted(MatchesFamily()));
    FamilyCounts(h, r, ops, DisruptiveFamily(), Wanted(DisruptiveFamily()));
    FamilyCounts(h, r, ops, InterruptionsFamily(), Wanted(InterruptionsFamily()));
    NothingCounted(h, options, Family(MatchesFamily()));
    NothingCounted(h, options, Family(DisruptiveFamily()));
    NothingCounted(h, options, Family(InterruptionsFamily()));
  }

  /** The operations a family counts. */
  function Wanted(family: string): Op -> bool {
    if family == MatchesFamily() then IsMatch()
    else if family == DisruptiveFamily() then IsDisruptive()
    else IsInterruption()
  }
}
