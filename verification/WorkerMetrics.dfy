/** What a worker's streams do to its metrics, and what the counters then say about the streams. */
module WorkerMetrics {
  import opened Prelude
  import opened StreamModel
  import StreamInvariants
  import WorkerModel
  import MetricsModel
  import L = MetricsLedger
  import T = MetricsTotals
  import S = MetricsSeries

  type Op = MetricsModel.Op

  function NameOfPhase(phase: Phase): string {
    match phase
    case AtRequestHeaders => MetricsModel.PhaseName(0)
    case AtRequestBody => MetricsModel.PhaseName(1)
    case AtResponseHeaders => MetricsModel.PhaseName(2)
    case AtResponseBody => MetricsModel.PhaseName(3)
    case AtLogging => MetricsModel.PhaseName(4)
    case AtUnknown => MetricsModel.PhaseName(5)
  }

  /** The metrics operation behind an act of a stream, if there is one. */
  function OpsOfAct(a: Act): seq<Op> {
    match a
    case TxTotal => [MetricsModel.TxTotalOp]
    case TxAllowed => [MetricsModel.TxAllowedOp]
    case Recorded(m) => [MetricsModel.MatchOp(m.phase, m.severity, m.disruptive, m.ruleId, m.tags)]
    case Interrupted(phase, ruleId, _) => [MetricsModel.InterruptionOp(NameOfPhase(phase), ruleId)]
    case SanitizeCounted => [MetricsModel.SanitizedOp]
    case _ => []
  }

  function OpsOf(acts: seq<Act>): seq<Op> {
    if acts == [] then [] else OpsOfAct(acts[0]) + OpsOf(acts[1..])
  }

  lemma {:induction false} NumberConcat(a: seq<Op>, b: seq<Op>, p: Op -> bool)
    ensures T.Number(a + b, p) == T.Number(a, p) + T.Number(b, p)
  {
    if a == [] {
      assert a + b == b;
    } else {
      assert (a + b)[1..] == a[1..] + b;
      NumberConcat(a[1..], b, p);
    }
  }

  lemma NumberOfAct(a: Act)
    ensures T.Number(OpsOfAct(a), T.IsTotal()) == Bit(a == TxTotal)
    ensures T.Number(OpsOfAct(a), T.IsAllowed()) == Bit(a == TxAllowed)
    ensures T.Number(OpsOfAct(a), T.IsInterruption()) == Bit(a.Interrupted?)
    ensures T.Number(OpsOfAct(a), T.IsMatch()) == Bit(a.Recorded?)
  {
    hide NameOfPhase;
    NumberOfOne(OpsOfAct(a), T.IsTotal());
    NumberOfOne(OpsOfAct(a), T.IsAllowed());
    NumberOfOne(OpsOfAct(a), T.IsInterruption());
    NumberOfOne(OpsOfAct(a), T.IsMatch());
  }

  lemma NumberOfOne(ops: seq<Op>, p: Op -> bool)
    requires |ops| <= 1
    ensures T.Number(ops, p) == if ops == [] then 0 else Bit(p(ops[0]))
  {
    if ops != [] {
      assert ops[1..] == [];
    }
  }

  predicate IsRecord(a: Act) { a.Recorded? }

  /** Every act is counted by its own operation, as often as it happened. */
  lemma {:induction false} OpsCountActs(acts: seq<Act>)
    ensures var ops := OpsOf(acts);
      && T.Number(ops, T.IsTotal()) == StreamInvariants.Times(acts, TxTotal)
      && T.Number(ops, T.IsAllowed()) == StreamInvariants.Times(acts, TxAllowed)
      && T.Number(ops, T.IsInterruption()) == |Select(acts, WorkerModel.IsInterruption)|
      && T.Number(ops, T.IsMatch()) == |Select(acts, IsRecord)|
  {
    if acts != [] {
      var head, rest := OpsOfAct(acts[0]), OpsOf(acts[1..]);
      OpsCountActs(acts[1..]);
      hide OpsOf, OpsOfAct, T.Number;
      NumberOfAct(acts[0]);
      NumberConcat(head, rest, T.IsTotal());
      NumberConcat(head, rest, T.IsAllowed());
      NumberConcat(head, rest, T.IsInterruption());
      NumberConcat(head, rest, T.IsMatch());
      assert OpsOf(acts) == head + rest by { OpsOfMore(acts); }
      TimesOfMore(acts, TxTotal);
      TimesOfMore(acts, TxAllowed);
    }
  }

  lemma OpsOfMore(acts: seq<Act>)
    requires acts != []
    ensures OpsOf(acts) == OpsOfAct(acts[0]) + OpsOf(acts[1..])
  {
  }

  lemma TimesOfMore(acts: seq<Act>, a: Act)
    requires acts != []
    ensures StreamInvariants.Times(acts, a) == Bit(acts[0] == a) + StreamInvariants.Times(acts[1..], a)
  {
    assert acts == [acts[0]] + acts[1..];
  }

  /**
   * For any interleaving of any number of streams, the counters of a granting host satisfy
   * tx.total == tx.allowed + streams that ended interrupted + streams still open, the interruption
   * series add up to at least the number of interrupted streams, and rule.matches is the number of
   * matches recorded for the streams.
   */
  lemma CountersTellTheStreams(
      e: nat -> Engine, cfg: Config, evs: seq<WorkerModel.Event>, h: MetricsModel.Host, options: MetricsModel.Options)
    requires WorkerModel.LogOnly(e) && WorkerModel.AllowedAll(e, cfg, WorkerModel.IDLE, evs)
    requires L.Grants(h) && options.enabled
    ensures var w := WorkerModel.RunAll(e, cfg, WorkerModel.IDLE, evs);
      var r := MetricsModel.ApplyAll(h, MetricsModel.Configured(h, options, []), OpsOf(w.log));
      && L.Tally(r.calls, T.Total(MetricsModel.TxTotalCore(), r.suffix)) ==
           L.Tally(r.calls, T.Total(MetricsModel.TxAllowedCore(), r.suffix))
           + |WorkerModel.EndedInterrupted(w)| + |WorkerModel.Open(w)|
      && L.Tally(r.calls, T.Family(MetricsModel.InterruptionsFamily())) >= |WorkerModel.InterruptedStreams(w)|
      && L.Tally(r.calls, T.Total(MetricsModel.MatchesCore(), r.suffix)) == |Select(w.log, IsRecord)|
  {
    var w := WorkerModel.RunAll(e, cfg, WorkerModel.IDLE, evs);
    WorkerModel.EveryInterleaving(e, cfg, evs);
    hide WorkerModel.RunAll, WorkerModel.AllowedAll, MetricsModel.ApplyAll, MetricsModel.Configured, L.Tally;
    hide T.Total, T.Family, T.Number, L.Grants, WorkerModel.Attributed, OpsOf, Select, StreamInvariants.Times;
    OpsCountActs(w.log);
    T.BooksBalance(h, options, OpsOf(w.log));
  }

  /** The series of each act, by the names of a dashboard. */
  function EntriesOfAct(o: MetricsModel.Options, tx: nat, a: Act): seq<S.Entry> {
    match a
    case TxTotal => S.Entries(o, tx, MetricsModel.TxTotalOp)
    case TxAllowed => if o.enabled then [S.Counter("tx.allowed")] else []
    case SanitizeCounted => if o.enabled then [S.Counter("response_body.sanitized")] else []
    case Recorded(m) => S.Entries(o, tx, MetricsModel.MatchOp(m.phase, m.severity, m.disruptive, m.ruleId, m.tags))
    case Interrupted(phase, ruleId, _) =>
      var name :=
        match phase
        case AtRequestHeaders => "http_request_headers"
        case AtRequestBody => "http_request_body"
        case AtResponseHeaders => "http_response_headers"
        case AtResponseBody => "http_response_body"
        case AtLogging => "http_logging"
        case AtUnknown => "unknown";
      if !o.enabled then []
      else
        [S.Counter("tx.interruptions_phase=" + name)] + S.RuleEntries(o, "tx.interruptions_ruleid=", ruleId, name, true)
    case _ => []
  }

  function EntriesOfActs(o: MetricsModel.Options, tx: nat, acts: seq<Act>): seq<S.Entry>
    decreases |acts|
  {
    if acts == [] then []
    else
      EntriesOfAct(o, tx, acts[0])
      + EntriesOfActs(o, if acts[0] == TxTotal then (tx + 1) % 0x1_0000_0000_0000_0000 else tx, acts[1..])
  }

  /** What streams do is counted, act by act, in the series of its own phase, rule and tags. */
  lemma {:induction false} SeriesOfActs(o: MetricsModel.Options, tx: nat, acts: seq<Act>)
    ensures S.AllEntries(o, tx, OpsOf(acts)) == EntriesOfActs(o, tx, acts)
    decreases |acts|
  {
    hide S.Entries, S.RuleEntries;
    if acts != [] {
      var ops, rest := OpsOfAct(acts[0]), OpsOf(acts[1..]);
      var next := if acts[0] == TxTotal then (tx + 1) % 0x1_0000_0000_0000_0000 else tx;
      SeriesOfActs(o, next, acts[1..]);
      SeriesOfAct(o, tx, acts[0]);
      if ops == [] {
        assert ops + rest == rest;
      } else {
        assert (ops + rest)[0] == ops[0] && (ops + rest)[1..] == rest;
      }
    }
  }

  lemma SeriesOfAct(o: MetricsModel.Options, tx: nat, a: Act)
    ensures EntriesOfAct(o, tx, a) == if OpsOfAct(a) == [] then [] else S.Entries(o, tx, OpsOfAct(a)[0])
  {
    hide S.RuleEntries;
  }
}
