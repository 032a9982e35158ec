/**
 * Laws of a trace, for every engine and every sequence of callbacks, legal or not: which status a verdict has
 * and which one a local reply, after what each of them comes, and what the export list says of the trace.
 */
module StreamLaws {
  import opened Prelude
  import opened StreamModel

  // ---------------------------------------------------------------------------
  // The laws
  // ---------------------------------------------------------------------------

  /** The status of a verdict: the configured one, if that is a status, or else the engine's own. */
  function BlockStatus(configured: int, engine: int): int {
    if configured < 100 || configured > 599 then engine else configured
  }

  /** What a client is told of a verdict: its status, or 403 when that is none. */
  function ToldStatus(status: int): int {
    if status < 100 || status > 599 then 403 else status
  }

  /** The last disruptive rule that was recorded; 0 before the first. */
  function LastDisruptiveOf(trace: seq<Act>): int {
    if trace == [] then 0
    else
      var last := trace[|trace| - 1];
      if last.Recorded? && last.m.disruptive then last.m.ruleId else LastDisruptiveOf(trace[..|trace| - 1])
  }

  /**
   * A verdict comes right after the question, whenever the engine has one, with the last disruptive rule and
   * its own or the configured status; a local reply comes right after a verdict with a status, and repeats it.
   */
  ghost predicate LawAt(e: Engine, cfg: Config, trace: seq<Act>, i: nat)
    requires i < |trace|
  {
    match trace[i]
    case Interrupted(_, ruleId, status) =>
      && i > 0 && trace[i - 1] == Engine(AskIntervention) && e(trace[..i]).verdict.Some?
      && status == BlockStatus(cfg.blockStatus, e(trace[..i]).verdict.value.status)
      && ruleId == LastDisruptiveOf(trace[..i])
    case Engine(AskIntervention) =>
      e(trace[..i + 1]).verdict.Some? ==> i + 1 < |trace| && trace[i + 1].Interrupted?
    case BlockReply(status) =>
      i > 0 && trace[i - 1].Interrupted? && trace[i - 1].status != 0 && status == ToldStatus(trace[i - 1].status)
    case _ => true
  }

  ghost predicate Law(e: Engine, cfg: Config, trace: seq<Act>) {
    forall i: nat :: i < |trace| ==> LawAt(e, cfg, trace, i)
  }

  // ---------------------------------------------------------------------------
  // The export list
  // ---------------------------------------------------------------------------

  function First(s: string, n: nat): string { s[..if |s| < n then |s| else n] }

  /** The phase that a rule of this engine phase is told for. */
  function PhaseOfRule(phase: int): Phase {
    match phase
    case 0 => AtRequestHeaders
    case 1 => AtRequestBody
    case 2 => AtResponseHeaders
    case 3 => AtResponseBody
    case 4 => AtLogging
    case _ => AtUnknown
  }

  /** An entry for each recorded match and each verdict, in order. */
  function Entries(e: Engine, trace: seq<Act>): seq<ExportMatch> {
    if trace == [] then []
    else
      var before := trace[..|trace| - 1];
      Entries(e, before) +
        match trace[|trace| - 1]
        case Recorded(m) =>
          [ExportMatch(RuleMatchEvent, m.ruleId, PhaseOfRule(m.phase), m.severity, m.disruptive,
                       First(m.msg, 256), First(m.data, 180))]
        case Interrupted(phase, ruleId, _) =>
          var log := if e(before).verdict.Some? then e(before).verdict.value.log else "";
          [ExportMatch(TxInterruptEvent, ruleId, phase, -1, true, First(log, 256), "")]
        case _ => []
  }

  /** The last disruptive entry, or the first entry if none is. */
  function Sixteenth(entries: seq<ExportMatch>): ExportMatch
    requires entries != []
  {
    var last := entries[|entries| - 1];
    if |entries| == 1 || last.disruptive then last else Sixteenth(entries[..|entries| - 1])
  }

  /** At most sixteen: the first fifteen, and then the latest disruptive one, or the sixteenth if none came since. */
  function Shown(entries: seq<ExportMatch>): seq<ExportMatch> {
    if |entries| < 16 then entries else entries[..15] + [Sixteenth(entries[15..])]
  }

  /** The trace obeys the laws, and the stream remembers of it what it should. */
  ghost predicate Lawful(e: Engine, cfg: Config, st: Stream) {
    && Law(e, cfg, st.trace)
    && st.lastDisruptive == LastDisruptiveOf(st.trace)
    && st.exports == Shown(Entries(e, st.trace))
  }

  // ---------------------------------------------------------------------------
  // One act more
  // ---------------------------------------------------------------------------

  /** Acts that the laws say nothing of by themselves. */
  predicate IsFree(a: Act) {
    !a.Interrupted? && !a.BlockReply? && a != Engine(AskIntervention)
  }

  lemma LawMore(e: Engine, cfg: Config, trace: seq<Act>, a: Act)
    requires Law(e, cfg, trace) && LawAt(e, cfg, trace + [a], |trace|)
    ensures Law(e, cfg, trace + [a])
  {
    hide LastDisruptiveOf;
    var more := trace + [a];
    forall i: nat | i < |more| ensures LawAt(e, cfg, more, i) {
      if i < |trace| {
        assert LawAt(e, cfg, trace, i);
        assert more[..i] == trace[..i] && more[..i + 1] == trace[..i + 1];
      }
    }
  }

  lemma StashShows(entries: seq<ExportMatch>, m: ExportMatch, last: int)
    requires m.disruptive ==> last == m.ruleId
    ensures Stash(Shown(entries), m, last) == Shown(entries + [m])
  {
    var more := entries + [m];
    if |entries| >= 16 {
      assert more[15..] == entries[15..] + [m];
      assert (entries[15..] + [m])[..|entries[15..]|] == entries[15..];
      assert more[..15] == entries[..15];
    } else if |entries| == 15 {
      assert more[15..] == [m] && more[..15] == entries;
    }
  }

  lemma EntriesMore(e: Engine, trace: seq<Act>, a: Act)
    ensures Entries(e, trace + [a]) == Entries(e, trace) +
      match a
      case Recorded(m) =>
        [ExportMatch(RuleMatchEvent, m.ruleId, PhaseOfRule(m.phase), m.severity, m.disruptive,
                     First(m.msg, 256), First(m.data, 180))]
      case Interrupted(phase, ruleId, _) =>
        var log := if e(trace).verdict.Some? then e(trace).verdict.value.log else "";
        [ExportMatch(TxInterruptEvent, ruleId, phase, -1, true, First(log, 256), "")]
      case _ => []
    ensures LastDisruptiveOf(trace + [a]) ==
      if a.Recorded? && a.m.disruptive then a.m.ruleId else LastDisruptiveOf(trace)
  {
    assert (trace + [a])[..|trace|] == trace;
  }

  lemma FreeLawful(e: Engine, cfg: Config, st: Stream, a: Act)
    requires Lawful(e, cfg, st) && IsFree(a) && !a.Recorded?
    ensures Lawful(e, cfg, Emit(st, a))
  {
    hide Law, Entries, LastDisruptiveOf, Shown;
    assert LawAt(e, cfg, st.trace + [a], |st.trace|);
    LawMore(e, cfg, st.trace, a);
    EntriesMore(e, st.trace, a);
    assert Entries(e, st.trace) + [] == Entries(e, st.trace);
  }

  lemma RecordLawful(e: Engine, cfg: Config, st: Stream, m: RuleMessage)
    requires Lawful(e, cfg, st)
    ensures Lawful(e, cfg, Record(st, m))
  {
    hide Law, Entries, LastDisruptiveOf, Shown, Stash, PhaseOfRule, CatalogPhase;
    assert LawAt(e, cfg, st.trace + [Recorded(m)], |st.trace|);
    LawMore(e, cfg, st.trace, Recorded(m));
    EntriesMore(e, st.trace, Recorded(m));
    SameEntry(m);
    StashShows(Entries(e, st.trace), RuleMatchEntry(m), Record(st, m).lastDisruptive);
  }

  lemma SameEntry(m: RuleMessage)
    ensures RuleMatchEntry(m) ==
      ExportMatch(RuleMatchEvent, m.ruleId, PhaseOfRule(m.phase), m.severity, m.disruptive,
                  First(m.msg, 256), First(m.data, 180))
  {
    SamePrefix(m.msg, 256);
    SamePrefix(m.data, 180);
  }

  lemma SamePrefix(s: string, n: nat)
    ensures Prefix(s, n) == First(s, n)
  {
    assert s[..|s|] == s;
  }

  lemma {:induction false} RecordAllLawful(e: Engine, cfg: Config, st: Stream, ms: seq<RuleMessage>)
    requires Lawful(e, cfg, st)
    ensures Lawful(e, cfg, RecordAll(st, ms))
    decreases |ms|
  {
    hide Lawful, Record;
    if ms != [] {
      RecordLawful(e, cfg, st, ms[0]);
      RecordAllLawful(e, cfg, Record(st, ms[0]), ms[1..]);
    }
  }

  lemma {:induction false} MisdeliveriesLawful(e: Engine, cfg: Config, st: Stream, ms: seq<RuleMessage>)
    requires Lawful(e, cfg, st)
    ensures Lawful(e, cfg, st.(trace := st.trace + Misdeliveries(ms)))
    decreases |ms|
  {
    hide Lawful;
    if ms == [] {
      assert st.trace + Misdeliveries(ms) == st.trace;
    } else {
      FreeLawful(e, cfg, st, Misdelivered(ms[0]));
      MisdeliveriesLawful(e, cfg, Emit(st, Misdelivered(ms[0])), ms[1..]);
      assert st.trace + Misdeliveries(ms) == st.trace + [Misdelivered(ms[0])] + Misdeliveries(ms[1..]);
    }
  }

  lemma SetLawful(e: Engine, cfg: Config, st: Stream, r: Stream)
    requires Lawful(e, cfg, st)
    requires r.trace == st.trace && r.lastDisruptive == st.lastDisruptive && r.exports == st.exports
    ensures Lawful(e, cfg, r)
  {
    hide Law, Entries, LastDisruptiveOf, Shown;
  }

  lemma CallLawful(e: Engine, cfg: Config, st: Stream, call: EngineCall)
    requires Lawful(e, cfg, st) && !call.AskIntervention?
    ensures Lawful(e, cfg, Call(e, st, call))
  {
    hide Lawful;
    var called := Emit(st, Engine(call));
    var r := e(called.trace);
    var grown := called.(messages := called.messages + r.appended);
    FreeLawful(e, cfg, st, Engine(call));
    SetLawful(e, cfg, called, grown);
    RecordAllLawful(e, cfg, grown, r.logged);
    MisdeliveriesLawful(e, cfg, grown, r.logged);
  }

  lemma FlushLawful(e: Engine, cfg: Config, st: Stream)
    requires Lawful(e, cfg, st)
    ensures Lawful(e, cfg, FlushNewRuleMessages(st))
  {
    hide Lawful;
    var all := RecordAll(st, Disruptive(Unseen(st.messages, st.seen)));
    RecordAllLawful(e, cfg, st, Disruptive(Unseen(st.messages, st.seen)));
    SetLawful(e, cfg, all, all.(seen := |st.messages|));
  }

  /** The last act is a verdict with this status. */
  predicate EndsStruck(st: Stream, status: int) {
    st.trace != [] && st.trace[|st.trace| - 1].Interrupted? && st.trace[|st.trace| - 1].status == status
  }

  lemma QuestionLaw(e: Engine, cfg: Config, trace: seq<Act>, a: Act)
    requires Law(e, cfg, trace) && a.Interrupted?
    requires LawAt(e, cfg, trace + [Engine(AskIntervention)] + [a], |trace| + 1)
    ensures Law(e, cfg, trace + [Engine(AskIntervention)] + [a])
  {
    hide LastDisruptiveOf;
    var more := trace + [Engine(AskIntervention)] + [a];
    forall i: nat | i < |more| ensures LawAt(e, cfg, more, i) {
      if i < |trace| {
        assert LawAt(e, cfg, trace, i);
        assert more[..i] == trace[..i] && more[..i + 1] == trace[..i + 1];
      }
    }
  }

  /** A verdict keeps the laws. */
  lemma StruckLawful(e: Engine, cfg: Config, st: Stream, phase: Phase, v: Verdict)
    requires Lawful(e, cfg, st) && e(Emit(st, Engine(AskIntervention)).trace).verdict == Some(v)
    ensures var status := EffectiveStatus(cfg, v.status);
      var entry := ExportMatch(TxInterruptEvent, st.lastDisruptive, phase, -1, true, Prefix(v.log, 256), "");
      var asked := Emit(st, Engine(AskIntervention));
      Lawful(e, cfg, Emit(asked, Interrupted(phase, st.lastDisruptive, status)).(
        interrupted := true, exports := Stash(st.exports, entry, st.lastDisruptive)))
  {
    hide Law, Entries, LastDisruptiveOf, Shown, Stash, Prefix, First, LawAt, EffectiveStatus;
    var ask := Engine(AskIntervention);
    var asked := Emit(st, ask);
    var a := Interrupted(phase, st.lastDisruptive, EffectiveStatus(cfg, v.status));
    var entry := ExportMatch(TxInterruptEvent, st.lastDisruptive, phase, -1, true, Prefix(v.log, 256), "");
    EntriesMore(e, st.trace, ask);
    assert Entries(e, st.trace) + [] == Entries(e, st.trace);
    VerdictLawAt(e, cfg, st.trace, a);
    QuestionLaw(e, cfg, st.trace, a);
    EntriesMore(e, asked.trace, a);
    SamePrefix(v.log, 256);
    StashShows(Entries(e, asked.trace), entry, st.lastDisruptive);
  }

  lemma UnansweredLawful(e: Engine, cfg: Config, st: Stream)
    requires Lawful(e, cfg, st) && e(Emit(st, Engine(AskIntervention)).trace).verdict.None?
    ensures Lawful(e, cfg, Emit(st, Engine(AskIntervention)))
  {
    hide Law, Entries, LastDisruptiveOf, Shown;
    NoVerdictLaw(e, cfg, st.trace);
    EntriesMore(e, st.trace, Engine(AskIntervention));
    assert Entries(e, st.trace) + [] == Entries(e, st.trace);
  }

  /** Asking keeps the laws; a verdict ends the trace with its status. */
  lemma VerdictLawful(e: Engine, cfg: Config, st: Stream, phase: Phase)
    requires Lawful(e, cfg, st)
    ensures var (r, s) := ProcessIntervention(e, cfg, st, phase);
      Lawful(e, cfg, r) && (s != 0 ==> EndsStruck(r, s))
  {
    hide Lawful, FlushNewRuleMessages, Prefix, Stash, EffectiveStatus;
    var flushed := FlushNewRuleMessages(st);
    FlushLawful(e, cfg, st);
    var verdict := e(Emit(flushed, Engine(AskIntervention)).trace).verdict;
    if verdict.None? {
      UnansweredLawful(e, cfg, flushed);
    } else {
      StruckLawful(e, cfg, flushed, phase, verdict.value);
    }
  }

  lemma NoVerdictLaw(e: Engine, cfg: Config, trace: seq<Act>)
    requires Law(e, cfg, trace) && e(trace + [Engine(AskIntervention)]).verdict.None?
    ensures Law(e, cfg, trace + [Engine(AskIntervention)])
  {
    hide Law;
    var more := trace + [Engine(AskIntervention)];
    assert more[..|trace| + 1] == more;
    LawMore(e, cfg, trace, Engine(AskIntervention));
  }

  lemma VerdictLawAt(e: Engine, cfg: Config, trace: seq<Act>, a: Act)
    requires a.Interrupted? && e(trace + [Engine(AskIntervention)]).verdict.Some?
    requires a.status == EffectiveStatus(cfg, e(trace + [Engine(AskIntervention)]).verdict.value.status)
    requires a.ruleId == LastDisruptiveOf(trace + [Engine(AskIntervention)])
    ensures LawAt(e, cfg, trace + [Engine(AskIntervention)] + [a], |trace| + 1)
  {
    hide LastDisruptiveOf;
    var asked := trace + [Engine(AskIntervention)];
    assert (asked + [a])[..|trace| + 1] == asked;
  }

  lemma BlockLawful(e: Engine, cfg: Config, st: Stream, status: int)
    requires Lawful(e, cfg, st) && EndsStruck(st, status) && status != 0
    ensures Lawful(e, cfg, SendBlockResponse(st, status))
  {
    hide Law, Entries, LastDisruptiveOf, Shown;
    var a := SendBlockResponse(st, status).trace[|st.trace|];
    assert (st.trace + [a])[|st.trace| - 1] == st.trace[|st.trace| - 1];
    assert LawAt(e, cfg, st.trace + [a], |st.trace|);
    LawMore(e, cfg, st.trace, a);
    EntriesMore(e, st.trace, a);
    assert Entries(e, st.trace) + [] == Entries(e, st.trace);
  }

  // ---------------------------------------------------------------------------
  // The callbacks keep the laws
  // ---------------------------------------------------------------------------

  lemma LoggingLawful(e: Engine, cfg: Config, st: Stream)
    requires Lawful(e, cfg, st)
    ensures Lawful(e, cfg, RunLoggingPhaseIfNeeded(e, st))
  {
    hide Lawful, Call;
    var live := st.(active := true);
    SetLawful(e, cfg, st, live);
    CallLawful(e, cfg, live, ProcessLogging);
    var ran := Call(e, live, ProcessLogging);
    RecordAllLawful(e, cfg, ran, Unseen(ran.messages, st.seen));
    var all := RecordAll(ran, Unseen(ran.messages, st.seen));
    SetLawful(e, cfg, all, all.(seen := |ran.messages|, loggingDone := true));
  }

  lemma SanitizeLawful(e: Engine, cfg: Config, st: Stream, length: nat)
    requires Lawful(e, cfg, st)
    ensures Lawful(e, cfg, SanitizeInterruptedResponseBody(st, length))
  {
    hide Lawful;
    FreeLawful(e, cfg, st, SanitizeCounted);
    var counted := if st.responseInterrupted then st else Emit(st, SanitizeCounted);
    FreeLawful(e, cfg, counted, BodyReplaced(length));
    var replaced := if length > 0 then Emit(counted, BodyReplaced(length)) else counted;
    SetLawful(e, cfg, replaced, replaced.(responseInterrupted := true));
  }

  /** Asking, and replying to a verdict with a status. */
  lemma AskLawful(e: Engine, cfg: Config, st: Stream, phase: Phase)
    requires Lawful(e, cfg, st)
    ensures var (r, s) := ProcessIntervention(e, cfg, st, phase);
      Lawful(e, cfg, r) && (s != 0 ==> Lawful(e, cfg, SendBlockResponse(r, s)))
  {
    hide Lawful, ProcessIntervention, SendBlockResponse;
    VerdictLawful(e, cfg, st, phase);
    var (r, s) := ProcessIntervention(e, cfg, st, phase);
    if s != 0 {
      BlockLawful(e, cfg, r, s);
    }
  }

  lemma RequestPhaseLawful(e: Engine, cfg: Config, st: Stream, received: nat)
    requires Lawful(e, cfg, st)
    ensures var ran := RunRequestBodyPhase(e, st).(requestReceived := received);
      var (r, s) := ProcessIntervention(e, cfg, ran, AtRequestBody);
      && Lawful(e, cfg, r) && Lawful(e, cfg, RunLoggingPhaseIfNeeded(e, r))
      && (s != 0 ==> Lawful(e, cfg, SendBlockResponse(r, s)))
  {
    hide Lawful, Call, ProcessIntervention, SendBlockResponse, RunLoggingPhaseIfNeeded;
    CallLawful(e, cfg, st, ProcessRequestBody);
    var called := Call(e, st, ProcessRequestBody);
    var ran := RunRequestBodyPhase(e, st).(requestReceived := received);
    SetLawful(e, cfg, called, ran);
    AskLawful(e, cfg, ran, AtRequestBody);
    LoggingLawful(e, cfg, ProcessIntervention(e, cfg, ran, AtRequestBody).0);
  }

  lemma FinalizeLawful(e: Engine, cfg: Config, st: Stream)
    requires Lawful(e, cfg, st)
    ensures Lawful(e, cfg, FinalizeResponseBodyPhase(e, st))
  {
    hide Lawful, Call;
    CallLawful(e, cfg, st, ProcessResponseBody);
    var ran := Call(e, st, ProcessResponseBody);
    SetLawful(e, cfg, ran, ran.(responseProcessed := true, responseReceived := 0));
  }

  lemma AppendLawful(e: Engine, cfg: Config, st: Stream, size: nat, got: Option<Bytes>)
    requires Lawful(e, cfg, st)
    ensures Lawful(e, cfg, AppendRequest(e, cfg, st, size, got)) && Lawful(e, cfg, AppendResponse(e, st, size, got))
  {
    hide Lawful, Call;
    SetLawful(e, cfg, st, st.(requestReceived := size));
    SetLawful(e, cfg, st, st.(responseReceived := size));
    if got.Some? {
      CallLawful(e, cfg, st, AppendRequestBody(FoldIf(cfg, got.value)));
      CallLawful(e, cfg, st, AppendResponseBody(got.value));
      var a, b := Call(e, st, AppendRequestBody(FoldIf(cfg, got.value))), Call(e, st, AppendResponseBody(got.value));
      SetLawful(e, cfg, a, a.(requestReceived := a.requestReceived + |got.value|));
      SetLawful(e, cfg, b, b.(responseReceived := b.responseReceived + |got.value|));
    }
  }

  lemma {:induction false} HeadersLawful(e: Engine, cfg: Config, st: Stream, headers: seq<Header>)
    requires Lawful(e, cfg, st)
    ensures Lawful(e, cfg, AddRequestHeaders(e, cfg, st, headers))
    ensures Lawful(e, cfg, AddResponseHeaders(e, st, headers))
    decreases |headers|
  {
    hide Lawful, Call;
    if headers != [] {
      var request := AddRequestHeader(headers[0].0, FoldIf(cfg, headers[0].1));
      var response := AddResponseHeader(headers[0].0, headers[0].1);
      CallLawful(e, cfg, st, request);
      CallLawful(e, cfg, st, response);
      HeadersLawful(e, cfg, Call(e, st, request), headers[1..]);
      HeadersLawful(e, cfg, Call(e, st, response), headers[1..]);
    }
  }

  lemma OnRequestHeadersLawful(e: Engine, cfg: Config, st: Stream, head: RequestHead)
    requires Lawful(e, cfg, st)
    ensures Lawful(e, cfg, OnRequestHeaders(e, cfg, st, head).0)
  {
    hide Lawful, Call, ProcessIntervention, SendBlockResponse, StartRequest;
    var live := st.(active := true, transaction := true);
    var open := Emit(live, TxTotal);
    SetLawful(e, cfg, st, live);
    FreeLawful(e, cfg, live, TxTotal);
    CallLawful(e, cfg, open, ProcessConnection);
    var called := Call(e, open, ProcessConnection);
    AskLawful(e, cfg, called, AtRequestHeaders);
    StartLawful(e, cfg, ProcessIntervention(e, cfg, called, AtRequestHeaders).0, head);
  }

  lemma StartLawful(e: Engine, cfg: Config, st: Stream, head: RequestHead)
    requires Lawful(e, cfg, st)
    ensures Lawful(e, cfg, StartRequest(e, cfg, st, head).0)
  {
    hide Lawful, Call, ProcessIntervention, SendBlockResponse, EndRequestHeaders, AddRequestHeaders;
    var call := ProcessURI(FoldIf(cfg, head.path), head.verb);
    CallLawful(e, cfg, st, call);
    AskLawful(e, cfg, Call(e, st, call), AtRequestHeaders);
    var st2 := ProcessIntervention(e, cfg, Call(e, st, call), AtRequestHeaders).0;
    HeadersLawful(e, cfg, st2, head.headers);
    var added := AddRequestHeaders(e, cfg, st2, head.headers);
    if head.host.Some? {
      CallLawful(e, cfg, added, AddRequestHeader(HOST, head.host.value));
    }
    EndHeadersLawful(e, cfg, HostedHeaders(e, cfg, st2, head), head);
  }

  lemma EndHeadersLawful(e: Engine, cfg: Config, st: Stream, head: RequestHead)
    requires Lawful(e, cfg, st)
    ensures Lawful(e, cfg, EndRequestHeaders(e, cfg, st, head).0)
  {
    hide Lawful, Call, ProcessIntervention, SendBlockResponse, RunRequestBodyPhase, RunLoggingPhaseIfNeeded;
    AskLawful(e, cfg, st, AtRequestHeaders);
    var st3 := ProcessIntervention(e, cfg, st, AtRequestHeaders).0;
    CallLawful(e, cfg, st3, ProcessRequestHeaders);
    var called := Call(e, st3, ProcessRequestHeaders);
    AskLawful(e, cfg, called, AtRequestHeaders);
    var st4 := ProcessIntervention(e, cfg, called, AtRequestHeaders).0;
    var ran := RunRequestBodyPhase(e, st4);
    RequestPhaseLawful(e, cfg, st4, ran.requestReceived);
    assert ran.(requestReceived := ran.requestReceived) == ran;
  }

  lemma RestLawful(
      e: Engine, cfg: Config, st: Stream, length: nat, got: Option<Bytes>, eos: bool, buffered: Option<nat>)
    requires Lawful(e, cfg, st)
    ensures Lawful(e, cfg, OnRequestBody(e, cfg, st, length, got, eos).0)
    ensures Lawful(e, cfg, OnRequestTrailers(e, cfg, st, buffered, got).0)
  {
    hide Lawful, Call, AppendRequest, ProcessIntervention, SendBlockResponse, RunRequestBodyPhase;
    hide RunLoggingPhaseIfNeeded;
    var live := st.(active := true);
    SetLawful(e, cfg, st, live);
    AppendLawful(e, cfg, live, length, got);
    RequestPhaseLawful(e, cfg, AppendRequest(e, cfg, live, length, got), 0);
    if buffered.Some? {
      AppendLawful(e, cfg, live, buffered.value, got);
    }
    var fed := if buffered.Some? then AppendRequest(e, cfg, live, buffered.value, got) else live;
    RequestPhaseLawful(e, cfg, fed, 0);
  }

  lemma OnResponseHeadersLawful(e: Engine, cfg: Config, st: Stream, head: ResponseHead)
    requires Lawful(e, cfg, st)
    ensures Lawful(e, cfg, OnResponseHeaders(e, cfg, st, head).0)
  {
    hide Lawful, Call, ProcessIntervention, SendBlockResponse, RunRequestBodyPhase, OnResponseHeaderList;
    var live := st.(active := true);
    SetLawful(e, cfg, st, live);
    var ran := RunRequestBodyPhase(e, live);
    RequestPhaseLawful(e, cfg, live, ran.requestReceived);
    assert ran.(requestReceived := ran.requestReceived) == ran;
    ListLawful(e, cfg, live, head);
    ListLawful(e, cfg, ProcessIntervention(e, cfg, ran, AtRequestBody).0, head);
  }

  lemma ListLawful(e: Engine, cfg: Config, st: Stream, head: ResponseHead)
    requires Lawful(e, cfg, st)
    ensures Lawful(e, cfg, OnResponseHeaderList(e, cfg, st, head).0)
  {
    hide Lawful, Call, ProcessIntervention, SendBlockResponse, AddResponseHeaders, FinalizeResponseBodyPhase;
    hide RunLoggingPhaseIfNeeded;
    HeadersLawful(e, cfg, st, head.headers);
    var added := AddResponseHeaders(e, st, head.headers);
    CallLawful(e, cfg, added, ProcessResponseHeaders(head.code));
    var called := Call(e, added, ProcessResponseHeaders(head.code));
    AskLawful(e, cfg, called, AtResponseHeaders);
    var st2 := ProcessIntervention(e, cfg, called, AtResponseHeaders).0;
    CallLawful(e, cfg, st2, AppendResponseBody([0]));
    var fed := Call(e, st2, AppendResponseBody([0]));
    AskLawful(e, cfg, fed, AtResponseBody);
    var st3 := ProcessIntervention(e, cfg, fed, AtResponseBody).0;
    FinalizeLawful(e, cfg, st3);
    AskLawful(e, cfg, FinalizeResponseBodyPhase(e, st3), AtResponseBody);
    LoggingLawful(e, cfg, ProcessIntervention(e, cfg, FinalizeResponseBodyPhase(e, st3), AtResponseBody).0);
  }

  lemma StruckBodyLawful(e: Engine, cfg: Config, st: Stream, length: nat)
    requires Lawful(e, cfg, st)
    ensures Lawful(e, cfg, SanitizeInterruptedResponseBody(st.(responseProcessed := true), length))
  {
    hide Lawful, SanitizeInterruptedResponseBody;
    SetLawful(e, cfg, st, st.(responseProcessed := true));
    SanitizeLawful(e, cfg, st.(responseProcessed := true), length);
  }

  lemma FinalLawful(e: Engine, cfg: Config, st: Stream, length: nat)
    requires Lawful(e, cfg, st)
    ensures var (r, s) := ProcessIntervention(e, cfg, FinalizeResponseBodyPhase(e, st), AtResponseBody);
      && Lawful(e, cfg, r) && Lawful(e, cfg, SanitizeInterruptedResponseBody(r, length))
      && Lawful(e, cfg, RunLoggingPhaseIfNeeded(e, r))
      && Lawful(e, cfg, RunLoggingPhaseIfNeeded(e, SanitizeInterruptedResponseBody(r, length)))
  {
    hide Lawful, ProcessIntervention, FinalizeResponseBodyPhase, SanitizeInterruptedResponseBody;
    hide RunLoggingPhaseIfNeeded;
    FinalizeLawful(e, cfg, st);
    VerdictLawful(e, cfg, FinalizeResponseBodyPhase(e, st), AtResponseBody);
    var r := ProcessIntervention(e, cfg, FinalizeResponseBodyPhase(e, st), AtResponseBody).0;
    SanitizeLawful(e, cfg, r, length);
    LoggingLawful(e, cfg, r);
    LoggingLawful(e, cfg, SanitizeInterruptedResponseBody(r, length));
  }

  lemma OnResponseBodyLawful(e: Engine, cfg: Config, st: Stream, length: nat, got: Option<Bytes>, eos: bool)
    requires Lawful(e, cfg, st)
    ensures Lawful(e, cfg, OnResponseBody(e, cfg, st, length, got, eos).0)
  {
    hide Lawful, AppendResponse, ProcessIntervention, SanitizeInterruptedResponseBody, FinalizeResponseBodyPhase;
    hide RunLoggingPhaseIfNeeded;
    var live := st.(active := true);
    SetLawful(e, cfg, st, live);
    SanitizeLawful(e, cfg, live, length);
    AppendLawful(e, cfg, live, length, got);
    var fed := AppendResponse(e, live, length, got);
    VerdictLawful(e, cfg, fed, AtResponseBody);
    var st1 := ProcessIntervention(e, cfg, fed, AtResponseBody).0;
    StruckBodyLawful(e, cfg, st1, length);
    FinalLawful(e, cfg, st1, length);
    FinalLawful(e, cfg, fed, length);
  }

  lemma OnResponseTrailersLawful(e: Engine, cfg: Config, st: Stream, buffered: Option<nat>, got: Option<Bytes>)
    requires Lawful(e, cfg, st)
    ensures Lawful(e, cfg, OnResponseTrailers(e, cfg, st, buffered, got).0)
  {
    hide Lawful, AppendResponse, ProcessIntervention, SanitizeInterruptedResponseBody, FinalizeResponseBodyPhase;
    hide RunLoggingPhaseIfNeeded;
    var live := st.(active := true);
    var size := if buffered.Some? then buffered.value else 0;
    SetLawful(e, cfg, st, live);
    SanitizeLawful(e, cfg, live, size);
    AppendLawful(e, cfg, live, size, got);
    var fed := AppendResponse(e, live, size, got);
    VerdictLawful(e, cfg, fed, AtResponseBody);
    var st1 := ProcessIntervention(e, cfg, fed, AtResponseBody).0;
    StruckBodyLawful(e, cfg, st1, size);
    FinalLawful(e, cfg, st1, size);
  }

  lemma OnDeleteLawful(e: Engine, cfg: Config, st: Stream)
    requires Lawful(e, cfg, st)
    ensures Lawful(e, cfg, OnDelete(e, cfg, st))
  {
    hide Lawful, ProcessIntervention, RunRequestBodyPhase, FinalizeResponseBodyPhase, RunLoggingPhaseIfNeeded;
    var live := st.(active := true);
    SetLawful(e, cfg, st, st.(active := false));
    SetLawful(e, cfg, st, live);
    var ran := RunRequestBodyPhase(e, live);
    RequestPhaseLawful(e, cfg, live, ran.requestReceived);
    assert ran.(requestReceived := ran.requestReceived) == ran;
    var st1 := if live.requestProcessed then live else ProcessIntervention(e, cfg, ran, AtRequestBody).0;
    LoggingLawful(e, cfg, st1);
    FinalLawful(e, cfg, st1, 0);
    var done := FinishPhases(e, cfg, live);
    assert Lawful(e, cfg, done);
    FreeLawful(e, cfg, done, TxAllowed);
    var told := if done.interrupted then done else Emit(done, TxAllowed);
    SetLawful(e, cfg, told, told.(active := false, transaction := false));
  }

  lemma HandleLawful(e: Engine, cfg: Config, st: Stream, cb: Callback)
    requires Lawful(e, cfg, st)
    ensures Lawful(e, cfg, Handle(e, cfg, st, cb).0)
  {
    hide Lawful, OnRequestHeaders, OnRequestBody, OnRequestTrailers, OnResponseHeaders, OnResponseBody;
    hide OnResponseTrailers, OnDelete, RunLoggingPhaseIfNeeded;
    match cb
    case RequestHeaders(head) => OnRequestHeadersLawful(e, cfg, st, head);
    case RequestBody(length, got, eos) => RestLawful(e, cfg, st, length, got, eos, None);
    case RequestTrailers(buffered, got) => RestLawful(e, cfg, st, 0, got, false, buffered);
    case ResponseHeaders(head) => OnResponseHeadersLawful(e, cfg, st, head);
    case ResponseBody(length, got, eos) => OnResponseBodyLawful(e, cfg, st, length, got, eos);
    case ResponseTrailers(buffered, got) => OnResponseTrailersLawful(e, cfg, st, buffered, got);
    case Log =>
      SetLawful(e, cfg, st, st.(active := true));
      LoggingLawful(e, cfg, st.(active := true));
    case Delete => OnDeleteLawful(e, cfg, st);
  }

  /**
   * Every run of every engine obeys the laws: verdicts and local replies have the statuses above, and the
   * export list shows of all matches and verdicts the first fifteen and the latest disruptive one.
   */
  lemma {:induction false} RunLawful(e: Engine, cfg: Config, st: Stream, cbs: seq<Callback>)
    requires Lawful(e, cfg, st)
    ensures Lawful(e, cfg, Run(e, cfg, st, cbs))
    decreases |cbs|
  {
    hide Lawful, Handle;
    if cbs != [] {
      HandleLawful(e, cfg, st, cbs[0]);
      RunLawful(e, cfg, Handle(e, cfg, st, cbs[0]).0, cbs[1..]);
    }
  }

  lemma EveryRunIsLawful(e: Engine, cfg: Config, cbs: seq<Callback>)
    ensures Lawful(e, cfg, Run(e, cfg, FRESH, cbs))
  {
    hide Run;
    RunLawful(e, cfg, FRESH, cbs);
  }
}
