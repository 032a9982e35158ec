/**
 * What becomes of a verdict: which callbacks answer it, and what the export list says of it. Everything
 * here holds of every callback sequence and every engine, legal or not.
 */
module StreamReplies {
  import opened Prelude
  import opened StreamModel
  import opened StreamInvariants

  /** Acts that answer a verdict, and the count that goes with the first of them. */
  predicate IsReply(a: Act) { a.BlockReply? || a.SanitizeCounted? || a.BodyReplaced? }

  /** The client gets something else than the response: a local reply, or a replaced body. */
  predicate ReachesClient(a: Act) { a.BlockReply? || (a.BodyReplaced? && a.length > 0) }

  /** What a local reply says to the client: the status of the verdict, or 403 if that is none. */
  predicate RightlyTold(trace: seq<Act>, i: nat) {
    i + 1 < |trace| && trace[i].Interrupted? && trace[i + 1].BlockReply? ==>
      trace[i + 1].status == if trace[i].status < 100 || trace[i].status > 599 then 403 else trace[i].status
  }

  /** The verdict at this position is answered at once. */
  predicate AnsweredAt(trace: seq<Act>, i: nat) {
    && i + 1 < |trace|
    && (|| ReachesClient(trace[i + 1])
        || (trace[i + 1].SanitizeCounted? && i + 2 < |trace| && ReachesClient(trace[i + 2])))
  }

  /** Whether the callback can answer a verdict: it is not the deletion, and there is a buffer to replace. */
  predicate Answers(cb: Callback) {
    match cb
    case ResponseBody(length, _, _) => length > 0
    case ResponseTrailers(buffered, _) => buffered.Some? && buffered.value > 0
    case Delete => false
    case _ => true
  }

  // ---------------------------------------------------------------------------
  // The export list after a verdict
  // ---------------------------------------------------------------------------

  /** The last act that is not a reply. */
  function LastReal(trace: seq<Act>): Option<Act> {
    if trace == [] then None
    else
      var last := trace[|trace| - 1];
      if IsReply(last) then LastReal(trace[..|trace| - 1]) else Some(last)
  }

  /** While nothing but its answer has followed a verdict, the export list ends in its entry. */
  ghost predicate Marked(st: Stream) {
    match LastReal(st.trace)
    case Some(Interrupted(phase, ruleId, _)) => EndsInInterrupt(st.exports, phase, ruleId)
    case _ => true
  }

  lemma LastRealOfMore(trace: seq<Act>, a: Act)
    ensures LastReal(trace + [a]) == if IsReply(a) then LastReal(trace) else Some(a)
  {
    assert (trace + [a])[..|trace|] == trace;
  }

  // ---------------------------------------------------------------------------
  // How steps extend a trace
  // ---------------------------------------------------------------------------

  predicate IsMute(a: Act) { !NeedsReply(a) && !IsReply(a) }

  /** Neither a verdict to answer nor an answer was added. */
  ghost predicate Calm(a: Stream, b: Stream) {
    && a.trace <= b.trace && (Marked(a) ==> Marked(b))
    && forall i :: |a.trace| <= i < |b.trace| ==> IsMute(b.trace[i])
  }

  /** No answer was added. */
  ghost predicate Silent(a: Stream, b: Stream) {
    && a.trace <= b.trace && (Marked(a) ==> Marked(b))
    && forall i :: |a.trace| <= i < |b.trace| ==> !IsReply(b.trace[i])
  }

  /** The last act, and no earlier one, is a verdict to answer, with this status. */
  ghost predicate Struck(a: Stream, b: Stream, status: int) {
    && Silent(a, b) && |a.trace| < |b.trace| && NeedsReply(b.trace[|b.trace| - 1])
    && b.trace[|b.trace| - 1].status == status
    && forall i :: |a.trace| <= i < |b.trace| - 1 ==> IsMute(b.trace[i])
  }

  /** Every verdict that was added is answered, a local reply having its status, or none of them is. */
  ghost predicate Replied(a: Stream, b: Stream, answers: bool) {
    && a.trace <= b.trace && (Marked(a) ==> Marked(b))
    && forall i :: |a.trace| <= i < |b.trace| && NeedsReply(b.trace[i]) ==>
         (AnsweredAt(b.trace, i) <==> answers) && RightlyTold(b.trace, i)
  }

  lemma CalmIsTransitive(a: Stream, b: Stream, c: Stream)
    requires Calm(a, b) && Calm(b, c)
    ensures Calm(a, c)
  {
    hide Marked, IsMute;
  }

  lemma CalmThenStruck(a: Stream, b: Stream, c: Stream, status: int)
    requires Calm(a, b) && Struck(b, c, status)
    ensures Struck(a, c, status)
  {
    hide Marked;
  }

  lemma CalmIsReplied(a: Stream, b: Stream, answers: bool)
    requires Calm(a, b)
    ensures Replied(a, b, answers)
  {
    hide Marked, AnsweredAt, RightlyTold;
  }

  lemma SilentIsTransitive(a: Stream, b: Stream, c: Stream)
    requires Silent(a, b) && Silent(b, c)
    ensures Silent(a, c)
  {
    hide Marked, IsReply;
  }

  lemma CalmIsSilent(a: Stream, b: Stream)
    requires Calm(a, b)
    ensures Silent(a, b)
  {
    hide Marked;
  }

  lemma SilentIsUnanswered(a: Stream, b: Stream)
    requires Silent(a, b)
    ensures Replied(a, b, false)
  {
    hide Marked;
  }

  lemma StruckThenBlocked(a: Stream, b: Stream, status: int)
    requires Struck(a, b, status)
    ensures Replied(a, SendBlockResponse(b, status), true)
  {
    var r := SendBlockResponse(b, status);
    LastRealOfMore(b.trace, r.trace[|b.trace|]);
    hide LastReal;
    assert AnsweredAt(r.trace, |b.trace| - 1);
  }

  /** What sanitizing adds. */
  function SanitizeActs(st: Stream, length: nat): seq<Act> {
    (if st.responseInterrupted then [] else [SanitizeCounted]) + (if length > 0 then [BodyReplaced(length)] else [])
  }

  lemma SanitizeAdds(st: Stream, length: nat)
    ensures var r := SanitizeInterruptedResponseBody(st, length);
      && r.trace == st.trace + SanitizeActs(st, length) && r.exports == st.exports
      && LastReal(r.trace) == LastReal(st.trace)
  {
    var counted := if st.responseInterrupted then st else Emit(st, SanitizeCounted);
    LastRealOfMore(st.trace, SanitizeCounted);
    LastRealOfMore(counted.trace, BodyReplaced(length));
    hide LastReal;
    assert st.trace + [] == st.trace;
    Associate(st.trace, [SanitizeCounted], [BodyReplaced(length)]);
  }

  /** A verdict sanitized with this buffer is answered exactly when the buffer is not empty. */
  lemma StruckThenSanitized(a: Stream, b: Stream, length: nat, c: Stream, status: int)
    requires Struck(a, b, status) && Calm(SanitizeInterruptedResponseBody(b, length), c)
    ensures Replied(a, c, length > 0)
  {
    SanitizeAdds(b, length);
    hide LastReal, SanitizeInterruptedResponseBody;
    var last := |b.trace| - 1;
    var acts := SanitizeActs(b, length);
    assert forall k :: 0 <= k < |acts| ==> c.trace[last + 1 + k] == acts[k];
    forall i | |a.trace| <= i < |c.trace| && NeedsReply(c.trace[i])
      ensures (AnsweredAt(c.trace, i) <==> length > 0) && RightlyTold(c.trace, i)
    {
      assert i == last by {
        assert i < |b.trace| ==> b.trace[i] == c.trace[i];
      }
    }
  }

  // ---------------------------------------------------------------------------
  // The shared steps
  // ---------------------------------------------------------------------------

  lemma EmitCalm(st: Stream, a: Act)
    requires IsMute(a) && !a.Interrupted?
    ensures Calm(st, Emit(st, a))
  {
    LastRealOfMore(st.trace, a);
  }

  lemma {:induction false} RecordAllCalm(st: Stream, ms: seq<RuleMessage>)
    ensures Calm(st, RecordAll(st, ms))
    decreases |ms|
  {
    if ms != [] {
      var one := Record(st, ms[0]);
      LastRealOfMore(st.trace, Recorded(ms[0]));
      hide LastReal;
      assert Calm(st, one);
      RecordAllCalm(one, ms[1..]);
      CalmIsTransitive(st, one, RecordAll(one, ms[1..]));
    }
  }

  lemma MisdeliveriesCalm(st: Stream, ms: seq<RuleMessage>)
    ensures Calm(st, st.(trace := st.trace + Misdeliveries(ms)))
  {
    if ms == [] {
      assert st.trace + Misdeliveries(ms) == st.trace;
    } else {
      var acts := Misdeliveries(ms);
      assert st.trace + acts == (st.trace + acts[..|acts| - 1]) + [acts[|acts| - 1]];
      LastRealOfMore(st.trace + acts[..|acts| - 1], acts[|acts| - 1]);
    }
  }

  lemma CallCalm(e: Engine, st: Stream, call: EngineCall)
    ensures Calm(st, Call(e, st, call))
  {
    hide LastReal, Marked, Misdeliveries;
    var called := Emit(st, Engine(call));
    var r := e(called.trace);
    var grown := called.(messages := called.messages + r.appended);
    EmitCalm(st, Engine(call));
    SameTrace(called, grown);
    CalmIsTransitive(st, called, grown);
    RecordAllCalm(grown, r.logged);
    MisdeliveriesCalm(grown, r.logged);
    CalmIsTransitive(st, grown, Call(e, st, call));
  }

  /** Flags and cursors do not matter here. */
  lemma SameTrace(a: Stream, b: Stream)
    requires a.trace == b.trace && a.exports == b.exports
    ensures Calm(a, b)
  {
  }

  lemma FlushCalm(st: Stream)
    ensures Calm(st, FlushNewRuleMessages(st))
  {
    hide LastReal, Marked;
    var ms := Disruptive(Unseen(st.messages, st.seen));
    RecordAllCalm(st, ms);
    if st.transaction {
      SameTrace(RecordAll(st, ms), FlushNewRuleMessages(st));
      CalmIsTransitive(st, RecordAll(st, ms), FlushNewRuleMessages(st));
    } else {
      SameTrace(st, st);
    }
  }

  lemma InterruptMarks(asked: Stream, phase: Phase, status: int, entry: ExportMatch)
    requires entry.event == TxInterruptEvent && entry.disruptive && entry.phase == phase
    requires entry.ruleId == asked.lastDisruptive
    ensures var r := Emit(asked, Interrupted(phase, asked.lastDisruptive, status)).(
        interrupted := true, exports := Stash(asked.exports, entry, asked.lastDisruptive));
      && Marked(r) && EndsInInterrupt(r.exports, phase, r.lastDisruptive)
      && (if status == 0 then Calm(asked, r) else Struck(asked, r, status))
  {
    LastRealOfMore(asked.trace, Interrupted(phase, asked.lastDisruptive, status));
    hide LastReal;
  }

  /** Every verdict, not only the first, leaves its entry at the end of the export list. */
  lemma VerdictStrikes(e: Engine, cfg: Config, st: Stream, phase: Phase)
    ensures var (r, s) := ProcessIntervention(e, cfg, st, phase);
      && (if s == 0 then Calm(st, r) else Struck(st, r, s))
      && (e(Emit(FlushNewRuleMessages(st), Engine(AskIntervention)).trace).verdict.Some? ==>
            EndsInInterrupt(r.exports, phase, r.lastDisruptive))
  {
    hide LastReal, Marked, FlushNewRuleMessages, Stash, EndsInInterrupt, Prefix;
    var flushed := FlushNewRuleMessages(st);
    var asked := Emit(flushed, Engine(AskIntervention));
    FlushCalm(st);
    EmitCalm(flushed, Engine(AskIntervention));
    CalmIsTransitive(st, flushed, asked);
    var verdict := e(asked.trace).verdict;
    if verdict.Some? {
      var (r, s) := ProcessIntervention(e, cfg, st, phase);
      var entry :=
        ExportMatch(TxInterruptEvent, asked.lastDisruptive, phase, -1, true, Prefix(verdict.value.log, 256), "");
      InterruptMarks(asked, phase, s, entry);
      if s == 0 {
        CalmIsTransitive(st, asked, r);
      } else {
        CalmThenStruck(st, asked, r, s);
      }
    }
  }

  lemma LoggingCalm(e: Engine, st: Stream)
    ensures Calm(st, RunLoggingPhaseIfNeeded(e, st))
  {
    hide LastReal, Marked, Call;
    SameTrace(st, st);
    if st.transaction && !st.loggingDone {
      var live := st.(active := true);
      var ran := Call(e, live, ProcessLogging);
      var recorded := RecordAll(ran, Unseen(ran.messages, st.seen));
      SameTrace(st, live);
      CallCalm(e, live, ProcessLogging);
      CalmIsTransitive(st, live, ran);
      RecordAllCalm(ran, Unseen(ran.messages, st.seen));
      CalmIsTransitive(st, ran, recorded);
      SameTrace(recorded, RunLoggingPhaseIfNeeded(e, st));
      CalmIsTransitive(st, recorded, RunLoggingPhaseIfNeeded(e, st));
    }
  }

  lemma RequestPhaseCalm(e: Engine, st: Stream, received: nat)
    ensures Calm(st, RunRequestBodyPhase(e, st)) && Calm(st, RunRequestBodyPhase(e, st).(requestReceived := received))
  {
    hide LastReal, Marked, Call;
    CallCalm(e, st, ProcessRequestBody);
    var called := Call(e, st, ProcessRequestBody);
    SameTrace(called, RunRequestBodyPhase(e, st));
    SameTrace(called, RunRequestBodyPhase(e, st).(requestReceived := received));
    CalmIsTransitive(st, called, RunRequestBodyPhase(e, st));
    CalmIsTransitive(st, called, RunRequestBodyPhase(e, st).(requestReceived := received));
  }

  lemma FinalizeCalm(e: Engine, st: Stream)
    ensures Calm(st, FinalizeResponseBodyPhase(e, st))
  {
    hide LastReal, Marked, Call;
    SameTrace(st, st);
    CallCalm(e, st, ProcessResponseBody);
    var called := Call(e, st, ProcessResponseBody);
    SameTrace(called, called.(responseProcessed := true, responseReceived := 0));
    CalmIsTransitive(st, called, called.(responseProcessed := true, responseReceived := 0));
  }

  lemma AppendCalm(e: Engine, cfg: Config, st: Stream, size: nat, got: Option<Bytes>)
    ensures Calm(st, AppendRequest(e, cfg, st, size, got)) && Calm(st, AppendResponse(e, st, size, got))
  {
    hide LastReal, Marked, Call, FoldIf;
    SameTrace(st, st);
    SameTrace(st, st.(requestReceived := size));
    SameTrace(st, st.(responseReceived := size));
    if got.Some? {
      var request := Call(e, st, AppendRequestBody(FoldIf(cfg, got.value)));
      var response := Call(e, st, AppendResponseBody(got.value));
      CallCalm(e, st, AppendRequestBody(FoldIf(cfg, got.value)));
      CallCalm(e, st, AppendResponseBody(got.value));
      SameTrace(request, request.(requestReceived := request.requestReceived + |got.value|));
      SameTrace(response, response.(responseReceived := response.responseReceived + |got.value|));
      CalmIsTransitive(st, request, request.(requestReceived := request.requestReceived + |got.value|));
      CalmIsTransitive(st, response, response.(responseReceived := response.responseReceived + |got.value|));
    }
  }

  lemma {:induction false} RequestHeaderListCalm(e: Engine, cfg: Config, st: Stream, headers: seq<Header>)
    ensures Calm(st, AddRequestHeaders(e, cfg, st, headers))
    decreases |headers|
  {
    hide LastReal, Marked, Call, FoldIf;
    SameTrace(st, st);
    if headers != [] {
      var call := AddRequestHeader(headers[0].0, FoldIf(cfg, headers[0].1));
      var next := Call(e, st, call);
      CallCalm(e, st, call);
      RequestHeaderListCalm(e, cfg, next, headers[1..]);
      CalmIsTransitive(st, next, AddRequestHeaders(e, cfg, next, headers[1..]));
    }
  }

  lemma {:induction false} ResponseHeaderListCalm(e: Engine, st: Stream, headers: seq<Header>)
    ensures Calm(st, AddResponseHeaders(e, st, headers))
    decreases |headers|
  {
    hide LastReal, Marked, Call;
    SameTrace(st, st);
    if headers != [] {
      var call := AddResponseHeader(headers[0].0, headers[0].1);
      var next := Call(e, st, call);
      CallCalm(e, st, call);
      ResponseHeaderListCalm(e, next, headers[1..]);
      CalmIsTransitive(st, next, AddResponseHeaders(e, next, headers[1..]));
    }
  }

  // ---------------------------------------------------------------------------
  // The callbacks
  // ---------------------------------------------------------------------------

  /** A verdict after calm steps, answered by a local reply if there is anything to answer. */
  lemma BlockedOrCalm(e: Engine, cfg: Config, st: Stream, mid: Stream, phase: Phase)
    requires Calm(st, mid)
    ensures var (r, s) := ProcessIntervention(e, cfg, mid, phase);
      if s == 0 then Calm(st, r) else Replied(st, SendBlockResponse(r, s), true)
  {
    hide Calm, Struck, Replied, ProcessIntervention, SendBlockResponse;
    VerdictStrikes(e, cfg, mid, phase);
    var (r, s) := ProcessIntervention(e, cfg, mid, phase);
    if s == 0 {
      CalmIsTransitive(st, mid, r);
    } else {
      CalmThenStruck(st, mid, r, s);
      StruckThenBlocked(st, r, s);
    }
  }

  /** The same after one more call into the engine. */
  lemma CallThenBlocked(e: Engine, cfg: Config, st: Stream, mid: Stream, call: EngineCall, phase: Phase)
    requires Calm(st, mid)
    ensures var (r, s) := ProcessIntervention(e, cfg, Call(e, mid, call), phase);
      if s == 0 then Calm(st, r) else Replied(st, SendBlockResponse(r, s), true)
  {
    hide Calm, Replied, ProcessIntervention, SendBlockResponse, Call;
    CallCalm(e, mid, call);
    CalmIsTransitive(st, mid, Call(e, mid, call));
    BlockedOrCalm(e, cfg, st, Call(e, mid, call), phase);
  }

  lemma EndRequestReplies(e: Engine, cfg: Config, st: Stream, mid: Stream, reply: FilterStatus)
    requires Calm(st, mid)
    ensures Replied(st, EndRequest(e, cfg, mid, reply).0, true)
    ensures Replied(st, CloseRequestBody(e, cfg, mid, reply).0, true)
  {
    hide Calm, Replied, ProcessIntervention, SendBlockResponse, RunRequestBodyPhase, RunLoggingPhaseIfNeeded;
    RequestPhaseCalm(e, mid, 0);
    var ran := RunRequestBodyPhase(e, mid);
    EndsWithLogging(e, cfg, st, mid, ran);
    EndsWithLogging(e, cfg, st, mid, ran.(requestReceived := 0));
  }

  lemma EndsWithLogging(e: Engine, cfg: Config, st: Stream, mid: Stream, ran: Stream)
    requires Calm(st, mid) && Calm(mid, ran)
    ensures var (r, s) := ProcessIntervention(e, cfg, ran, AtRequestBody);
      Replied(st, if s != 0 then SendBlockResponse(r, s) else RunLoggingPhaseIfNeeded(e, r), true)
  {
    hide Calm, Replied, ProcessIntervention, SendBlockResponse, RunLoggingPhaseIfNeeded;
    CalmIsTransitive(st, mid, ran);
    BlockedOrCalm(e, cfg, st, ran, AtRequestBody);
    var (r, s) := ProcessIntervention(e, cfg, ran, AtRequestBody);
    if s == 0 {
      CalmToTheEnd(e, st, r, true);
    }
  }

  lemma CalmToTheEnd(e: Engine, st: Stream, r: Stream, answers: bool)
    requires Calm(st, r)
    ensures Replied(st, RunLoggingPhaseIfNeeded(e, r), answers)
  {
    hide Calm, Replied, RunLoggingPhaseIfNeeded;
    LoggingCalm(e, r);
    CalmIsTransitive(st, r, RunLoggingPhaseIfNeeded(e, r));
    CalmIsReplied(st, RunLoggingPhaseIfNeeded(e, r), answers);
  }

  lemma EndRequestHeadersReplies(e: Engine, cfg: Config, st: Stream, mid: Stream, head: RequestHead)
    requires Calm(st, mid)
    ensures Replied(st, EndRequestHeaders(e, cfg, mid, head).0, true)
  {
    hide Calm, Replied, ProcessIntervention, SendBlockResponse, EndRequest, Call;
    BlockedOrCalm(e, cfg, st, mid, AtRequestHeaders);
    var (st3, s3) := ProcessIntervention(e, cfg, mid, AtRequestHeaders);
    if s3 == 0 {
      CallThenBlocked(e, cfg, st, st3, ProcessRequestHeaders, AtRequestHeaders);
      var (st4, s4) := ProcessIntervention(e, cfg, Call(e, st3, ProcessRequestHeaders), AtRequestHeaders);
      if s4 == 0 {
        CalmIsReplied(st, st4, true);
        EndRequestReplies(e, cfg, st, st4, StopIteration);
      }
    }
  }

  lemma StartRequestReplies(e: Engine, cfg: Config, st: Stream, mid: Stream, head: RequestHead)
    requires Calm(st, mid)
    ensures Replied(st, StartRequest(e, cfg, mid, head).0, true)
  {
    hide Calm, Replied, ProcessIntervention, SendBlockResponse, EndRequestHeaders, Call, FoldIf, AddRequestHeaders;
    var call := ProcessURI(FoldIf(cfg, head.path), head.verb);
    CallThenBlocked(e, cfg, st, mid, call, AtRequestHeaders);
    var (st2, s2) := ProcessIntervention(e, cfg, Call(e, mid, call), AtRequestHeaders);
    if s2 == 0 {
      var added := AddRequestHeaders(e, cfg, st2, head.headers);
      RequestHeaderListCalm(e, cfg, st2, head.headers);
      CalmIsTransitive(st, st2, added);
      if head.host.Some? {
        CallCalm(e, added, AddRequestHeader(HOST, head.host.value));
        CalmIsTransitive(st, added, HostedHeaders(e, cfg, st2, head));
      }
      EndRequestHeadersReplies(e, cfg, st, HostedHeaders(e, cfg, st2, head), head);
    }
  }

  lemma OpenCalm(st: Stream)
    ensures Calm(st, st.(active := true))
    ensures Calm(st, Emit(st.(active := true, transaction := true), TxTotal))
  {
    hide LastReal;
    var open := st.(active := true, transaction := true);
    SameTrace(st, st.(active := true));
    SameTrace(st, open);
    EmitCalm(open, TxTotal);
    CalmIsTransitive(st, open, Emit(open, TxTotal));
  }

  lemma OnRequestHeadersReplies(e: Engine, cfg: Config, st: Stream, head: RequestHead)
    ensures Replied(st, OnRequestHeaders(e, cfg, st, head).0, true)
  {
    hide Calm, Replied, ProcessIntervention, SendBlockResponse, StartRequest, Call;
    SameTrace(st, st);
    CalmIsReplied(st, st, true);
    OpenCalm(st);
    var open := Emit(st.(active := true, transaction := true), TxTotal);
    CallThenBlocked(e, cfg, st, open, ProcessConnection, AtRequestHeaders);
    var (st1, s1) := ProcessIntervention(e, cfg, Call(e, open, ProcessConnection), AtRequestHeaders);
    if s1 == 0 {
      StartRequestReplies(e, cfg, st, st1, head);
    }
  }

  lemma RequestRestReplies(e: Engine, cfg: Config, st: Stream, length: nat, got: Option<Bytes>, endOfStream: bool)
    ensures Replied(st, OnRequestBody(e, cfg, st, length, got, endOfStream).0, true)
    ensures Replied(st, OnRequestTrailers(e, cfg, st, Some(length), got).0, true)
    ensures Replied(st, OnRequestTrailers(e, cfg, st, None, got).0, true)
  {
    hide Calm, Replied, AppendRequest, CloseRequestBody;
    var live := st.(active := true);
    SameTrace(st, st);
    CalmIsReplied(st, st, true);
    OpenCalm(st);
    CalmIsReplied(st, live, true);
    AppendCalm(e, cfg, live, length, got);
    var fed := AppendRequest(e, cfg, live, length, got);
    CalmIsTransitive(st, live, fed);
    CalmIsReplied(st, fed, true);
    EndRequestReplies(e, cfg, st, fed, StopIterationNoBuffer);
    EndRequestReplies(e, cfg, st, fed, StopIteration);
    EndRequestReplies(e, cfg, st, live, StopIteration);
  }

  lemma OnResponseHeadersReplies(e: Engine, cfg: Config, st: Stream, head: ResponseHead)
    ensures Replied(st, OnResponseHeaders(e, cfg, st, head).0, true)
  {
    hide Calm, Replied, ProcessIntervention, SendBlockResponse, RunRequestBodyPhase, OnResponseHeaderList;
    var live := st.(active := true);
    SameTrace(st, st);
    CalmIsReplied(st, st, true);
    OpenCalm(st);
    ResponseHeadersReply(e, cfg, st, live, head);
    RequestPhaseCalm(e, live, 0);
    var ran := RunRequestBodyPhase(e, live);
    CalmIsTransitive(st, live, ran);
    BlockedOrCalm(e, cfg, st, ran, AtRequestBody);
    var (st1, s1) := ProcessIntervention(e, cfg, ran, AtRequestBody);
    if s1 == 0 {
      ResponseHeadersReply(e, cfg, st, st1, head);
    }
  }

  lemma ResponseHeadersReply(e: Engine, cfg: Config, st: Stream, mid: Stream, head: ResponseHead)
    requires Calm(st, mid)
    ensures Replied(st, OnResponseHeaderList(e, cfg, mid, head).0, true)
  {
    hide Calm, Replied, ProcessIntervention, SendBlockResponse, Call, AddResponseHeaders;
    hide FinalizeResponseBodyPhase, RunLoggingPhaseIfNeeded;
    var added := AddResponseHeaders(e, mid, head.headers);
    ResponseHeaderListCalm(e, mid, head.headers);
    CalmIsTransitive(st, mid, added);
    CallThenBlocked(e, cfg, st, added, ProcessResponseHeaders(head.code), AtResponseHeaders);
    var called := Call(e, added, ProcessResponseHeaders(head.code));
    var (st2, s2) := ProcessIntervention(e, cfg, called, AtResponseHeaders);
    if s2 == 0 {
      CalmIsReplied(st, st2, true);
      BodylessReplies(e, cfg, st, st2);
    }
  }

  lemma BodylessReplies(e: Engine, cfg: Config, st: Stream, st2: Stream)
    requires Calm(st, st2)
    ensures
      var (st3, s3) := ProcessIntervention(e, cfg, Call(e, st2, AppendResponseBody([0])), AtResponseBody);
      if s3 != 0 then Replied(st, SendBlockResponse(st3, s3), true)
      else
        var (st4, s4) := ProcessIntervention(e, cfg, FinalizeResponseBodyPhase(e, st3), AtResponseBody);
        Replied(st, if s4 != 0 then SendBlockResponse(st4, s4) else RunLoggingPhaseIfNeeded(e, st4), true)
  {
    hide Calm, Replied, ProcessIntervention, SendBlockResponse, Call, FinalizeResponseBodyPhase;
    hide RunLoggingPhaseIfNeeded;
    CallThenBlocked(e, cfg, st, st2, AppendResponseBody([0]), AtResponseBody);
    var (st3, s3) := ProcessIntervention(e, cfg, Call(e, st2, AppendResponseBody([0])), AtResponseBody);
    if s3 == 0 {
      FinalizeCalm(e, st3);
      CalmIsTransitive(st, st3, FinalizeResponseBodyPhase(e, st3));
      BlockedOrCalm(e, cfg, st, FinalizeResponseBodyPhase(e, st3), AtResponseBody);
      var (st4, s4) := ProcessIntervention(e, cfg, FinalizeResponseBodyPhase(e, st3), AtResponseBody);
      if s4 == 0 {
        CalmToTheEnd(e, st, st4, true);
      }
    }
  }

  /** A verdict on the response body, after calm steps; then it is sanitized and calm steps may follow. */
  lemma SanitizedOrCalm(e: Engine, cfg: Config, st: Stream, mid: Stream, length: nat)
    requires Calm(st, mid)
    ensures var (r, s) := ProcessIntervention(e, cfg, mid, AtResponseBody);
      if s == 0 then Calm(st, r)
      else
        var sanitized := SanitizeInterruptedResponseBody(r, length);
        && Replied(st, sanitized, length > 0)
        && Replied(st, SanitizeInterruptedResponseBody(r.(responseProcessed := true), length), length > 0)
        && Replied(st, RunLoggingPhaseIfNeeded(e, sanitized), length > 0)
  {
    hide Calm, Struck, Replied, ProcessIntervention, SanitizeInterruptedResponseBody, RunLoggingPhaseIfNeeded;
    VerdictStrikes(e, cfg, mid, AtResponseBody);
    var (r, s) := ProcessIntervention(e, cfg, mid, AtResponseBody);
    if s == 0 {
      CalmIsTransitive(st, mid, r);
    } else {
      CalmThenStruck(st, mid, r, s);
      var closed := r.(responseProcessed := true);
      StillStruck(st, r, closed, s);
      var sanitized := SanitizeInterruptedResponseBody(r, length);
      var sanitizedClosed := SanitizeInterruptedResponseBody(closed, length);
      SameTrace(sanitized, sanitized);
      SameTrace(sanitizedClosed, sanitizedClosed);
      LoggingCalm(e, sanitized);
      StruckThenSanitized(st, r, length, sanitized, s);
      StruckThenSanitized(st, closed, length, sanitizedClosed, s);
      StruckThenSanitized(st, r, length, RunLoggingPhaseIfNeeded(e, sanitized), s);
    }
  }

  lemma StillStruck(a: Stream, b: Stream, c: Stream, status: int)
    requires Struck(a, b, status) && b.trace == c.trace && b.exports == c.exports
    ensures Struck(a, c, status)
  {
    hide LastReal;
  }

  /** Replacing a body again adds no verdict. */
  lemma AgainReplied(st: Stream, mid: Stream, length: nat, answers: bool)
    requires mid.trace == st.trace && mid.exports == st.exports
    ensures Replied(st, SanitizeInterruptedResponseBody(mid, length), answers)
  {
    SanitizeAdds(mid, length);
    hide LastReal, SanitizeInterruptedResponseBody;
    assert forall a :: a in SanitizeActs(mid, length) ==> !NeedsReply(a);
  }

  lemma ChunkReplies(e: Engine, cfg: Config, st: Stream, mid: Stream, length: nat, endOfStream: bool)
    requires Calm(st, mid)
    ensures Replied(st, EndResponseChunk(e, cfg, mid, length, endOfStream).0, length > 0)
  {
    hide Calm, Replied, ProcessIntervention, SanitizeInterruptedResponseBody, RunLoggingPhaseIfNeeded;
    hide FinalizeResponseBodyPhase;
    CalmIsReplied(st, mid, length > 0);
    FinalizeCalm(e, mid);
    var final := FinalizeResponseBodyPhase(e, mid);
    CalmIsTransitive(st, mid, final);
    SanitizedOrCalm(e, cfg, st, final, length);
    var (r, s) := ProcessIntervention(e, cfg, final, AtResponseBody);
    if s == 0 {
      CalmToTheEnd(e, st, r, length > 0);
    }
  }

  lemma OnResponseBodyReplies(
      e: Engine, cfg: Config, st: Stream, length: nat, got: Option<Bytes>, endOfStream: bool)
    ensures Replied(st, OnResponseBody(e, cfg, st, length, got, endOfStream).0, length > 0)
  {
    hide Calm, Replied, ProcessIntervention, SanitizeInterruptedResponseBody, AppendResponse, EndResponseChunk;
    var live := st.(active := true);
    SameTrace(st, st);
    CalmIsReplied(st, st, length > 0);
    OpenCalm(st);
    CalmIsReplied(st, live, length > 0);
    AgainReplied(st, live, length, length > 0);
    AppendCalm(e, cfg, live, length, got);
    var fed := AppendResponse(e, live, length, got);
    CalmIsTransitive(st, live, fed);
    SanitizedOrCalm(e, cfg, st, fed, length);
    ChunkReplies(e, cfg, st, fed, length, endOfStream);
    var (r, s) := ProcessIntervention(e, cfg, fed, AtResponseBody);
    if s == 0 {
      ChunkReplies(e, cfg, st, r, length, endOfStream);
    }
  }

  lemma OnResponseTrailersReplies(e: Engine, cfg: Config, st: Stream, buffered: Option<nat>, got: Option<Bytes>)
    ensures Replied(st, OnResponseTrailers(e, cfg, st, buffered, got).0, buffered.Some? && buffered.value > 0)
  {
    hide Calm, Replied, ProcessIntervention, SanitizeInterruptedResponseBody, AppendResponse;
    hide FinalizeResponseBodyPhase, RunLoggingPhaseIfNeeded;
    var live := st.(active := true);
    var size := if buffered.Some? then buffered.value else 0;
    SameTrace(st, st);
    CalmIsReplied(st, st, size > 0);
    OpenCalm(st);
    CalmIsReplied(st, live, size > 0);
    AgainReplied(st, live, size, size > 0);
    AppendCalm(e, cfg, live, size, got);
    var fed := AppendResponse(e, live, size, got);
    CalmIsTransitive(st, live, fed);
    SanitizedOrCalm(e, cfg, st, fed, size);
    var (r, s) := ProcessIntervention(e, cfg, fed, AtResponseBody);
    if s == 0 {
      TrailersReply(e, cfg, st, r, size);
    }
  }

  lemma TrailersReply(e: Engine, cfg: Config, st: Stream, st1: Stream, size: nat)
    requires Calm(st, st1)
    ensures var (st2, s2) := ProcessIntervention(e, cfg, FinalizeResponseBodyPhase(e, st1), AtResponseBody);
      Replied(st, RunLoggingPhaseIfNeeded(e, if s2 != 0 then SanitizeInterruptedResponseBody(st2, size) else st2),
              size > 0)
  {
    hide Calm, Replied, ProcessIntervention, SanitizeInterruptedResponseBody;
    hide FinalizeResponseBodyPhase, RunLoggingPhaseIfNeeded;
    FinalizeCalm(e, st1);
    var final := FinalizeResponseBodyPhase(e, st1);
    CalmIsTransitive(st, st1, final);
    SanitizedOrCalm(e, cfg, st, final, size);
    var (st2, s2) := ProcessIntervention(e, cfg, final, AtResponseBody);
    if s2 == 0 {
      CalmToTheEnd(e, st, st2, size > 0);
    }
  }

  lemma VerdictSilent(e: Engine, cfg: Config, st: Stream, mid: Stream, phase: Phase)
    requires Calm(st, mid)
    ensures Silent(st, ProcessIntervention(e, cfg, mid, phase).0)
  {
    hide Calm, Silent, ProcessIntervention, Marked, LastReal;
    VerdictStrikes(e, cfg, mid, phase);
    var (r, s) := ProcessIntervention(e, cfg, mid, phase);
    if s == 0 {
      CalmIsSilent(mid, r);
    }
    CalmIsSilent(st, mid);
    SilentIsTransitive(st, mid, r);
  }

  lemma ResponsePhasesSilent(e: Engine, cfg: Config, st: Stream)
    ensures Silent(st, FinishResponsePhases(e, cfg, st))
  {
    hide Calm, Silent, ProcessIntervention, FinalizeResponseBodyPhase, RunLoggingPhaseIfNeeded;
    SameTrace(st, st);
    CalmIsSilent(st, st);
    FinalizeCalm(e, st);
    var final := FinalizeResponseBodyPhase(e, st);
    VerdictSilent(e, cfg, st, final, AtResponseBody);
    var mid := if st.responseProcessed then st else ProcessIntervention(e, cfg, final, AtResponseBody).0;
    LoggingCalm(e, mid);
    CalmIsSilent(mid, RunLoggingPhaseIfNeeded(e, mid));
    SilentIsTransitive(st, mid, RunLoggingPhaseIfNeeded(e, mid));
  }

  lemma OnDeleteSilent(e: Engine, cfg: Config, st: Stream)
    ensures Silent(st, OnDelete(e, cfg, st))
  {
    hide Calm, Silent, ProcessIntervention, RunRequestBodyPhase, FinishResponsePhases;
    var live := st.(active := true);
    SameTrace(st, st.(active := false));
    CalmIsSilent(st, st.(active := false));
    OpenCalm(st);
    CalmIsSilent(st, live);
    RequestPhaseCalm(e, live, 0);
    VerdictSilent(e, cfg, live, RunRequestBodyPhase(e, live), AtRequestBody);
    var asked := if live.requestProcessed then live
                 else ProcessIntervention(e, cfg, RunRequestBodyPhase(e, live), AtRequestBody).0;
    SameTrace(live, live);
    CalmIsSilent(live, live);
    ResponsePhasesSilent(e, cfg, asked);
    var done := FinishResponsePhases(e, cfg, asked);
    SilentIsTransitive(live, asked, done);
    SilentIsTransitive(st, live, done);
    EmitCalm(done, TxAllowed);
    var counted := if done.interrupted then done else Emit(done, TxAllowed);
    SameTrace(done, done);
    CalmIsSilent(done, counted);
    SilentIsTransitive(st, done, counted);
    SameTrace(counted, counted.(active := false, transaction := false));
    CalmIsSilent(counted, counted.(active := false, transaction := false));
    SilentIsTransitive(st, counted, counted.(active := false, transaction := false));
  }

  /** Any callback on any stream: the verdicts it takes are answered exactly when the callback can. */
  lemma HandleReplies(e: Engine, cfg: Config, st: Stream, cb: Callback)
    ensures Replied(st, Handle(e, cfg, st, cb).0, Answers(cb))
  {
    hide Replied, OnRequestHeaders, OnRequestBody, OnRequestTrailers, OnResponseHeaders, OnResponseBody;
    hide OnResponseTrailers, OnDelete, RunLoggingPhaseIfNeeded;
    match cb
    case RequestHeaders(head) => OnRequestHeadersReplies(e, cfg, st, head);
    case RequestBody(length, got, eos) => RequestRestReplies(e, cfg, st, length, got, eos);
    case RequestTrailers(buffered, got) =>
      RequestRestReplies(e, cfg, st, if buffered.Some? then buffered.value else 0, got, true);
    case ResponseHeaders(head) => OnResponseHeadersReplies(e, cfg, st, head);
    case ResponseBody(length, got, eos) => OnResponseBodyReplies(e, cfg, st, length, got, eos);
    case ResponseTrailers(buffered, got) => OnResponseTrailersReplies(e, cfg, st, buffered, got);
    case Log =>
      OpenCalm(st);
      SameTrace(st, st);
      CalmToTheEnd(e, st, st.(active := true), true);
      CalmIsReplied(st, st, true);
    case Delete =>
      OnDeleteSilent(e, cfg, st);
      SilentIsUnanswered(st, OnDelete(e, cfg, st));
  }

  lemma {:induction false} RunMarks(e: Engine, cfg: Config, st: Stream, cbs: seq<Callback>)
    requires Marked(st)
    ensures Marked(Run(e, cfg, st, cbs))
    decreases |cbs|
  {
    if cbs != [] {
      HandleReplies(e, cfg, st, cbs[0]);
      hide Handle, Marked;
      RunMarks(e, cfg, Handle(e, cfg, st, cbs[0]).0, cbs[1..]);
    }
  }

  lemma {:induction false} RunOneMore(e: Engine, cfg: Config, st: Stream, cbs: seq<Callback>, cb: Callback)
    ensures Run(e, cfg, st, cbs + [cb]) == Handle(e, cfg, Run(e, cfg, st, cbs), cb).0
    decreases |cbs|
  {
    hide Handle;
    if cbs == [] {
      assert ([] + [cb])[1..] == [];
    } else {
      assert (cbs + [cb])[1..] == cbs[1..] + [cb];
      RunOneMore(e, cfg, Handle(e, cfg, st, cbs[0]).0, cbs[1..], cb);
    }
  }

  /**
   * In every run, a verdict with a status taken in the last callback is answered at once if and only if
   * the callback is not the deletion and, where the response body is concerned, the buffer is not empty;
   * and while nothing but the answer has followed a verdict, the export list ends in its entry.
   */
  lemma EveryVerdict(e: Engine, cfg: Config, cbs: seq<Callback>, cb: Callback)
    ensures var before, after := Run(e, cfg, FRESH, cbs).trace, Run(e, cfg, FRESH, cbs + [cb]).trace;
      && before <= after
      && forall i :: |before| <= i < |after| && NeedsReply(after[i]) ==>
           (AnsweredAt(after, i) <==> Answers(cb)) && RightlyTold(after, i)
    ensures Marked(Run(e, cfg, FRESH, cbs + [cb]))
  {
    RunOneMore(e, cfg, FRESH, cbs, cb);
    HandleReplies(e, cfg, Run(e, cfg, FRESH, cbs), cb);
    RunMarks(e, cfg, FRESH, cbs + [cb]);
    hide Run, Handle, Answers, AnsweredAt, RightlyTold;
  }

  // ---------------------------------------------------------------------------
  // Two runs that leave a verdict unanswered
  // ---------------------------------------------------------------------------

  /** An engine without messages that forbids once it is asked right after this act. */
  function StrikesAfter(a: Act): Engine {
    history => Reaction([], [], if |history| >= 2 && history[|history| - 2] == a then Some(Verdict(403, "")) else None)
  }

  const PLAIN := Config(true, false, 0)
  const ASK := Engine(AskIntervention)

  /** Headers that announce a body, with a path, a header and a body of no interest. */
  const GET_HEAD := RequestHead([], "GET", [], Some([]), true, false)
  const OK_HEAD := ResponseHead([], 200, true, false)

  /** A stream without messages. */
  predicate Empty(st: Stream) { st.messages == [] && st.seen == 0 && st.transaction && st.active }

  lemma PlainCall(a: Act, st: Stream, call: EngineCall)
    requires Empty(st)
    ensures Call(StrikesAfter(a), st, call) == Emit(st, Engine(call))
  {
    var r := StrikesAfter(a)(Emit(st, Engine(call)).trace);
    assert st.messages + r.appended == st.messages;
  }

  lemma PlainAsk(a: Act, st: Stream, phase: Phase)
    requires Empty(st) && st.trace != [] && st.trace[|st.trace| - 1] != a
    ensures ProcessIntervention(StrikesAfter(a), PLAIN, st, phase) == (Emit(st, ASK), 0)
  {
    FlushNothing(st);
    assert Emit(st, ASK).trace[|st.trace| - 1] == st.trace[|st.trace| - 1];
  }

  lemma FlushNothing(st: Stream)
    requires Empty(st)
    ensures FlushNewRuleMessages(st) == st
  {
    assert Unseen(st.messages, st.seen) == [];
  }

  lemma StrikingAsk(a: Act, st: Stream, phase: Phase)
    requires Empty(st) && st.trace != [] && st.trace[|st.trace| - 1] == a
    ensures var (r, s) := ProcessIntervention(StrikesAfter(a), PLAIN, st, phase);
      s == 403 && r.trace == st.trace + [ASK] + [Interrupted(phase, st.lastDisruptive, 403)]
      && r.responseInterrupted == st.responseInterrupted
  {
    FlushNothing(st);
    assert Emit(st, ASK).trace[|st.trace| - 1] == st.trace[|st.trace| - 1];
  }

  /** A request with a body announced, up to the end of its headers. */
  const OPENED: seq<Act> := [
    TxTotal, Engine(ProcessConnection), ASK, Engine(ProcessURI([], "GET")), ASK,
    Engine(AddRequestHeader(HOST, [])), ASK, Engine(ProcessRequestHeaders), ASK]

  lemma OpensPlainly(a: Act)
    requires a == ASK || a == PHASE2
    ensures OnRequestHeaders(StrikesAfter(a), PLAIN, FRESH, GET_HEAD).0 ==
      FRESH.(transaction := true, active := true, trace := OPENED)
  {
    hide Call, ProcessIntervention, StrikesAfter;
    var e := StrikesAfter(a);
    var open := FRESH.(transaction := true, active := true);
    var st0 := Emit(open, TxTotal);
    var st1 := Emit(Emit(st0, Engine(ProcessConnection)), ASK);
    var st2 := Emit(Emit(st1, Engine(ProcessURI([], "GET"))), ASK);
    var st3 := Emit(Emit(st2, Engine(AddRequestHeader(HOST, []))), ASK);
    var st4 := Emit(Emit(st3, Engine(ProcessRequestHeaders)), ASK);
    PlainCall(a, st0, ProcessConnection);
    PlainAsk(a, Emit(st0, Engine(ProcessConnection)), AtRequestHeaders);
    PlainCall(a, st1, ProcessURI([], "GET"));
    PlainAsk(a, Emit(st1, Engine(ProcessURI([], "GET"))), AtRequestHeaders);
    PlainCall(a, st2, AddRequestHeader(HOST, []));
    PlainAsk(a, Emit(st2, Engine(AddRequestHeader(HOST, []))), AtRequestHeaders);
    PlainCall(a, st3, ProcessRequestHeaders);
    PlainAsk(a, Emit(st3, Engine(ProcessRequestHeaders)), AtRequestHeaders);
    assert st4.trace == OPENED;
  }

  /** A verdict of 403 was taken, and nothing in the whole run reaches the client for it. */
  ghost predicate ForbiddenYetServed(trace: seq<Act>) {
    && (exists i: nat :: i < |trace| && trace[i].Interrupted? && trace[i].status == 403)
    && forall i: nat :: i < |trace| ==> !ReachesClient(trace[i])
  }

  /** Response trailers without a buffer: the response is forbidden, and passes. */
  lemma TrailersWithoutBuffer()
    ensures var e := StrikesAfter(ASK);
      var run := [RequestHeaders(GET_HEAD), ResponseHeaders(OK_HEAD), ResponseTrailers(None, None)];
      var trace := Run(e, PLAIN, FRESH, run).trace;
      && StageAfter(Created, run) == Some(InResponse) && ForbiddenYetServed(trace)
  {
    hide Call, ProcessIntervention, StrikesAfter, OnRequestHeaders;
    var e := StrikesAfter(ASK);
    OpensPlainly(ASK);
    var st := FRESH.(transaction := true, active := true, trace := OPENED);
    var st1 := ResponseAllowed(st);
    StrikingAsk(ASK, st1, AtResponseBody);
    var (r, s) := ProcessIntervention(e, PLAIN, st1, AtResponseBody);
    var done := OnResponseTrailers(e, PLAIN, st1, None, None).0;
    assert done.trace == r.trace + [SanitizeCounted];
    assert done.trace[|r.trace| - 1] == Interrupted(AtResponseBody, st1.lastDisruptive, 403);
    LegalThree();
    RunOfThree(e, RequestHeaders(GET_HEAD), ResponseHeaders(OK_HEAD), ResponseTrailers(None, None));
  }

  lemma LegalThree()
    ensures StageAfter(Created, [RequestHeaders(GET_HEAD), ResponseHeaders(OK_HEAD), ResponseTrailers(None, None)])
      == Some(InResponse)
  {
    var run := [RequestHeaders(GET_HEAD), ResponseHeaders(OK_HEAD), ResponseTrailers(None, None)];
    assert StageAfter(InResponse, run[1..][1..][1..]) == Some(InResponse);
    assert StageAfter(InResponse, run[1..][1..]) == Some(InResponse);
    assert StageAfter(InRequest, run[1..]) == Some(InResponse);
  }

  lemma LegalTwo()
    ensures StageAfter(Created, [RequestHeaders(GET_HEAD), Delete]) == Some(Deleted)
  {
    var run := [RequestHeaders(GET_HEAD), Delete];
    assert StageAfter(Deleted, run[1..][1..]) == Some(Deleted);
    assert StageAfter(InRequest, run[1..]) == Some(Deleted);
  }

  lemma RunOfThree(e: Engine, a: Callback, b: Callback, c: Callback)
    ensures Run(e, PLAIN, FRESH, [a, b, c]) ==
      Handle(e, PLAIN, Handle(e, PLAIN, Handle(e, PLAIN, FRESH, a).0, b).0, c).0
  {
    hide Handle;
    RunOneMore(e, PLAIN, FRESH, [a, b], c);
    RunOneMore(e, PLAIN, FRESH, [a], b);
    RunOneMore(e, PLAIN, FRESH, [], a);
    assert [a, b] + [c] == [a, b, c] && [a] + [b] == [a, b] && [] + [a] == [a];
  }

  lemma ResponseAllowed(st: Stream) returns (st1: Stream)
    requires st == FRESH.(transaction := true, active := true, trace := OPENED)
    ensures OnResponseHeaders(StrikesAfter(ASK), PLAIN, st, OK_HEAD).0 == st1
    ensures Empty(st1) && !st1.responseProcessed && !st1.responseInterrupted && st1.responseReceived == 0
    ensures st1.trace != [] && st1.trace[|st1.trace| - 1] == ASK
    ensures forall i :: 0 <= i < |st1.trace| ==> !ReachesClient(st1.trace[i])
  {
    hide Call, ProcessIntervention, StrikesAfter;
    var ran := Emit(st, PHASE2).(requestProcessed := true);
    PlainCall(ASK, st, ProcessRequestBody);
    PlainAsk(ASK, ran, AtRequestBody);
    var asked := Emit(ran, ASK);
    var called := Emit(asked, Engine(ProcessResponseHeaders(200)));
    PlainCall(ASK, asked, ProcessResponseHeaders(200));
    PlainAsk(ASK, called, AtResponseHeaders);
    st1 := Emit(called, ASK);
  }

  /** Deleting a stream that struck when its skipped request-body phase ran. */
  lemma DeletionStrikes(st: Stream)
    requires st == FRESH.(transaction := true, active := true, trace := OPENED)
    ensures var trace := OnDelete(StrikesAfter(PHASE2), PLAIN, st).trace;
      ForbiddenYetServed(trace)
  {
    hide Call, ProcessIntervention, StrikesAfter, FinishResponsePhases;
    var e := StrikesAfter(PHASE2);
    var ran := Emit(st, PHASE2).(requestProcessed := true);
    PlainCall(PHASE2, st, ProcessRequestBody);
    StrikingAsk(PHASE2, ran, AtRequestBody);
    var (r, s) := ProcessIntervention(e, PLAIN, ran, AtRequestBody);
    ResponsePhasesSilent(e, PLAIN, r);
    var at := |r.trace| - 1;
    assert OnDelete(e, PLAIN, st).trace[at] == r.trace[at];
  }

  lemma DeletionRun(e: Engine)
    ensures Run(e, PLAIN, FRESH, [RequestHeaders(GET_HEAD), Delete]) ==
      OnDelete(e, PLAIN, OnRequestHeaders(e, PLAIN, FRESH, GET_HEAD).0)
  {
    hide OnRequestHeaders, OnDelete;
    assert [RequestHeaders(GET_HEAD)] + [Delete] == [RequestHeaders(GET_HEAD), Delete];
    RunOneMore(e, PLAIN, FRESH, [RequestHeaders(GET_HEAD)], Delete);
    RunOneMore(e, PLAIN, FRESH, [], RequestHeaders(GET_HEAD));
    assert [] + [RequestHeaders(GET_HEAD)] == [RequestHeaders(GET_HEAD)];
  }

  /** A verdict taken at deletion, when the stream ends before the request body. */
  lemma DeletedUnanswered()
    ensures var e := StrikesAfter(PHASE2);
      var run := [RequestHeaders(GET_HEAD), Delete];
      var trace := Run(e, PLAIN, FRESH, run).trace;
      && StageAfter(Created, run) == Some(Deleted) && ForbiddenYetServed(trace)
  {
    hide StrikesAfter, OnRequestHeaders, OnDelete, ForbiddenYetServed;
    var st := FRESH.(transaction := true, active := true, trace := OPENED);
    OpensPlainly(PHASE2);
    DeletionRun(StrikesAfter(PHASE2));
    LegalTwo();
    DeletionStrikes(st);
  }
}
