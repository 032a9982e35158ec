/**
 * The request body on its way to the engine: the host hands the filter a buffer that only grows,
 * and the filter feeds what lies beyond its cursor, folded, chunk by chunk.
 */
module BodyDelivery {
  import opened Prelude
  import opened StreamModel
  import opened StreamInvariants
  import R = StreamReplies
  import opened StreamRuns
  import Fullwidth

  /** The body bytes the engine has been fed. */
  function Fed(trace: seq<Act>): Bytes {
    if trace == [] then []
    else (if IsRequestFeed(trace[0]) then trace[0].call.bytes else []) + Fed(trace[1..])
  }

  lemma {:induction false} FedConcat(s: seq<Act>, t: seq<Act>)
    ensures Fed(s + t) == Fed(s) + Fed(t)
  {
    if s == [] {
      assert s + t == t;
    } else {
      assert (s + t)[1..] == s[1..] + t;
      FedConcat(s[1..], t);
    }
  }

  lemma {:induction false} FedNothing(s: seq<Act>)
    requires forall a :: a in s ==> !IsRequestFeed(a)
    ensures Fed(s) == []
  {
    if s != [] {
      assert s[0] in s;
      FedNothing(s[1..]);
    }
  }

  /** The host lets the filter read the whole rest of its buffer. */
  function FullRead(buffer: Bytes, cursor: nat): Option<Bytes> {
    if cursor < |buffer| then Some(buffer[cursor..]) else None
  }

  /** Successive buffers that only grow, each extending the one before. */
  ghost predicate Growing(buffers: seq<Bytes>) {
    forall i :: 0 <= i < |buffers| - 1 ==> buffers[i] <= buffers[i + 1]
  }

  /** A body callback that is not the last. */
  function Take(e: Engine, cfg: Config, st: Stream, b: Bytes): Stream {
    OnRequestBody(e, cfg, st, |b|, FullRead(b, st.requestReceived), false).0
  }

  function Deliver(e: Engine, cfg: Config, st: Stream, buffers: seq<Bytes>): Stream
    decreases |buffers|
  {
    if buffers == [] then st else Deliver(e, cfg, Take(e, cfg, st, buffers[0]), buffers[1..])
  }

  /** What each callback adds to the one before. */
  function Chunks(cursor: nat, buffers: seq<Bytes>): seq<Bytes>
    decreases |buffers|
  {
    if buffers == [] then []
    else if |buffers[0]| > cursor then [buffers[0][cursor..]] + Chunks(|buffers[0]|, buffers[1..])
    else Chunks(cursor, buffers[1..])
  }

  function Folded(cfg: Config, chunks: seq<Bytes>): Bytes {
    if cfg.fullwidthNormalize then Fullwidth.FoldEach(chunks) else Fullwidth.Concat(chunks)
  }

  lemma GrowingTail(buffers: seq<Bytes>)
    requires Growing(buffers) && buffers != []
    ensures Growing(buffers[1..])
    ensures |buffers| > 1 ==> buffers[0] <= buffers[1..][0]
  {
  }

  /** Every byte of the final buffer is in exactly one chunk, in order. */
  lemma {:induction false} ChunksCover(seen: Bytes, buffers: seq<Bytes>)
    requires Growing([seen] + buffers)
    ensures seen + Fullwidth.Concat(Chunks(|seen|, buffers)) == ([seen] + buffers)[|buffers|]
    decreases |buffers|
  {
    if buffers != [] {
      var all := [seen] + buffers;
      GrowingTail(all);
      assert all[1..] == buffers;
      assert [buffers[0]] + buffers[1..] == buffers;
      ChunksCover(buffers[0], buffers[1..]);
      assert seen + buffers[0][|seen|..] == buffers[0];
      if |buffers[0]| == |seen| {
        assert seen == buffers[0];
      }
    }
  }

  /** Ready to take more of the body. */
  ghost predicate Receiving(st: Stream) {
    Alive(st) && !st.requestProcessed
  }

  lemma FeedOne(e: Engine, cfg: Config, st: Stream, size: nat, got: Option<Bytes>)
    requires LogsNonDisruptive(e) && Good(st) && !st.requestProcessed
    ensures var r := AppendRequest(e, cfg, st, size, got);
      && Fed(r.trace) == Fed(st.trace) +
           (if size > st.requestReceived && got.Some? then FoldIf(cfg, got.value) else [])
  {
    hide Ordered, ClosedEarly, Select, Times, Records, Disruptive, LastId;
    if size > st.requestReceived && got.Some? {
      if |got.value| > 0 {
        var call := AppendRequestBody(FoldIf(cfg, got.value));
        var acts := CallShape(e, st, call);
        FedConcat(st.trace, acts);
        FedNothing(acts[1..]);
      } else {
        assert FoldIf(cfg, got.value) == [];
      }
    }
  }

  lemma DeliverOne(e: Engine, cfg: Config, st: Stream, b: Bytes)
    requires LogsNonDisruptive(e) && Receiving(st)
    ensures var r := Take(e, cfg, st, b);
      && Receiving(r) && r.active
      && r.requestReceived == (if |b| > st.requestReceived then |b| else st.requestReceived)
      && Fed(r.trace) == Fed(st.trace) +
           (if |b| > st.requestReceived then FoldIf(cfg, b[st.requestReceived..]) else [])
  {
    hide Ordered, ClosedEarly, Select, Times, Records, Disruptive, LastId, Fed;
    var live := st.(active := true);
    var got := FullRead(b, st.requestReceived);
    AppendRequestKeeps(e, cfg, live, |b|, got);
    FeedOne(e, cfg, live, |b|, got);
    if |b| > st.requestReceived {
      var call := AppendRequestBody(FoldIf(cfg, got.value));
      var acts := CallShape(e, live, call);
    }
  }

  lemma {:induction false} DeliverFeeds(e: Engine, cfg: Config, st: Stream, seen: Bytes, buffers: seq<Bytes>)
    requires LogsNonDisruptive(e) && Receiving(st)
    requires st.requestReceived == |seen| && Growing([seen] + buffers)
    ensures var r := Deliver(e, cfg, st, buffers);
      && Receiving(r) && (buffers != [] ==> r.active)
      && Fed(r.trace) == Fed(st.trace) + Folded(cfg, Chunks(|seen|, buffers))
    decreases |buffers|, 0
  {
    if buffers == [] {
      assert Folded(cfg, []) == [];
    } else {
      hide Take, Receiving, Fed, FoldIf, Growing, Folded, Chunks;
      DeliverOne(e, cfg, st, buffers[0]);
      GrowingTail([seen] + buffers);
      assert ([seen] + buffers)[1..] == buffers == [buffers[0]] + buffers[1..];
      DeliverMore(e, cfg, st, seen, buffers, Take(e, cfg, st, buffers[0]));
    }
  }

  lemma {:induction false} DeliverMore(
      e: Engine, cfg: Config, st: Stream, seen: Bytes, buffers: seq<Bytes>, next: Stream)
    requires LogsNonDisruptive(e) && buffers != [] && next == Take(e, cfg, st, buffers[0])
    requires Receiving(next) && next.active && next.requestReceived == |buffers[0]| >= |seen|
    requires Fed(next.trace) == Fed(st.trace) +
      (if |buffers[0]| > |seen| then FoldIf(cfg, buffers[0][|seen|..]) else [])
    requires Growing([buffers[0]] + buffers[1..])
    ensures var r := Deliver(e, cfg, st, buffers);
      && Receiving(r) && r.active
      && Fed(r.trace) == Fed(st.trace) + Folded(cfg, Chunks(|seen|, buffers))
    decreases |buffers| - 1, 1
  {
    hide Take, Receiving, Chunks, Folded, Fed, FoldIf;
    DeliverFeeds(e, cfg, next, buffers[0], buffers[1..]);
    ChunkFolds(cfg, |seen|, buffers);
    Associate(Fed(st.trace), FoldIf(cfg, buffers[0][|seen|..]), Folded(cfg, Chunks(|buffers[0]|, buffers[1..])));
    assert Deliver(e, cfg, st, buffers) == Deliver(e, cfg, next, buffers[1..]) by {
      hide Growing;
    }
    assert |buffers[0]| <= |seen| ==> Fed(st.trace) + [] == Fed(st.trace);
  }

  lemma ChunkFolds(cfg: Config, cursor: nat, buffers: seq<Bytes>)
    requires buffers != []
    ensures Folded(cfg, Chunks(cursor, buffers)) ==
      if |buffers[0]| > cursor
      then FoldIf(cfg, buffers[0][cursor..]) + Folded(cfg, Chunks(|buffers[0]|, buffers[1..]))
      else Folded(cfg, Chunks(cursor, buffers[1..]))
  {
    if |buffers[0]| > cursor {
      var chunks := Chunks(cursor, buffers);
      assert chunks[0] == buffers[0][cursor..] && chunks[1..] == Chunks(|buffers[0]|, buffers[1..]);
    }
  }

  /** No later step of a stream feeds another byte of the request body. */
  lemma {:induction false} FedBeforePhase2(before: seq<Act>, after: seq<Act>)
    requires Ordered(before + after) && PHASE2 in before
    ensures Fed(before + after) == Fed(before)
  {
    var all := before + after;
    forall a | a in after ensures !IsRequestFeed(a) {
      var k :| 0 <= k < |after| && after[k] == a;
      OrderedMeans(all, |before| + k);
      assert all[|before| + k] == a;
      var j :| 0 <= j < |before| && before[j] == PHASE2;
      assert all[..|before| + k][j] == PHASE2;
    }
    FedConcat(before, after);
    FedNothing(after);
  }

  /** How the host ends the body: the flag on the last chunk, or trailers. */
  function EndBody(whole: Bytes, cursor: nat, trailers: bool): Callback {
    if trailers then RequestTrailers(Some(|whole|), FullRead(whole, cursor))
    else RequestBody(|whole|, FullRead(whole, cursor), true)
  }

  lemma PhaseTwoComesFirst(e: Engine, cfg: Config, st: Stream, reply: FilterStatus)
    requires LogsNonDisruptive(e) && Good(st) && !st.requestProcessed
    ensures st.trace + [PHASE2] <= CloseRequestBody(e, cfg, st, reply).0.trace
  {
    hide Ordered, ClosedEarly, Select, Times, Records, Disruptive, LastId,
      ProcessIntervention, RunLoggingPhaseIfNeeded;
    var acts := CallShape(e, st, ProcessRequestBody);
    var ran := RunRequestBodyPhase(e, st).(requestReceived := 0);
    assert st.trace + [PHASE2] <= ran.trace;
    RequestBodyPhaseKeeps(e, st);
    VerdictKeeps(e, cfg, ran, AtRequestBody);
    var (st1, s1) := ProcessIntervention(e, cfg, ran, AtRequestBody);
    if s1 == 0 {
      LoggingServes(e, st1);
    }
  }

  lemma FedOnce(before: seq<Act>, after: seq<Act>)
    requires Ordered(after) && before + [PHASE2] <= after
    ensures Fed(after) == Fed(before) && PHASE2 in after
  {
    var head, tail := before + [PHASE2], after[|before| + 1..];
    assert after == head + tail;
    assert head[|before|] == PHASE2;
    FedBeforePhase2(head, tail);
    FedConcat(before, [PHASE2]);
    FedNothing([PHASE2]);
  }

  lemma CloseFeedsNothing(e: Engine, cfg: Config, st: Stream, reply: FilterStatus)
    requires LogsNonDisruptive(e) && Receiving(st) && st.active
    ensures var r := CloseRequestBody(e, cfg, st, reply).0;
      Alive(r) && Fed(r.trace) == Fed(st.trace) && PHASE2 in r.trace
  {
    CloseRequestServes(e, cfg, st, reply);
    PhaseTwoComesFirst(e, cfg, st, reply);
    FedOnce(st.trace, CloseRequestBody(e, cfg, st, reply).0.trace);
  }

  function CloseReply(trailers: bool): FilterStatus {
    if trailers then StopIteration else StopIterationNoBuffer
  }

  /** Ending the body is taking its last buffer and then closing it. */
  lemma EndIsTakeThenClose(e: Engine, cfg: Config, st: Stream, whole: Bytes, trailers: bool)
    requires st.transaction && !st.requestProcessed
    ensures Handle(e, cfg, st, EndBody(whole, st.requestReceived, trailers))
         == CloseRequestBody(e, cfg, Take(e, cfg, st, whole), CloseReply(trailers))
  {
  }

  lemma {:induction false} DeliverLast(e: Engine, cfg: Config, st: Stream, buffers: seq<Bytes>, whole: Bytes)
    ensures Deliver(e, cfg, st, buffers + [whole]) == Take(e, cfg, Deliver(e, cfg, st, buffers), whole)
    decreases |buffers|
  {
    if buffers == [] {
      assert ([] + [whole])[1..] == [];
    } else {
      assert (buffers + [whole])[1..] == buffers[1..] + [whole];
      DeliverLast(e, cfg, Take(e, cfg, st, buffers[0]), buffers[1..], whole);
    }
  }

  /** All callbacks of one body. */
  function DeliverBody(e: Engine, cfg: Config, st: Stream, buffers: seq<Bytes>, whole: Bytes, trailers: bool): Stream {
    var delivered := Deliver(e, cfg, st, buffers);
    Handle(e, cfg, delivered, EndBody(whole, delivered.requestReceived, trailers)).0
  }

  lemma BodyFed(e: Engine, cfg: Config, st: Stream, buffers: seq<Bytes>, whole: Bytes, trailers: bool)
    requires LogsNonDisruptive(e) && Receiving(st) && st.requestReceived == 0
    requires Growing([[]] + (buffers + [whole])) && Growing([[]] + buffers)
    ensures var r := DeliverBody(e, cfg, st, buffers, whole, trailers);
      && Alive(r) && PHASE2 in r.trace
      && Fed(r.trace) == Fed(st.trace) + Folded(cfg, Chunks(0, buffers + [whole]))
  {
    DeliverFeeds(e, cfg, st, [], buffers);
    DeliverFeeds(e, cfg, st, [], buffers + [whole]);
    DeliverLast(e, cfg, st, buffers, whole);
    EndIsTakeThenClose(e, cfg, Deliver(e, cfg, st, buffers), whole, trailers);
    CloseFeedsNothing(e, cfg, Deliver(e, cfg, st, buffers + [whole]), CloseReply(trailers));
  }

  /**
   * A body arrives in any number of growing buffers and ends with the end-of-stream flag or with
   * trailers. The chunks the filter feeds are the body, each byte once and in order; and the bytes
   * the engine sees are the fold of the whole body exactly when no encoded fullwidth form lies
   * across a boundary between two chunks. Whatever comes later feeds nothing more.
   */
  lemma BodyReachesEngine(
      e: Engine, cfg: Config, st: Stream, buffers: seq<Bytes>, whole: Bytes, trailers: bool, later: seq<Callback>)
    requires LogsNonDisruptive(e) && cfg.engineReady && Receiving(st) && st.requestReceived == 0
    requires Growing([[]] + (buffers + [whole]))
    requires Fed(st.trace) == []
    requires StageAfter(InRequest, later).Some?
    ensures var chunks := Chunks(0, buffers + [whole]);
      var fed := Fed(Run(e, cfg, DeliverBody(e, cfg, st, buffers, whole, trailers), later).trace);
      && Fullwidth.Concat(chunks) == whole
      && (!cfg.fullwidthNormalize ==> fed == whole)
      && (cfg.fullwidthNormalize ==> fed == Fullwidth.FoldEach(chunks))
      && (cfg.fullwidthNormalize ==> (fed == Fullwidth.Fold(whole) <==> !Fullwidth.CutStraddled(chunks)))
  {
    hide Deliver, Handle, Run, Alive, Books, Caught, Fed, Chunks, Fullwidth.Fold, Fullwidth.FoldEach;
    var all := [[]] + (buffers + [whole]);
    assert [[]] + buffers == all[..|all| - 1];
    ChunksCover([], buffers + [whole]);
    BodyFed(e, cfg, st, buffers, whole, trailers);
    NothingMore(e, cfg, InRequest, DeliverBody(e, cfg, st, buffers, whole, trailers), later);
    Fullwidth.FoldByChunks(Chunks(0, buffers + [whole]));
  }

  // ---------------------------------------------------------------------------
  // From the creation of the stream
  // ---------------------------------------------------------------------------

  /** Not a byte of the request body has been fed or counted. */
  ghost predicate Unfed(st: Stream) {
    st.requestReceived == 0 && forall a :: a in st.trace ==> !IsRequestFeed(a)
  }

  lemma {:induction false} RecordAllUnfed(st: Stream, ms: seq<RuleMessage>)
    requires Unfed(st)
    ensures Unfed(RecordAll(st, ms))
    decreases |ms|
  {
    if ms != [] {
      RecordAllUnfed(Record(st, ms[0]), ms[1..]);
    }
  }

  lemma CallUnfed(e: Engine, st: Stream, call: EngineCall)
    requires Unfed(st) && !call.AppendRequestBody?
    ensures Unfed(Call(e, st, call))
  {
    var called := Emit(st, Engine(call));
    var r := e(called.trace);
    RecordAllUnfed(called.(messages := called.messages + r.appended), r.logged);
  }

  lemma VerdictUnfed(e: Engine, cfg: Config, st: Stream, phase: Phase)
    requires Unfed(st)
    ensures Unfed(ProcessIntervention(e, cfg, st, phase).0)
    ensures Unfed(SendBlockResponse(ProcessIntervention(e, cfg, st, phase).0, ProcessIntervention(e, cfg, st, phase).1))
  {
    hide Stash, Prefix, EffectiveStatus;
    if st.transaction {
      RecordAllUnfed(st, Disruptive(Unseen(st.messages, st.seen)));
    }
  }

  lemma LoggingUnfed(e: Engine, st: Stream)
    requires Unfed(st)
    ensures Unfed(RunLoggingPhaseIfNeeded(e, st))
  {
    hide Call;
    if st.transaction && !st.loggingDone {
      var live := st.(active := true);
      CallUnfed(e, live, ProcessLogging);
      var ran := Call(e, live, ProcessLogging);
      RecordAllUnfed(ran, Unseen(ran.messages, st.seen));
    }
  }

  lemma {:induction false} HeaderListUnfed(e: Engine, cfg: Config, st: Stream, headers: seq<Header>)
    requires Unfed(st)
    ensures Unfed(AddRequestHeaders(e, cfg, st, headers))
    decreases |headers|
  {
    hide Call, Unfed, FoldIf;
    if headers != [] {
      var call := AddRequestHeader(headers[0].0, FoldIf(cfg, headers[0].1));
      CallUnfed(e, st, call);
      HeaderListUnfed(e, cfg, Call(e, st, call), headers[1..]);
    }
  }

  lemma EndRequestUnfed(e: Engine, cfg: Config, st: Stream)
    requires Unfed(st)
    ensures Unfed(EndRequest(e, cfg, st, StopIteration).0)
  {
    hide Call, ProcessIntervention, RunLoggingPhaseIfNeeded, SendBlockResponse;
    CallUnfed(e, st, ProcessRequestBody);
    var ran := RunRequestBodyPhase(e, st);
    VerdictUnfed(e, cfg, ran, AtRequestBody);
    LoggingUnfed(e, ProcessIntervention(e, cfg, ran, AtRequestBody).0);
  }

  lemma EndRequestHeadersUnfed(e: Engine, cfg: Config, st: Stream, head: RequestHead)
    requires Unfed(st)
    ensures Unfed(EndRequestHeaders(e, cfg, st, head).0)
  {
    hide Call, Unfed, ProcessIntervention, SendBlockResponse, EndRequest;
    VerdictUnfed(e, cfg, st, AtRequestHeaders);
    var st3 := ProcessIntervention(e, cfg, st, AtRequestHeaders).0;
    CallUnfed(e, st3, ProcessRequestHeaders);
    var called := Call(e, st3, ProcessRequestHeaders);
    VerdictUnfed(e, cfg, called, AtRequestHeaders);
    EndRequestUnfed(e, cfg, ProcessIntervention(e, cfg, called, AtRequestHeaders).0);
  }

  lemma StartRequestUnfed(e: Engine, cfg: Config, st: Stream, head: RequestHead)
    requires Unfed(st)
    ensures Unfed(StartRequest(e, cfg, st, head).0)
  {
    hide Call, Unfed, ProcessIntervention, SendBlockResponse, EndRequestHeaders, AddRequestHeaders, FoldIf;
    var call := ProcessURI(FoldIf(cfg, head.path), head.verb);
    CallUnfed(e, st, call);
    VerdictUnfed(e, cfg, Call(e, st, call), AtRequestHeaders);
    var st2 := ProcessIntervention(e, cfg, Call(e, st, call), AtRequestHeaders).0;
    HeaderListUnfed(e, cfg, st2, head.headers);
    var added := AddRequestHeaders(e, cfg, st2, head.headers);
    if head.host.Some? {
      CallUnfed(e, added, AddRequestHeader(HOST, head.host.value));
    }
    EndRequestHeadersUnfed(e, cfg, HostedHeaders(e, cfg, st2, head), head);
  }

  lemma HeadersUnfed(e: Engine, cfg: Config, head: RequestHead)
    requires cfg.engineReady
    ensures Unfed(OnRequestHeaders(e, cfg, FRESH, head).0)
  {
    hide Call, ProcessIntervention, SendBlockResponse, StartRequest;
    var open := Emit(FRESH.(active := true, transaction := true), TxTotal);
    CallUnfed(e, open, ProcessConnection);
    VerdictUnfed(e, cfg, Call(e, open, ProcessConnection), AtRequestHeaders);
    StartRequestUnfed(e, cfg, ProcessIntervention(e, cfg, Call(e, open, ProcessConnection), AtRequestHeaders).0, head);
  }

  /**
   * The whole life of a request with a body, from its headers to anything that comes later: unless the
   * headers already ended the request, the body reaches the engine as above.
   */
  lemma RequestReachesEngine(
      e: Engine, cfg: Config, head: RequestHead, buffers: seq<Bytes>, whole: Bytes, trailers: bool,
      later: seq<Callback>)
    requires LogsNonDisruptive(e) && cfg.engineReady
    requires !OnRequestHeaders(e, cfg, FRESH, head).0.requestProcessed
    requires Growing([[]] + (buffers + [whole]))
    requires StageAfter(InRequest, later).Some?
    ensures var chunks := Chunks(0, buffers + [whole]);
      var st := OnRequestHeaders(e, cfg, FRESH, head).0;
      var fed := Fed(Run(e, cfg, DeliverBody(e, cfg, st, buffers, whole, trailers), later).trace);
      && Fullwidth.Concat(chunks) == whole
      && (!cfg.fullwidthNormalize ==> fed == whole)
      && (cfg.fullwidthNormalize ==> fed == Fullwidth.FoldEach(chunks))
      && (cfg.fullwidthNormalize ==> (fed == Fullwidth.Fold(whole) <==> !Fullwidth.CutStraddled(chunks)))
  {
    hide Fullwidth.FoldEach;
    hide OnRequestHeaders, Run, DeliverBody, Fed, Chunks, Fullwidth.Concat, Fullwidth.Fold, Fullwidth.CutStraddled;
    hide StageAfter, Growing, LogsNonDisruptive;
    var st := OnRequestHeaders(e, cfg, FRESH, head).0;
    HeadersUnfed(e, cfg, head);
    FedNothing(st.trace);
    OnRequestHeadersServes(e, cfg, FRESH, head);
    BodyReachesEngine(e, cfg, st, buffers, whole, trailers, later);
  }

  // ---------------------------------------------------------------------------
  // A body cut short
  // ---------------------------------------------------------------------------

  /** The request-body phase, and nothing before it, has been run since st. */
  ghost predicate Begun(st: Stream, r: Stream) { st.trace + [PHASE2] <= r.trace }

  lemma BegunStays(st: Stream, mid: Stream, r: Stream)
    requires Begun(st, mid) && mid.trace <= r.trace
    ensures Begun(st, r)
  {
  }

  /** Phase 2 and its verdict, by whichever callback ends the body early. */
  lemma CutBegins(e: Engine, cfg: Config, st: Stream)
    requires LogsNonDisruptive(e) && Receiving(st) && st.active
    ensures var ran := RunRequestBodyPhase(e, st);
      Begun(st, ProcessIntervention(e, cfg, ran, AtRequestBody).0)
  {
    var acts := CallShape(e, st, ProcessRequestBody);
    var ran := RunRequestBodyPhase(e, st);
    assert Begun(st, ran);
    R.VerdictStrikes(e, cfg, ran, AtRequestBody);
    hide Call, ProcessIntervention, RunRequestBodyPhase, R.Marked, Books, Caught, Begun;
    BegunStays(st, ran, ProcessIntervention(e, cfg, ran, AtRequestBody).0);
  }

  lemma HeadersBegin(e: Engine, cfg: Config, st: Stream, head: ResponseHead)
    requires LogsNonDisruptive(e) && Receiving(st) && st.active
    ensures Begun(st, OnResponseHeaders(e, cfg, st, head).0)
  {
    CutBegins(e, cfg, st);
    hide Call, ProcessIntervention, RunRequestBodyPhase, OnResponseHeaderList, R.Marked, R.AnsweredAt, Begun;
    hide Books, Caught;
    assert st.(active := true) == st;
    var (st1, s1) := ProcessIntervention(e, cfg, RunRequestBodyPhase(e, st), AtRequestBody);
    R.SameTrace(st1, st1);
    R.ResponseHeadersReply(e, cfg, st1, st1, head);
    BegunStays(st, st1, OnResponseHeaders(e, cfg, st, head).0);
  }

  lemma DeleteBegins(e: Engine, cfg: Config, st: Stream)
    requires LogsNonDisruptive(e) && Receiving(st) && st.active
    ensures Begun(st, OnDelete(e, cfg, st))
  {
    CutBegins(e, cfg, st);
    hide Call, ProcessIntervention, RunRequestBodyPhase, FinishResponsePhases, R.Marked, Begun, Books, Caught;
    assert st.(active := true) == st;
    var st1 := ProcessIntervention(e, cfg, RunRequestBodyPhase(e, st), AtRequestBody).0;
    R.ResponsePhasesSilent(e, cfg, st1);
    BegunStays(st, st1, OnDelete(e, cfg, st));
  }

  lemma ReceivingActive(st: Stream)
    requires Receiving(st)
    ensures var live := st.(active := true);
      && Receiving(live) && live.trace == st.trace
      && (forall e, cfg, head :: OnResponseHeaders(e, cfg, st, head) == OnResponseHeaders(e, cfg, live, head))
      && (forall e, cfg :: OnDelete(e, cfg, st) == OnDelete(e, cfg, live))
  {
    hide Ordered, ClosedEarly, Select, Times, Records, Disruptive, LastId;
    hide OnResponseHeaderList, ProcessIntervention, RunRequestBodyPhase, FinishPhases;
  }

  lemma CutRunsPhaseTwo(e: Engine, cfg: Config, st: Stream, cut: Callback)
    requires LogsNonDisruptive(e) && Receiving(st) && (cut.ResponseHeaders? || cut.Delete?)
    ensures Begun(st, Handle(e, cfg, st, cut).0)
  {
    hide Receiving, OnResponseHeaders, OnDelete;
    var live := st.(active := true);
    ReceivingActive(st);
    match cut
    case ResponseHeaders(head) => HeadersBegin(e, cfg, live, head);
    case Delete => DeleteBegins(e, cfg, live);
  }

  /**
   * The response starts, or the stream is deleted, before the body ends: the engine saw exactly the
   * chunks delivered so far, and sees no more of them.
   */
  lemma CutShort(
      e: Engine, cfg: Config, st: Stream, buffers: seq<Bytes>, cut: Callback, later: seq<Callback>)
    requires LogsNonDisruptive(e) && cfg.engineReady && Receiving(st) && st.requestReceived == 0
    requires Growing([[]] + buffers) && Fed(st.trace) == []
    requires cut.ResponseHeaders? || cut.Delete?
    requires StageAfter(Next(InRequest, cut).value, later).Some?
    ensures Fed(Run(e, cfg, Handle(e, cfg, Deliver(e, cfg, st, buffers), cut).0, later).trace)
         == Folded(cfg, Chunks(0, buffers))
  {
    DeliverFeeds(e, cfg, st, [], buffers);
    hide Deliver, Handle, Chunks, Folded, Fed, Run, Receiving, StageAfter;
    CutFeedsNothing(e, cfg, Deliver(e, cfg, st, buffers), cut, later);
    assert [] + Folded(cfg, Chunks(0, buffers)) == Folded(cfg, Chunks(0, buffers));
  }

  lemma CutFeedsNothing(e: Engine, cfg: Config, st: Stream, cut: Callback, later: seq<Callback>)
    requires LogsNonDisruptive(e) && cfg.engineReady && Receiving(st)
    requires cut.ResponseHeaders? || cut.Delete?
    requires StageAfter(Next(InRequest, cut).value, later).Some?
    ensures Fed(Run(e, cfg, Handle(e, cfg, st, cut).0, later).trace) == Fed(st.trace)
  {
    hide Books, Caught, Begun, Handle, Fed, Run, StageAfter, Ended;
    CutRunsPhaseTwo(e, cfg, st, cut);
    HandleKeeps(e, cfg, st, InRequest, cut);
    hide StageInv, Receiving;
    var r := Handle(e, cfg, st, cut).0;
    OrderedAtStage(cfg, Next(InRequest, cut).value, r);
    FedOnceBegun(st, r);
    NothingMore(e, cfg, Next(InRequest, cut).value, r, later);
  }

  lemma FedOnceBegun(st: Stream, r: Stream)
    requires Begun(st, r) && Ordered(r.trace)
    ensures Fed(r.trace) == Fed(st.trace) && PHASE2 in r.trace
  {
    FedOnce(st.trace, r.trace);
  }

  lemma OrderedAtStage(cfg: Config, stage: Stage, st: Stream)
    requires StageInv(cfg, stage, st)
    ensures Ordered(st.trace)
  {
  }

  lemma NothingMore(e: Engine, cfg: Config, stage: Stage, st: Stream, later: seq<Callback>)
    requires LogsNonDisruptive(e) && StageInv(cfg, stage, st) && PHASE2 in st.trace
    requires StageAfter(stage, later).Some?
    ensures Fed(Run(e, cfg, st, later).trace) == Fed(st.trace)
  {
    hide Run, StageInv, StageAfter, Ordered, Fed, Ended;
    RunKeeps(e, cfg, st, stage, later);
    OrderedAtStage(cfg, StageAfter(stage, later).value, Run(e, cfg, st, later));
    FedPrefix(st.trace, Run(e, cfg, st, later).trace);
  }

  lemma FedPrefix(before: seq<Act>, all: seq<Act>)
    requires before <= all && Ordered(all) && PHASE2 in before
    ensures Fed(all) == Fed(before)
  {
    assert all == before + all[|before|..];
    FedBeforePhase2(before, all[|before|..]);
  }
}
