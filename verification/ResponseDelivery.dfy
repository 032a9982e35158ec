/**
 * The response body on its way to the engine: each byte of a growing buffer is fed once and in order until a
 * verdict closes the phase, and a response without a body is fed as one zero byte.
 */
module ResponseDelivery {
  import opened Prelude
  import opened StreamModel
  import B = BodyDelivery
  import Fullwidth

  predicate IsResponseFeed(a: Act) { a.Engine? && a.call.AppendResponseBody? }

  /** The response bytes the engine has been fed. */
  function Fed(trace: seq<Act>): Bytes {
    if trace == [] then []
    else (if IsResponseFeed(trace[0]) then trace[0].call.bytes else []) + Fed(trace[1..])
  }

  lemma {:induction false} FedConcat(s: seq<Act>, t: seq<Act>)
    ensures Fed(s + t) == Fed(s) + Fed(t)
  {
    if s == [] {
      assert s + t == t;
    } else {
      assert (s + t)[1..] == s[1..] + t;
      FedConcat(s[1..], t);
    }
  }

  lemma {:induction false} FedNothing(s: seq<Act>)
    requires forall i :: 0 <= i < |s| ==> !IsResponseFeed(s[i])
    ensures Fed(s) == []
  {
    if s != [] {
      FedNothing(s[1..]);
    }
  }

  lemma FedOne(st: Stream, a: Act)
    ensures Fed(Emit(st, a).trace) == Fed(st.trace) + (if IsResponseFeed(a) then a.call.bytes else [])
  {
    FedConcat(st.trace, [a]);
    assert [a][1..] == [];
  }

  // ---------------------------------------------------------------------------
  // Steps that feed nothing
  // ---------------------------------------------------------------------------

  /** The same flags and cursor of the response. */
  predicate SameResponse(a: Stream, b: Stream) {
    && a.transaction == b.transaction && a.responseProcessed == b.responseProcessed
    && a.responseInterrupted == b.responseInterrupted && a.responseReceived == b.responseReceived
  }

  predicate Mute(a: Stream, b: Stream) { Fed(b.trace) == Fed(a.trace) && SameResponse(a, b) }

  lemma {:induction false} RecordAllMute(st: Stream, ms: seq<RuleMessage>)
    ensures Mute(st, RecordAll(st, ms))
    decreases |ms|
  {
    hide Fed, Stash;
    if ms != [] {
      FedOne(st, Recorded(ms[0]));
      RecordAllMute(Record(st, ms[0]), ms[1..]);
    }
  }

  lemma CallFeeds(e: Engine, st: Stream, call: EngineCall)
    ensures var r := Call(e, st, call);
      && Fed(r.trace) == Fed(st.trace) + (if call.AppendResponseBody? then call.bytes else [])
      && SameResponse(st, r)
  {
    hide Fed;
    var called := Emit(st, Engine(call));
    var r := e(called.trace);
    var grown := called.(messages := called.messages + r.appended);
    FedOne(st, Engine(call));
    RecordAllMute(grown, r.logged);
    FedConcat(grown.trace, Misdeliveries(r.logged));
    FedNothing(Misdeliveries(r.logged));
  }

  lemma VerdictMute(e: Engine, cfg: Config, st: Stream, phase: Phase)
    ensures Mute(st, ProcessIntervention(e, cfg, st, phase).0)
  {
    hide Fed, Stash, Prefix;
    RecordAllMute(st, Disruptive(Unseen(st.messages, st.seen)));
    var flushed := FlushNewRuleMessages(st);
    var asked := Emit(flushed, Engine(AskIntervention));
    FedOne(flushed, Engine(AskIntervention));
    var verdict := e(asked.trace).verdict;
    if verdict.Some? {
      FedOne(asked, Interrupted(phase, asked.lastDisruptive, EffectiveStatus(cfg, verdict.value.status)));
    }
  }

  lemma LoggingMute(e: Engine, st: Stream)
    ensures Mute(st, RunLoggingPhaseIfNeeded(e, st))
  {
    hide Fed, Call;
    var live := st.(active := true);
    CallFeeds(e, live, ProcessLogging);
    var ran := Call(e, live, ProcessLogging);
    RecordAllMute(ran, Unseen(ran.messages, st.seen));
  }

  lemma BlockMute(st: Stream, status: int)
    ensures Mute(st, SendBlockResponse(st, status))
  {
    hide Fed;
    FedOne(st, SendBlockResponse(st, status).trace[|st.trace|]);
  }

  lemma SanitizeFeeds(st: Stream, length: nat)
    ensures var r := SanitizeInterruptedResponseBody(st, length);
      && Fed(r.trace) == Fed(st.trace) && r.responseInterrupted
      && SameResponse(st, r.(responseInterrupted := st.responseInterrupted))
  {
    hide Fed;
    FedOne(st, SanitizeCounted);
    FedOne(st, BodyReplaced(length));
    FedOne(Emit(st, SanitizeCounted), BodyReplaced(length));
  }

  /** Phase 4 and its verdict feed nothing and leave the phase closed. */
  lemma FinalizeFeeds(e: Engine, st: Stream)
    ensures var r := FinalizeResponseBodyPhase(e, st);
      && Fed(r.trace) == Fed(st.trace) && r.transaction == st.transaction
      && (st.transaction ==> r.responseProcessed)
  {
    hide Fed, Call;
    CallFeeds(e, st, ProcessResponseBody);
  }

  // ---------------------------------------------------------------------------
  // Chunks
  // ---------------------------------------------------------------------------

  /** A body callback that is not the last. */
  function Take(e: Engine, cfg: Config, st: Stream, b: Bytes): Stream {
    OnResponseBody(e, cfg, st, |b|, B.FullRead(b, st.responseReceived), false).0
  }

  function Deliver(e: Engine, cfg: Config, st: Stream, buffers: seq<Bytes>): Stream
    decreases |buffers|
  {
    if buffers == [] then st else Deliver(e, cfg, Take(e, cfg, st, buffers[0]), buffers[1..])
  }

  /** Nothing of the response body is refused so far. */
  predicate Serving(st: Stream) { st.transaction && !st.responseProcessed && !st.responseInterrupted }

  /** A verdict on the response closed the phase. */
  predicate Struck(st: Stream) { st.transaction && st.responseProcessed && st.responseInterrupted }

  lemma AppendFeeds(e: Engine, st: Stream, b: Bytes)
    ensures var r := AppendResponse(e, st, |b|, B.FullRead(b, st.responseReceived));
      && Fed(r.trace) == Fed(st.trace) + (if |b| > st.responseReceived then b[st.responseReceived..] else [])
      && r.responseReceived == (if |b| > st.responseReceived then |b| else st.responseReceived)
      && SameResponse(st, r.(responseReceived := st.responseReceived))
  {
    hide Fed, Call;
    if |b| > st.responseReceived {
      CallFeeds(e, st, AppendResponseBody(b[st.responseReceived..]));
    }
  }

  lemma TakeFeeds(e: Engine, cfg: Config, st: Stream, b: Bytes)
    requires Serving(st)
    ensures var r := Take(e, cfg, st, b);
      && Fed(r.trace) == Fed(st.trace) + (if |b| > st.responseReceived then b[st.responseReceived..] else [])
      && (Struck(r) ||
          (Serving(r) && r.responseReceived == if |b| > st.responseReceived then |b| else st.responseReceived))
  {
    hide Fed, ProcessIntervention, AppendResponse, SanitizeInterruptedResponseBody;
    var live := st.(active := true);
    AppendFeeds(e, live, b);
    var fed := AppendResponse(e, live, |b|, B.FullRead(b, st.responseReceived));
    VerdictMute(e, cfg, fed, AtResponseBody);
    SanitizeFeeds(ProcessIntervention(e, cfg, fed, AtResponseBody).0.(responseProcessed := true), |b|);
  }

  lemma TakeAfterStruck(e: Engine, cfg: Config, st: Stream, b: Bytes)
    requires Struck(st)
    ensures var r := Take(e, cfg, st, b); Fed(r.trace) == Fed(st.trace) && Struck(r)
  {
    hide Fed, SanitizeInterruptedResponseBody;
    SanitizeFeeds(st.(active := true), |b|);
  }

  lemma {:induction false} DeliverAfterStruck(e: Engine, cfg: Config, st: Stream, buffers: seq<Bytes>)
    requires Struck(st)
    ensures var r := Deliver(e, cfg, st, buffers); Fed(r.trace) == Fed(st.trace) && Struck(r)
    decreases |buffers|
  {
    hide Fed, Take;
    if buffers != [] {
      TakeAfterStruck(e, cfg, st, buffers[0]);
      DeliverAfterStruck(e, cfg, Take(e, cfg, st, buffers[0]), buffers[1..]);
    }
  }

  lemma ChunksMore(seen: Bytes, b: Bytes, rest: seq<Bytes>)
    requires seen <= b
    ensures Fullwidth.Concat(B.Chunks(|seen|, [b] + rest)) ==
      (if |b| > |seen| then b[|seen|..] else []) + Fullwidth.Concat(B.Chunks(|b|, rest))
  {
    var all := [b] + rest;
    assert all[0] == b && all[1..] == rest;
    if |b| > |seen| {
      var chunks := B.Chunks(|seen|, all);
      assert chunks[0] == b[|seen|..] && chunks[1..] == B.Chunks(|b|, rest);
    }
  }

  /** A verdict struck at the k-th buffer, and at none before it. */
  ghost predicate StruckAt(e: Engine, cfg: Config, st: Stream, buffers: seq<Bytes>, k: nat) {
    && 0 < k <= |buffers|
    && Serving(Deliver(e, cfg, st, buffers[..k - 1])) && Struck(Deliver(e, cfg, st, buffers[..k]))
  }

  lemma DeliverFirst(e: Engine, cfg: Config, st: Stream, b: Bytes, rest: seq<Bytes>)
    ensures Deliver(e, cfg, st, [b] + rest) == Deliver(e, cfg, Take(e, cfg, st, b), rest)
  {
    assert ([b] + rest)[1..] == rest;
  }

  lemma StruckLater(e: Engine, cfg: Config, st: Stream, buffers: seq<Bytes>, k: nat)
    requires buffers != [] && StruckAt(e, cfg, Take(e, cfg, st, buffers[0]), buffers[1..], k)
    ensures StruckAt(e, cfg, st, buffers, k + 1)
  {
    hide Take, Serving, Struck;
    assert buffers[..k] == [buffers[0]] + buffers[1..][..k - 1] && buffers[..k + 1] == [buffers[0]] + buffers[1..][..k];
    DeliverFirst(e, cfg, st, buffers[0], buffers[1..][..k - 1]);
    DeliverFirst(e, cfg, st, buffers[0], buffers[1..][..k]);
  }

  /** The engine is fed the chunks of the first k buffers: of all of them, unless a verdict struck at the k-th. */
  lemma {:induction false} DeliverFeeds(e: Engine, cfg: Config, st: Stream, seen: Bytes, buffers: seq<Bytes>)
    returns (k: nat)
    requires Serving(st) && st.responseReceived == |seen| && B.Growing([seen] + buffers)
    ensures k <= |buffers|
    ensures var r := Deliver(e, cfg, st, buffers);
      && Fed(r.trace) == Fed(st.trace) + Fullwidth.Concat(B.Chunks(|seen|, buffers[..k]))
      && (if Struck(r) then StruckAt(e, cfg, st, buffers, k)
          else k == |buffers| && Serving(r) && r.responseReceived == |([seen] + buffers)[|buffers|]|)
    decreases |buffers|
  {
    hide Fed, Take;
    if buffers == [] {
      k := 0;
      assert Fed(st.trace) + [] == Fed(st.trace);
    } else {
      var b, rest := buffers[0], buffers[1..];
      var next := Take(e, cfg, st, b);
      B.GrowingTail([seen] + buffers);
      assert ([seen] + buffers)[1..] == buffers == [b] + rest;
      hide B.Growing, B.Chunks, Fullwidth.Concat;
      TakeFeeds(e, cfg, st, b);
      DeliverFirst(e, cfg, st, b, rest);
      var piece := if |b| > |seen| then b[|seen|..] else [];
      if Struck(next) {
        k := 1;
        DeliverAfterStruck(e, cfg, next, rest);
        StruckFirst(e, cfg, st, buffers);
        assert buffers[..1] == [b] + [];
        ChunksMore(seen, b, []);
        assert piece + Fullwidth.Concat(B.Chunks(|b|, [])) == piece by { NoChunks(|b|); }
      } else {
        var more := DeliverFeeds(e, cfg, next, b, rest);
        k := more + 1;
        assert buffers[..k] == [b] + rest[..more];
        ChunksMore(seen, b, rest[..more]);
        Associate(Fed(st.trace), piece, Fullwidth.Concat(B.Chunks(|b|, rest[..more])));
        if Struck(Deliver(e, cfg, next, rest)) {
          StruckLater(e, cfg, st, buffers, more);
        }
      }
    }
  }

  lemma NoChunks(cursor: nat)
    ensures Fullwidth.Concat(B.Chunks(cursor, [])) == []
  {
  }

  lemma StruckFirst(e: Engine, cfg: Config, st: Stream, buffers: seq<Bytes>)
    requires buffers != [] && Serving(st) && Struck(Take(e, cfg, st, buffers[0]))
    ensures StruckAt(e, cfg, st, buffers, 1)
  {
    hide Take, Serving, Struck;
    assert buffers[..0] == [] && buffers[..1] == [buffers[0]] + [];
    DeliverFirst(e, cfg, st, buffers[0], []);
  }

  // ---------------------------------------------------------------------------
  // The end of the body, and after it
  // ---------------------------------------------------------------------------

  /** How the host ends the body: the flag on the last chunk, or trailers. */
  function EndBody(whole: Bytes, cursor: nat, trailers: bool): Callback {
    if trailers then ResponseTrailers(Some(|whole|), B.FullRead(whole, cursor))
    else ResponseBody(|whole|, B.FullRead(whole, cursor), true)
  }

  ghost predicate Closed(st: Stream) { st.transaction ==> st.responseProcessed }

  lemma EndChunkFeeds(e: Engine, cfg: Config, st: Stream, length: nat)
    requires st.transaction
    ensures var r := EndResponseChunk(e, cfg, st, length, true).0; Fed(r.trace) == Fed(st.trace) && Closed(r)
  {
    hide Fed, ProcessIntervention, FinalizeResponseBodyPhase, SanitizeInterruptedResponseBody, RunLoggingPhaseIfNeeded;
    FinalizeFeeds(e, st);
    var final := FinalizeResponseBodyPhase(e, st);
    VerdictMute(e, cfg, final, AtResponseBody);
    var st1 := ProcessIntervention(e, cfg, final, AtResponseBody).0;
    SanitizeFeeds(st1, length);
    LoggingMute(e, st1);
  }

  lemma LastChunkFeeds(e: Engine, cfg: Config, st: Stream, whole: Bytes)
    requires Serving(st)
    ensures var r := OnResponseBody(e, cfg, st, |whole|, B.FullRead(whole, st.responseReceived), true).0;
      && Fed(r.trace) ==
           Fed(st.trace) + (if |whole| > st.responseReceived then whole[st.responseReceived..] else [])
      && Closed(r)
  {
    hide Fed, ProcessIntervention, AppendResponse, SanitizeInterruptedResponseBody, EndResponseChunk;
    var live := st.(active := true);
    AppendFeeds(e, live, whole);
    var fed := AppendResponse(e, live, |whole|, B.FullRead(whole, st.responseReceived));
    VerdictMute(e, cfg, fed, AtResponseBody);
    var st1 := ProcessIntervention(e, cfg, fed, AtResponseBody).0;
    SanitizeFeeds(st1.(responseProcessed := true), |whole|);
    EndChunkFeeds(e, cfg, st1, |whole|);
    EndChunkFeeds(e, cfg, fed, |whole|);
  }

  lemma TrailersFeed(e: Engine, cfg: Config, st: Stream, whole: Bytes)
    requires Serving(st)
    ensures var r := OnResponseTrailers(e, cfg, st, Some(|whole|), B.FullRead(whole, st.responseReceived)).0;
      && Fed(r.trace) ==
           Fed(st.trace) + (if |whole| > st.responseReceived then whole[st.responseReceived..] else [])
      && Closed(r)
  {
    hide Fed, ProcessIntervention, AppendResponse, SanitizeInterruptedResponseBody, FinalizeResponseBodyPhase;
    hide RunLoggingPhaseIfNeeded;
    var live := st.(active := true);
    AppendFeeds(e, live, whole);
    var fed := AppendResponse(e, live, |whole|, B.FullRead(whole, st.responseReceived));
    VerdictMute(e, cfg, fed, AtResponseBody);
    var st1 := ProcessIntervention(e, cfg, fed, AtResponseBody).0;
    SanitizeFeeds(st1.(responseProcessed := true), |whole|);
    FinalizeFeeds(e, st1);
    var final := FinalizeResponseBodyPhase(e, st1);
    VerdictMute(e, cfg, final, AtResponseBody);
    var st2 := ProcessIntervention(e, cfg, final, AtResponseBody).0;
    SanitizeFeeds(st2, |whole|);
    LoggingMute(e, st2);
    LoggingMute(e, SanitizeInterruptedResponseBody(st2, |whole|));
  }

  lemma EndFeeds(e: Engine, cfg: Config, st: Stream, whole: Bytes, trailers: bool)
    requires Serving(st) || Struck(st)
    ensures var r := Handle(e, cfg, st, EndBody(whole, st.responseReceived, trailers)).0;
      && Fed(r.trace) == Fed(st.trace) +
           (if Serving(st) && |whole| > st.responseReceived then whole[st.responseReceived..] else [])
      && Closed(r)
  {
    hide Fed, OnResponseBody, OnResponseTrailers;
    if Serving(st) {
      LastChunkFeeds(e, cfg, st, whole);
      TrailersFeed(e, cfg, st, whole);
    } else {
      assert Fed(st.trace) + [] == Fed(st.trace);
      ClosedFeedsNothing(e, cfg, st, EndBody(whole, st.responseReceived, trailers));
    }
  }

  /** Once the phase is closed, no callback but new headers feeds anything. */
  lemma ClosedFeedsNothing(e: Engine, cfg: Config, st: Stream, cb: Callback)
    requires Closed(st) && !cb.RequestHeaders? && !cb.ResponseHeaders?
    ensures var r := Handle(e, cfg, st, cb).0; Fed(r.trace) == Fed(st.trace) && Closed(r)
  {
    hide Fed, AppendRequest, CloseRequestBody, RunLoggingPhaseIfNeeded, SanitizeInterruptedResponseBody, FinishPhases;
    var live := st.(active := true);
    match cb
    case RequestBody(length, got, _) =>
      RequestMute(e, cfg, live, length, got, StopIterationNoBuffer);
    case RequestTrailers(buffered, got) =>
      RequestMute(e, cfg, live, if buffered.Some? then buffered.value else 0, got, StopIteration);
      CloseRequestMute(e, cfg, live, StopIteration);
    case ResponseBody(length, _, _) => SanitizeFeeds(live, length);
    case ResponseTrailers(_, _) =>
    case Log => LoggingMute(e, live);
    case Delete =>
      if st.transaction {
        FinishMute(e, cfg, live);
        FedOne(FinishPhases(e, cfg, live), TxAllowed);
      }
  }

  lemma RequestMute(e: Engine, cfg: Config, st: Stream, length: nat, got: Option<Bytes>, reply: FilterStatus)
    ensures var fed := AppendRequest(e, cfg, st, length, got);
      Mute(st, fed) && Mute(st, CloseRequestBody(e, cfg, fed, reply).0)
  {
    hide Fed, Call, CloseRequestBody;
    if got.Some? {
      CallFeeds(e, st, AppendRequestBody(FoldIf(cfg, got.value)));
    }
    CloseRequestMute(e, cfg, AppendRequest(e, cfg, st, length, got), reply);
  }

  lemma CloseRequestMute(e: Engine, cfg: Config, st: Stream, reply: FilterStatus)
    ensures Mute(st, CloseRequestBody(e, cfg, st, reply).0)
  {
    hide Fed, Call, ProcessIntervention, RunLoggingPhaseIfNeeded, SendBlockResponse;
    CallFeeds(e, st, ProcessRequestBody);
    var ran := RunRequestBodyPhase(e, st).(requestReceived := 0);
    VerdictMute(e, cfg, ran, AtRequestBody);
    var (st1, s1) := ProcessIntervention(e, cfg, ran, AtRequestBody);
    BlockMute(st1, s1);
    LoggingMute(e, st1);
  }

  lemma FinishMute(e: Engine, cfg: Config, st: Stream)
    requires Closed(st) && st.transaction
    ensures Mute(st, FinishPhases(e, cfg, st))
  {
    hide Fed, Call, ProcessIntervention, RunLoggingPhaseIfNeeded;
    CallFeeds(e, st, ProcessRequestBody);
    var ran := RunRequestBodyPhase(e, st);
    VerdictMute(e, cfg, ran, AtRequestBody);
    LoggingMute(e, ProcessIntervention(e, cfg, ran, AtRequestBody).0);
    LoggingMute(e, st);
  }

  lemma {:induction false} LaterFeedsNothing(e: Engine, cfg: Config, st: Stream, later: seq<Callback>)
    requires Closed(st) && forall cb :: cb in later ==> !cb.RequestHeaders? && !cb.ResponseHeaders?
    ensures Fed(Run(e, cfg, st, later).trace) == Fed(st.trace)
    decreases |later|
  {
    hide Fed, Handle, Closed;
    if later != [] {
      assert later[0] in later;
      ClosedFeedsNothing(e, cfg, st, later[0]);
      LaterFeedsNothing(e, cfg, Handle(e, cfg, st, later[0]).0, later[1..]);
    }
  }

  // ---------------------------------------------------------------------------
  // Main results
  // ---------------------------------------------------------------------------

  /**
   * A response body arrives in any number of growing buffers and ends with the end-of-stream flag or with
   * trailers. What the engine is fed is the body as it stood after k buffers, each byte once and in order:
   * all of it, unless a verdict struck at the k-th buffer and closed the phase. Whatever comes later feeds
   * nothing more.
   */
  lemma ResponseReachesEngine(
      e: Engine, cfg: Config, st: Stream, buffers: seq<Bytes>, whole: Bytes, trailers: bool, later: seq<Callback>)
    returns (k: nat)
    requires Serving(st) && st.responseReceived == 0 && B.Growing([[]] + (buffers + [whole]))
    requires forall cb :: cb in later ==> !cb.RequestHeaders? && !cb.ResponseHeaders?
    ensures var delivered := Deliver(e, cfg, st, buffers);
      var ended := Handle(e, cfg, delivered, EndBody(whole, delivered.responseReceived, trailers)).0;
      && k <= |buffers| + 1
      && Fed(Run(e, cfg, ended, later).trace) == Fed(st.trace) + ([[]] + (buffers + [whole]))[k]
      && (k <= |buffers| ==> StruckAt(e, cfg, st, buffers, k))
  {
    hide Fed, Handle, Run, Deliver, B.Chunks, Fullwidth.Concat, Closed, StruckAt;
    var all := [[]] + (buffers + [whole]);
    assert [[]] + buffers == all[..|all| - 1];
    k := DeliverFeeds(e, cfg, st, [], buffers);
    var delivered := Deliver(e, cfg, st, buffers);
    assert [[]] + buffers[..k] == all[..k + 1];
    B.ChunksCover([], buffers[..k]);
    var sofar := Fullwidth.Concat(B.Chunks(0, buffers[..k]));
    assert [] + sofar == sofar == all[k];
    EndFeeds(e, cfg, delivered, whole, trailers);
    var ended := Handle(e, cfg, delivered, EndBody(whole, delivered.responseReceived, trailers)).0;
    LaterFeedsNothing(e, cfg, ended, later);
    if Struck(delivered) {
      assert Fed(delivered.trace) + [] == Fed(delivered.trace);
    } else {
      assert all[k] <= whole by { assert all[k + 1] == whole; }
      Associate(Fed(st.trace), all[k], whole[|all[k]|..]);
      assert all[k] + whole[|all[k]|..] == whole;
      k := k + 1;
    }
  }

  /** Whether the response headers announce no body, so that one zero byte stands for it. */
  predicate Bodyless(head: ResponseHead) {
    !head.knownBody && (head.endOfStream || head.code < 200 || head.code == 204 || head.code == 304)
  }

  /** After its headers a response without a body is fed as one zero byte, unless a verdict struck at them. */
  lemma BodylessFeedsZero(e: Engine, cfg: Config, st: Stream, head: ResponseHead)
    ensures var (r, reply) := EndResponseHeaders(e, cfg, st, head);
      && Fed(r.trace) == Fed(st.trace) +
           (if Bodyless(head) && ProcessIntervention(e, cfg, st, AtResponseHeaders).1 == 0 then [0] else [])
      && (reply.Continue? && Bodyless(head) ==> Closed(r))
  {
    hide Fed, Call, ProcessIntervention, FinalizeResponseBodyPhase, RunLoggingPhaseIfNeeded, SendBlockResponse;
    VerdictMute(e, cfg, st, AtResponseHeaders);
    var (st2, s2) := ProcessIntervention(e, cfg, st, AtResponseHeaders);
    BlockMute(st2, s2);
    CallFeeds(e, st2, AppendResponseBody([0]));
    var fed := Call(e, st2, AppendResponseBody([0]));
    VerdictMute(e, cfg, fed, AtResponseBody);
    var (st3, s3) := ProcessIntervention(e, cfg, fed, AtResponseBody);
    BlockMute(st3, s3);
    FinalizeFeeds(e, st3);
    var final := FinalizeResponseBodyPhase(e, st3);
    VerdictMute(e, cfg, final, AtResponseBody);
    var (st4, s4) := ProcessIntervention(e, cfg, final, AtResponseBody);
    BlockMute(st4, s4);
    LoggingMute(e, st4);
    assert Fed(st.trace) + [] == Fed(st.trace);
  }

  lemma {:induction false} HeaderListMute(e: Engine, st: Stream, headers: seq<Header>)
    ensures Mute(st, AddResponseHeaders(e, st, headers))
    decreases |headers|
  {
    hide Fed, Call;
    if headers != [] {
      var call := AddResponseHeader(headers[0].0, headers[0].1);
      CallFeeds(e, st, call);
      HeaderListMute(e, Call(e, st, call), headers[1..]);
    }
  }

  lemma EndHeadersServe(e: Engine, cfg: Config, st: Stream, head: ResponseHead)
    ensures var (r, reply) := EndResponseHeaders(e, cfg, st, head);
      && (Fed(r.trace) == Fed(st.trace) || (Bodyless(head) && Fed(r.trace) == Fed(st.trace) + [0]))
      && (reply.Continue? && Bodyless(head) ==> Fed(r.trace) == Fed(st.trace) + [0] && Closed(r))
      && (reply.Continue? && !Bodyless(head) ==> Mute(st, r))
  {
    hide Fed, Call, ProcessIntervention, FinalizeResponseBodyPhase, RunLoggingPhaseIfNeeded, SendBlockResponse;
    BodylessFeedsZero(e, cfg, st, head);
    VerdictMute(e, cfg, st, AtResponseHeaders);
    assert Fed(st.trace) + [] == Fed(st.trace);
  }

  /**
   * The response headers feed one zero byte and close the phase when they are let through and nothing of a body
   * can follow: none is announced, and the stream ends here or the status is below 200, 204 or 304. Otherwise
   * they feed nothing, and the phase stays as it was.
   */
  lemma ResponseHeadersFeed(e: Engine, cfg: Config, st: Stream, head: ResponseHead)
    requires st.transaction
    ensures var (r, reply) := OnResponseHeaders(e, cfg, st, head);
      && (Fed(r.trace) == Fed(st.trace) || (Bodyless(head) && Fed(r.trace) == Fed(st.trace) + [0]))
      && (reply.Continue? && Bodyless(head) ==> Fed(r.trace) == Fed(st.trace) + [0] && Closed(r))
      && (reply.Continue? && !Bodyless(head) ==> Mute(st, r))
  {
    hide Fed, Call, ProcessIntervention, EndResponseHeaders, SendBlockResponse, AddResponseHeaders, Bodyless;
    var live := st.(active := true);
    CallFeeds(e, live, ProcessRequestBody);
    var ran := RunRequestBodyPhase(e, live);
    VerdictMute(e, cfg, ran, AtRequestBody);
    var (st1, s1) := ProcessIntervention(e, cfg, ran, AtRequestBody);
    BlockMute(st1, s1);
    ListServes(e, cfg, live, head);
    ListServes(e, cfg, st1, head);
  }

  lemma ListServes(e: Engine, cfg: Config, st: Stream, head: ResponseHead)
    ensures var (r, reply) := OnResponseHeaderList(e, cfg, st, head);
      && (Fed(r.trace) == Fed(st.trace) || (Bodyless(head) && Fed(r.trace) == Fed(st.trace) + [0]))
      && (reply.Continue? && Bodyless(head) ==> Fed(r.trace) == Fed(st.trace) + [0] && Closed(r))
      && (reply.Continue? && !Bodyless(head) ==> Mute(st, r))
  {
    hide Fed, Call, EndResponseHeaders, AddResponseHeaders, Bodyless;
    HeaderListMute(e, st, head.headers);
    var added := AddResponseHeaders(e, st, head.headers);
    CallFeeds(e, added, ProcessResponseHeaders(head.code));
    EndHeadersServe(e, cfg, Call(e, added, ProcessResponseHeaders(head.code)), head);
  }
}
