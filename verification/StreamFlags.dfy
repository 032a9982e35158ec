/** What a callback leaves behind in its stream: the worker's active pointer, the transaction and the body cursors. */
module StreamFlags {
  import opened Prelude
  import opened StreamModel
  import S = StreamScripts

  predicate Same(a: Stream, b: Stream) { a.active == b.active && S.SameFlags(a, b) }

  lemma {:induction false} RecordAllKeeps(st: Stream, ms: seq<RuleMessage>)
    ensures Same(st, RecordAll(st, ms))
    decreases |ms|
  {
    hide Stash;
    if ms != [] {
      RecordAllKeeps(Record(st, ms[0]), ms[1..]);
    }
  }

  lemma CallKeeps(e: Engine, st: Stream, call: EngineCall)
    ensures Same(st, Call(e, st, call))
  {
    var called := Emit(st, Engine(call));
    var r := e(called.trace);
    RecordAllKeeps(called.(messages := called.messages + r.appended), r.logged);
  }

  lemma FlushKeeps(st: Stream)
    ensures Same(st, FlushNewRuleMessages(st))
  {
    hide RecordAll;
    RecordAllKeeps(st, Disruptive(Unseen(st.messages, st.seen)));
  }

  lemma AskKeeps(e: Engine, cfg: Config, st: Stream, phase: Phase)
    ensures Same(st, ProcessIntervention(e, cfg, st, phase).0)
  {
    hide Stash, Prefix, EffectiveStatus, FlushNewRuleMessages;
    FlushKeeps(st);
  }

  lemma LoggingKeeps(e: Engine, st: Stream)
    ensures var r := RunLoggingPhaseIfNeeded(e, st);
      && r.transaction == st.transaction && (r.active == st.active || r.active)
  {
    hide Call;
    var live := st.(active := true);
    CallKeeps(e, live, ProcessLogging);
    var ran := Call(e, live, ProcessLogging);
    RecordAllKeeps(ran, Unseen(ran.messages, st.seen));
  }

  /** The stream is open and its own. */
  predicate Live(st: Stream) { st.active && st.transaction }

  lemma {:induction false} RequestListKeeps(e: Engine, cfg: Config, st: Stream, headers: seq<Header>)
    ensures Same(st, AddRequestHeaders(e, cfg, st, headers))
    decreases |headers|
  {
    hide Call, FoldIf;
    if headers != [] {
      var call := AddRequestHeader(headers[0].0, FoldIf(cfg, headers[0].1));
      CallKeeps(e, st, call);
      RequestListKeeps(e, cfg, Call(e, st, call), headers[1..]);
    }
  }

  lemma {:induction false} ResponseListKeeps(e: Engine, st: Stream, headers: seq<Header>)
    ensures Same(st, AddResponseHeaders(e, st, headers))
    decreases |headers|
  {
    hide Call;
    if headers != [] {
      var call := AddResponseHeader(headers[0].0, headers[0].1);
      CallKeeps(e, st, call);
      ResponseListKeeps(e, Call(e, st, call), headers[1..]);
    }
  }

  lemma RequestPhaseStaysLive(e: Engine, cfg: Config, st: Stream, received: nat)
    requires Live(st)
    ensures var ran := RunRequestBodyPhase(e, st).(requestReceived := received);
      var asked := ProcessIntervention(e, cfg, ran, AtRequestBody).0;
      Live(asked) && Live(RunLoggingPhaseIfNeeded(e, asked))
  {
    hide Call, ProcessIntervention, RunLoggingPhaseIfNeeded;
    CallKeeps(e, st, ProcessRequestBody);
    var ran := RunRequestBodyPhase(e, st).(requestReceived := received);
    AskKeeps(e, cfg, ran, AtRequestBody);
    LoggingKeeps(e, ProcessIntervention(e, cfg, ran, AtRequestBody).0);
  }

  lemma RequestHeadersLive(e: Engine, cfg: Config, st: Stream, head: RequestHead)
    requires cfg.engineReady
    ensures Live(OnRequestHeaders(e, cfg, st, head).0)
  {
    hide Call, ProcessIntervention, AddRequestHeaders, EndRequestHeaders, FoldIf;
    var open := Emit(st.(active := true, transaction := true), TxTotal);
    CallKeeps(e, open, ProcessConnection);
    var st0 := Call(e, open, ProcessConnection);
    AskKeeps(e, cfg, st0, AtRequestHeaders);
    var st1 := ProcessIntervention(e, cfg, st0, AtRequestHeaders).0;
    var call := ProcessURI(FoldIf(cfg, head.path), head.verb);
    CallKeeps(e, st1, call);
    AskKeeps(e, cfg, Call(e, st1, call), AtRequestHeaders);
    var st2 := ProcessIntervention(e, cfg, Call(e, st1, call), AtRequestHeaders).0;
    RequestListKeeps(e, cfg, st2, head.headers);
    var added := AddRequestHeaders(e, cfg, st2, head.headers);
    if head.host.Some? {
      CallKeeps(e, added, AddRequestHeader(HOST, head.host.value));
    }
    EndHeadersLive(e, cfg, HostedHeaders(e, cfg, st2, head), head);
  }

  lemma EndHeadersLive(e: Engine, cfg: Config, st: Stream, head: RequestHead)
    requires Live(st)
    ensures Live(EndRequestHeaders(e, cfg, st, head).0)
  {
    hide Call, ProcessIntervention, EndRequest;
    AskKeeps(e, cfg, st, AtRequestHeaders);
    var st3 := ProcessIntervention(e, cfg, st, AtRequestHeaders).0;
    CallKeeps(e, st3, ProcessRequestHeaders);
    var called := Call(e, st3, ProcessRequestHeaders);
    AskKeeps(e, cfg, called, AtRequestHeaders);
    var st4 := ProcessIntervention(e, cfg, called, AtRequestHeaders).0;
    EndRequestLive(e, cfg, st4, StopIteration);
  }

  lemma EndRequestLive(e: Engine, cfg: Config, st: Stream, reply: FilterStatus)
    requires Live(st)
    ensures Live(EndRequest(e, cfg, st, reply).0)
  {
    hide ProcessIntervention, RunLoggingPhaseIfNeeded, RunRequestBodyPhase;
    var ran := RunRequestBodyPhase(e, st);
    RequestPhaseStaysLive(e, cfg, st, ran.requestReceived);
    assert ran.(requestReceived := ran.requestReceived) == ran;
  }

  lemma RequestRestLive(e: Engine, cfg: Config, st: Stream, size: nat, got: Option<Bytes>, reply: FilterStatus)
    requires Live(st)
    ensures var fed := AppendRequest(e, cfg, st, size, got);
      Live(fed) && Live(CloseRequestBody(e, cfg, fed, reply).0)
  {
    hide Call, ProcessIntervention, RunLoggingPhaseIfNeeded, RunRequestBodyPhase, FoldIf;
    if got.Some? {
      CallKeeps(e, st, AppendRequestBody(FoldIf(cfg, got.value)));
    }
    RequestPhaseStaysLive(e, cfg, AppendRequest(e, cfg, st, size, got), 0);
  }

  lemma FinalizeStaysLive(e: Engine, st: Stream)
    requires Live(st)
    ensures Live(FinalizeResponseBodyPhase(e, st))
  {
    hide Call;
    CallKeeps(e, st, ProcessResponseBody);
  }

  lemma ResponseHeadersLive(e: Engine, cfg: Config, st: Stream, head: ResponseHead)
    requires st.transaction
    ensures Live(OnResponseHeaders(e, cfg, st, head).0)
  {
    hide Call, ProcessIntervention, AddResponseHeaders, EndResponseHeaders;
    var live := st.(active := true);
    CallKeeps(e, live, ProcessRequestBody);
    var ran := RunRequestBodyPhase(e, live);
    AskKeeps(e, cfg, ran, AtRequestBody);
    var next := if st.requestProcessed then live else ProcessIntervention(e, cfg, ran, AtRequestBody).0;
    ResponseListKeeps(e, next, head.headers);
    var added := AddResponseHeaders(e, next, head.headers);
    CallKeeps(e, added, ProcessResponseHeaders(head.code));
    EndResponseLive(e, cfg, Call(e, added, ProcessResponseHeaders(head.code)), head);
  }

  lemma EndResponseLive(e: Engine, cfg: Config, st: Stream, head: ResponseHead)
    requires Live(st)
    ensures Live(EndResponseHeaders(e, cfg, st, head).0)
  {
    hide Call, ProcessIntervention, RunLoggingPhaseIfNeeded, FinalizeResponseBodyPhase;
    AskKeeps(e, cfg, st, AtResponseHeaders);
    var st2 := ProcessIntervention(e, cfg, st, AtResponseHeaders).0;
    CallKeeps(e, st2, AppendResponseBody([0]));
    var fed := Call(e, st2, AppendResponseBody([0]));
    AskKeeps(e, cfg, fed, AtResponseBody);
    var st3 := ProcessIntervention(e, cfg, fed, AtResponseBody).0;
    FinalizeStaysLive(e, st3);
    var final := FinalizeResponseBodyPhase(e, st3);
    AskKeeps(e, cfg, final, AtResponseBody);
    LoggingKeeps(e, ProcessIntervention(e, cfg, final, AtResponseBody).0);
  }

  lemma AppendResponseKeeps(e: Engine, st: Stream, size: nat, got: Option<Bytes>)
    ensures var fed := AppendResponse(e, st, size, got);
      && fed.active == st.active && S.SameFlags(st, fed.(responseReceived := st.responseReceived))
      && fed.responseReceived == Moved(st.responseReceived, size, got)
  {
    hide Call;
    if size > st.responseReceived && got.Some? && |got.value| > 0 {
      var fed := Call(e, st, AppendResponseBody(got.value));
      CallKeeps(e, st, AppendResponseBody(got.value));
      assert AppendResponse(e, st, size, got) == fed.(responseReceived := st.responseReceived + |got.value|);
    }
  }

  lemma SanitizeKeeps(st: Stream, length: nat)
    ensures Same(st.(responseInterrupted := true), SanitizeInterruptedResponseBody(st, length))
  {
  }

  lemma EndChunkLive(e: Engine, cfg: Config, st: Stream, length: nat, ends: bool)
    requires Live(st)
    ensures Live(EndResponseChunk(e, cfg, st, length, ends).0)
  {
    hide ProcessIntervention, RunLoggingPhaseIfNeeded, FinalizeResponseBodyPhase, SanitizeInterruptedResponseBody;
    FinalizeStaysLive(e, st);
    var final := FinalizeResponseBodyPhase(e, st);
    AskKeeps(e, cfg, final, AtResponseBody);
    var r := ProcessIntervention(e, cfg, final, AtResponseBody).0;
    SanitizeKeeps(r, length);
    LoggingKeeps(e, r);
  }

  lemma ResponseBodyLive(e: Engine, cfg: Config, st: Stream, length: nat, got: Option<Bytes>, ends: bool)
    requires st.transaction
    ensures Live(OnResponseBody(e, cfg, st, length, got, ends).0)
  {
    hide ProcessIntervention, AppendResponse, EndResponseChunk, SanitizeInterruptedResponseBody, Moved;
    var live := st.(active := true);
    SanitizeKeeps(live, length);
    AppendResponseKeeps(e, live, length, got);
    var fed := AppendResponse(e, live, length, got);
    EndChunkLive(e, cfg, fed, length, ends);
    AskKeeps(e, cfg, fed, AtResponseBody);
    var r := ProcessIntervention(e, cfg, fed, AtResponseBody).0;
    SanitizeKeeps(r.(responseProcessed := true), length);
    EndChunkLive(e, cfg, r, length, ends);
  }

  lemma ResponseTrailersLive(e: Engine, cfg: Config, st: Stream, buffered: Option<nat>, got: Option<Bytes>)
    requires st.transaction && !st.responseProcessed
    ensures Live(OnResponseTrailers(e, cfg, st, buffered, got).0)
  {
    hide ProcessIntervention, AppendResponse, FinalizeResponseBodyPhase, SanitizeInterruptedResponseBody, Moved;
    hide RunLoggingPhaseIfNeeded;
    var live := st.(active := true);
    var size := if buffered.Some? then buffered.value else 0;
    SanitizeKeeps(live, size);
    AppendResponseKeeps(e, live, size, got);
    var fed := AppendResponse(e, live, size, got);
    AskKeeps(e, cfg, fed, AtResponseBody);
    var st1 := ProcessIntervention(e, cfg, fed, AtResponseBody).0;
    SanitizeKeeps(st1.(responseProcessed := true), size);
    FinalizeStaysLive(e, st1);
    var final := FinalizeResponseBodyPhase(e, st1);
    AskKeeps(e, cfg, final, AtResponseBody);
    var st2 := ProcessIntervention(e, cfg, final, AtResponseBody).0;
    SanitizeKeeps(st2, size);
    LoggingKeeps(e, st2);
    LoggingKeeps(e, SanitizeInterruptedResponseBody(st2, size));
  }

  /** Callbacks that take the worker's active pointer: those of an open stream that still have something to do. */
  predicate Activates(cfg: Config, st: Stream, cb: Callback) {
    match cb
    case RequestHeaders(_) => cfg.engineReady
    case RequestTrailers(_, _) => st.transaction && !st.requestProcessed
    case ResponseTrailers(_, _) => st.transaction && !st.responseProcessed
    case Delete => false
    case _ => st.transaction
  }

  /**
   * After any callback of any stream: it is the active one if the callback had something to do, and as it was
   * otherwise, deletion excepted, which gives the pointer up; only the first callback opens a transaction and
   * only deletion closes it.
   */
  lemma HandleLeaves(e: Engine, cfg: Config, st: Stream, cb: Callback)
    ensures var r := Handle(e, cfg, st, cb).0;
      && r.active == (Activates(cfg, st, cb) || (st.active && !cb.Delete?))
      && r.transaction == if cb.Delete? then false else if cb.RequestHeaders? && cfg.engineReady then true
                          else st.transaction
  {
    hide OnRequestHeaders, CloseRequestBody, AppendRequest, OnResponseHeaders, OnResponseBody, OnResponseTrailers;
    hide RunLoggingPhaseIfNeeded, FinishPhases;
    var live := st.(active := true);
    match cb
    case RequestHeaders(head) =>
      if cfg.engineReady {
        RequestHeadersLive(e, cfg, st, head);
      } else {
        NotReady(e, cfg, st, head);
      }
    case RequestBody(length, got, ends) =>
      if st.transaction {
        RequestRestLive(e, cfg, live, length, got, StopIterationNoBuffer);
      }
    case RequestTrailers(buffered, got) =>
      if st.transaction && !st.requestProcessed {
        RequestRestLive(e, cfg, live, if buffered.Some? then buffered.value else 0, got, StopIteration);
        NoBuffer(e, cfg, live, got);
      }
    case ResponseHeaders(head) =>
      if st.transaction {
        ResponseHeadersLive(e, cfg, st, head);
      } else {
        Closed(e, cfg, st, cb);
      }
    case ResponseBody(length, got, ends) =>
      if st.transaction {
        ResponseBodyLive(e, cfg, st, length, got, ends);
      } else {
        Closed(e, cfg, st, cb);
      }
    case ResponseTrailers(buffered, got) =>
      if st.transaction && !st.responseProcessed {
        ResponseTrailersLive(e, cfg, st, buffered, got);
      } else {
        Closed(e, cfg, st, cb);
      }
    case Log => LoggingKeeps(e, live);
    case Delete =>
  }

  lemma NotReady(e: Engine, cfg: Config, st: Stream, head: RequestHead)
    requires !cfg.engineReady
    ensures OnRequestHeaders(e, cfg, st, head) == (st, Continue)
  {
  }

  lemma NoBuffer(e: Engine, cfg: Config, st: Stream, got: Option<Bytes>)
    ensures AppendRequest(e, cfg, st, 0, got) == st
  {
  }

  lemma Closed(e: Engine, cfg: Config, st: Stream, cb: Callback)
    requires !st.transaction || (cb.ResponseTrailers? && st.responseProcessed)
    requires cb.ResponseHeaders? || cb.ResponseBody? || cb.ResponseTrailers?
    ensures Handle(e, cfg, st, cb).0 == st
  {
    hide ProcessIntervention, RunRequestBodyPhase, OnResponseHeaderList, SanitizeInterruptedResponseBody,
      AppendResponse, EndResponseChunk, FinalizeResponseBodyPhase, RunLoggingPhaseIfNeeded;
  }

  // ---------------------------------------------------------------------------
  // The cursors
  // ---------------------------------------------------------------------------

  /** Beyond the bytes that were read, or to the end of a buffer that could not be read. */
  function Moved(cursor: nat, size: nat, got: Option<Bytes>): nat {
    if size <= cursor then cursor
    else if got.Some? && got.value != [] then cursor + |got.value|
    else size
  }

  /** A chunk of a request body moves its cursor and nothing else; what cannot be read is skipped for good. */
  lemma RequestChunkLeaves(e: Engine, cfg: Config, st: Stream, length: nat, got: Option<Bytes>)
    requires st.transaction && !st.requestProcessed
    ensures var r := OnRequestBody(e, cfg, st, length, got, false).0;
      && r.requestReceived == Moved(st.requestReceived, length, got)
      && S.SameFlags(st, r.(requestReceived := st.requestReceived))
  {
    hide Call, FoldIf;
    if got.Some? {
      CallKeeps(e, st.(active := true), AppendRequestBody(FoldIf(cfg, got.value)));
    }
  }

  /** So does a chunk of a response body, unless a verdict with a status closes it. */
  lemma ResponseChunkLeaves(e: Engine, cfg: Config, st: Stream, length: nat, got: Option<Bytes>)
    requires st.transaction && !st.responseProcessed && !st.responseInterrupted
    ensures var (r, reply) := OnResponseBody(e, cfg, st, length, got, false);
      if reply.Continue? then r.responseProcessed && r.responseInterrupted
      else
        && r.responseReceived == Moved(st.responseReceived, length, got)
        && S.SameFlags(st, r.(responseReceived := st.responseReceived))
  {
    hide ProcessIntervention, AppendResponse, SanitizeInterruptedResponseBody, Moved;
    var live := st.(active := true);
    AppendResponseKeeps(e, live, length, got);
    var fed := AppendResponse(e, live, length, got);
    AskKeeps(e, cfg, fed, AtResponseBody);
    var r := ProcessIntervention(e, cfg, fed, AtResponseBody).0;
    SanitizeKeeps(r.(responseProcessed := true), length);
  }
}
