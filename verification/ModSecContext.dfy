/**
 * The filter's stream context as the object it is: fields updated by host callbacks, and one
 * active-context pointer per worker through which the engine's log callback finds its stream.
 * Every method is proved against the corresponding function of StreamModel.
 */
module ModSecContexts {
  import opened Prelude
  import opened StreamModel
  import StreamRuns
  import Fullwidth

  /** One worker: the active-context pointer, and the matches it logged while no stream was active. */
  class WorkerThread {
    var active: ModSecContext?
    var orphans: seq<RuleMessage>

    constructor ()
      ensures active == null && orphans == []
    {
      active, orphans := null, [];
    }

    /**
     * The engine's log callback. It knows no stream but the active one: the match goes to the
     * active stream, whichever it is, and otherwise only to the worker's log.
     */
    method LogCallback(m: RuleMessage)
      modifies if active == null then {this as object} else {active as object}
      ensures active == old(active)
      ensures active == null ==> orphans == old(orphans) + [m]
      ensures active != null ==> orphans == old(orphans) && active.State() == Record(old(active.State()), m)
    {
      if active != null {
        active.RecordRuleMatch(m);
      } else {
        orphans := orphans + [m];
      }
    }
  }

  class ModSecContext {
    const worker: WorkerThread
    const engine: Engine
    const cfg: Config

    var transaction: bool
    var requestBodyReceived: nat
    var requestBodyProcessed: bool
    var responseBodyReceived: nat
    var responseBodyProcessed: bool
    var responseBodyInterrupted: bool
    var loggingPhaseDone: bool
    var interrupted: bool
    var lastDisruptiveRuleId: int
    var rulesMessagesSeen: nat
    var exportMatches: seq<ExportMatch>
    // The transaction's message list, which the engine appends to.
    var rulesMessages: seq<RuleMessage>
    // Everything this stream has asked of the engine, the metrics and the host.
    var history: seq<Act>

    /** The abstract value of this object. */
    ghost function State(): Stream
      reads this, worker
    {
      Stream(transaction, requestBodyReceived, requestBodyProcessed, responseBodyReceived, responseBodyProcessed,
             responseBodyInterrupted, loggingPhaseDone, interrupted, lastDisruptiveRuleId, rulesMessagesSeen,
             exportMatches, worker.active == this, rulesMessages, history)
    }

    constructor (worker: WorkerThread, engine: Engine, cfg: Config)
      ensures State() == FRESH
      ensures this.worker == worker && this.engine == engine && this.cfg == cfg
    {
      this.worker, this.engine, this.cfg := worker, engine, cfg;
      transaction := false;
      requestBodyReceived, requestBodyProcessed := 0, false;
      responseBodyReceived, responseBodyProcessed, responseBodyInterrupted := 0, false, false;
      loggingPhaseDone, interrupted := false, false;
      lastDisruptiveRuleId, rulesMessagesSeen := 0, 0;
      exportMatches, rulesMessages, history := [], [], [];
    }

    method ActivateContext()
      modifies worker
      ensures State() == old(State()).(active := true)
    {
      worker.active := this;
    }

    method Note(a: Act)
      modifies this`history
      ensures State() == Emit(old(State()), a)
    {
      history := history + [a];
    }

    method StashExportMatch(m: ExportMatch)
      modifies this`exportMatches
      ensures exportMatches == Stash(old(exportMatches), m, lastDisruptiveRuleId)
    {
      if |exportMatches| < EXPORT_CAP {
        exportMatches := exportMatches + [m];
        return;
      }
      if m.disruptive && lastDisruptiveRuleId == m.ruleId {
        exportMatches := exportMatches[|exportMatches| - 1 := m];
      }
    }

    method RecordRuleMatch(m: RuleMessage)
      modifies this
      ensures State() == Record(old(State()), m)
    {
      if m.disruptive {
        lastDisruptiveRuleId := m.ruleId;
      }
      Note(Recorded(m));
      StashExportMatch(RuleMatchEntry(m));
    }

    /** One call into the engine; only the active stream may make it. */
    method CallEngine(call: EngineCall)
      requires worker.active == this
      modifies this
      ensures State() == Call(engine, old(State()), call)
    {
      Note(Engine(call));
      var r := engine(history);
      rulesMessages := rulesMessages + r.appended;
      ghost var start := State();
      for i := 0 to |r.logged|
        invariant RecordAll(start, r.logged) == RecordAll(State(), r.logged[i..])
        invariant worker.active == this
      {
        worker.LogCallback(r.logged[i]);
        assert r.logged[i..][1..] == r.logged[i + 1..];
      }
    }

    method FlushNewRuleMessages()
      modifies this
      ensures State() == StreamModel.FlushNewRuleMessages(old(State()))
    {
      if !transaction {
        return;
      }
      ghost var start := State();
      ghost var unseen := Unseen(rulesMessages, rulesMessagesSeen);
      var msgs := rulesMessages;
      for idx := 0 to |msgs|
        invariant rulesMessages == msgs && transaction && rulesMessagesSeen == start.seen
        invariant RecordAll(start, Disruptive(unseen)) == RecordAll(State(), Disruptive(From(msgs, start.seen, idx)))
      {
        if idx >= rulesMessagesSeen {
          if msgs[idx].disruptive {
            RecordRuleMatch(msgs[idx]);
          }
        }
        FromStep(msgs, start.seen, idx);
      }
      rulesMessagesSeen := |msgs|;
    }

    /** The returned status is the one to block with, 0 when the stream goes on. */
    method ProcessIntervention(phase: Phase) returns (status: int)
      modifies this
      ensures (State(), status) == StreamModel.ProcessIntervention(engine, cfg, old(State()), phase)
    {
      FlushNewRuleMessages();
      Note(Engine(AskIntervention));
      var r := engine(history);
      if r.verdict.None? {
        return 0;
      }
      interrupted := true;
      status := r.verdict.value.status;
      if 100 <= cfg.blockStatus <= 599 {
        status := cfg.blockStatus;
      }
      Note(Interrupted(phase, lastDisruptiveRuleId, status));
      StashExportMatch(
        ExportMatch(TxInterruptEvent, lastDisruptiveRuleId, phase, -1, true, Prefix(r.verdict.value.log, 256), ""));
    }

    method SendBlockLocalResponse(status: int)
      modifies this`history
      ensures State() == SendBlockResponse(old(State()), status)
    {
      var sent := status;
      if status < 100 || status > 599 {
        sent := 403;
      }
      Note(BlockReply(sent));
    }

    method RunRequestBodyPhase()
      requires worker.active == this
      modifies this
      ensures State() == StreamModel.RunRequestBodyPhase(engine, old(State()))
    {
      CallEngine(ProcessRequestBody);
      requestBodyProcessed := true;
    }

    method FinalizeResponseBodyPhase()
      requires worker.active == this
      modifies this
      ensures State() == StreamModel.FinalizeResponseBodyPhase(engine, old(State()))
    {
      if !transaction || responseBodyProcessed {
        return;
      }
      CallEngine(ProcessResponseBody);
      responseBodyProcessed := true;
      responseBodyReceived := 0;
    }

    method RunLoggingPhaseIfNeeded()
      modifies this, worker
      ensures State() == StreamModel.RunLoggingPhaseIfNeeded(engine, old(State()))
      ensures worker.active == this || worker.active == old(worker.active)
    {
      if !transaction || loggingPhaseDone {
        return;
      }
      ActivateContext();
      var before := rulesMessagesSeen;
      CallEngine(ProcessLogging);
      ghost var ran := State();
      var msgs := rulesMessages;
      for idx := 0 to |msgs|
        invariant rulesMessages == msgs && worker.active == this
        invariant RecordAll(ran, Unseen(msgs, before)) == RecordAll(State(), From(msgs, before, idx))
      {
        if idx >= before {
          RecordRuleMatch(msgs[idx]);
        }
        FromStep(msgs, before, idx);
      }
      rulesMessagesSeen := |msgs|;
      loggingPhaseDone := true;
    }

    method SanitizeInterruptedResponseBody(length: nat)
      modifies this
      ensures State() == StreamModel.SanitizeInterruptedResponseBody(old(State()), length)
      ensures exportMatches == old(exportMatches)
    {
      if !responseBodyInterrupted {
        Note(SanitizeCounted);
      }
      if length > 0 {
        Note(BodyReplaced(length));
      }
      responseBodyInterrupted := true;
    }

    /** What the option asks for is done in place on a copy of the bytes. */
    method Normalize(bytes: Bytes) returns (r: Bytes)
      ensures r == FoldIf(cfg, bytes)
    {
      r := bytes;
      if cfg.fullwidthNormalize {
        var s := new Fullwidth.ByteString(bytes);
        Fullwidth.NormalizeFullwidthAsciiInPlace(s);
        r := s.bytes;
      }
    }

    method AppendRequestChunk(size: nat, got: Option<Bytes>)
      requires worker.active == this
      modifies this
      ensures State() == AppendRequest(engine, cfg, old(State()), size, got)
    {
      if size > requestBodyReceived {
        if got.Some? && |got.value| > 0 {
          var chunk := Normalize(got.value);
          CallEngine(AppendRequestBody(chunk));
          requestBodyReceived := requestBodyReceived + |got.value|;
        } else {
          requestBodyReceived := size;
        }
      }
    }

    method AppendBufferedResponseBody(size: nat, got: Option<Bytes>)
      requires worker.active == this
      modifies this
      ensures State() == AppendResponse(engine, old(State()), size, got)
    {
      if size > responseBodyReceived {
        if got.Some? && |got.value| > 0 {
          CallEngine(AppendResponseBody(got.value));
          responseBodyReceived := responseBodyReceived + |got.value|;
        } else {
          responseBodyReceived := size;
        }
      }
    }

    // -------------------------------------------------------------------------
    // Callbacks
    // -------------------------------------------------------------------------

    method OnRequestHeaders(head: RequestHead) returns (reply: FilterStatus)
      modifies this, worker
      ensures (State(), reply) == StreamModel.OnRequestHeaders(engine, cfg, old(State()), head)
      ensures worker.active == this || worker.active == old(worker.active)
    {
      if !cfg.engineReady {
        return Continue;
      }
      ActivateContext();
      transaction := true;
      Note(TxTotal);
      CallEngine(ProcessConnection);
      var status := ProcessIntervention(AtRequestHeaders);
      if status != 0 {
        SendBlockLocalResponse(status);
        return StopIteration;
      }
      reply := FinishRequestLine(head);
    }

    method FinishRequestLine(head: RequestHead) returns (reply: FilterStatus)
      requires worker.active == this
      modifies this, worker
      ensures (State(), reply) == StartRequest(engine, cfg, old(State()), head)
      ensures worker.active == this || worker.active == old(worker.active)
    {
      var path := Normalize(head.path);
      CallEngine(ProcessURI(path, head.verb));
      var status := ProcessIntervention(AtRequestHeaders);
      if status != 0 {
        SendBlockLocalResponse(status);
        return StopIteration;
      }
      AddRequestHeaderList(head);
      reply := FinishRequestHeaders(head);
    }

    method AddRequestHeaderList(head: RequestHead)
      requires worker.active == this
      modifies this
      ensures State() == HostedHeaders(engine, cfg, old(State()), head)
    {
      for i := 0 to |head.headers|
        invariant worker.active == this
        invariant AddRequestHeaders(engine, cfg, old(State()), head.headers)
               == AddRequestHeaders(engine, cfg, State(), head.headers[i..])
      {
        var value := Normalize(head.headers[i].1);
        CallEngine(AddRequestHeader(head.headers[i].0, value));
        assert head.headers[i..][1..] == head.headers[i + 1..];
      }
      if head.host.Some? {
        CallEngine(AddRequestHeader(HOST, head.host.value));
      }
    }

    method FinishRequestHeaders(head: RequestHead) returns (reply: FilterStatus)
      requires worker.active == this
      modifies this, worker
      ensures (State(), reply) == EndRequestHeaders(engine, cfg, old(State()), head)
      ensures worker.active == this || worker.active == old(worker.active)
    {
      var status := ProcessIntervention(AtRequestHeaders);
      if status != 0 {
        SendBlockLocalResponse(status);
        return StopIteration;
      }
      CallEngine(ProcessRequestHeaders);
      status := ProcessIntervention(AtRequestHeaders);
      if status != 0 {
        SendBlockLocalResponse(status);
        return StopIteration;
      }
      var mayReceiveBody := MethodMayHaveBody(head.verb) && !head.endOfStream;
      if !(head.knownBody || mayReceiveBody) {
        RunRequestBodyPhase();
        status := ProcessIntervention(AtRequestBody);
        if status != 0 {
          SendBlockLocalResponse(status);
          return StopIteration;
        }
        RunLoggingPhaseIfNeeded();
      }
      return Continue;
    }

    method FinishRequestBody(blocked: FilterStatus) returns (reply: FilterStatus)
      requires worker.active == this
      modifies this, worker
      ensures (State(), reply) == CloseRequestBody(engine, cfg, old(State()), blocked)
      ensures worker.active == this || worker.active == old(worker.active)
    {
      hide StreamModel.ProcessIntervention, StreamModel.RunRequestBodyPhase, StreamModel.RunLoggingPhaseIfNeeded,
        StreamModel.SendBlockResponse;
      RunRequestBodyPhase();
      requestBodyReceived := 0;
      var status := ProcessIntervention(AtRequestBody);
      if status != 0 {
        SendBlockLocalResponse(status);
        return blocked;
      }
      RunLoggingPhaseIfNeeded();
      return Continue;
    }

    method OnRequestBody(length: nat, got: Option<Bytes>, endOfStream: bool) returns (reply: FilterStatus)
      modifies this, worker
      ensures (State(), reply) == StreamModel.OnRequestBody(engine, cfg, old(State()), length, got, endOfStream)
      ensures worker.active == this || worker.active == old(worker.active)
    {
      if !transaction {
        return Continue;
      }
      ActivateContext();
      if requestBodyProcessed {
        return Continue;
      }
      AppendRequestChunk(length, got);
      if !endOfStream {
        return StopIterationAndBuffer;
      }
      reply := FinishRequestBody(StopIterationNoBuffer);
    }

    method OnRequestTrailers(buffered: Option<nat>, got: Option<Bytes>) returns (reply: FilterStatus)
      modifies this, worker
      ensures (State(), reply) == StreamModel.OnRequestTrailers(engine, cfg, old(State()), buffered, got)
      ensures worker.active == this || worker.active == old(worker.active)
    {
      if !transaction || requestBodyProcessed {
        return Continue;
      }
      ActivateContext();
      if buffered.Some? {
        AppendRequestChunk(buffered.value, got);
      }
      reply := FinishRequestBody(StopIteration);
    }

    method OnResponseHeaders(head: ResponseHead) returns (reply: FilterStatus)
      modifies this, worker
      ensures (State(), reply) == StreamModel.OnResponseHeaders(engine, cfg, old(State()), head)
      ensures worker.active == this || worker.active == old(worker.active)
    {
      if !transaction {
        return Continue;
      }
      ActivateContext();
      if !requestBodyProcessed {
        RunRequestBodyPhase();
        var status := ProcessIntervention(AtRequestBody);
        if status != 0 {
          SendBlockLocalResponse(status);
          return StopIteration;
        }
      }
      AddResponseHeaderList(head.headers);
      CallEngine(ProcessResponseHeaders(head.code));
      reply := FinishResponseHeaders(head);
    }

    method AddResponseHeaderList(headers: seq<Header>)
      requires worker.active == this
      modifies this
      ensures State() == AddResponseHeaders(engine, old(State()), headers)
    {
      for i := 0 to |headers|
        invariant worker.active == this
        invariant AddResponseHeaders(engine, old(State()), headers)
               == AddResponseHeaders(engine, State(), headers[i..])
      {
        CallEngine(AddResponseHeader(headers[i].0, headers[i].1));
        assert headers[i..][1..] == headers[i + 1..];
      }
    }

    method FinishResponseHeaders(head: ResponseHead) returns (reply: FilterStatus)
      requires worker.active == this
      modifies this, worker
      ensures (State(), reply) == EndResponseHeaders(engine, cfg, old(State()), head)
      ensures worker.active == this || worker.active == old(worker.active)
    {
      var status := ProcessIntervention(AtResponseHeaders);
      if status != 0 {
        SendBlockLocalResponse(status);
        return StopIteration;
      }
      var mayReceiveBody := StatusMayHaveBody(head.code) && !head.endOfStream;
      if !(head.knownBody || mayReceiveBody) {
        CallEngine(AppendResponseBody([0]));
        status := ProcessIntervention(AtResponseBody);
        if status != 0 {
          SendBlockLocalResponse(status);
          return StopIteration;
        }
        FinalizeResponseBodyPhase();
        status := ProcessIntervention(AtResponseBody);
        if status != 0 {
          SendBlockLocalResponse(status);
          return StopIteration;
        }
        RunLoggingPhaseIfNeeded();
      }
      return Continue;
    }

    method OnResponseBody(length: nat, got: Option<Bytes>, endOfStream: bool) returns (reply: FilterStatus)
      modifies this, worker
      ensures (State(), reply) == StreamModel.OnResponseBody(engine, cfg, old(State()), length, got, endOfStream)
      ensures worker.active == this || worker.active == old(worker.active)
    {
      hide StreamModel.ProcessIntervention, StreamModel.FinalizeResponseBodyPhase, StreamModel.RunLoggingPhaseIfNeeded,
        StreamModel.AppendResponse, StreamModel.SanitizeInterruptedResponseBody;
      if !transaction {
        return Continue;
      }
      ActivateContext();
      if responseBodyInterrupted {
        SanitizeInterruptedResponseBody(length);
        return Continue;
      }
      if responseBodyProcessed {
        return Continue;
      }
      var readable := length > responseBodyReceived && got.Some? && |got.value| > 0;
      AppendBufferedResponseBody(length, got);
      if readable {
        var status := ProcessIntervention(AtResponseBody);
        if status != 0 {
          responseBodyProcessed := true;
          SanitizeInterruptedResponseBody(length);
          return Continue;
        }
      }
      reply := FinishResponseChunk(length, endOfStream);
    }

    method FinishResponseChunk(length: nat, endOfStream: bool) returns (reply: FilterStatus)
      requires worker.active == this
      modifies this, worker
      ensures (State(), reply) == EndResponseChunk(engine, cfg, old(State()), length, endOfStream)
      ensures worker.active == this || worker.active == old(worker.active)
    {
      if !endOfStream {
        return StopIterationAndBuffer;
      }
      FinalizeResponseBodyPhase();
      var status := ProcessIntervention(AtResponseBody);
      if status != 0 {
        SanitizeInterruptedResponseBody(length);
        return Continue;
      }
      RunLoggingPhaseIfNeeded();
      return Continue;
    }

    method OnResponseTrailers(buffered: Option<nat>, got: Option<Bytes>) returns (reply: FilterStatus)
      modifies this, worker
      ensures (State(), reply) == StreamModel.OnResponseTrailers(engine, cfg, old(State()), buffered, got)
      ensures worker.active == this || worker.active == old(worker.active)
    {
      hide StreamModel.ProcessIntervention, StreamModel.FinalizeResponseBodyPhase, StreamModel.RunLoggingPhaseIfNeeded,
        StreamModel.AppendResponse, StreamModel.SanitizeInterruptedResponseBody;
      if !transaction || responseBodyProcessed {
        return Continue;
      }
      ActivateContext();
      var size := if buffered.Some? then buffered.value else 0;
      if responseBodyInterrupted {
        if buffered.Some? {
          SanitizeInterruptedResponseBody(size);
        }
        return Continue;
      }
      AppendBufferedResponseBody(size, got);
      var status := ProcessIntervention(AtResponseBody);
      if status != 0 {
        responseBodyProcessed := true;
        SanitizeInterruptedResponseBody(size);
        return Continue;
      }
      FinalizeResponseBodyPhase();
      status := ProcessIntervention(AtResponseBody);
      if status != 0 {
        SanitizeInterruptedResponseBody(size);
      }
      RunLoggingPhaseIfNeeded();
      return Continue;
    }

    method OnLog()
      modifies this, worker
      ensures State() == StreamModel.OnLog(engine, old(State()))
      ensures worker.active == this || worker.active == old(worker.active)
    {
      if transaction {
        ActivateContext();
        RunLoggingPhaseIfNeeded();
      }
    }

    method RunSkippedPhases()
      requires worker.active == this
      modifies this, worker
      ensures State() == FinishPhases(engine, cfg, old(State()))
      ensures worker.active == this || worker.active == old(worker.active)
    {
      if !requestBodyProcessed {
        RunRequestBodyPhase();
        var _ := ProcessIntervention(AtRequestBody);
      }
      RunSkippedResponsePhases();
    }

    method RunSkippedResponsePhases()
      requires worker.active == this
      modifies this, worker
      ensures State() == FinishResponsePhases(engine, cfg, old(State()))
      ensures worker.active == this || worker.active == old(worker.active)
    {
      if !responseBodyProcessed {
        FinalizeResponseBodyPhase();
        var _ := ProcessIntervention(AtResponseBody);
      }
      RunLoggingPhaseIfNeeded();
    }

    method OnDelete()
      modifies this, worker
      ensures State() == StreamModel.OnDelete(engine, cfg, old(State()))
      ensures worker.active ==
        if old(transaction) || old(worker.active) == this then null else old(worker.active)
    {
      if transaction {
        ActivateContext();
        RunSkippedPhases();
        if !interrupted {
          Note(TxAllowed);
        }
      }
      if worker.active == this {
        worker.active := null;
      }
      transaction := false;
    }

    // -------------------------------------------------------------------------
    // A whole life
    // -------------------------------------------------------------------------

    /** What the host does: one callback. */
    method Dispatch(cb: Callback) returns (reply: FilterStatus)
      modifies this, worker
      ensures (State(), reply) == Handle(engine, cfg, old(State()), cb)
      ensures worker.active ==
        if State().active then this
        else if old(State().active || Vacates(State(), cb)) then null
        else old(worker.active)
    {
      reply := Continue;
      match cb
      case RequestHeaders(head) => reply := OnRequestHeaders(head);
      case RequestBody(length, got, eos) => reply := OnRequestBody(length, got, eos);
      case RequestTrailers(buffered, got) => reply := OnRequestTrailers(buffered, got);
      case ResponseHeaders(head) => reply := OnResponseHeaders(head);
      case ResponseBody(length, got, eos) => reply := OnResponseBody(length, got, eos);
      case ResponseTrailers(buffered, got) => reply := OnResponseTrailers(buffered, got);
      case Log => OnLog();
      case Delete => OnDelete();
    }

    method DispatchAll(cbs: seq<Callback>)
      modifies this, worker
      ensures State() == Run(engine, cfg, old(State()), cbs)
    {
      hide Handle;
      for i := 0 to |cbs|
        invariant Run(engine, cfg, old(State()), cbs) == Run(engine, cfg, State(), cbs[i..])
      {
        assert cbs[i..][1..] == cbs[i + 1..];
        var _ := Dispatch(cbs[i]);
      }
    }
  }

  /** A stream that is created and led through any legal callbacks to its deletion ends with its books balanced. */
  method ServeStream(worker: WorkerThread, engine: Engine, cfg: Config, cbs: seq<Callback>)
    returns (ctx: ModSecContext)
    requires LogsNonDisruptive(engine) && cfg.engineReady
    requires cbs != [] && cbs[0].RequestHeaders? && StageAfter(Created, cbs) == Some(Deleted)
    modifies worker
    ensures fresh(ctx) && StreamRuns.Ended(ctx.State()) && ctx.State() == Run(engine, cfg, FRESH, cbs)
  {
    ctx := new ModSecContext(worker, engine, cfg);
    ctx.DispatchAll(cbs);
    StreamRuns.WholeRun(engine, cfg, cbs);
  }

  /** The messages from idx on that lie beyond a cursor. */
  function From(ms: seq<RuleMessage>, cursor: nat, idx: nat): seq<RuleMessage>
    requires idx <= |ms|
  {
    if cursor <= idx then ms[idx..] else Unseen(ms, cursor)
  }

  lemma FromStep(ms: seq<RuleMessage>, cursor: nat, idx: nat)
    requires idx < |ms|
    ensures cursor > idx ==> From(ms, cursor, idx) == From(ms, cursor, idx + 1)
    ensures cursor <= idx ==>
      var here, rest := From(ms, cursor, idx), From(ms, cursor, idx + 1);
      && here != [] && here[0] == ms[idx] && here[1..] == rest
      && Disruptive(here) == (if ms[idx].disruptive then [ms[idx]] + Disruptive(rest) else Disruptive(rest))
      && ([ms[idx]] + Disruptive(rest))[1..] == Disruptive(rest)
  {
  }
}
