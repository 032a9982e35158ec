/**
 * The per-stream filter as a transition system on values: what each host callback does to the
 * flags, cursors and export list of one stream, and the trace of everything it asks of the engine,
 * the metrics and the host. `ModSecContext` is proved against these functions.
 */
module StreamModel {
  import opened Prelude
  import Fullwidth

  datatype Phase = AtRequestHeaders | AtRequestBody | AtResponseHeaders | AtResponseBody | AtLogging | AtUnknown

  /** Engine phase number of a rule to the phase a metric or export entry names. */
  function CatalogPhase(rulePhase: int): Phase {
    if rulePhase == 0 then AtRequestHeaders
    else if rulePhase == 1 then AtRequestBody
    else if rulePhase == 2 then AtResponseHeaders
    else if rulePhase == 3 then AtResponseBody
    else if rulePhase == 4 then AtLogging
    else AtUnknown
  }

  datatype RuleMessage = RuleMessage(
    ruleId: int, phase: int, severity: int, disruptive: bool, msg: string, data: string, tags: seq<string>)

  datatype EngineCall =
    | ProcessConnection
    | ProcessURI(path: Bytes, verb: string)
    | AddRequestHeader(name: Bytes, value: Bytes)
    | ProcessRequestHeaders
    | AppendRequestBody(bytes: Bytes)
    | ProcessRequestBody
    | AddResponseHeader(name: Bytes, value: Bytes)
    | ProcessResponseHeaders(code: int)
    | AppendResponseBody(bytes: Bytes)
    | ProcessResponseBody
    | ProcessLogging
    | AskIntervention

  /** One observable step of a stream. */
  datatype Act =
    | TxTotal
    | TxAllowed
    | Engine(call: EngineCall)
    | Recorded(m: RuleMessage)        // metrics, log line and export entry of one rule match
    | Misdelivered(m: RuleMessage)    // a log callback that found another stream, or none, active
    | Interrupted(phase: Phase, ruleId: int, status: int)
    | SanitizeCounted
    | BodyReplaced(length: nat)
    | BlockReply(status: int)

  datatype Verdict = Verdict(status: int, log: string)

  /**
   * What the engine does in answer to its latest call: messages it appends to the transaction,
   * messages it hands to the log callback, and its verdict when asked for an intervention.
   */
  datatype Reaction = Reaction(appended: seq<RuleMessage>, logged: seq<RuleMessage>, verdict: Option<Verdict>)

  /** Any engine: its reaction may depend on everything that happened so far. */
  type Engine = seq<Act> -> Reaction

  /** The log callback fires only for non-disruptive matches. */
  ghost predicate LogsNonDisruptive(e: Engine) {
    forall history, m :: m in e(history).logged ==> !m.disruptive
  }

  datatype ExportEvent = RuleMatchEvent | TxInterruptEvent

  datatype ExportMatch = ExportMatch(
    event: ExportEvent, ruleId: int, phase: Phase, severity: int, disruptive: bool, msg: string, data: string)

  /** Plugin options and root state that the callbacks read. */
  datatype Config = Config(engineReady: bool, fullwidthNormalize: bool, blockStatus: int)

  datatype FilterStatus = Continue | StopIteration | StopIterationAndBuffer | StopIterationNoBuffer

  datatype Stream = Stream(
    transaction: bool,
    requestReceived: nat,
    requestProcessed: bool,
    responseReceived: nat,
    responseProcessed: bool,
    responseInterrupted: bool,
    loggingDone: bool,
    interrupted: bool,
    lastDisruptive: int,
    seen: nat,
    exports: seq<ExportMatch>,
    active: bool,                  // the worker's active-context pointer is this stream
    messages: seq<RuleMessage>,    // every message the engine appended to this transaction
    trace: seq<Act>)

  const FRESH := Stream(false, 0, false, 0, false, false, false, false, 0, 0, [], false, [], [])

  // ---------------------------------------------------------------------------
  // Recording matches
  // ---------------------------------------------------------------------------

  function Prefix(s: string, n: nat): string {
    if |s| <= n then s else s[..n]
  }

  const EXPORT_CAP := 16

  /** The first sixteen entries stay; a later disruptive one takes the last place. */
  function Stash(exports: seq<ExportMatch>, m: ExportMatch, lastDisruptive: int): seq<ExportMatch> {
    if |exports| < EXPORT_CAP then exports + [m]
    else if m.disruptive && lastDisruptive == m.ruleId then exports[|exports| - 1 := m]
    else exports
  }

  function RuleMatchEntry(m: RuleMessage): ExportMatch {
    ExportMatch(RuleMatchEvent, m.ruleId, CatalogPhase(m.phase), m.severity, m.disruptive,
                Prefix(m.msg, 256), Prefix(m.data, 180))
  }

  function Emit(st: Stream, a: Act): Stream {
    st.(trace := st.trace + [a])
  }

  function Record(st: Stream, m: RuleMessage): Stream {
    var last := if m.disruptive then m.ruleId else st.lastDisruptive;
    st.(lastDisruptive := last,
        trace := st.trace + [Recorded(m)],
        exports := Stash(st.exports, RuleMatchEntry(m), last))
  }

  function RecordAll(st: Stream, ms: seq<RuleMessage>): Stream
    decreases |ms|
  {
    if ms == [] then st else RecordAll(Record(st, ms[0]), ms[1..])
  }

  function Select<T>(s: seq<T>, keep: T -> bool): seq<T> {
    if s == [] then [] else (if keep(s[0]) then [s[0]] else []) + Select(s[1..], keep)
  }

  predicate IsDisruptive(m: RuleMessage) { m.disruptive }

  function Disruptive(ms: seq<RuleMessage>): seq<RuleMessage> {
    Select(ms, IsDisruptive)
  }

  // ---------------------------------------------------------------------------
  // Steps shared by the callbacks
  // ---------------------------------------------------------------------------

  function Misdeliveries(ms: seq<RuleMessage>): seq<Act> {
    seq(|ms|, i requires 0 <= i < |ms| => Misdelivered(ms[i]))
  }

  /** A call into the engine; its log callback reaches whichever stream is active. */
  function Call(e: Engine, st: Stream, call: EngineCall): Stream {
    var called := Emit(st, Engine(call));
    var r := e(called.trace);
    var grown := called.(messages := called.messages + r.appended);
    if grown.active then RecordAll(grown, r.logged)
    else grown.(trace := grown.trace + Misdeliveries(r.logged))
  }

  /** The messages beyond a cursor. */
  function Unseen(ms: seq<RuleMessage>, cursor: nat): seq<RuleMessage> {
    if cursor <= |ms| then ms[cursor..] else []
  }

  function FlushNewRuleMessages(st: Stream): Stream {
    if !st.transaction then st
    else RecordAll(st, Disruptive(Unseen(st.messages, st.seen))).(seen := |st.messages|)
  }

  function EffectiveStatus(cfg: Config, engineStatus: int): int {
    if 100 <= cfg.blockStatus <= 599 then cfg.blockStatus else engineStatus
  }

  /** The new state and the status to block with; 0 lets the stream go on. */
  function ProcessIntervention(e: Engine, cfg: Config, st: Stream, phase: Phase): (Stream, int) {
    var asked := Emit(FlushNewRuleMessages(st), Engine(AskIntervention));
    match e(asked.trace).verdict
    case None => (asked, 0)
    case Some(v) =>
      var status := EffectiveStatus(cfg, v.status);
      var entry := ExportMatch(TxInterruptEvent, asked.lastDisruptive, phase, -1, true, Prefix(v.log, 256), "");
      (Emit(asked, Interrupted(phase, asked.lastDisruptive, status)).(
        interrupted := true, exports := Stash(asked.exports, entry, asked.lastDisruptive)),
       status)
  }

  function SendBlockResponse(st: Stream, status: int): Stream {
    Emit(st, BlockReply(if 100 <= status <= 599 then status else 403))
  }

  function RunRequestBodyPhase(e: Engine, st: Stream): Stream {
    Call(e, st, ProcessRequestBody).(requestProcessed := true)
  }

  function FinalizeResponseBodyPhase(e: Engine, st: Stream): Stream {
    if !st.transaction || st.responseProcessed then st
    else Call(e, st, ProcessResponseBody).(responseProcessed := true, responseReceived := 0)
  }

  function RunLoggingPhaseIfNeeded(e: Engine, st: Stream): Stream {
    if !st.transaction || st.loggingDone then st
    else
      var ran := Call(e, st.(active := true), ProcessLogging);
      RecordAll(ran, Unseen(ran.messages, st.seen)).(seen := |ran.messages|, loggingDone := true)
  }

  function SanitizeInterruptedResponseBody(st: Stream, length: nat): Stream {
    var counted := if st.responseInterrupted then st else Emit(st, SanitizeCounted);
    (if length > 0 then Emit(counted, BodyReplaced(length)) else counted).(responseInterrupted := true)
  }

  function FoldIf(cfg: Config, bytes: Bytes): Bytes {
    if cfg.fullwidthNormalize then Fullwidth.Fold(bytes) else bytes
  }

  /** Feed the part of the request buffer beyond the cursor; `got` is what the host let us read. */
  function AppendRequest(e: Engine, cfg: Config, st: Stream, size: nat, got: Option<Bytes>): Stream {
    if size <= st.requestReceived then st
    else if got.Some? && |got.value| > 0 then
      var fed := Call(e, st, AppendRequestBody(FoldIf(cfg, got.value)));
      fed.(requestReceived := fed.requestReceived + |got.value|)
    else st.(requestReceived := size)
  }

  function AppendResponse(e: Engine, st: Stream, size: nat, got: Option<Bytes>): Stream {
    if size <= st.responseReceived then st
    else if got.Some? && |got.value| > 0 then
      var fed := Call(e, st, AppendResponseBody(got.value));
      fed.(responseReceived := fed.responseReceived + |got.value|)
    else st.(responseReceived := size)
  }

  // ---------------------------------------------------------------------------
  // Callbacks
  // ---------------------------------------------------------------------------

  type Header = (Bytes, Bytes)

  /**
   * What the host presents with the request headers. `host` is the Host value derived from
   * :authority when the headers carry none; `knownBody` says that they announce a body.
   */
  datatype RequestHead = RequestHead(
    path: Bytes, verb: string, headers: seq<Header>, host: Option<Bytes>, knownBody: bool, endOfStream: bool)

  datatype ResponseHead = ResponseHead(headers: seq<Header>, code: int, knownBody: bool, endOfStream: bool)

  predicate MethodMayHaveBody(verb: string) {
    verb != "GET" && verb != "HEAD" && verb != "OPTIONS" && verb != "TRACE"
  }

  predicate StatusMayHaveBody(code: int) {
    code >= 200 && code != 204 && code != 304
  }

  function AddRequestHeaders(e: Engine, cfg: Config, st: Stream, headers: seq<Header>): Stream
    decreases |headers|
  {
    if headers == [] then st
    else
      var h := headers[0];
      AddRequestHeaders(e, cfg, Call(e, st, AddRequestHeader(h.0, FoldIf(cfg, h.1))), headers[1..])
  }

  function AddResponseHeaders(e: Engine, st: Stream, headers: seq<Header>): Stream
    decreases |headers|
  {
    if headers == [] then st
    else
      var h := headers[0];
      AddResponseHeaders(e, Call(e, st, AddResponseHeader(h.0, h.1)), headers[1..])
  }

  const HOST: Bytes := [0x48, 0x6F, 0x73, 0x74]

  type Outcome = (Stream, FilterStatus)

  function Blocked(st: Stream, status: int, reply: FilterStatus): Outcome {
    (SendBlockResponse(st, status), reply)
  }

  function OnRequestHeaders(e: Engine, cfg: Config, st: Stream, head: RequestHead): Outcome {
    if !cfg.engineReady then (st, Continue)
    else
      var open := Emit(st.(active := true, transaction := true), TxTotal);
      var (st1, s1) := ProcessIntervention(e, cfg, Call(e, open, ProcessConnection), AtRequestHeaders);
      if s1 != 0 then Blocked(st1, s1, StopIteration)
      else StartRequest(e, cfg, st1, head)
  }

  function StartRequest(e: Engine, cfg: Config, st: Stream, head: RequestHead): Outcome {
    var (st2, s2) :=
      ProcessIntervention(e, cfg, Call(e, st, ProcessURI(FoldIf(cfg, head.path), head.verb)), AtRequestHeaders);
    if s2 != 0 then Blocked(st2, s2, StopIteration)
    else OnRequestHeaderList(e, cfg, st2, head)
  }

  function HostedHeaders(e: Engine, cfg: Config, st: Stream, head: RequestHead): Stream {
    var added := AddRequestHeaders(e, cfg, st, head.headers);
    if head.host.Some? then Call(e, added, AddRequestHeader(HOST, head.host.value)) else added
  }

  function OnRequestHeaderList(e: Engine, cfg: Config, st: Stream, head: RequestHead): Outcome {
    EndRequestHeaders(e, cfg, HostedHeaders(e, cfg, st, head), head)
  }

  function EndRequestHeaders(e: Engine, cfg: Config, st: Stream, head: RequestHead): Outcome {
    var (st3, s3) := ProcessIntervention(e, cfg, st, AtRequestHeaders);
    if s3 != 0 then Blocked(st3, s3, StopIteration)
    else
      var (st4, s4) := ProcessIntervention(e, cfg, Call(e, st3, ProcessRequestHeaders), AtRequestHeaders);
      if s4 != 0 then Blocked(st4, s4, StopIteration)
      else if head.knownBody || (MethodMayHaveBody(head.verb) && !head.endOfStream) then (st4, Continue)
      else EndRequest(e, cfg, st4, StopIteration)
  }

  /** Phase 2, its verdict, and the early logging phase. */
  function EndRequest(e: Engine, cfg: Config, st: Stream, reply: FilterStatus): Outcome {
    var (st1, s1) := ProcessIntervention(e, cfg, RunRequestBodyPhase(e, st), AtRequestBody);
    if s1 != 0 then Blocked(st1, s1, reply)
    else (RunLoggingPhaseIfNeeded(e, st1), Continue)
  }

  function OnRequestBody(e: Engine, cfg: Config, st: Stream, length: nat, got: Option<Bytes>, endOfStream: bool)
    : Outcome
  {
    if !st.transaction then (st, Continue)
    else
      var live := st.(active := true);
      if live.requestProcessed then (live, Continue)
      else
        var fed := AppendRequest(e, cfg, live, length, got);
        if !endOfStream then (fed, StopIterationAndBuffer)
        else CloseRequestBody(e, cfg, fed, StopIterationNoBuffer)
  }

  function CloseRequestBody(e: Engine, cfg: Config, st: Stream, reply: FilterStatus): Outcome {
    var (st1, s1) :=
      ProcessIntervention(e, cfg, RunRequestBodyPhase(e, st).(requestReceived := 0), AtRequestBody);
    if s1 != 0 then Blocked(st1, s1, reply)
    else (RunLoggingPhaseIfNeeded(e, st1), Continue)
  }

  /** `buffered` is the size the host reports for the buffer, None when it reports an error. */
  function OnRequestTrailers(e: Engine, cfg: Config, st: Stream, buffered: Option<nat>, got: Option<Bytes>)
    : Outcome
  {
    if !st.transaction || st.requestProcessed then (st, Continue)
    else
      var live := st.(active := true);
      var fed := if buffered.Some? then AppendRequest(e, cfg, live, buffered.value, got) else live;
      CloseRequestBody(e, cfg, fed, StopIteration)
  }

  function OnResponseHeaders(e: Engine, cfg: Config, st: Stream, head: ResponseHead): Outcome {
    if !st.transaction then (st, Continue)
    else
      var live := st.(active := true);
      if live.requestProcessed then OnResponseHeaderList(e, cfg, live, head)
      else
        var (st1, s1) := ProcessIntervention(e, cfg, RunRequestBodyPhase(e, live), AtRequestBody);
        if s1 != 0 then Blocked(st1, s1, StopIteration)
        else OnResponseHeaderList(e, cfg, st1, head)
  }

  function OnResponseHeaderList(e: Engine, cfg: Config, st: Stream, head: ResponseHead): Outcome {
    var added := AddResponseHeaders(e, st, head.headers);
    EndResponseHeaders(e, cfg, Call(e, added, ProcessResponseHeaders(head.code)), head)
  }

  function EndResponseHeaders(e: Engine, cfg: Config, st: Stream, head: ResponseHead): Outcome {
    var (st2, s2) := ProcessIntervention(e, cfg, st, AtResponseHeaders);
    if s2 != 0 then Blocked(st2, s2, StopIteration)
    else if head.knownBody || (StatusMayHaveBody(head.code) && !head.endOfStream) then (st2, Continue)
    else
      var (st3, s3) := ProcessIntervention(e, cfg, Call(e, st2, AppendResponseBody([0])), AtResponseBody);
      if s3 != 0 then Blocked(st3, s3, StopIteration)
      else
        var (st4, s4) := ProcessIntervention(e, cfg, FinalizeResponseBodyPhase(e, st3), AtResponseBody);
        if s4 != 0 then Blocked(st4, s4, StopIteration)
        else (RunLoggingPhaseIfNeeded(e, st4), Continue)
  }

  function OnResponseBody(e: Engine, cfg: Config, st: Stream, length: nat, got: Option<Bytes>, endOfStream: bool)
    : Outcome
  {
    if !st.transaction then (st, Continue)
    else
      var live := st.(active := true);
      if live.responseInterrupted then (SanitizeInterruptedResponseBody(live, length), Continue)
      else if live.responseProcessed then (live, Continue)
      else if length > live.responseReceived && got.Some? && |got.value| > 0 then
        var (st1, s1) := ProcessIntervention(e, cfg, AppendResponse(e, live, length, got), AtResponseBody);
        if s1 != 0 then (SanitizeInterruptedResponseBody(st1.(responseProcessed := true), length), Continue)
        else EndResponseChunk(e, cfg, st1, length, endOfStream)
      else EndResponseChunk(e, cfg, AppendResponse(e, live, length, got), length, endOfStream)
  }

  function EndResponseChunk(e: Engine, cfg: Config, st: Stream, length: nat, endOfStream: bool): Outcome {
    if !endOfStream then (st, StopIterationAndBuffer)
    else
      var (st1, s1) := ProcessIntervention(e, cfg, FinalizeResponseBodyPhase(e, st), AtResponseBody);
      if s1 != 0 then (SanitizeInterruptedResponseBody(st1, length), Continue)
      else (RunLoggingPhaseIfNeeded(e, st1), Continue)
  }

  function OnResponseTrailers(e: Engine, cfg: Config, st: Stream, buffered: Option<nat>, got: Option<Bytes>)
    : Outcome
  {
    if !st.transaction || st.responseProcessed then (st, Continue)
    else
      var live := st.(active := true);
      var size := if buffered.Some? then buffered.value else 0;
      if live.responseInterrupted then
        (if buffered.Some? then SanitizeInterruptedResponseBody(live, size) else live, Continue)
      else
        var (st1, s1) := ProcessIntervention(e, cfg, AppendResponse(e, live, size, got), AtResponseBody);
        if s1 != 0 then (SanitizeInterruptedResponseBody(st1.(responseProcessed := true), size), Continue)
        else
          var (st2, s2) := ProcessIntervention(e, cfg, FinalizeResponseBodyPhase(e, st1), AtResponseBody);
          var st3 := if s2 != 0 then SanitizeInterruptedResponseBody(st2, size) else st2;
          (RunLoggingPhaseIfNeeded(e, st3), Continue)
  }

  function OnLog(e: Engine, st: Stream): Stream {
    if st.transaction then RunLoggingPhaseIfNeeded(e, st.(active := true)) else st
  }

  /** Runs the phases the stream skipped; the verdicts come too late to block anything. */
  function FinishPhases(e: Engine, cfg: Config, st: Stream): Stream {
    FinishResponsePhases(e, cfg,
      if st.requestProcessed then st
      else ProcessIntervention(e, cfg, RunRequestBodyPhase(e, st), AtRequestBody).0)
  }

  function FinishResponsePhases(e: Engine, cfg: Config, st: Stream): Stream {
    RunLoggingPhaseIfNeeded(e,
      if st.responseProcessed then st
      else ProcessIntervention(e, cfg, FinalizeResponseBodyPhase(e, st), AtResponseBody).0)
  }

  function OnDelete(e: Engine, cfg: Config, st: Stream): Stream {
    if !st.transaction then st.(active := false)
    else
      var done := FinishPhases(e, cfg, st.(active := true));
      (if done.interrupted then done else Emit(done, TxAllowed)).(active := false, transaction := false)
  }

  datatype Callback =
    | RequestHeaders(request: RequestHead)
    | RequestBody(length: nat, got: Option<Bytes>, endOfStream: bool)
    | RequestTrailers(buffered: Option<nat>, got: Option<Bytes>)
    | ResponseHeaders(response: ResponseHead)
    | ResponseBody(length: nat, got: Option<Bytes>, endOfStream: bool)
    | ResponseTrailers(buffered: Option<nat>, got: Option<Bytes>)
    | Log
    | Delete

  function Handle(e: Engine, cfg: Config, st: Stream, cb: Callback): Outcome {
    match cb
    case RequestHeaders(head) => OnRequestHeaders(e, cfg, st, head)
    case RequestBody(length, got, eos) => OnRequestBody(e, cfg, st, length, got, eos)
    case RequestTrailers(buffered, got) => OnRequestTrailers(e, cfg, st, buffered, got)
    case ResponseHeaders(head) => OnResponseHeaders(e, cfg, st, head)
    case ResponseBody(length, got, eos) => OnResponseBody(e, cfg, st, length, got, eos)
    case ResponseTrailers(buffered, got) => OnResponseTrailers(e, cfg, st, buffered, got)
    case Log => (OnLog(e, st), Continue)
    case Delete => (OnDelete(e, cfg, st), Continue)
  }

  /**
   * Whether the worker has no active stream after the callback, whichever it had before: a stream that was
   * open takes the place before it is deleted, and gives it up.
   */
  predicate Vacates(st: Stream, cb: Callback) { cb.Delete? && st.transaction }

  // ---------------------------------------------------------------------------
  // What the host promises about the order of callbacks
  // ---------------------------------------------------------------------------

  datatype Stage = Created | InRequest | InResponse | Deleted

  function Next(stage: Stage, cb: Callback): Option<Stage> {
    match stage
    case Created => if cb.RequestHeaders? then Some(InRequest)
                    else if cb.Log? then Some(Created)
                    else if cb.Delete? then Some(Deleted)
                    else None
    case InRequest => if cb.RequestBody? || cb.RequestTrailers? || cb.Log? then Some(InRequest)
                      else if cb.ResponseHeaders? then Some(InResponse)
                      else if cb.Delete? then Some(Deleted)
                      else None
    case InResponse => if cb.RequestHeaders? then None
                       else if cb.Delete? then Some(Deleted)
                       else Some(InResponse)
    case Deleted => None
  }

  function StageAfter(stage: Stage, cbs: seq<Callback>): Option<Stage>
    decreases |cbs|
  {
    if cbs == [] then Some(stage)
    else match Next(stage, cbs[0])
      case None => None
      case Some(next) => StageAfter(next, cbs[1..])
  }

  function Run(e: Engine, cfg: Config, st: Stream, cbs: seq<Callback>): Stream
    decreases |cbs|
  {
    if cbs == [] then st else Run(e, cfg, Handle(e, cfg, st, cbs[0]).0, cbs[1..])
  }
}
