/**
 * What each callback asks of the engine, call by call and with the very bytes and numbers, as a table; every
 * callback follows its line of the table until a verdict with a status stops it.
 */
module StreamScripts {
  import opened Prelude
  import opened StreamModel
  import I = StreamInvariants
  import Fullwidth

  /** One line of a script; after `Ask` a verdict with a status stops it, after `AskOn` it goes on. */
  datatype Item = Do(call: EngineCall) | Ask(phase: Phase) | AskOn(phase: Phase)

  predicate IsStep(a: Act) { a.Engine? || a.Interrupted? }

  /**
   * The engine calls and verdicts are those of the script, each verdict under the phase it was asked for: all
   * of it, or up to the verdict whose status is the outcome.
   */
  ghost predicate Follows(steps: seq<Act>, script: seq<Item>, outcome: Option<int>)
    decreases |script|
  {
    if script == [] then steps == [] && outcome == None
    else match script[0]
      case Do(call) => steps != [] && steps[0] == Engine(call) && Follows(steps[1..], script[1..], outcome)
      case Ask(phase) =>
        && steps != [] && steps[0] == Engine(AskIntervention)
        && if |steps| > 1 && steps[1].Interrupted? then
             && steps[1].phase == phase
             && if steps[1].status != 0 then |steps| == 2 && outcome == Some(steps[1].status)
                else Follows(steps[2..], script[1..], outcome)
           else Follows(steps[1..], script[1..], outcome)
      case AskOn(phase) =>
        && steps != [] && steps[0] == Engine(AskIntervention)
        && if |steps| > 1 && steps[1].Interrupted? then
             steps[1].phase == phase && Follows(steps[2..], script[1..], outcome)
           else Follows(steps[1..], script[1..], outcome)
  }

  // ---------------------------------------------------------------------------
  // The table
  // ---------------------------------------------------------------------------

  /** A path, header value or body chunk as the engine gets it. */
  function Sent(cfg: Config, bytes: Bytes): Bytes {
    if cfg.fullwidthNormalize then Fullwidth.Fold(bytes) else bytes
  }

  predicate AwaitsRequestBody(head: RequestHead) {
    head.knownBody || (!head.endOfStream && head.verb !in {"GET", "HEAD", "OPTIONS", "TRACE"})
  }

  predicate AwaitsResponseBody(head: ResponseHead) {
    head.knownBody || (!head.endOfStream && 200 <= head.code && head.code !in {204, 304})
  }

  function RequestLines(cfg: Config, headers: seq<Header>): seq<Item> {
    seq(|headers|, i requires 0 <= i < |headers| => Do(AddRequestHeader(headers[i].0, Sent(cfg, headers[i].1))))
  }

  function ResponseLines(headers: seq<Header>): seq<Item> {
    seq(|headers|, i requires 0 <= i < |headers| => Do(AddResponseHeader(headers[i].0, headers[i].1)))
  }

  /** The word "Host". */
  function HostName(): Bytes { [72, 111, 115, 116] }

  function HostLine(head: RequestHead): seq<Item> {
    if head.host.Some? then [Do(AddRequestHeader(HostName(), head.host.value))] else []
  }

  function LoggingLine(st: Stream): seq<Item> {
    if st.loggingDone then [] else [Do(ProcessLogging)]
  }

  /** The request-body phase, and the early logging phase if its verdict lets the request go on. */
  function RequestPhase(st: Stream): seq<Item> {
    [Do(ProcessRequestBody), Ask(AtRequestBody)] + LoggingLine(st)
  }

  function RequestHeaderScript(cfg: Config, st: Stream, head: RequestHead): seq<Item> {
    [Do(ProcessConnection), Ask(AtRequestHeaders),
     Do(ProcessURI(Sent(cfg, head.path), head.verb)), Ask(AtRequestHeaders)]
    + (RequestLines(cfg, head.headers) + HostLine(head))
    + [Ask(AtRequestHeaders), Do(ProcessRequestHeaders), Ask(AtRequestHeaders)]
    + if AwaitsRequestBody(head) then [] else RequestPhase(st)
  }

  function RequestRestScript(cfg: Config, st: Stream, size: nat, got: Option<Bytes>, ends: bool): seq<Item> {
    RequestChunk(cfg, st, size, got) + if ends then RequestPhase(st) else []
  }

  function RequestChunk(cfg: Config, st: Stream, size: nat, got: Option<Bytes>): seq<Item> {
    if size > st.requestReceived && got.Some? && got.value != [] then [Do(AppendRequestBody(Sent(cfg, got.value)))]
    else []
  }

  function ResponseHeaderScript(st: Stream, head: ResponseHead): seq<Item> {
    (if st.requestProcessed then [] else [Do(ProcessRequestBody), Ask(AtRequestBody)])
    + ResponseLines(head.headers)
    + [Do(ProcessResponseHeaders(head.code)), Ask(AtResponseHeaders)]
    + if AwaitsResponseBody(head) then []
      else
        [Do(AppendResponseBody([0])), Ask(AtResponseBody)]
        + (if st.responseProcessed then [] else [Do(ProcessResponseBody)])
        + [Ask(AtResponseBody)] + LoggingLine(st)
  }

  function ResponseChunk(st: Stream, size: nat, got: Option<Bytes>): seq<Item> {
    if size > st.responseReceived && got.Some? && got.value != [] then [Do(AppendResponseBody(got.value))] else []
  }

  function Script(cfg: Config, st: Stream, cb: Callback): seq<Item> {
    match cb
    case RequestHeaders(head) => if cfg.engineReady then RequestHeaderScript(cfg, st, head) else []
    case RequestBody(length, got, ends) =>
      if !st.transaction || st.requestProcessed then [] else RequestRestScript(cfg, st, length, got, ends)
    case RequestTrailers(buffered, got) =>
      if !st.transaction || st.requestProcessed then []
      else RequestRestScript(cfg, st, if buffered.Some? then buffered.value else 0, got, true)
    case ResponseHeaders(head) => if st.transaction then ResponseHeaderScript(st, head) else []
    case ResponseBody(length, got, ends) =>
      if !st.transaction || st.responseProcessed || st.responseInterrupted then []
      else
        var chunk := ResponseChunk(st, length, got);
        (if chunk == [] then [] else chunk + [Ask(AtResponseBody)])
        + if ends then [Do(ProcessResponseBody), Ask(AtResponseBody)] + LoggingLine(st) else []
    case ResponseTrailers(buffered, got) =>
      if !st.transaction || st.responseProcessed || st.responseInterrupted then []
      else
        ResponseChunk(st, if buffered.Some? then buffered.value else 0, got)
        + [Ask(AtResponseBody), Do(ProcessResponseBody), AskOn(AtResponseBody)] + LoggingLine(st)
    case Log => if st.transaction then LoggingLine(st) else []
    case Delete =>
      if !st.transaction then []
      else
        (if st.requestProcessed then [] else [Do(ProcessRequestBody), AskOn(AtRequestBody)])
        + (if st.responseProcessed then [] else [Do(ProcessResponseBody), AskOn(AtResponseBody)])
        + LoggingLine(st)
  }

  /** What the callback returns: a body chunk that is not the last is held back while its phase is open. */
  function Answer(st: Stream, cb: Callback, outcome: Option<int>): FilterStatus {
    match cb
    case RequestHeaders(_) => if outcome.Some? then StopIteration else Continue
    case RequestTrailers(_, _) => if outcome.Some? then StopIteration else Continue
    case ResponseHeaders(_) => if outcome.Some? then StopIteration else Continue
    case RequestBody(_, _, ends) =>
      if outcome.Some? then StopIterationNoBuffer
      else if st.transaction && !st.requestProcessed && !ends then StopIterationAndBuffer
      else Continue
    case ResponseBody(_, _, ends) =>
      if outcome.None? && st.transaction && !st.responseProcessed && !st.responseInterrupted && !ends
      then StopIterationAndBuffer
      else Continue
    case _ => Continue
  }

  // ---------------------------------------------------------------------------
  // Scripts in a row
  // ---------------------------------------------------------------------------

  lemma {:induction false} FollowsThen(
      s: seq<Act>, a: seq<Item>, t: seq<Act>, b: seq<Item>, outcome: Option<int>)
    requires Follows(s, a, None) && Follows(t, b, outcome)
    requires t != [] ==> !t[0].Interrupted?
    ensures Follows(s + t, a + b, outcome)
    decreases |a|
  {
    if a == [] {
      assert s + t == t && a + b == b;
    } else {
      assert (a + b)[1..] == a[1..] + b && (s + t)[1..] == s[1..] + t;
      if |s| > 1 {
        assert (s + t)[2..] == s[2..] + t;
      }
      if a[0].Do? || |s| == 1 || !s[1].Interrupted? {
        FollowsThen(s[1..], a[1..], t, b, outcome);
      } else {
        FollowsThen(s[2..], a[1..], t, b, outcome);
      }
    }
  }

  /** A stopped script stays stopped, whatever would have followed. */
  lemma {:induction false} FollowsStopped(s: seq<Act>, a: seq<Item>, b: seq<Item>, status: int)
    requires Follows(s, a, Some(status))
    ensures Follows(s, a + b, Some(status))
    decreases |a|
  {
    assert (a + b)[1..] == a[1..] + b;
    if a[0].Do? || |s| == 1 || !s[1].Interrupted? {
      FollowsStopped(s[1..], a[1..], b, status);
    } else if a[0].AskOn? || s[1].status == 0 {
      FollowsStopped(s[2..], a[1..], b, status);
    }
  }

  lemma FollowsStarts(s: seq<Act>, a: seq<Item>, outcome: Option<int>)
    requires Follows(s, a, outcome)
    ensures s != [] ==> !s[0].Interrupted?
  {
  }

  /** From one state to another the engine was asked what the script says. */
  ghost predicate Performs(a: Stream, b: Stream, script: seq<Item>, outcome: Option<int>) {
    a.trace <= b.trace && Follows(Select(b.trace[|a.trace|..], IsStep), script, outcome)
  }

  /** Calls and questions change no flag of the stream. */
  predicate SameFlags(a: Stream, b: Stream) {
    && a.transaction == b.transaction && a.requestProcessed == b.requestProcessed
    && a.responseProcessed == b.responseProcessed && a.responseInterrupted == b.responseInterrupted
    && a.loggingDone == b.loggingDone
    && a.requestReceived == b.requestReceived && a.responseReceived == b.responseReceived
  }

  lemma Then(a: Stream, b: Stream, c: Stream, s: seq<Item>, t: seq<Item>, outcome: Option<int>)
    requires Performs(a, b, s, None) && Performs(b, c, t, outcome)
    ensures Performs(a, c, s + t, outcome)
    ensures (s == [] ==> Performs(a, c, t, outcome)) && (t == [] ==> Performs(a, c, s, outcome))
  {
    hide Follows;
    assert [] + t == t && s + [] == s;
    var u, v := b.trace[|a.trace|..], c.trace[|b.trace|..];
    assert c.trace[|a.trace|..] == u + v;
    I.SelectConcat(u, v, IsStep);
    FollowsStarts(Select(v, IsStep), t, outcome);
    FollowsThen(Select(u, IsStep), s, Select(v, IsStep), t, outcome);
  }

  lemma Stopped(a: Stream, b: Stream, s: seq<Item>, t: seq<Item>, status: int)
    requires Performs(a, b, s, Some(status))
    ensures Performs(a, b, s + t, Some(status))
  {
    hide Follows;
    FollowsStopped(Select(b.trace[|a.trace|..], IsStep), s, t, status);
  }

  lemma Nothing(a: Stream, b: Stream)
    requires a.trace == b.trace
    ensures Performs(a, b, [], None)
  {
    assert b.trace[|a.trace|..] == [];
  }

  /** Acts that are no steps of the engine. */
  lemma Idle(a: Stream, b: Stream, acts: seq<Act>)
    requires b.trace == a.trace + acts && forall x :: x in acts ==> !IsStep(x)
    ensures Performs(a, b, [], None)
  {
    assert b.trace[|a.trace|..] == acts;
    I.SelectNone(acts, IsStep);
  }

  // ---------------------------------------------------------------------------
  // Single steps
  // ---------------------------------------------------------------------------

  lemma {:induction false} RecordAllIdle(st: Stream, ms: seq<RuleMessage>)
    ensures Performs(st, RecordAll(st, ms), [], None) && SameFlags(st, RecordAll(st, ms))
    decreases |ms|
  {
    hide Performs, Stash;
    Nothing(st, st);
    if ms != [] {
      var one := Record(st, ms[0]);
      Idle(st, one, [Recorded(ms[0])]);
      RecordAllIdle(one, ms[1..]);
      Then(st, one, RecordAll(st, ms), [], [], None);
    }
  }

  lemma OneStep(a: Stream, b: Stream, call: EngineCall)
    requires b.trace == a.trace + [Engine(call)] && !call.AskIntervention?
    ensures Performs(a, b, [Do(call)], None)
  {
    assert b.trace[|a.trace|..] == [Engine(call)];
    assert Select([Engine(call)], IsStep) == [Engine(call)] by { assert [Engine(call)][1..] == []; }
    assert [Do(call)][1..] == [];
  }

  lemma Calls(e: Engine, st: Stream, call: EngineCall)
    requires !call.AskIntervention?
    ensures Performs(st, Call(e, st, call), [Do(call)], None) && SameFlags(st, Call(e, st, call))
  {
    hide Performs;
    var called := Emit(st, Engine(call));
    var r := e(called.trace);
    var grown := called.(messages := called.messages + r.appended);
    OneStep(st, grown, call);
    RecordAllIdle(grown, r.logged);
    Idle(grown, grown.(trace := grown.trace + Misdeliveries(r.logged)), Misdeliveries(r.logged));
    Then(st, grown, Call(e, st, call), [Do(call)], [], None);
  }

  lemma AskStep(a: Stream, b: Stream, acts: seq<Act>, phase: Phase)
    requires b.trace == a.trace + acts && acts != [] && acts[0] == Engine(AskIntervention)
    requires |acts| == 1 || (|acts| == 2 && acts[1].Interrupted? && acts[1].phase == phase)
    ensures Performs(a, b, [AskOn(phase)], None)
    ensures Performs(a, b, [Ask(phase)], if |acts| == 2 && acts[1].status != 0 then Some(acts[1].status) else None)
  {
    assert b.trace[|a.trace|..] == acts;
    assert [Ask(phase)][1..] == [] && [AskOn(phase)][1..] == [];
    assert acts[1..] == if |acts| == 1 then [] else [acts[1]];
    assert |acts| == 2 ==> acts[1..][1..] == [];
    assert Select(acts[1..], IsStep) == acts[1..];
    assert Select(acts, IsStep) == acts;
  }

  lemma FlushIdle(st: Stream)
    ensures Performs(st, FlushNewRuleMessages(st), [], None) && SameFlags(st, FlushNewRuleMessages(st))
  {
    hide Performs;
    var ms := Disruptive(Unseen(st.messages, st.seen));
    RecordAllIdle(st, ms);
    Nothing(st, st);
    var all := RecordAll(st, ms);
    Nothing(all, all.(seen := |st.messages|));
    Then(st, all, all.(seen := |st.messages|), [], [], None);
  }

  /** Asking, with the outcome that the stream acts on. */
  lemma Asks(e: Engine, cfg: Config, st: Stream, phase: Phase)
    ensures var (r, s) := ProcessIntervention(e, cfg, st, phase);
      && Performs(st, r, [Ask(phase)], if s != 0 then Some(s) else None)
      && Performs(st, r, [AskOn(phase)], None) && SameFlags(st, r)
  {
    hide Performs, Stash, Prefix, EffectiveStatus, FlushNewRuleMessages;
    var flushed := FlushNewRuleMessages(st);
    FlushIdle(st);
    var (r, s) := ProcessIntervention(e, cfg, st, phase);
    var asked := Emit(flushed, Engine(AskIntervention));
    var verdict := Interrupted(phase, asked.lastDisruptive, s);
    var struck := e(asked.trace).verdict.Some?;
    var acts := if struck then [Engine(AskIntervention), verdict] else [Engine(AskIntervention)];
    assert r.trace == flushed.trace + acts;
    AskStep(flushed, r, acts, phase);
    Then(st, flushed, r, [], [Ask(phase)], if s != 0 then Some(s) else None);
    Then(st, flushed, r, [], [AskOn(phase)], None);
  }

  // ---------------------------------------------------------------------------
  // Part of a script
  // ---------------------------------------------------------------------------

  /** The first n lines of the script are done, and nothing stopped it. */
  ghost predicate Upto(a: Stream, st: Stream, script: seq<Item>, n: nat) {
    n <= |script| && Performs(a, st, script[..n], None)
  }

  lemma Begins(a: Stream, st: Stream, script: seq<Item>)
    requires a.trace == st.trace
    ensures Upto(a, st, script, 0)
  {
    hide Performs;
    Nothing(a, st);
    assert script[..0] == [];
  }

  lemma Finished(a: Stream, st: Stream, script: seq<Item>)
    requires Upto(a, st, script, |script|)
    ensures Performs(a, st, script, None)
  {
    assert script[..|script|] == script;
  }

  lemma Resume(a: Stream, st: Stream, r: Stream, script: seq<Item>, n: nat)
    requires Upto(a, st, script, n) && r.trace == st.trace
    ensures Upto(a, r, script, n)
  {
  }

  lemma UptoCall(e: Engine, a: Stream, st: Stream, script: seq<Item>, n: nat, call: EngineCall)
    requires Upto(a, st, script, n) && n < |script| && script[n] == Do(call) && !call.AskIntervention?
    ensures Upto(a, Call(e, st, call), script, n + 1) && SameFlags(st, Call(e, st, call))
  {
    hide Performs, Call;
    Calls(e, st, call);
    Then(a, st, Call(e, st, call), script[..n], [Do(call)], None);
    assert script[..n + 1] == script[..n] + [Do(call)];
  }

  lemma UptoAsk(e: Engine, cfg: Config, a: Stream, st: Stream, script: seq<Item>, n: nat, phase: Phase)
    requires Upto(a, st, script, n) && n < |script| && script[n] == Ask(phase)
    ensures var (r, s) := ProcessIntervention(e, cfg, st, phase);
      && SameFlags(st, r)
      && (if s == 0 then Upto(a, r, script, n + 1) else Performs(a, r, script, Some(s)))
  {
    hide Performs, ProcessIntervention;
    Asks(e, cfg, st, phase);
    var (r, s) := ProcessIntervention(e, cfg, st, phase);
    Then(a, st, r, script[..n], [Ask(phase)], if s != 0 then Some(s) else None);
    assert script[..n + 1] == script[..n] + [Ask(phase)];
    if s != 0 {
      Stopped(a, r, script[..n + 1], script[n + 1..], s);
      assert script[..n + 1] + script[n + 1..] == script;
    }
  }

  lemma UptoAskOn(e: Engine, cfg: Config, a: Stream, st: Stream, script: seq<Item>, n: nat, phase: Phase)
    requires Upto(a, st, script, n) && n < |script| && script[n] == AskOn(phase)
    ensures var (r, s) := ProcessIntervention(e, cfg, st, phase); SameFlags(st, r) && Upto(a, r, script, n + 1)
  {
    hide Performs, ProcessIntervention;
    Asks(e, cfg, st, phase);
    var r := ProcessIntervention(e, cfg, st, phase).0;
    Then(a, st, r, script[..n], [AskOn(phase)], None);
    assert script[..n + 1] == script[..n] + [AskOn(phase)];
  }

  /** Replies, counts and flags do not matter. */
  lemma IdleAfter(a: Stream, st: Stream, r: Stream, acts: seq<Act>, script: seq<Item>, outcome: Option<int>)
    requires Performs(a, st, script, outcome)
    requires r.trace == st.trace + acts && forall x :: x in acts ==> !IsStep(x)
    ensures Performs(a, r, script, outcome)
  {
    hide Follows;
    assert r.trace[|a.trace|..] == st.trace[|a.trace|..] + acts;
    I.SelectConcat(st.trace[|a.trace|..], acts, IsStep);
    I.SelectNone(acts, IsStep);
    assert Select(st.trace[|a.trace|..], IsStep) + [] == Select(st.trace[|a.trace|..], IsStep);
  }

  lemma UptoLogging(e: Engine, a: Stream, st: Stream, script: seq<Item>, n: nat)
    requires Upto(a, st, script, n) && st.transaction && script[n..] == LoggingLine(st)
    ensures Performs(a, RunLoggingPhaseIfNeeded(e, st), script, None)
  {
    hide Performs, Call;
    var r := RunLoggingPhaseIfNeeded(e, st);
    if st.loggingDone {
      Finished(a, st, script);
    } else {
      var live := st.(active := true);
      assert script[n] == script[n..][0];
      Resume(a, st, live, script, n);
      UptoCall(e, a, live, script, n, ProcessLogging);
      var ran := Call(e, live, ProcessLogging);
      Finished(a, ran, script);
      RecordAllIdle(ran, Unseen(ran.messages, st.seen));
      var all := RecordAll(ran, Unseen(ran.messages, st.seen));
      Nothing(all, r);
      Then(a, ran, all, script, [], None);
      Then(a, all, r, script, [], None);
    }
  }

  lemma BlockIdle(a: Stream, st: Stream, status: int, script: seq<Item>, outcome: Option<int>)
    requires Performs(a, st, script, outcome)
    ensures Performs(a, SendBlockResponse(st, status), script, outcome)
  {
    hide Performs;
    IdleAfter(a, st, SendBlockResponse(st, status), [SendBlockResponse(st, status).trace[|st.trace|]], script, outcome);
  }

  lemma SanitizeIdle(a: Stream, st: Stream, length: nat, script: seq<Item>, outcome: Option<int>)
    requires Performs(a, st, script, outcome)
    ensures Performs(a, SanitizeInterruptedResponseBody(st, length), script, outcome)
  {
    hide Performs;
    var acts := (if st.responseInterrupted then [] else [SanitizeCounted])
      + if length > 0 then [BodyReplaced(length)] else [];
    assert SanitizeInterruptedResponseBody(st, length).trace == st.trace + acts;
    IdleAfter(a, st, SanitizeInterruptedResponseBody(st, length), acts, script, outcome);
  }

  // ---------------------------------------------------------------------------
  // The callbacks follow the table
  // ---------------------------------------------------------------------------

  /** The callback did what the table says, with an outcome that it returned accordingly. */
  ghost predicate Played(a: Stream, r: Stream, script: seq<Item>, reply: FilterStatus, stopped: FilterStatus,
      done: FilterStatus)
  {
    || (Performs(a, r, script, None) && reply == done)
    || exists s :: Performs(a, r, script, Some(s)) && s != 0 && reply == stopped
  }

  lemma Halts(a: Stream, r: Stream, script: seq<Item>, s: int, stopped: FilterStatus, done: FilterStatus)
    requires Performs(a, r, script, Some(s)) && s != 0
    ensures Played(a, r, script, stopped, stopped, done)
  {
  }

  /** The request-body phase, its verdict and the early logging phase, from the n-th line on. */
  lemma PlaysRequestPhase(
      e: Engine, cfg: Config, a: Stream, st: Stream, script: seq<Item>, n: nat, received: nat, stopped: FilterStatus)
    requires Upto(a, st, script, n) && st.transaction && script[n..] == RequestPhase(st)
    ensures var ran := RunRequestBodyPhase(e, st).(requestReceived := received);
      var (r, s) := ProcessIntervention(e, cfg, ran, AtRequestBody);
      if s == 0 then Played(a, RunLoggingPhaseIfNeeded(e, r), script, Continue, stopped, Continue)
      else Played(a, SendBlockResponse(r, s), script, stopped, stopped, Continue)
  {
    hide Performs, Call, ProcessIntervention, RunLoggingPhaseIfNeeded, SendBlockResponse;
    assert script[n] == script[n..][0] && script[n + 1] == script[n..][1];
    assert script[n + 2..] == script[n..][2..];
    UptoCall(e, a, st, script, n, ProcessRequestBody);
    var called := Call(e, st, ProcessRequestBody);
    var ran := RunRequestBodyPhase(e, st).(requestReceived := received);
    Resume(a, called, ran, script, n + 1);
    UptoAsk(e, cfg, a, ran, script, n + 1, AtRequestBody);
    var (r, s) := ProcessIntervention(e, cfg, ran, AtRequestBody);
    if s == 0 {
      UptoLogging(e, a, r, script, n + 2);
    } else {
      BlockIdle(a, r, s, script, Some(s));
      Halts(a, SendBlockResponse(r, s), script, s, stopped, Continue);
    }
  }

  lemma {:induction false} UptoHeaders(
      e: Engine, cfg: Config, a: Stream, st: Stream, script: seq<Item>, n: nat, headers: seq<Header>)
    requires Upto(a, st, script, n) && n + |headers| <= |script|
    requires script[n..n + |headers|] == RequestLines(cfg, headers)
    ensures var r := AddRequestHeaders(e, cfg, st, headers);
      Upto(a, r, script, n + |headers|) && SameFlags(st, r)
    decreases |headers|
  {
    hide Performs, Call, Upto;
    if headers != [] {
      var call := AddRequestHeader(headers[0].0, Sent(cfg, headers[0].1));
      assert script[n] == script[n..n + |headers|][0] == Do(call);
      UptoCall(e, a, st, script, n, call);
      assert script[n + 1..n + |headers|] == script[n..n + |headers|][1..] == RequestLines(cfg, headers[1..]);
      UptoHeaders(e, cfg, a, Call(e, st, call), script, n + 1, headers[1..]);
    }
  }

  lemma {:induction false} UptoResponseHeaders(
      e: Engine, a: Stream, st: Stream, script: seq<Item>, n: nat, headers: seq<Header>)
    requires Upto(a, st, script, n) && n + |headers| <= |script|
    requires script[n..n + |headers|] == ResponseLines(headers)
    ensures var r := AddResponseHeaders(e, st, headers);
      Upto(a, r, script, n + |headers|) && SameFlags(st, r)
    decreases |headers|
  {
    hide Performs, Call, Upto;
    if headers != [] {
      var call := AddResponseHeader(headers[0].0, headers[0].1);
      assert script[n] == script[n..n + |headers|][0] == Do(call);
      UptoCall(e, a, st, script, n, call);
      assert script[n + 1..n + |headers|] == script[n..n + |headers|][1..] == ResponseLines(headers[1..]);
      UptoResponseHeaders(e, a, Call(e, st, call), script, n + 1, headers[1..]);
    }
  }

  /** A run of lines in the middle of a script. */
  lemma Middle(script: seq<Item>, front: seq<Item>, lines: seq<Item>, back: seq<Item>)
    requires script == front + lines + back
    ensures script[|front|..|front| + |lines|] == lines && script[|front| + |lines|..] == back
  {
  }

  lemma PlaysRequestHeaders(e: Engine, cfg: Config, st: Stream, head: RequestHead)
    requires cfg.engineReady
    ensures var (r, reply) := OnRequestHeaders(e, cfg, st, head);
      Played(st, r, RequestHeaderScript(cfg, st, head), reply, StopIteration, Continue)
  {
    hide Performs, Call, ProcessIntervention, SendBlockResponse, StartRequest, RequestLines, HostLine, RequestPhase;
    var script := RequestHeaderScript(cfg, st, head);
    var live := st.(active := true, transaction := true);
    var open := Emit(live, TxTotal);
    Begins(st, live, script);
    assert script[..0] == [];
    IdleAfter(st, live, open, [TxTotal], script[..0], None);
    UptoCall(e, st, open, script, 0, ProcessConnection);
    var called := Call(e, open, ProcessConnection);
    UptoAsk(e, cfg, st, called, script, 1, AtRequestHeaders);
    var (st1, s1) := ProcessIntervention(e, cfg, called, AtRequestHeaders);
    if s1 != 0 {
      BlockIdle(st, st1, s1, script, Some(s1));
      Halts(st, SendBlockResponse(st1, s1), script, s1, StopIteration, Continue);
    } else {
      PlaysStart(e, cfg, st, st1, head);
    }
  }

  lemma PlaysStart(e: Engine, cfg: Config, a: Stream, st: Stream, head: RequestHead)
    requires Upto(a, st, RequestHeaderScript(cfg, a, head), 2) && st.transaction && st.loggingDone == a.loggingDone
    ensures var (r, reply) := StartRequest(e, cfg, st, head);
      Played(a, r, RequestHeaderScript(cfg, a, head), reply, StopIteration, Continue)
  {
    hide Performs, Call, ProcessIntervention, SendBlockResponse, OnRequestHeaderList, RequestLines, HostLine;
    hide RequestPhase;
    var script := RequestHeaderScript(cfg, a, head);
    var call := ProcessURI(Sent(cfg, head.path), head.verb);
    UptoCall(e, a, st, script, 2, call);
    UptoAsk(e, cfg, a, Call(e, st, call), script, 3, AtRequestHeaders);
    var (st2, s2) := ProcessIntervention(e, cfg, Call(e, st, call), AtRequestHeaders);
    if s2 != 0 {
      BlockIdle(a, st2, s2, script, Some(s2));
      Halts(a, SendBlockResponse(st2, s2), script, s2, StopIteration, Continue);
    } else {
      PlaysHeaderList(e, cfg, a, st2, head);
    }
  }

  lemma PlaysHeaderList(e: Engine, cfg: Config, a: Stream, st: Stream, head: RequestHead)
    requires Upto(a, st, RequestHeaderScript(cfg, a, head), 4) && st.transaction && st.loggingDone == a.loggingDone
    ensures var (r, reply) := OnRequestHeaderList(e, cfg, st, head);
      Played(a, r, RequestHeaderScript(cfg, a, head), reply, StopIteration, Continue)
  {
    var script := RequestHeaderScript(cfg, a, head);
    var front := [Do(ProcessConnection), Ask(AtRequestHeaders),
                  Do(ProcessURI(Sent(cfg, head.path), head.verb)), Ask(AtRequestHeaders)];
    var lines := RequestLines(cfg, head.headers) + HostLine(head);
    var back := [Ask(AtRequestHeaders), Do(ProcessRequestHeaders), Ask(AtRequestHeaders)]
      + if AwaitsRequestBody(head) then [] else RequestPhase(a);
    assert script == front + lines + back;
    Middle(script, front, lines, back);
    var k := |head.headers|;
    assert script[4..4 + k] == script[4..4 + |lines|][..k] == RequestLines(cfg, head.headers);
    assert head.host.Some? ==>
      script[4 + k] == script[4..4 + |lines|][k] == Do(AddRequestHeader(HOST, head.host.value));
    hide Performs, Call, EndRequestHeaders, RequestLines, AddRequestHeaders, AwaitsRequestBody, RequestPhase, Played;
    UptoHeaders(e, cfg, a, st, script, 4, head.headers);
    var added := AddRequestHeaders(e, cfg, st, head.headers);
    if head.host.Some? {
      UptoCall(e, a, added, script, 4 + k, AddRequestHeader(HOST, head.host.value));
    }
    PlaysEndHeaders(e, cfg, a, HostedHeaders(e, cfg, st, head), head, script, 4 + |lines|);
  }

  lemma PlaysEndHeaders(
      e: Engine, cfg: Config, a: Stream, st: Stream, head: RequestHead, script: seq<Item>, n: nat)
    requires Upto(a, st, script, n) && st.transaction && st.loggingDone == a.loggingDone
    requires script[n..] == [Ask(AtRequestHeaders), Do(ProcessRequestHeaders), Ask(AtRequestHeaders)]
      + if AwaitsRequestBody(head) then [] else RequestPhase(a)
    ensures var (r, reply) := EndRequestHeaders(e, cfg, st, head);
      Played(a, r, script, reply, StopIteration, Continue)
  {
    hide Performs, Call, ProcessIntervention, SendBlockResponse, EndRequest;
    var tail := script[n..];
    assert script[n] == tail[0] && script[n + 1] == tail[1] && script[n + 2] == tail[2];
    assert script[n + 3..] == tail[3..];
    UptoAsk(e, cfg, a, st, script, n, AtRequestHeaders);
    var (st3, s3) := ProcessIntervention(e, cfg, st, AtRequestHeaders);
    if s3 != 0 {
      BlockIdle(a, st3, s3, script, Some(s3));
      Halts(a, SendBlockResponse(st3, s3), script, s3, StopIteration, Continue);
    } else {
      UptoCall(e, a, st3, script, n + 1, ProcessRequestHeaders);
      var called := Call(e, st3, ProcessRequestHeaders);
      UptoAsk(e, cfg, a, called, script, n + 2, AtRequestHeaders);
      var (st4, s4) := ProcessIntervention(e, cfg, called, AtRequestHeaders);
      if s4 != 0 {
        BlockIdle(a, st4, s4, script, Some(s4));
        Halts(a, SendBlockResponse(st4, s4), script, s4, StopIteration, Continue);
      } else if AwaitsRequestBody(head) {
        assert |script| == n + 3;
        Finished(a, st4, script);
      } else {
        PlaysEndRequest(e, cfg, a, st4, script, n + 3);
      }
    }
  }

  lemma PlaysEndRequest(e: Engine, cfg: Config, a: Stream, st: Stream, script: seq<Item>, n: nat)
    requires Upto(a, st, script, n) && st.transaction && st.loggingDone == a.loggingDone
    requires script[n..] == RequestPhase(a)
    ensures var (r, reply) := EndRequest(e, cfg, st, StopIteration);
      Played(a, r, script, reply, StopIteration, Continue)
  {
    hide Performs, Call, ProcessIntervention, SendBlockResponse, RunLoggingPhaseIfNeeded, Upto;
    var ran := RunRequestBodyPhase(e, st);
    PlaysRequestPhase(e, cfg, a, st, script, n, ran.requestReceived, StopIteration);
    assert ran.(requestReceived := ran.requestReceived) == ran;
  }

  /** Feeding is one call, cursors apart. */
  lemma RequestFed(e: Engine, cfg: Config, st: Stream, size: nat, got: Option<Bytes>)
    ensures var fed := AppendRequest(e, cfg, st, size, got);
      var called := if size > st.requestReceived && got.Some? && got.value != [] then
          Call(e, st, AppendRequestBody(Sent(cfg, got.value)))
        else st;
      fed.trace == called.trace && fed.transaction == called.transaction && fed.loggingDone == called.loggingDone
  {
    hide Call;
  }

  /** A chunk of the request body, if there is one. */
  lemma PlaysRequestChunk(
      e: Engine, cfg: Config, a: Stream, st: Stream, size: nat, got: Option<Bytes>, back: seq<Item>)
    requires a.trace == st.trace && a.requestReceived == st.requestReceived
    ensures var chunk := RequestChunk(cfg, a, size, got);
      var fed := AppendRequest(e, cfg, st, size, got);
      Upto(a, fed, chunk + back, |chunk|) && fed.transaction == st.transaction && fed.loggingDone == st.loggingDone
  {
    hide Performs, Call, Upto, AppendRequest, Sent;
    var chunk := RequestChunk(cfg, a, size, got);
    var fed := AppendRequest(e, cfg, st, size, got);
    Begins(a, st, chunk + back);
    RequestFed(e, cfg, st, size, got);
    if chunk == [] {
      Resume(a, st, fed, chunk + back, 0);
    } else {
      var call := AppendRequestBody(Sent(cfg, got.value));
      UptoCall(e, a, st, chunk + back, 0, call);
      Resume(a, Call(e, st, call), fed, chunk + back, 1);
    }
  }

  /** A chunk of the response body, if there is one. */
  lemma PlaysResponseChunk(e: Engine, a: Stream, st: Stream, size: nat, got: Option<Bytes>, back: seq<Item>)
    requires a.trace == st.trace && a.responseReceived == st.responseReceived
    ensures var chunk := ResponseChunk(a, size, got);
      var fed := AppendResponse(e, st, size, got);
      && Upto(a, fed, chunk + back, |chunk|) && fed.transaction == st.transaction
      && fed.loggingDone == st.loggingDone && fed.responseProcessed == st.responseProcessed
  {
    hide Performs, Call, Upto;
    var chunk := ResponseChunk(a, size, got);
    var fed := AppendResponse(e, st, size, got);
    Begins(a, st, chunk + back);
    if chunk == [] {
      Resume(a, st, fed, chunk + back, 0);
    } else {
      var call := AppendResponseBody(got.value);
      UptoCall(e, a, st, chunk + back, 0, call);
      Resume(a, Call(e, st, call), fed, chunk + back, 1);
    }
  }

  /** The rest of a request: a chunk, and the phase if it ends with it. */
  lemma PlaysRequestRest(
      e: Engine, cfg: Config, a: Stream, st: Stream, size: nat, got: Option<Bytes>, ends: bool, stopped: FilterStatus)
    requires a.trace == st.trace && SameFlags(a, st) && st.transaction
    ensures var script := RequestRestScript(cfg, a, size, got, ends);
      var fed := AppendRequest(e, cfg, st, size, got);
      if !ends then Performs(a, fed, script, None)
      else var (r, reply) := CloseRequestBody(e, cfg, fed, stopped); Played(a, r, script, reply, stopped, Continue)
  {
    hide Performs, Call, ProcessIntervention, SendBlockResponse, RunLoggingPhaseIfNeeded, RequestPhase, Played;
    hide RunRequestBodyPhase, AppendRequest, RequestRestScript, RequestChunk, Upto;
    var chunk, back := RequestChunk(cfg, a, size, got), if ends then RequestPhase(a) else [];
    var script, n := chunk + back, |chunk|;
    RestIs(cfg, a, size, got, ends);
    assert script[n..] == back;
    PlaysRequestChunk(e, cfg, a, st, size, got, back);
    var fed := AppendRequest(e, cfg, st, size, got);
    if ends {
      SamePhase(a, fed);
      PlaysRequestPhase(e, cfg, a, fed, script, n, 0, stopped);
    } else {
      Finished(a, fed, script);
    }
  }

  lemma RestIs(cfg: Config, a: Stream, size: nat, got: Option<Bytes>, ends: bool)
    ensures RequestRestScript(cfg, a, size, got, ends) ==
      RequestChunk(cfg, a, size, got) + if ends then RequestPhase(a) else []
  {
  }

  lemma SamePhase(a: Stream, b: Stream)
    requires a.loggingDone == b.loggingDone
    ensures RequestPhase(a) == RequestPhase(b)
  {
  }

  lemma PlaysResponseHeaders(e: Engine, cfg: Config, st: Stream, head: ResponseHead)
    requires st.transaction
    ensures var (r, reply) := OnResponseHeaders(e, cfg, st, head);
      Played(st, r, ResponseHeaderScript(st, head), reply, StopIteration, Continue)
  {
    hide Performs, Call, ProcessIntervention, SendBlockResponse, OnResponseHeaderList, ResponseLines;
    hide AwaitsResponseBody;
    var script := ResponseHeaderScript(st, head);
    var live := st.(active := true);
    Begins(st, live, script);
    if st.requestProcessed {
      PlaysResponseList(e, cfg, st, live, head, script, 0);
    } else {
      UptoCall(e, st, live, script, 0, ProcessRequestBody);
      var called := Call(e, live, ProcessRequestBody);
      var ran := RunRequestBodyPhase(e, live);
      Resume(st, called, ran, script, 1);
      UptoAsk(e, cfg, st, ran, script, 1, AtRequestBody);
      var (st1, s1) := ProcessIntervention(e, cfg, ran, AtRequestBody);
      if s1 != 0 {
        BlockIdle(st, st1, s1, script, Some(s1));
        Halts(st, SendBlockResponse(st1, s1), script, s1, StopIteration, Continue);
      } else {
        PlaysResponseList(e, cfg, st, st1, head, script, 2);
      }
    }
  }

  /** What follows the response headers themselves. */
  function ResponseTail(a: Stream, head: ResponseHead): seq<Item> {
    [Do(ProcessResponseHeaders(head.code)), Ask(AtResponseHeaders)]
    + if AwaitsResponseBody(head) then []
      else
        [Do(AppendResponseBody([0])), Ask(AtResponseBody)]
        + (if a.responseProcessed then [] else [Do(ProcessResponseBody)])
        + [Ask(AtResponseBody)] + LoggingLine(a)
  }

  predicate SameResponse(a: Stream, b: Stream) {
    a.transaction == b.transaction && a.responseProcessed == b.responseProcessed && a.loggingDone == b.loggingDone
  }

  lemma PlaysResponseList(
      e: Engine, cfg: Config, a: Stream, st: Stream, head: ResponseHead, script: seq<Item>, n: nat)
    requires Upto(a, st, script, n) && st.transaction && SameResponse(a, st)
    requires script == ResponseHeaderScript(a, head) && n == if a.requestProcessed then 0 else 2
    ensures var (r, reply) := OnResponseHeaderList(e, cfg, st, head);
      Played(a, r, script, reply, StopIteration, Continue)
  {
    var front := if a.requestProcessed then [] else [Do(ProcessRequestBody), Ask(AtRequestBody)];
    var lines := ResponseLines(head.headers);
    assert script == front + lines + ResponseTail(a, head);
    Middle(script, front, lines, ResponseTail(a, head));
    hide Performs, Call, EndResponseHeaders, ResponseLines, AddResponseHeaders, AwaitsResponseBody, Played;
    var k := n + |head.headers|;
    UptoResponseHeaders(e, a, st, script, n, head.headers);
    var added := AddResponseHeaders(e, st, head.headers);
    assert script[k] == script[k..][0] == Do(ProcessResponseHeaders(head.code));
    UptoCall(e, a, added, script, k, ProcessResponseHeaders(head.code));
    PlaysEndResponse(e, cfg, a, Call(e, added, ProcessResponseHeaders(head.code)), head, script, k + 1);
  }

  lemma PlaysEndResponse(
      e: Engine, cfg: Config, a: Stream, st: Stream, head: ResponseHead, script: seq<Item>, n: nat)
    requires Upto(a, st, script, n) && st.transaction && SameResponse(a, st)
    requires n > 0 && script[n - 1..] == ResponseTail(a, head)
    ensures var (r, reply) := EndResponseHeaders(e, cfg, st, head);
      Played(a, r, script, reply, StopIteration, Continue)
  {
    hide Performs, Call, ProcessIntervention, SendBlockResponse, FinalizeResponseBodyPhase, RunLoggingPhaseIfNeeded;
    var tail := script[n - 1..];
    assert script[n] == tail[1] && script[n + 1..] == tail[2..];
    UptoAsk(e, cfg, a, st, script, n, AtResponseHeaders);
    var (st2, s2) := ProcessIntervention(e, cfg, st, AtResponseHeaders);
    if s2 != 0 {
      BlockIdle(a, st2, s2, script, Some(s2));
      Halts(a, SendBlockResponse(st2, s2), script, s2, StopIteration, Continue);
    } else if AwaitsResponseBody(head) {
      assert |script| == n + 1;
      Finished(a, st2, script);
    } else {
      PlaysBodyless(e, cfg, a, st2, head, script, n + 1);
    }
  }

  function BodylessTail(a: Stream): seq<Item> {
    [Do(AppendResponseBody([0])), Ask(AtResponseBody)]
    + (if a.responseProcessed then [] else [Do(ProcessResponseBody)])
    + [Ask(AtResponseBody)] + LoggingLine(a)
  }

  lemma PlaysBodyless(
      e: Engine, cfg: Config, a: Stream, st: Stream, head: ResponseHead, script: seq<Item>, n: nat)
    requires Upto(a, st, script, n) && st.transaction && SameResponse(a, st)
    requires script[n..] == BodylessTail(a)
    ensures var (st3, s3) := ProcessIntervention(e, cfg, Call(e, st, AppendResponseBody([0])), AtResponseBody);
      var (st4, s4) := ProcessIntervention(e, cfg, FinalizeResponseBodyPhase(e, st3), AtResponseBody);
      if s3 != 0 then Played(a, SendBlockResponse(st3, s3), script, StopIteration, StopIteration, Continue)
      else if s4 != 0 then Played(a, SendBlockResponse(st4, s4), script, StopIteration, StopIteration, Continue)
      else Played(a, RunLoggingPhaseIfNeeded(e, st4), script, Continue, StopIteration, Continue)
  {
    hide Performs, Call, ProcessIntervention, SendBlockResponse, RunLoggingPhaseIfNeeded, FinalizeResponseBodyPhase;
    var tail := script[n..];
    assert script[n] == tail[0] && script[n + 1] == tail[1] && script[n + 2..] == tail[2..];
    UptoCall(e, a, st, script, n, AppendResponseBody([0]));
    var fed := Call(e, st, AppendResponseBody([0]));
    UptoAsk(e, cfg, a, fed, script, n + 1, AtResponseBody);
    var (st3, s3) := ProcessIntervention(e, cfg, fed, AtResponseBody);
    if s3 != 0 {
      BlockIdle(a, st3, s3, script, Some(s3));
      Halts(a, SendBlockResponse(st3, s3), script, s3, StopIteration, Continue);
    } else {
      var m := UptoFinalize(e, a, st3, script, n + 2, [Ask(AtResponseBody)] + LoggingLine(a));
      var final := FinalizeResponseBodyPhase(e, st3);
      assert script[m] == script[m..][0] && script[m + 1..] == script[m..][1..];
      UptoAsk(e, cfg, a, final, script, m, AtResponseBody);
      var (st4, s4) := ProcessIntervention(e, cfg, final, AtResponseBody);
      if s4 != 0 {
        BlockIdle(a, st4, s4, script, Some(s4));
        Halts(a, SendBlockResponse(st4, s4), script, s4, StopIteration, Continue);
      } else {
        UptoLogging(e, a, st4, script, m + 1);
      }
    }
  }

  /** Phase 4 is run unless it has been. */
  lemma UptoFinalize(e: Engine, a: Stream, st: Stream, script: seq<Item>, n: nat, back: seq<Item>)
    returns (m: nat)
    requires Upto(a, st, script, n) && st.transaction
    requires script[n..] == (if st.responseProcessed then [] else [Do(ProcessResponseBody)]) + back
    ensures var r := FinalizeResponseBodyPhase(e, st);
      Upto(a, r, script, m) && script[m..] == back && r.transaction && r.loggingDone == st.loggingDone
  {
    hide Performs, Call;
    if st.responseProcessed {
      m := n;
    } else {
      m := n + 1;
      assert script[n] == script[n..][0] && script[n + 1..] == script[n..][1..];
      UptoCall(e, a, st, script, n, ProcessResponseBody);
      Resume(a, Call(e, st, ProcessResponseBody), FinalizeResponseBodyPhase(e, st), script, n + 1);
    }
  }

  /** Phase 4 at the end of a response body, its verdict and the logging phase. */
  lemma PlaysLastChunk(e: Engine, cfg: Config, a: Stream, st: Stream, script: seq<Item>, n: nat, length: nat)
    requires Upto(a, st, script, n) && st.transaction && !st.responseProcessed
    requires script[n..] == [Do(ProcessResponseBody), Ask(AtResponseBody)] + LoggingLine(st)
    ensures var (r, reply) := EndResponseChunk(e, cfg, st, length, true);
      Played(a, r, script, reply, Continue, Continue)
  {
    hide Performs, Call, ProcessIntervention, RunLoggingPhaseIfNeeded, FinalizeResponseBodyPhase;
    hide SanitizeInterruptedResponseBody;
    var back := [Ask(AtResponseBody)] + LoggingLine(st);
    assert script[n..] == [Do(ProcessResponseBody)] + back;
    var m := UptoFinalize(e, a, st, script, n, back);
    var final := FinalizeResponseBodyPhase(e, st);
    assert script[m] == script[m..][0] && script[m + 1..] == script[m..][1..];
    UptoAsk(e, cfg, a, final, script, m, AtResponseBody);
    var (r, s) := ProcessIntervention(e, cfg, final, AtResponseBody);
    if s != 0 {
      SanitizeIdle(a, r, length, script, Some(s));
      Halts(a, SanitizeInterruptedResponseBody(r, length), script, s, Continue, Continue);
    } else {
      UptoLogging(e, a, r, script, m + 1);
    }
  }

  /** After a chunk that was let through: hold it back, or end the body. */
  lemma PlaysEndChunk(
      e: Engine, cfg: Config, a: Stream, st: Stream, script: seq<Item>, n: nat, length: nat, ends: bool)
    requires Upto(a, st, script, n) && st.transaction && !st.responseProcessed
    requires script[n..] == if ends then [Do(ProcessResponseBody), Ask(AtResponseBody)] + LoggingLine(st) else []
    ensures var (r, reply) := EndResponseChunk(e, cfg, st, length, ends);
      Played(a, r, script, reply, Continue, if ends then Continue else StopIterationAndBuffer)
  {
    if ends {
      hide Performs, EndResponseChunk, Played, Upto;
      PlaysLastChunk(e, cfg, a, st, script, n, length);
    } else {
      assert |script| == n;
      Finished(a, st, script);
    }
  }

  lemma PlaysResponseBody(e: Engine, cfg: Config, a: Stream, length: nat, got: Option<Bytes>, ends: bool)
    requires a.transaction && !a.responseProcessed && !a.responseInterrupted
    ensures var (r, reply) := OnResponseBody(e, cfg, a, length, got, ends);
      Played(a, r, Script(cfg, a, ResponseBody(length, got, ends)), reply, Continue,
             if ends then Continue else StopIterationAndBuffer)
  {
    hide Performs, AppendResponse, ProcessIntervention, SanitizeInterruptedResponseBody, EndResponseChunk, Upto;
    hide LoggingLine;
    var st := a.(active := true);
    var chunk := ResponseChunk(a, length, got);
    var last := if ends then [Do(ProcessResponseBody), Ask(AtResponseBody)] + LoggingLine(a) else [];
    var back := (if chunk == [] then [] else [Ask(AtResponseBody)]) + last;
    var script := chunk + back;
    assert script == Script(cfg, a, ResponseBody(length, got, ends));
    PlaysResponseChunk(e, a, st, length, got, back);
    var fed := AppendResponse(e, st, length, got);
    SameLogging(a, fed);
    if chunk == [] {
      assert script[0..] == last;
      PlaysEndChunk(e, cfg, a, fed, script, 0, length, ends);
    } else {
      assert script[1] == Ask(AtResponseBody) && script[2..] == last;
      UptoAsk(e, cfg, a, fed, script, 1, AtResponseBody);
      var (st1, s1) := ProcessIntervention(e, cfg, fed, AtResponseBody);
      if s1 != 0 {
        StruckChunk(a, st1, length, script, s1, if ends then Continue else StopIterationAndBuffer);
      } else {
        SameLogging(a, st1);
        PlaysEndChunk(e, cfg, a, st1, script, 2, length, ends);
      }
    }
  }

  lemma SameLogging(a: Stream, b: Stream)
    ensures a.loggingDone == b.loggingDone ==> LoggingLine(a) == LoggingLine(b)
  {
  }

  lemma StruckChunk(a: Stream, st: Stream, length: nat, script: seq<Item>, s: int, done: FilterStatus)
    requires Performs(a, st, script, Some(s)) && s != 0
    ensures Played(a, SanitizeInterruptedResponseBody(st.(responseProcessed := true), length), script,
                   Continue, Continue, done)
  {
    hide Performs, SanitizeInterruptedResponseBody;
    var closed := st.(responseProcessed := true);
    SameMoves(a, st, closed, script, s);
    SanitizeIdle(a, closed, length, script, Some(s));
    Halts(a, SanitizeInterruptedResponseBody(closed, length), script, s, Continue, done);
  }

  lemma SameMoves(a: Stream, st: Stream, r: Stream, script: seq<Item>, s: int)
    requires Performs(a, st, script, Some(s)) && r.trace == st.trace
    ensures Performs(a, r, script, Some(s))
  {
  }

  lemma PlaysResponseTrailers(e: Engine, cfg: Config, a: Stream, buffered: Option<nat>, got: Option<Bytes>)
    requires a.transaction && !a.responseProcessed && !a.responseInterrupted
    ensures var (r, reply) := OnResponseTrailers(e, cfg, a, buffered, got);
      Played(a, r, Script(cfg, a, ResponseTrailers(buffered, got)), reply, Continue, Continue)
  {
    hide Performs, AppendResponse, ProcessIntervention, SanitizeInterruptedResponseBody, Upto;
    hide FinalizeResponseBodyPhase, RunLoggingPhaseIfNeeded, LoggingLine;
    var st := a.(active := true);
    var size := if buffered.Some? then buffered.value else 0;
    var chunk := ResponseChunk(a, size, got);
    var n := |chunk|;
    var back := [Ask(AtResponseBody), Do(ProcessResponseBody), AskOn(AtResponseBody)] + LoggingLine(a);
    var script := chunk + back;
    assert script == Script(cfg, a, ResponseTrailers(buffered, got));
    PlaysResponseChunk(e, a, st, size, got, back);
    var fed := AppendResponse(e, st, size, got);
    assert script[n] == Ask(AtResponseBody) && script[n + 1..] == back[1..];
    UptoAsk(e, cfg, a, fed, script, n, AtResponseBody);
    var (st1, s1) := ProcessIntervention(e, cfg, fed, AtResponseBody);
    if s1 != 0 {
      StruckChunk(a, st1, size, script, s1, Continue);
    } else {
      PlaysTrailersEnd(e, cfg, a, st1, script, n + 1, size);
    }
  }

  /** Phase 4 and a verdict that stops nothing. */
  lemma UptoFinal(e: Engine, cfg: Config, a: Stream, st: Stream, script: seq<Item>, n: nat) returns (m: nat)
    requires Upto(a, st, script, n) && st.transaction && !st.responseProcessed && st.loggingDone == a.loggingDone
    requires script[n..] == [Do(ProcessResponseBody), AskOn(AtResponseBody)] + LoggingLine(a)
    ensures var r := ProcessIntervention(e, cfg, FinalizeResponseBodyPhase(e, st), AtResponseBody).0;
      Upto(a, r, script, m) && script[m..] == LoggingLine(a) && r.transaction && r.loggingDone == a.loggingDone
  {
    hide Performs, ProcessIntervention, FinalizeResponseBodyPhase;
    var back := [AskOn(AtResponseBody)] + LoggingLine(a);
    assert script[n..] == [Do(ProcessResponseBody)] + back;
    m := UptoFinalize(e, a, st, script, n, back);
    assert script[m] == script[m..][0] && script[m + 1..] == script[m..][1..] == LoggingLine(a);
    UptoAskOn(e, cfg, a, FinalizeResponseBodyPhase(e, st), script, m, AtResponseBody);
    m := m + 1;
  }

  lemma PlaysTrailersEnd(e: Engine, cfg: Config, a: Stream, st: Stream, script: seq<Item>, n: nat, size: nat)
    requires Upto(a, st, script, n) && st.transaction && !st.responseProcessed && st.loggingDone == a.loggingDone
    requires script[n..] == [Do(ProcessResponseBody), AskOn(AtResponseBody)] + LoggingLine(a)
    ensures var (st2, s2) := ProcessIntervention(e, cfg, FinalizeResponseBodyPhase(e, st), AtResponseBody);
      var st3 := if s2 != 0 then SanitizeInterruptedResponseBody(st2, size) else st2;
      Performs(a, RunLoggingPhaseIfNeeded(e, st3), script, None)
  {
    hide Performs, ProcessIntervention, FinalizeResponseBodyPhase, RunLoggingPhaseIfNeeded;
    hide SanitizeInterruptedResponseBody, LoggingLine;
    var m := UptoFinal(e, cfg, a, st, script, n);
    var (st2, s2) := ProcessIntervention(e, cfg, FinalizeResponseBodyPhase(e, st), AtResponseBody);
    var st3 := if s2 != 0 then SanitizeInterruptedResponseBody(st2, size) else st2;
    SanitizeIdle(a, st2, size, script[..m], None);
    SanitizeFlags(st2, size);
    SameLogging(a, st3);
    UptoLogging(e, a, st3, script, m);
  }

  lemma SanitizeFlags(st: Stream, length: nat)
    ensures var r := SanitizeInterruptedResponseBody(st, length);
      r.transaction == st.transaction && r.loggingDone == st.loggingDone
  {
  }

  lemma PlaysDelete(e: Engine, cfg: Config, a: Stream)
    requires a.transaction
    ensures Performs(a, OnDelete(e, cfg, a), Script(cfg, a, Delete), None)
  {
    hide Performs, Call, ProcessIntervention, RunLoggingPhaseIfNeeded, FinishResponsePhases, LoggingLine;
    var script := Script(cfg, a, Delete);
    var live := a.(active := true);
    Begins(a, live, script);
    var done := FinishPhases(e, cfg, live);
    if a.requestProcessed {
      PlaysSkippedResponse(e, cfg, a, live, script, 0);
    } else {
      UptoCall(e, a, live, script, 0, ProcessRequestBody);
      var called := Call(e, live, ProcessRequestBody);
      var ran := RunRequestBodyPhase(e, live);
      Resume(a, called, ran, script, 1);
      UptoAskOn(e, cfg, a, ran, script, 1, AtRequestBody);
      PlaysSkippedResponse(e, cfg, a, ProcessIntervention(e, cfg, ran, AtRequestBody).0, script, 2);
    }
    IdleAfter(a, done, OnDelete(e, cfg, a), if done.interrupted then [] else [TxAllowed], script, None);
  }

  lemma PlaysSkippedResponse(e: Engine, cfg: Config, a: Stream, st: Stream, script: seq<Item>, n: nat)
    requires Upto(a, st, script, n) && st.transaction && SameResponse(a, st)
    requires script[n..] ==
      (if a.responseProcessed then [] else [Do(ProcessResponseBody), AskOn(AtResponseBody)]) + LoggingLine(a)
    ensures Performs(a, FinishResponsePhases(e, cfg, st), script, None)
  {
    hide Performs, ProcessIntervention, FinalizeResponseBodyPhase, RunLoggingPhaseIfNeeded, Upto;
    SameLogging(a, st);
    if a.responseProcessed {
      UptoLogging(e, a, st, script, n);
    } else {
      var m := UptoFinal(e, cfg, a, st, script, n);
      var st2 := ProcessIntervention(e, cfg, FinalizeResponseBodyPhase(e, st), AtResponseBody).0;
      SameLogging(a, st2);
      UptoLogging(e, a, st2, script, m);
    }
  }

  lemma PlaysLog(e: Engine, a: Stream)
    requires a.transaction
    ensures Performs(a, OnLog(e, a), LoggingLine(a), None)
  {
    hide Performs, RunLoggingPhaseIfNeeded, LoggingLine;
    var live := a.(active := true);
    Begins(a, live, LoggingLine(a));
    SameLogging(a, live);
    UptoLogging(e, a, live, LoggingLine(a), 0);
  }

  /** What the table promises of a callback. */
  ghost predicate Kept(cfg: Config, st: Stream, cb: Callback, r: Stream, reply: FilterStatus) {
    exists outcome: Option<int> ::
      Performs(st, r, Script(cfg, st, cb), outcome) && outcome != Some(0) && reply == Answer(st, cb, outcome)
  }

  lemma PlayedIsKept(
      cfg: Config, st: Stream, cb: Callback, r: Stream, reply: FilterStatus, stopped: FilterStatus, done: FilterStatus)
    requires Played(st, r, Script(cfg, st, cb), reply, stopped, done)
    requires done == Answer(st, cb, None) && forall s :: stopped == Answer(st, cb, Some(s))
    ensures Kept(cfg, st, cb, r, reply)
  {
    hide Performs, Script, Answer;
    if Performs(st, r, Script(cfg, st, cb), None) && reply == done {
    } else {
      var s :| Performs(st, r, Script(cfg, st, cb), Some(s)) && s != 0 && reply == stopped;
      assert reply == Answer(st, cb, Some(s));
    }
  }

  lemma DoneIsKept(cfg: Config, st: Stream, cb: Callback, r: Stream, reply: FilterStatus)
    requires Performs(st, r, Script(cfg, st, cb), None) && reply == Answer(st, cb, None)
    ensures Kept(cfg, st, cb, r, reply)
  {
    hide Performs, Script, Answer;
  }

  /**
   * From any state and for any engine, a callback makes exactly the engine calls of its line of the table, in
   * order and with their very arguments, until a verdict with a status stops it; and returns accordingly.
   */
  lemma HandleFollows(e: Engine, cfg: Config, st: Stream, cb: Callback)
    ensures var (r, reply) := Handle(e, cfg, st, cb); Kept(cfg, st, cb, r, reply)
  {
    if cb.RequestHeaders? || cb.ResponseHeaders? {
      HeadersFollow(e, cfg, st, cb);
    } else if cb.RequestBody? || cb.RequestTrailers? {
      RequestFollows(e, cfg, st, cb);
    } else {
      RestFollows(e, cfg, st, cb);
    }
  }

  lemma HeadersFollow(e: Engine, cfg: Config, st: Stream, cb: Callback)
    requires cb.RequestHeaders? || cb.ResponseHeaders?
    ensures var (r, reply) := Handle(e, cfg, st, cb); Kept(cfg, st, cb, r, reply)
  {
    hide Performs, Played, Kept, RequestHeaderScript, ResponseHeaderScript, StartRequest, OnResponseHeaderList;
    hide ProcessIntervention, RunRequestBodyPhase, Call, SendBlockResponse;
    var (r, reply) := Handle(e, cfg, st, cb);
    match cb
    case RequestHeaders(head) =>
      if cfg.engineReady {
        PlaysRequestHeaders(e, cfg, st, head);
        PlayedIsKept(cfg, st, cb, r, reply, StopIteration, Continue);
      } else {
        Nothing(st, r);
        DoneIsKept(cfg, st, cb, r, reply);
      }
    case ResponseHeaders(head) =>
      if st.transaction {
        PlaysResponseHeaders(e, cfg, st, head);
        PlayedIsKept(cfg, st, cb, r, reply, StopIteration, Continue);
      } else {
        Nothing(st, r);
        DoneIsKept(cfg, st, cb, r, reply);
      }
  }

  lemma RequestFollows(e: Engine, cfg: Config, st: Stream, cb: Callback)
    requires cb.RequestBody? || cb.RequestTrailers?
    ensures var (r, reply) := Handle(e, cfg, st, cb); Kept(cfg, st, cb, r, reply)
  {
    hide Performs, Played, Kept, RequestRestScript, AppendRequest, CloseRequestBody;
    var (r, reply) := Handle(e, cfg, st, cb);
    var live := st.(active := true);
    if !st.transaction || st.requestProcessed {
      Nothing(st, r);
      DoneIsKept(cfg, st, cb, r, reply);
    } else {
      match cb
      case RequestBody(length, got, ends) =>
        PlaysRequestRest(e, cfg, st, live, length, got, ends, StopIterationNoBuffer);
        if ends {
          PlayedIsKept(cfg, st, cb, r, reply, StopIterationNoBuffer, Continue);
        } else {
          DoneIsKept(cfg, st, cb, r, reply);
        }
      case RequestTrailers(buffered, got) =>
        var size := if buffered.Some? then buffered.value else 0;
        NoBuffer(e, cfg, live, got);
        PlaysRequestRest(e, cfg, st, live, size, got, true, StopIteration);
        PlayedIsKept(cfg, st, cb, r, reply, StopIteration, Continue);
    }
  }

  lemma NoBuffer(e: Engine, cfg: Config, st: Stream, got: Option<Bytes>)
    ensures AppendRequest(e, cfg, st, 0, got) == st
  {
  }

  lemma RestFollows(e: Engine, cfg: Config, st: Stream, cb: Callback)
    requires cb.ResponseBody? || cb.ResponseTrailers? || cb.Log? || cb.Delete?
    ensures var (r, reply) := Handle(e, cfg, st, cb); Kept(cfg, st, cb, r, reply)
  {
    var (r, reply) := Handle(e, cfg, st, cb);
    if !st.transaction {
      hide Performs, Kept;
      Nothing(st, r);
      DoneIsKept(cfg, st, cb, r, reply);
    } else if cb.Log? {
      hide Performs, Kept, RunLoggingPhaseIfNeeded, LoggingLine;
      PlaysLog(e, st);
      DoneIsKept(cfg, st, cb, r, reply);
    } else if cb.Delete? {
      hide Performs, Kept, OnDelete, LoggingLine;
      PlaysDelete(e, cfg, st);
      DoneIsKept(cfg, st, cb, r, reply);
    } else {
      ResponseFollows(e, cfg, st, cb);
    }
  }

  lemma ResponseFollows(e: Engine, cfg: Config, st: Stream, cb: Callback)
    requires st.transaction && (cb.ResponseBody? || cb.ResponseTrailers?)
    ensures var (r, reply) := Handle(e, cfg, st, cb); Kept(cfg, st, cb, r, reply)
  {
    hide Performs, Played, Kept, AppendResponse, ProcessIntervention, EndResponseChunk, FinalizeResponseBodyPhase;
    hide RunLoggingPhaseIfNeeded, SanitizeInterruptedResponseBody, LoggingLine, ResponseChunk;
    var (r, reply) := Handle(e, cfg, st, cb);
    if st.responseInterrupted || st.responseProcessed {
      var live := st.(active := true);
      Nothing(st, st);
      Nothing(st, live);
      SanitizeIdle(st, live, if cb.ResponseBody? then cb.length else if cb.buffered.Some? then cb.buffered.value else 0,
                   [], None);
      DoneIsKept(cfg, st, cb, r, reply);
    } else {
      match cb
      case ResponseBody(length, got, ends) =>
        PlaysResponseBody(e, cfg, st, length, got, ends);
        PlayedIsKept(cfg, st, cb, r, reply, Continue, if ends then Continue else StopIterationAndBuffer);
      case ResponseTrailers(buffered, got) =>
        PlaysResponseTrailers(e, cfg, st, buffered, got);
        PlayedIsKept(cfg, st, cb, r, reply, Continue, Continue);
    }
  }

  // ---------------------------------------------------------------------------
  // What the engine is told of headers that are let through
  // ---------------------------------------------------------------------------

  /** The calls of the engine, questions apart. */
  function Told(acts: seq<Act>): seq<EngineCall> {
    if acts == [] then []
    else (if acts[0].Engine? && !acts[0].call.AskIntervention? then [acts[0].call] else []) + Told(acts[1..])
  }

  /** The calls that a script orders. */
  function Orders(script: seq<Item>): seq<EngineCall> {
    if script == [] then [] else OrderOf(script[0]) + Orders(script[1..])
  }

  function OrderOf(item: Item): seq<EngineCall> { if item.Do? then [item.call] else [] }

  lemma {:induction false} ToldOfSteps(acts: seq<Act>)
    ensures Told(Select(acts, IsStep)) == Told(acts)
  {
    if acts != [] {
      ToldOfSteps(acts[1..]);
      var rest := Select(acts[1..], IsStep);
      if IsStep(acts[0]) {
        assert ([acts[0]] + rest)[1..] == rest;
      } else {
        assert [] + rest == rest && [] + Told(acts[1..]) == Told(acts[1..]);
      }
    }
  }

  lemma {:induction false} FollowsTold(steps: seq<Act>, script: seq<Item>)
    requires Follows(steps, script, None)
    requires forall i :: 0 <= i < |script| ==> script[i].Do? ==> !script[i].call.AskIntervention?
    ensures Told(steps) == Orders(script)
    decreases |script|
  {
    if script != [] {
      var k := if !script[0].Do? && |steps| > 1 && steps[1].Interrupted? then 2 else 1;
      assert forall i :: 0 <= i < |script[1..]| ==> script[1..][i] == script[i + 1];
      FollowsTold(steps[k..], script[1..]);
      if k == 2 {
        assert steps[1..][1..] == steps[2..];
      }
    }
  }

  lemma {:induction false} OrdersConcat(a: seq<Item>, b: seq<Item>)
    ensures Orders(a + b) == Orders(a) + Orders(b)
  {
    hide OrderOf;
    if a == [] {
      assert a + b == b;
    } else {
      assert (a + b)[1..] == a[1..] + b;
      OrdersConcat(a[1..], b);
    }
  }

  /** Each header as the engine is told it. */
  function RequestCalls(cfg: Config, headers: seq<Header>): seq<EngineCall> {
    seq(|headers|, i requires 0 <= i < |headers| => AddRequestHeader(headers[i].0, Sent(cfg, headers[i].1)))
  }

  function ResponseCalls(headers: seq<Header>): seq<EngineCall> {
    seq(|headers|, i requires 0 <= i < |headers| => AddResponseHeader(headers[i].0, headers[i].1))
  }

  lemma {:induction false} OrdersOfHeaders(cfg: Config, headers: seq<Header>)
    ensures Orders(RequestLines(cfg, headers)) == RequestCalls(cfg, headers)
    ensures Orders(ResponseLines(headers)) == ResponseCalls(headers)
    decreases |headers|
  {
    if headers != [] {
      OrdersOfHeaders(cfg, headers[1..]);
      assert RequestLines(cfg, headers)[1..] == RequestLines(cfg, headers[1..]);
      assert ResponseLines(headers)[1..] == ResponseLines(headers[1..]);
      assert RequestCalls(cfg, headers) == [RequestCalls(cfg, headers)[0]] + RequestCalls(cfg, headers[1..]);
      assert ResponseCalls(headers) == [ResponseCalls(headers)[0]] + ResponseCalls(headers[1..]);
    }
  }

  /** Up to and with the calls for its headers, what the engine is told of a request. */
  function HeadersTold(cfg: Config, head: RequestHead): seq<EngineCall> {
    [ProcessConnection, ProcessURI(Sent(cfg, head.path), head.verb)] + RequestCalls(cfg, head.headers)
    + (if head.host.Some? then [AddRequestHeader(HostName(), head.host.value)] else []) + [ProcessRequestHeaders]
  }

  lemma FrontOrders(cfg: Config, head: RequestHead)
    ensures Orders([Do(ProcessConnection), Ask(AtRequestHeaders),
                    Do(ProcessURI(Sent(cfg, head.path), head.verb)), Ask(AtRequestHeaders)])
         == [ProcessConnection, ProcessURI(Sent(cfg, head.path), head.verb)]
    ensures Orders([Ask(AtRequestHeaders), Do(ProcessRequestHeaders), Ask(AtRequestHeaders)]) == [ProcessRequestHeaders]
    ensures Orders(HostLine(head)) ==
      if head.host.Some? then [AddRequestHeader(HostName(), head.host.value)] else []
  {
    var p, c, u := Do(ProcessConnection), Ask(AtRequestHeaders), Do(ProcessURI(Sent(cfg, head.path), head.verb));
    OrdersConcat([p, c], [u, c]);
    assert [p, c] + [u, c] == [p, c, u, c];
    TwoOrders(p, c);
    TwoOrders(u, c);
    var h := Do(ProcessRequestHeaders);
    assert [c] + [h, c] == [c, h, c];
    OrdersConcat([c], [h, c]);
    TwoOrders(h, c);
    assert [c][1..] == [];
    if head.host.Some? {
      assert HostLine(head)[1..] == [];
    }
  }

  lemma TwoOrders(a: Item, b: Item)
    requires a.Do? && !b.Do?
    ensures Orders([a, b]) == [a.call]
  {
    assert [a, b][1..] == [b] && [b][1..] == [];
    assert Orders([b]) == [] + Orders([]) == [];
  }

  lemma PhaseOrders(st: Stream)
    ensures Orders(RequestPhase(st)) == [ProcessRequestBody] + (if st.loggingDone then [] else [ProcessLogging])
  {
    OrdersConcat([Do(ProcessRequestBody), Ask(AtRequestBody)], LoggingLine(st));
    TwoOrders(Do(ProcessRequestBody), Ask(AtRequestBody));
    if !st.loggingDone {
      assert LoggingLine(st)[1..] == [];
    }
  }

  lemma HeaderOrders(cfg: Config, st: Stream, head: RequestHead)
    ensures Orders(RequestHeaderScript(cfg, st, head)) == HeadersTold(cfg, head) +
      if AwaitsRequestBody(head) then []
      else [ProcessRequestBody] + (if st.loggingDone then [] else [ProcessLogging])
  {
    hide Orders, RequestLines, HostLine, RequestPhase, RequestCalls, Sent, AwaitsRequestBody;
    var front := [Do(ProcessConnection), Ask(AtRequestHeaders),
                  Do(ProcessURI(Sent(cfg, head.path), head.verb)), Ask(AtRequestHeaders)];
    var lines := RequestLines(cfg, head.headers) + HostLine(head);
    var end := [Ask(AtRequestHeaders), Do(ProcessRequestHeaders), Ask(AtRequestHeaders)];
    var back := if AwaitsRequestBody(head) then [] else RequestPhase(st);
    OrdersConcat(front + lines + end, back);
    OrdersConcat(front + lines, end);
    OrdersConcat(front, lines);
    OrdersConcat(RequestLines(cfg, head.headers), HostLine(head));
    OrdersOfHeaders(cfg, head.headers);
    FrontOrders(cfg, head);
    PhaseOrders(st);
    assert Orders([]) == [] by { NoOrders(); }
  }

  lemma NoOrders()
    ensures Orders([]) == []
  {
  }

  lemma NoQuestions(cfg: Config, st: Stream, head: RequestHead, i: nat)
    requires i < |RequestHeaderScript(cfg, st, head)|
    ensures var item := RequestHeaderScript(cfg, st, head)[i]; item.Do? ==> !item.call.AskIntervention?
  {
  }

  /**
   * When the headers of a request are let through, the engine has been told the connection, the path and the
   * method, each header with its value, in order, Host if one was derived, that the headers are complete, and,
   * exactly if no body is awaited, the request-body phase.
   */
  lemma RequestHeadersGiven(e: Engine, cfg: Config, st: Stream, head: RequestHead)
    requires cfg.engineReady
    ensures var (r, reply) := OnRequestHeaders(e, cfg, st, head);
      && st.trace <= r.trace
      && (reply.Continue? ==>
            Told(r.trace[|st.trace|..]) == HeadersTold(cfg, head) +
              if AwaitsRequestBody(head) then []
              else [ProcessRequestBody] + (if st.loggingDone then [] else [ProcessLogging]))
  {
    PlaysRequestHeaders(e, cfg, st, head);
    hide Follows, OnRequestHeaders, RequestHeaderScript, HeadersTold, AwaitsRequestBody;
    var (r, reply) := OnRequestHeaders(e, cfg, st, head);
    var script := RequestHeaderScript(cfg, st, head);
    if reply.Continue? {
      forall i | 0 <= i < |script| ensures script[i].Do? ==> !script[i].call.AskIntervention? {
        NoQuestions(cfg, st, head, i);
      }
      FollowsTold(Select(r.trace[|st.trace|..], IsStep), script);
      ToldOfSteps(r.trace[|st.trace|..]);
      HeaderOrders(cfg, st, head);
    }
  }

  /** What the engine is told of a response that is let through at its headers. */
  function ResponseTold(st: Stream, head: ResponseHead): seq<EngineCall> {
    (if st.requestProcessed then [] else [ProcessRequestBody])
    + ResponseCalls(head.headers) + [ProcessResponseHeaders(head.code)]
    + if AwaitsResponseBody(head) then []
      else
        [AppendResponseBody([0])] + (if st.responseProcessed then [] else [ProcessResponseBody])
        + (if st.loggingDone then [] else [ProcessLogging])
  }

  lemma BodylessOrders(st: Stream)
    ensures Orders(BodylessTail(st)) ==
      [AppendResponseBody([0])] + (if st.responseProcessed then [] else [ProcessResponseBody])
      + (if st.loggingDone then [] else [ProcessLogging])
  {
    var open, ask := [Do(AppendResponseBody([0])), Ask(AtResponseBody)], [Ask(AtResponseBody)];
    var close := if st.responseProcessed then [] else [Do(ProcessResponseBody)];
    OrdersConcat(open + close + ask, LoggingLine(st));
    OrdersConcat(open + close, ask);
    OrdersConcat(open, close);
    TwoOrders(Do(AppendResponseBody([0])), Ask(AtResponseBody));
    assert ask[1..] == [] && (close != [] ==> close[1..] == []);
    assert LoggingLine(st) != [] ==> LoggingLine(st)[1..] == [];
  }

  lemma ResponseOrders(st: Stream, head: ResponseHead)
    ensures Orders(ResponseHeaderScript(st, head)) == ResponseTold(st, head)
  {
    var front := if st.requestProcessed then [] else [Do(ProcessRequestBody), Ask(AtRequestBody)];
    var lines := ResponseLines(head.headers);
    var own := [Do(ProcessResponseHeaders(head.code)), Ask(AtResponseHeaders)];
    var back := if AwaitsResponseBody(head) then [] else BodylessTail(st);
    assert ResponseHeaderScript(st, head) == front + lines + own + back;
    BodylessOrders(st);
    TwoOrders(Do(ProcessRequestBody), Ask(AtRequestBody));
    TwoOrders(Do(ProcessResponseHeaders(head.code)), Ask(AtResponseHeaders));
    NoOrders();
    hide Orders, ResponseLines, ResponseCalls, AwaitsResponseBody, BodylessTail;
    OrdersConcat(front + lines + own, back);
    OrdersConcat(front + lines, own);
    OrdersConcat(front, lines);
    OrdersOfHeaders(Config(true, false, 0), head.headers);
  }

  lemma NoResponseQuestions(st: Stream, head: ResponseHead, i: nat)
    requires i < |ResponseHeaderScript(st, head)|
    ensures var item := ResponseHeaderScript(st, head)[i]; item.Do? ==> !item.call.AskIntervention?
  {
  }

  /**
   * When the headers of a response are let through, the engine has been told the request-body phase if that
   * had been skipped, each header in order, the status code, and, exactly if no body is awaited, one zero byte
   * and the response-body phase.
   */
  lemma ResponseHeadersGiven(e: Engine, cfg: Config, st: Stream, head: ResponseHead)
    requires st.transaction
    ensures var (r, reply) := OnResponseHeaders(e, cfg, st, head);
      && st.trace <= r.trace
      && (reply.Continue? ==> Told(r.trace[|st.trace|..]) == ResponseTold(st, head))
  {
    PlaysResponseHeaders(e, cfg, st, head);
    hide Follows, OnResponseHeaders, ResponseHeaderScript, ResponseTold;
    var (r, reply) := OnResponseHeaders(e, cfg, st, head);
    var script := ResponseHeaderScript(st, head);
    if reply.Continue? {
      forall i | 0 <= i < |script| ensures script[i].Do? ==> !script[i].call.AskIntervention? {
        NoResponseQuestions(st, head, i);
      }
      FollowsTold(Select(r.trace[|st.trace|..], IsStep), script);
      ToldOfSteps(r.trace[|st.trace|..]);
      ResponseOrders(st, head);
    }
  }

  /** A request that is let through at its headers has its body phase run there exactly if no body is awaited. */
  lemma RequestHeadersClose(e: Engine, cfg: Config, st: Stream, head: RequestHead)
    requires cfg.engineReady
    ensures var (r, reply) := OnRequestHeaders(e, cfg, st, head);
      reply.Continue? ==> r.transaction && (r.requestProcessed <==> st.requestProcessed || !AwaitsRequestBody(head))
  {
    hide Performs, Call, ProcessIntervention, SendBlockResponse, StartRequest;
    var open := Emit(st.(active := true, transaction := true), TxTotal);
    Calls(e, open, ProcessConnection);
    var called := Call(e, open, ProcessConnection);
    Asks(e, cfg, called, AtRequestHeaders);
    StartCloses(e, cfg, ProcessIntervention(e, cfg, called, AtRequestHeaders).0, head);
  }

  lemma StartCloses(e: Engine, cfg: Config, st: Stream, head: RequestHead)
    requires st.transaction
    ensures var (r, reply) := StartRequest(e, cfg, st, head);
      reply.Continue? ==> r.transaction && (r.requestProcessed <==> st.requestProcessed || !AwaitsRequestBody(head))
  {
    hide Performs, Call, ProcessIntervention, SendBlockResponse, EndRequestHeaders, AddRequestHeaders;
    var call := ProcessURI(FoldIf(cfg, head.path), head.verb);
    Calls(e, st, call);
    Asks(e, cfg, Call(e, st, call), AtRequestHeaders);
    var st2 := ProcessIntervention(e, cfg, Call(e, st, call), AtRequestHeaders).0;
    HeaderFlags(e, cfg, st2, head.headers);
    var added := AddRequestHeaders(e, cfg, st2, head.headers);
    if head.host.Some? {
      Calls(e, added, AddRequestHeader(HOST, head.host.value));
    }
    EndCloses(e, cfg, HostedHeaders(e, cfg, st2, head), head);
  }

  lemma {:induction false} HeaderFlags(e: Engine, cfg: Config, st: Stream, headers: seq<Header>)
    ensures SameFlags(st, AddRequestHeaders(e, cfg, st, headers))
    decreases |headers|
  {
    hide Performs, Call;
    if headers != [] {
      var call := AddRequestHeader(headers[0].0, FoldIf(cfg, headers[0].1));
      Calls(e, st, call);
      HeaderFlags(e, cfg, Call(e, st, call), headers[1..]);
    }
  }

  lemma EndCloses(e: Engine, cfg: Config, st: Stream, head: RequestHead)
    requires st.transaction
    ensures var (r, reply) := EndRequestHeaders(e, cfg, st, head);
      reply.Continue? ==> r.transaction && (r.requestProcessed <==> st.requestProcessed || !AwaitsRequestBody(head))
  {
    hide Performs, Call, ProcessIntervention, SendBlockResponse, RunLoggingPhaseIfNeeded;
    Asks(e, cfg, st, AtRequestHeaders);
    var st3 := ProcessIntervention(e, cfg, st, AtRequestHeaders).0;
    Calls(e, st3, ProcessRequestHeaders);
    var called := Call(e, st3, ProcessRequestHeaders);
    Asks(e, cfg, called, AtRequestHeaders);
    var st4 := ProcessIntervention(e, cfg, called, AtRequestHeaders).0;
    Calls(e, st4, ProcessRequestBody);
    var ran := RunRequestBodyPhase(e, st4);
    Asks(e, cfg, ran, AtRequestBody);
    LoggingFlags(e, ProcessIntervention(e, cfg, ran, AtRequestBody).0);
  }

  lemma LoggingFlags(e: Engine, st: Stream)
    ensures var r := RunLoggingPhaseIfNeeded(e, st);
      r.transaction == st.transaction && r.requestProcessed == st.requestProcessed
  {
    hide Performs, Call;
    var live := st.(active := true);
    Calls(e, live, ProcessLogging);
    var ran := Call(e, live, ProcessLogging);
    RecordAllIdle(ran, Unseen(ran.messages, st.seen));
  }
}
