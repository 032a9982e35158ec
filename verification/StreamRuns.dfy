/** Every callback keeps the stream's books, so every run ends with them balanced. */
module StreamRuns {
  import opened Prelude
  import opened StreamModel
  import opened StreamInvariants

  /** A live stream between two callbacks. */
  ghost predicate Alive(st: Stream) {
    && st.transaction && Books(st) && Caught(st)
    && (st.requestProcessed ==> Drained(st))
  }

  /** What one callback of a live stream leaves behind. */
  ghost predicate Served(st: Stream, r: Stream) {
    Alive(r) && r.active && Onward(st, r) && (st.requestProcessed ==> r.requestProcessed)
  }

  ghost predicate InService(st: Stream) { Alive(st) && st.active }

  // ---------------------------------------------------------------------------
  // Replies
  // ---------------------------------------------------------------------------

  lemma BlockKeeps(st: Stream, status: int)
    requires Good(st)
    ensures var r := SendBlockResponse(st, status);
      && Good(r) && SameFlags(st, r) && Onward(st, r) && r.interrupted == st.interrupted && r.seen == st.seen
      && r.messages == st.messages
  {
    hide Ordered, ClosedEarly, Select, Times, Records, Disruptive, LastId;
    var r := SendBlockResponse(st, status);
    var acts := [r.trace[|r.trace| - 1]];
    BooksQuiet(st, acts);
    CaughtUnderQuiet(st, r, acts);
  }

  lemma SanitizedCloses(trace: seq<Act>, status: int)
    requires SanitizeCounted !in trace && StruckLast(trace, AtResponseBody, status) && status != 0
    ensures ClosedEarly(trace + [SanitizeCounted]) <==> PHASE4 !in trace
  {
    var all := trace + [SanitizeCounted];
    var last := |trace| - 1;
    assert all[last] == trace[last] && all[..last] == trace[..last] && all[last + 1] == SanitizeCounted;
    assert trace == trace[..last] + [trace[last]];
    if PHASE4 !in trace {
      assert ClosedAt(all, last);
    }
    assert forall k :: 0 <= k <= last ==> all[k] == trace[k];
    if i: nat :| ClosedAt(all, i) {
      assert i == last;
    }
  }

  lemma CountedKeepsBooks(st: Stream, counted: Stream, status: int)
    requires Books(st) && !st.responseInterrupted && st.interrupted
    requires StruckLast(st.trace, AtResponseBody, status) && status != 0
    requires counted ==
      st.(trace := st.trace + [SanitizeCounted], responseInterrupted := true, responseProcessed := true)
    ensures Books(counted)
  {
    hide Ordered, ClosedEarly, Times;
    OrderedConcat(st.trace, [SanitizeCounted]);
    TimesIsIn(st.trace, SanitizeCounted);
    SanitizedCloses(st.trace, status);
    TimesIsIn(st.trace, PHASE4);
    forall a | a in {PHASE2, PHASE4, PHASE5, SanitizeCounted, TxTotal, TxAllowed}
      ensures Times(counted.trace, a) == Times(st.trace, a) + Bit(a == SanitizeCounted)
    {
      TimesConcat(st.trace, [SanitizeCounted], a);
      TimesOne(SanitizeCounted, a);
    }
  }

  lemma TimesIsIn(trace: seq<Act>, a: Act)
    ensures Times(trace, a) > 0 <==> a in trace
  {
  }

  /** What replacing a body adds to the trace: nothing when there is none. */
  function Replacement(length: nat): seq<Act> {
    if length > 0 then [BodyReplaced(length)] else []
  }

  lemma SanitizeTrace(st: Stream, length: nat, status: int)
    requires Books(st) && !st.responseInterrupted && st.interrupted
    requires StruckLast(st.trace, AtResponseBody, status) && status != 0
    ensures Books(SanitizeInterruptedResponseBody(st.(responseProcessed := true), length))
  {
    hide Ordered, ClosedEarly, Times;
    var counted := st.(trace := st.trace + [SanitizeCounted], responseInterrupted := true, responseProcessed := true);
    CountedKeepsBooks(st, counted, status);
    BooksQuiet(counted, Replacement(length));
    assert counted.trace + [] == counted.trace;
  }

  lemma SanitizedRest(st: Stream, r: Stream, length: nat)
    requires Caught(st)
    requires r == st.(responseProcessed := true, responseInterrupted := true,
                      trace := st.trace + ([SanitizeCounted] + Replacement(length)))
    ensures Caught(r) && Onward(st, r)
  {
    CaughtUnderQuiet(st, r, [SanitizeCounted] + Replacement(length));
  }

  /** First sanitization: after the body phase, or closing the phase before it ran. */
  lemma SanitizeKeeps(st: Stream, length: nat, status: int)
    requires Good(st) && Drained(st) && st.interrupted && !st.responseInterrupted && st.requestProcessed
    requires StruckLast(st.trace, AtResponseBody, status) && status != 0
    ensures var r := SanitizeInterruptedResponseBody(st.(responseProcessed := true), length);
      && Served(st, r) && r.responseInterrupted && r.loggingDone == st.loggingDone
      && r.trace == st.trace + ([SanitizeCounted] + Replacement(length))
  {
    hide Books;
    var r := SanitizeInterruptedResponseBody(st.(responseProcessed := true), length);
    SanitizeTrace(st, length, status);
    Associate(st.trace, [SanitizeCounted], Replacement(length));
    assert st.trace + [SanitizeCounted] + [] == st.trace + [SanitizeCounted];
    SanitizedRest(st, r, length);
  }

  /** Later buffers of a sanitized response are replaced without counting it again. */
  lemma ReplaceAgainKeeps(st: Stream, length: nat)
    requires InService(st) && st.responseInterrupted
    ensures Served(st, SanitizeInterruptedResponseBody(st, length))
  {
    hide Ordered, ClosedEarly, Select, Times, Records, Disruptive, LastId;
    var acts := Replacement(length);
    var r := SanitizeInterruptedResponseBody(st, length);
    assert st.trace + [] == st.trace;
    BooksQuiet(st, acts);
    CaughtUnderQuiet(st, r, acts);
  }

  // ---------------------------------------------------------------------------
  // Request side
  // ---------------------------------------------------------------------------

  /** Between two steps of one callback that did not block. */
  ghost predicate Onwards(st: Stream, r: Stream) {
    && Good(r) && Onward(st, r)
    && r.requestProcessed == st.requestProcessed && r.responseProcessed == st.responseProcessed
    && r.responseInterrupted == st.responseInterrupted
  }

  lemma OnwardsIsTransitive(a: Stream, b: Stream, c: Stream)
    requires Onwards(a, b) && Onwards(b, c)
    ensures Onwards(a, c)
  {
    OnwardIsTransitive(a, b, c);
  }

  /** The verdict either lets the callback go on or ends it with a local reply. */
  lemma VerdictKeeps(e: Engine, cfg: Config, st: Stream, phase: Phase)
    requires LogsNonDisruptive(e) && Good(st)
    ensures var (r, s) := ProcessIntervention(e, cfg, st, phase);
      && (s == 0 ==> Onwards(st, r) && Drained(r))
      && (s != 0 ==> Served(st, SendBlockResponse(r, s)))
  {
    InterventionKeeps(e, cfg, st, phase);
    var (r, s) := ProcessIntervention(e, cfg, st, phase);
    if s != 0 {
      BlockKeeps(r, s);
      OnwardIsTransitive(st, r, SendBlockResponse(r, s));
    }
  }

  lemma CallOnwards(e: Engine, st: Stream, call: EngineCall)
    requires LogsNonDisruptive(e) && Good(st)
    requires IsQuiet(Engine(call))
    requires IsResponsePhase(Engine(call)) ==> st.requestProcessed
    requires IsRequestFeed(Engine(call)) ==> !st.requestProcessed
    ensures Onwards(st, Call(e, st, call))
  {
    CallKeeps(e, st, call);
  }

  lemma CallThenVerdict(e: Engine, cfg: Config, st: Stream, call: EngineCall, phase: Phase)
    requires LogsNonDisruptive(e) && Good(st)
    requires IsQuiet(Engine(call))
    requires IsResponsePhase(Engine(call)) ==> st.requestProcessed
    requires IsRequestFeed(Engine(call)) ==> !st.requestProcessed
    ensures var (r, s) := ProcessIntervention(e, cfg, Call(e, st, call), phase);
      && (s == 0 ==> Onwards(st, r) && Drained(r))
      && (s != 0 ==> Served(st, SendBlockResponse(r, s)))
  {
    CallOnwards(e, st, call);
    var called := Call(e, st, call);
    VerdictKeeps(e, cfg, called, phase);
    var (r, s) := ProcessIntervention(e, cfg, called, phase);
    if s == 0 {
      OnwardsIsTransitive(st, called, r);
    } else {
      OnwardIsTransitive(st, called, SendBlockResponse(r, s));
    }
  }

  lemma {:induction false} AddRequestHeadersKeeps(e: Engine, cfg: Config, st: Stream, headers: seq<Header>)
    requires LogsNonDisruptive(e) && Good(st)
    ensures Onwards(st, AddRequestHeaders(e, cfg, st, headers))
    decreases |headers|
  {
    if headers != [] {
      var call := AddRequestHeader(headers[0].0, FoldIf(cfg, headers[0].1));
      CallOnwards(e, st, call);
      var next := Call(e, st, call);
      AddRequestHeadersKeeps(e, cfg, next, headers[1..]);
      OnwardsIsTransitive(st, next, AddRequestHeaders(e, cfg, next, headers[1..]));
    }
  }

  lemma {:induction false} AddResponseHeadersKeeps(e: Engine, st: Stream, headers: seq<Header>)
    requires LogsNonDisruptive(e) && Good(st)
    ensures Onwards(st, AddResponseHeaders(e, st, headers))
    decreases |headers|
  {
    if headers != [] {
      var call := AddResponseHeader(headers[0].0, headers[0].1);
      CallOnwards(e, st, call);
      var next := Call(e, st, call);
      AddResponseHeadersKeeps(e, next, headers[1..]);
      OnwardsIsTransitive(st, next, AddResponseHeaders(e, next, headers[1..]));
    }
  }

  lemma LoggingServes(e: Engine, st: Stream)
    requires LogsNonDisruptive(e) && Good(st) && Drained(st)
    ensures Served(st, RunLoggingPhaseIfNeeded(e, st))
  {
    LoggingKeeps(e, st);
  }

  /** Phase 2, verdict, logging: shared by the end of headers, of the body and of the trailers. */
  lemma EndRequestServes(e: Engine, cfg: Config, st: Stream, received: nat, reply: FilterStatus)
    requires LogsNonDisruptive(e) && Good(st) && !st.requestProcessed
    ensures var ran := RunRequestBodyPhase(e, st).(requestReceived := received);
      var (st1, s1) := ProcessIntervention(e, cfg, ran, AtRequestBody);
      var r := if s1 != 0 then SendBlockResponse(st1, s1) else RunLoggingPhaseIfNeeded(e, st1);
      Served(st, r) && r.requestProcessed
  {
    hide RunRequestBodyPhase, ProcessIntervention, SendBlockResponse, RunLoggingPhaseIfNeeded,
      Ordered, ClosedEarly, Select, Times, Records, Disruptive, LastId;
    RequestBodyPhaseKeeps(e, st);
    var ran := RunRequestBodyPhase(e, st).(requestReceived := received);
    VerdictKeeps(e, cfg, ran, AtRequestBody);
    InterventionKeeps(e, cfg, ran, AtRequestBody);
    var (st1, s1) := ProcessIntervention(e, cfg, ran, AtRequestBody);
    if s1 == 0 {
      LoggingServes(e, st1);
      LoggingKeeps(e, st1);
      OnwardIsTransitive(ran, st1, RunLoggingPhaseIfNeeded(e, st1));
      OnwardIsTransitive(st, ran, RunLoggingPhaseIfNeeded(e, st1));
    } else {
      BlockKeeps(st1, s1);
      OnwardIsTransitive(st, ran, SendBlockResponse(st1, s1));
    }
  }

  lemma CloseRequestServes(e: Engine, cfg: Config, st: Stream, reply: FilterStatus)
    requires LogsNonDisruptive(e) && Good(st) && !st.requestProcessed
    ensures var r := CloseRequestBody(e, cfg, st, reply).0; Served(st, r) && r.requestProcessed
  {
    EndRequestServes(e, cfg, st, 0, reply);
  }

  lemma EndRequestKeeps(e: Engine, cfg: Config, st: Stream, reply: FilterStatus)
    requires LogsNonDisruptive(e) && Good(st) && !st.requestProcessed
    ensures Served(st, EndRequest(e, cfg, st, reply).0)
  {
    hide Good, Served, ProcessIntervention, RunLoggingPhaseIfNeeded, SendBlockResponse;
    var ran := RunRequestBodyPhase(e, st);
    EndRequestServes(e, cfg, st, ran.requestReceived, reply);
    assert ran.(requestReceived := ran.requestReceived) == ran;
  }

  lemma CursorKeeps(st: Stream, r: Stream, requestReceived: nat, responseReceived: nat)
    requires Onwards(st, r)
    ensures Onwards(st, r.(requestReceived := requestReceived, responseReceived := responseReceived))
  {
    assert Books(r.(requestReceived := requestReceived, responseReceived := responseReceived));
    assert Caught(r.(requestReceived := requestReceived, responseReceived := responseReceived));
  }

  lemma OnwardsIsReflexive(st: Stream)
    requires Good(st)
    ensures Onwards(st, st)
  {
  }

  lemma AppendRequestKeeps(e: Engine, cfg: Config, st: Stream, size: nat, got: Option<Bytes>)
    requires LogsNonDisruptive(e) && Good(st) && !st.requestProcessed
    ensures Onwards(st, AppendRequest(e, cfg, st, size, got))
  {
    hide Ordered, ClosedEarly, Select, Times, Records, Disruptive, LastId;
    OnwardsIsReflexive(st);
    var fed := st;
    if size > st.requestReceived && got.Some? && |got.value| > 0 {
      fed := Call(e, st, AppendRequestBody(FoldIf(cfg, got.value)));
      CallOnwards(e, st, AppendRequestBody(FoldIf(cfg, got.value)));
    }
    var r := AppendRequest(e, cfg, st, size, got);
    CursorKeeps(st, fed, r.requestReceived, fed.responseReceived);
  }

  lemma HostedKeeps(e: Engine, cfg: Config, st: Stream, head: RequestHead)
    requires LogsNonDisruptive(e) && Good(st)
    ensures Onwards(st, HostedHeaders(e, cfg, st, head))
  {
    var added := AddRequestHeaders(e, cfg, st, head.headers);
    AddRequestHeadersKeeps(e, cfg, st, head.headers);
    if head.host.Some? {
      var call := AddRequestHeader(HOST, head.host.value);
      CallOnwards(e, added, call);
      OnwardsIsTransitive(st, added, Call(e, added, call));
    }
  }

  /** A verdict after steps that went well. */
  lemma VerdictAfter(e: Engine, cfg: Config, st: Stream, mid: Stream, phase: Phase)
    requires LogsNonDisruptive(e) && Onwards(st, mid)
    ensures var (r, s) := ProcessIntervention(e, cfg, mid, phase);
      && (s == 0 ==> Onwards(st, r) && Drained(r))
      && (s != 0 ==> Served(st, SendBlockResponse(r, s)))
  {
    VerdictKeeps(e, cfg, mid, phase);
    var (r, s) := ProcessIntervention(e, cfg, mid, phase);
    if s == 0 {
      OnwardsIsTransitive(st, mid, r);
    } else {
      OnwardIsTransitive(st, mid, SendBlockResponse(r, s));
    }
  }

  lemma EndRequestHeadersServes(e: Engine, cfg: Config, st: Stream, hosted: Stream, head: RequestHead)
    requires LogsNonDisruptive(e) && Onwards(st, hosted) && !hosted.requestProcessed
    ensures Served(st, EndRequestHeaders(e, cfg, hosted, head).0)
  {
    hide ProcessIntervention, SendBlockResponse, Call, EndRequest, Books, Caught, Onward;
    VerdictAfter(e, cfg, st, hosted, AtRequestHeaders);
    var (st3, s3) := ProcessIntervention(e, cfg, hosted, AtRequestHeaders);
    if s3 == 0 {
      RequestHeadersPhaseServes(e, cfg, st, st3, head);
    }
  }

  lemma RequestHeaderListServes(e: Engine, cfg: Config, st: Stream, head: RequestHead)
    requires LogsNonDisruptive(e) && Good(st) && !st.requestProcessed
    ensures Served(st, OnRequestHeaderList(e, cfg, st, head).0)
  {
    HostedKeeps(e, cfg, st, head);
    EndRequestHeadersServes(e, cfg, st, HostedHeaders(e, cfg, st, head), head);
  }

  lemma RequestHeadersPhaseServes(e: Engine, cfg: Config, st: Stream, st3: Stream, head: RequestHead)
    requires LogsNonDisruptive(e) && Onwards(st, st3) && !st3.requestProcessed
    ensures var (st4, s4) := ProcessIntervention(e, cfg, Call(e, st3, ProcessRequestHeaders), AtRequestHeaders);
      && (s4 != 0 ==> Served(st, SendBlockResponse(st4, s4)))
      && (s4 == 0 ==> Served(st, st4) && Served(st, EndRequest(e, cfg, st4, StopIteration).0))
  {
    CallThenVerdict(e, cfg, st3, ProcessRequestHeaders, AtRequestHeaders);
    var (st4, s4) := ProcessIntervention(e, cfg, Call(e, st3, ProcessRequestHeaders), AtRequestHeaders);
    if s4 == 0 {
      OnwardsIsTransitive(st, st3, st4);
      EndRequestKeeps(e, cfg, st4, StopIteration);
      OnwardIsTransitive(st, st4, EndRequest(e, cfg, st4, StopIteration).0);
    } else {
      OnwardIsTransitive(st, st3, SendBlockResponse(st4, s4));
    }
  }

  lemma OpeningTrace()
    ensures var trace := [TxTotal];
      && (forall a :: Times(trace, a) == Bit(a == TxTotal)) && Ordered(trace) && !ClosedEarly(trace)
      && (forall a :: a in trace <==> a == TxTotal) && Select(trace, IsDisruptiveRecord) == []
  {
    var trace := [TxTotal];
    assert trace[..0] == [] && trace[0] == TxTotal;
    assert [] + [TxTotal] == trace;
  }

  lemma OpeningBooks(open: Stream)
    requires open == FRESH.(active := true, transaction := true, trace := [TxTotal])
    ensures Books(open)
  {
    OpeningTrace();
    hide Times, Ordered, ClosedEarly, Select;
  }

  lemma OpeningCaught(open: Stream)
    requires open == FRESH.(active := true, transaction := true, trace := [TxTotal])
    ensures Caught(open)
  {
    OpeningTrace();
    assert open.messages[..0] == [];
    assert Disruptive([]) == [];
  }

  lemma OpeningIsGood(st: Stream)
    requires st.(active := false) == FRESH
    ensures var open := Emit(st.(active := true, transaction := true), TxTotal);
      Good(open) && !open.requestProcessed && Onward(st, open)
  {
    hide Books, Caught;
    var open := Emit(st.(active := true, transaction := true), TxTotal);
    OpeningBooks(open);
    OpeningCaught(open);
  }

  lemma OnRequestHeadersServes(e: Engine, cfg: Config, st: Stream, head: RequestHead)
    requires LogsNonDisruptive(e) && cfg.engineReady && st.(active := false) == FRESH
    ensures Served(st, OnRequestHeaders(e, cfg, st, head).0)
  {
    var open := Emit(st.(active := true, transaction := true), TxTotal);
    OpeningIsGood(st);
    CallThenVerdict(e, cfg, open, ProcessConnection, AtRequestHeaders);
    var (st1, s1) := ProcessIntervention(e, cfg, Call(e, open, ProcessConnection), AtRequestHeaders);
    if s1 != 0 {
      OnwardIsTransitive(st, open, SendBlockResponse(st1, s1));
    } else {
      UriServes(e, cfg, open, st1, head);
      OnwardIsTransitive(st, open, OnRequestHeaders(e, cfg, st, head).0);
    }
  }

  lemma UriServes(e: Engine, cfg: Config, open: Stream, st1: Stream, head: RequestHead)
    requires LogsNonDisruptive(e) && Onwards(open, st1) && !st1.requestProcessed
    ensures var (st2, s2) :=
        ProcessIntervention(e, cfg, Call(e, st1, ProcessURI(FoldIf(cfg, head.path), head.verb)), AtRequestHeaders);
      && (s2 != 0 ==> Served(open, SendBlockResponse(st2, s2)))
      && (s2 == 0 ==> Served(open, OnRequestHeaderList(e, cfg, st2, head).0))
  {
    var call := ProcessURI(FoldIf(cfg, head.path), head.verb);
    CallThenVerdict(e, cfg, st1, call, AtRequestHeaders);
    var (st2, s2) := ProcessIntervention(e, cfg, Call(e, st1, call), AtRequestHeaders);
    if s2 != 0 {
      OnwardIsTransitive(open, st1, SendBlockResponse(st2, s2));
    } else {
      OnwardsIsTransitive(open, st1, st2);
      RequestHeaderListServes(e, cfg, st2, head);
      OnwardIsTransitive(open, st2, OnRequestHeaderList(e, cfg, st2, head).0);
    }
  }

  lemma OnRequestBodyServes(
      e: Engine, cfg: Config, st: Stream, length: nat, got: Option<Bytes>, endOfStream: bool)
    requires LogsNonDisruptive(e) && InService(st)
    ensures Served(st, OnRequestBody(e, cfg, st, length, got, endOfStream).0)
  {
    assert st.(active := true) == st;
    if !st.requestProcessed {
      AppendRequestKeeps(e, cfg, st, length, got);
      var fed := AppendRequest(e, cfg, st, length, got);
      if endOfStream {
        CloseRequestServes(e, cfg, fed, StopIterationNoBuffer);
        OnwardIsTransitive(st, fed, CloseRequestBody(e, cfg, fed, StopIterationNoBuffer).0);
      }
    }
  }

  lemma OnRequestTrailersServes(e: Engine, cfg: Config, st: Stream, buffered: Option<nat>, got: Option<Bytes>)
    requires LogsNonDisruptive(e) && InService(st)
    ensures Served(st, OnRequestTrailers(e, cfg, st, buffered, got).0)
  {
    assert st.(active := true) == st;
    if !st.requestProcessed {
      var fed := st;
      if buffered.Some? {
        AppendRequestKeeps(e, cfg, st, buffered.value, got);
        fed := AppendRequest(e, cfg, st, buffered.value, got);
      }
      CloseRequestServes(e, cfg, fed, StopIteration);
      OnwardIsTransitive(st, fed, CloseRequestBody(e, cfg, fed, StopIteration).0);
    }
  }

  // ---------------------------------------------------------------------------
  // Response side
  // ---------------------------------------------------------------------------

  lemma AppendResponseKeeps(e: Engine, st: Stream, size: nat, got: Option<Bytes>)
    requires LogsNonDisruptive(e) && Good(st)
    ensures Onwards(st, AppendResponse(e, st, size, got))
    ensures !(size > st.responseReceived && got.Some? && |got.value| > 0) && Drained(st) ==>
      Drained(AppendResponse(e, st, size, got))
  {
    hide Ordered, ClosedEarly, Select, Times, Records, Disruptive, LastId;
    OnwardsIsReflexive(st);
    var fed := st;
    if size > st.responseReceived && got.Some? && |got.value| > 0 {
      fed := Call(e, st, AppendResponseBody(got.value));
      CallOnwards(e, st, AppendResponseBody(got.value));
    }
    var r := AppendResponse(e, st, size, got);
    CursorKeeps(st, fed, fed.requestReceived, r.responseReceived);
  }

  /** Ending the response body: phase 4, then either logging, or a sanitized body. */
  lemma FinalizeVerdict(e: Engine, cfg: Config, st: Stream)
    requires LogsNonDisruptive(e) && Good(st) && st.requestProcessed
    requires !st.responseInterrupted
    ensures var (r, s) := ProcessIntervention(e, cfg, FinalizeResponseBodyPhase(e, st), AtResponseBody);
      && Good(r) && Drained(r) && Onward(st, r) && r.requestProcessed && r.responseProcessed && !r.responseInterrupted
      && (s == 0 ==> Served(st, RunLoggingPhaseIfNeeded(e, r)))
      && (s != 0 ==> StruckLast(r.trace, AtResponseBody, s) && r.interrupted)
  {
    FinalizeKeeps(e, st);
    var final := FinalizeResponseBodyPhase(e, st);
    InterventionKeeps(e, cfg, final, AtResponseBody);
    var (r, s) := ProcessIntervention(e, cfg, final, AtResponseBody);
    OnwardIsTransitive(st, final, r);
    if s == 0 {
      LoggingServes(e, r);
      LoggingKeeps(e, r);
      OnwardIsTransitive(st, r, RunLoggingPhaseIfNeeded(e, r));
    }
  }

  lemma SanitizedAfterPhase(st: Stream, length: nat)
    requires st.responseProcessed
    ensures SanitizeInterruptedResponseBody(st.(responseProcessed := true), length)
         == SanitizeInterruptedResponseBody(st, length)
  {
    assert st.(responseProcessed := true) == st;
  }

  lemma EndResponseChunkServes(e: Engine, cfg: Config, st: Stream, length: nat, endOfStream: bool)
    requires LogsNonDisruptive(e) && InService(st) && st.requestProcessed && !st.responseInterrupted
    ensures Served(st, EndResponseChunk(e, cfg, st, length, endOfStream).0)
  {
    if endOfStream {
      FinalizeVerdict(e, cfg, st);
      var (r, s) := ProcessIntervention(e, cfg, FinalizeResponseBodyPhase(e, st), AtResponseBody);
      if s != 0 {
        SanitizeKeeps(r, length, s);
        SanitizedAfterPhase(r, length);
        OnwardIsTransitive(st, r, SanitizeInterruptedResponseBody(r, length));
      }
    }
  }

  lemma OnResponseBodyServes(
      e: Engine, cfg: Config, st: Stream, length: nat, got: Option<Bytes>, endOfStream: bool)
    requires LogsNonDisruptive(e) && InService(st) && st.requestProcessed
    ensures Served(st, OnResponseBody(e, cfg, st, length, got, endOfStream).0)
  {
    hide AppendResponse, EndResponseChunk, ProcessIntervention, SanitizeInterruptedResponseBody, Books, Select,
      LastId;
    assert st.(active := true) == st;
    if st.responseInterrupted {
      ReplaceAgainKeeps(st, length);
    } else if !st.responseProcessed {
      AppendResponseKeeps(e, st, length, got);
      var fed := AppendResponse(e, st, length, got);
      if length > st.responseReceived && got.Some? && |got.value| > 0 {
        ChunkVerdictServes(e, cfg, st, fed, length, endOfStream);
      } else {
        EndResponseChunkServes(e, cfg, fed, length, endOfStream);
        OnwardIsTransitive(st, fed, EndResponseChunk(e, cfg, fed, length, endOfStream).0);
      }
    }
  }

  lemma ChunkVerdictServes(e: Engine, cfg: Config, st: Stream, fed: Stream, length: nat, endOfStream: bool)
    requires LogsNonDisruptive(e) && Onwards(st, fed) && fed.requestProcessed && !fed.responseInterrupted
    ensures var (st1, s1) := ProcessIntervention(e, cfg, fed, AtResponseBody);
      && (s1 != 0 ==> Served(st, SanitizeInterruptedResponseBody(st1.(responseProcessed := true), length)))
      && (s1 == 0 ==> Served(st, EndResponseChunk(e, cfg, st1, length, endOfStream).0))
  {
    InterventionKeeps(e, cfg, fed, AtResponseBody);
    var (st1, s1) := ProcessIntervention(e, cfg, fed, AtResponseBody);
    OnwardIsTransitive(st, fed, st1);
    if s1 != 0 {
      SanitizeKeeps(st1, length, s1);
      OnwardIsTransitive(st, st1, SanitizeInterruptedResponseBody(st1.(responseProcessed := true), length));
    } else {
      EndResponseChunkServes(e, cfg, st1, length, endOfStream);
      OnwardIsTransitive(st, st1, EndResponseChunk(e, cfg, st1, length, endOfStream).0);
    }
  }

  lemma TrailerVerdictServes(e: Engine, cfg: Config, st: Stream, fed: Stream, size: nat)
    requires LogsNonDisruptive(e) && Onwards(st, fed) && fed.requestProcessed && !fed.responseInterrupted
    ensures var (st1, s1) := ProcessIntervention(e, cfg, fed, AtResponseBody);
      && (s1 != 0 ==> Served(st, SanitizeInterruptedResponseBody(st1.(responseProcessed := true), size)))
      && (s1 == 0 ==>
           var (st2, s2) := ProcessIntervention(e, cfg, FinalizeResponseBodyPhase(e, st1), AtResponseBody);
           var st3 := if s2 != 0 then SanitizeInterruptedResponseBody(st2, size) else st2;
           Served(st, RunLoggingPhaseIfNeeded(e, st3)))
  {
    InterventionKeeps(e, cfg, fed, AtResponseBody);
    var (st1, s1) := ProcessIntervention(e, cfg, fed, AtResponseBody);
    OnwardIsTransitive(st, fed, st1);
    if s1 != 0 {
      SanitizeKeeps(st1, size, s1);
      OnwardIsTransitive(st, st1, SanitizeInterruptedResponseBody(st1.(responseProcessed := true), size));
    } else {
      FinalizeVerdict(e, cfg, st1);
      var (st2, s2) := ProcessIntervention(e, cfg, FinalizeResponseBodyPhase(e, st1), AtResponseBody);
      if s2 != 0 {
        SanitizeKeeps(st2, size, s2);
        SanitizedAfterPhase(st2, size);
        var st3 := SanitizeInterruptedResponseBody(st2, size);
        LoggingServes(e, st3);
        LoggingKeeps(e, st3);
        OnwardIsTransitive(st1, st2, st3);
        OnwardIsTransitive(st1, st3, RunLoggingPhaseIfNeeded(e, st3));
        OnwardIsTransitive(st, st1, RunLoggingPhaseIfNeeded(e, st3));
      } else {
        OnwardIsTransitive(st, st1, RunLoggingPhaseIfNeeded(e, st2));
      }
    }
  }

  lemma OnResponseTrailersServes(e: Engine, cfg: Config, st: Stream, buffered: Option<nat>, got: Option<Bytes>)
    requires LogsNonDisruptive(e) && InService(st) && st.requestProcessed
    ensures Served(st, OnResponseTrailers(e, cfg, st, buffered, got).0)
  {
    assert st.(active := true) == st;
    if !st.responseProcessed {
      var size := if buffered.Some? then buffered.value else 0;
      AppendResponseKeeps(e, st, size, got);
      TrailerVerdictServes(e, cfg, st, AppendResponse(e, st, size, got), size);
    }
  }

  lemma OnResponseHeadersServes(e: Engine, cfg: Config, st: Stream, head: ResponseHead)
    requires LogsNonDisruptive(e) && InService(st)
    ensures var r := OnResponseHeaders(e, cfg, st, head).0; Served(st, r) && r.requestProcessed
  {
    assert st.(active := true) == st;
    if st.requestProcessed {
      ResponseHeaderListServes(e, cfg, st, head);
    } else {
      RequestBodyPhaseKeeps(e, st);
      var ran := RunRequestBodyPhase(e, st);
      VerdictKeeps(e, cfg, ran, AtRequestBody);
      var (st1, s1) := ProcessIntervention(e, cfg, ran, AtRequestBody);
      if s1 != 0 {
        OnwardIsTransitive(st, ran, SendBlockResponse(st1, s1));
      } else {
        OnwardIsTransitive(st, ran, st1);
        ResponseHeaderListServes(e, cfg, st1, head);
        OnwardIsTransitive(st, st1, OnResponseHeaderList(e, cfg, st1, head).0);
      }
    }
  }

  lemma EndResponseHeadersServes(e: Engine, cfg: Config, st: Stream, called: Stream, head: ResponseHead)
    requires LogsNonDisruptive(e) && Onwards(st, called) && called.requestProcessed
    ensures Served(st, EndResponseHeaders(e, cfg, called, head).0)
  {
    hide Call, FinalizeResponseBodyPhase, RunLoggingPhaseIfNeeded, SendBlockResponse, ProcessIntervention,
      Books, Caught, Onward;
    VerdictAfter(e, cfg, st, called, AtResponseHeaders);
    var (st2, s2) := ProcessIntervention(e, cfg, called, AtResponseHeaders);
    if s2 == 0 {
      BodylessResponseServes(e, cfg, st, st2);
    }
  }

  lemma ResponseHeaderListServes(e: Engine, cfg: Config, st: Stream, head: ResponseHead)
    requires LogsNonDisruptive(e) && Good(st) && st.requestProcessed
    ensures Served(st, OnResponseHeaderList(e, cfg, st, head).0)
  {
    var added := AddResponseHeaders(e, st, head.headers);
    AddResponseHeadersKeeps(e, st, head.headers);
    var called := Call(e, added, ProcessResponseHeaders(head.code));
    CallOnwards(e, added, ProcessResponseHeaders(head.code));
    OnwardsIsTransitive(st, added, called);
    EndResponseHeadersServes(e, cfg, st, called, head);
  }

  lemma BodylessResponseServes(e: Engine, cfg: Config, st: Stream, st2: Stream)
    requires LogsNonDisruptive(e) && Onwards(st, st2) && Drained(st2) && st2.requestProcessed
    ensures Served(st, st2)
    ensures
      var (st3, s3) := ProcessIntervention(e, cfg, Call(e, st2, AppendResponseBody([0])), AtResponseBody);
      if s3 != 0 then Served(st, SendBlockResponse(st3, s3))
      else
        var (st4, s4) := ProcessIntervention(e, cfg, FinalizeResponseBodyPhase(e, st3), AtResponseBody);
        Served(st, if s4 != 0 then SendBlockResponse(st4, s4) else RunLoggingPhaseIfNeeded(e, st4))
  {
    CallThenVerdict(e, cfg, st2, AppendResponseBody([0]), AtResponseBody);
    var (st3, s3) := ProcessIntervention(e, cfg, Call(e, st2, AppendResponseBody([0])), AtResponseBody);
    if s3 != 0 {
      OnwardIsTransitive(st, st2, SendBlockResponse(st3, s3));
    } else {
      OnwardsIsTransitive(st, st2, st3);
      FinalizeKeeps(e, st3);
      var final := FinalizeResponseBodyPhase(e, st3);
      VerdictKeeps(e, cfg, final, AtResponseBody);
      var (st4, s4) := ProcessIntervention(e, cfg, final, AtResponseBody);
      if s4 != 0 {
        OnwardIsTransitive(st3, final, SendBlockResponse(st4, s4));
        OnwardIsTransitive(st, st3, SendBlockResponse(st4, s4));
      } else {
        LoggingServes(e, st4);
        OnwardIsTransitive(st3, final, st4);
        OnwardIsTransitive(st3, st4, RunLoggingPhaseIfNeeded(e, st4));
        OnwardIsTransitive(st, st3, RunLoggingPhaseIfNeeded(e, st4));
      }
    }
  }

  lemma OnLogServes(e: Engine, st: Stream)
    requires LogsNonDisruptive(e) && InService(st)
    ensures Served(st, OnLog(e, st))
  {
    assert st.(active := true) == st;
    LoggingKeeps(e, st);
  }

  // ---------------------------------------------------------------------------
  // The end of a stream
  // ---------------------------------------------------------------------------

  /** The final balance of a stream that carried a transaction. */
  ghost predicate Ended(st: Stream) {
    && !st.transaction && !st.active
    && Times(st.trace, PHASE2) == 1
    && Times(st.trace, PHASE5) == 1
    && Times(st.trace, PHASE4) == (if ClosedEarly(st.trace) then 0 else 1)
    && Times(st.trace, SanitizeCounted) <= 1
    && Ordered(st.trace)
    && (forall a :: a in st.trace ==> !a.Misdelivered?)
    && Select(st.trace, IsDisruptiveRecord) == Records(Disruptive(st.messages))
    && st.lastDisruptive == LastId(0, st.messages)
    && |st.exports| <= 16
    && Times(st.trace, TxTotal) == 1
    && Times(st.trace, TxAllowed) == Bit(!st.interrupted)
    && (st.interrupted <==> exists a :: a in st.trace && a.Interrupted?)
  }

  ghost predicate Settled(st: Stream, r: Stream) {
    Good(r) && Onward(st, r) && (r.requestProcessed ==> Drained(r))
  }

  lemma LateRequestPhase(e: Engine, cfg: Config, st: Stream)
    requires LogsNonDisruptive(e) && Settled(st, st) && !st.requestProcessed
    ensures var r := ProcessIntervention(e, cfg, RunRequestBodyPhase(e, st), AtRequestBody).0;
      Settled(st, r) && r.requestProcessed
  {
    RequestBodyPhaseKeeps(e, st);
    InterventionKeeps(e, cfg, RunRequestBodyPhase(e, st), AtRequestBody);
    OnwardIsTransitive(st, RunRequestBodyPhase(e, st),
      ProcessIntervention(e, cfg, RunRequestBodyPhase(e, st), AtRequestBody).0);
  }

  lemma LateResponsePhase(e: Engine, cfg: Config, st: Stream)
    requires LogsNonDisruptive(e) && Settled(st, st) && st.requestProcessed
    ensures var r := ProcessIntervention(e, cfg, FinalizeResponseBodyPhase(e, st), AtResponseBody).0;
      Settled(st, r) && r.requestProcessed && r.responseProcessed
  {
    FinalizeKeeps(e, st);
    InterventionKeeps(e, cfg, FinalizeResponseBodyPhase(e, st), AtResponseBody);
    OnwardIsTransitive(st, FinalizeResponseBodyPhase(e, st),
      ProcessIntervention(e, cfg, FinalizeResponseBodyPhase(e, st), AtResponseBody).0);
  }

  lemma SettledIsTransitive(a: Stream, b: Stream, c: Stream)
    requires Settled(a, b) && Settled(b, c)
    ensures Settled(a, c)
  {
    OnwardIsTransitive(a, b, c);
  }

  lemma SettledAgain(a: Stream, b: Stream)
    requires Settled(a, b)
    ensures Settled(b, b)
  {
  }

  lemma LateLogging(e: Engine, st: Stream)
    requires LogsNonDisruptive(e) && Settled(st, st)
    ensures var r := RunLoggingPhaseIfNeeded(e, st);
      && Settled(st, r) && r.loggingDone
      && r.requestProcessed == st.requestProcessed && r.responseProcessed == st.responseProcessed
  {
    LoggingKeeps(e, st);
  }

  lemma FinishKeeps(e: Engine, cfg: Config, st: Stream)
    requires LogsNonDisruptive(e) && Settled(st, st)
    ensures var r := FinishPhases(e, cfg, st);
      && Settled(st, r) && r.requestProcessed && r.responseProcessed && r.loggingDone
  {
    hide ProcessIntervention, RunRequestBodyPhase, FinalizeResponseBodyPhase, RunLoggingPhaseIfNeeded, Settled;
    var st1 := st;
    if !st.requestProcessed {
      LateRequestPhase(e, cfg, st);
      st1 := ProcessIntervention(e, cfg, RunRequestBodyPhase(e, st), AtRequestBody).0;
    }
    SettledAgain(st, st1);
    FinishResponse(e, cfg, st1);
    SettledIsTransitive(st, st1, FinishPhases(e, cfg, st));
  }

  lemma FinishResponse(e: Engine, cfg: Config, st1: Stream)
    requires LogsNonDisruptive(e) && Settled(st1, st1) && st1.requestProcessed
    ensures
      var st2 := if st1.responseProcessed then st1
                 else ProcessIntervention(e, cfg, FinalizeResponseBodyPhase(e, st1), AtResponseBody).0;
      var r := RunLoggingPhaseIfNeeded(e, st2);
      Settled(st1, r) && r.requestProcessed && r.responseProcessed && r.loggingDone
  {
    if st1.responseProcessed {
      LateLogging(e, st1);
    } else {
      LateResponsePhase(e, cfg, st1);
      LoggedAfter(e, st1, ProcessIntervention(e, cfg, FinalizeResponseBodyPhase(e, st1), AtResponseBody).0);
    }
  }

  lemma LoggedAfter(e: Engine, st1: Stream, st2: Stream)
    requires LogsNonDisruptive(e) && Settled(st1, st2) && st2.requestProcessed && st2.responseProcessed
    ensures var r := RunLoggingPhaseIfNeeded(e, st2);
      Settled(st1, r) && r.requestProcessed && r.responseProcessed && r.loggingDone
  {
    LateLogging(e, st2);
    SettledIsTransitive(st1, st2, RunLoggingPhaseIfNeeded(e, st2));
  }

  lemma AllowedTrace(done: Stream)
    requires Good(done) && !done.interrupted
    ensures var r := Emit(done, TxAllowed);
      && (forall a :: a in {PHASE2, PHASE4, PHASE5, SanitizeCounted, TxTotal} ==>
           Times(r.trace, a) == Times(done.trace, a))
      && Times(r.trace, TxAllowed) == 1
      && (ClosedEarly(r.trace) <==> ClosedEarly(done.trace))
      && Ordered(r.trace)
      && Select(r.trace, IsDisruptiveRecord) == Select(done.trace, IsDisruptiveRecord)
  {
    hide Ordered, ClosedEarly, Select;
    var acts := [TxAllowed];
    TimesConcat(done.trace, acts, TxAllowed);
    ClosedEarlyConcat(done.trace, acts);
    OrderedConcat(done.trace, acts);
    SelectConcat(done.trace, acts, IsDisruptiveRecord);
    SelectNone(acts, IsDisruptiveRecord);
  }

  lemma ClosingBalances(done: Stream)
    requires Good(done) && Drained(done)
    requires done.requestProcessed && done.responseProcessed && done.loggingDone
    ensures var r := (if done.interrupted then done else Emit(done, TxAllowed)).(active := false, transaction := false);
      Ended(r) && Onward(done, r)
  {
    hide Ordered, ClosedEarly, Select, Records, Disruptive, LastId;
    assert done.messages[..done.seen] == done.messages;
    if !done.interrupted {
      AllowedTrace(done);
    }
  }

  lemma OnDeleteEnds(e: Engine, cfg: Config, st: Stream)
    requires LogsNonDisruptive(e) && InService(st)
    ensures var r := OnDelete(e, cfg, st); Ended(r) && Onward(st, r)
  {
    assert st.(active := true) == st;
    FinishKeeps(e, cfg, st);
    ClosingBalances(FinishPhases(e, cfg, st));
    OnwardIsTransitive(st, FinishPhases(e, cfg, st), OnDelete(e, cfg, st));
  }

  // ---------------------------------------------------------------------------
  // All callbacks, all runs
  // ---------------------------------------------------------------------------

  /** What holds of a stream at each stage of its life. */
  ghost predicate StageInv(cfg: Config, stage: Stage, st: Stream) {
    if !cfg.engineReady then st.(active := false) == FRESH
    else match stage
      case Created => st.(active := false) == FRESH
      case InRequest => Alive(st)
      case InResponse => Alive(st) && st.requestProcessed
      case Deleted => Ended(st) || st == FRESH
  }

  /** A callback activates its stream before it does anything, or does nothing. */
  lemma HandleActivates(e: Engine, cfg: Config, st: Stream, cb: Callback)
    requires st.transaction && !cb.RequestHeaders?
    ensures Handle(e, cfg, st, cb).0 == st || Handle(e, cfg, st, cb) == Handle(e, cfg, st.(active := true), cb)
  {
    hide AppendRequest, CloseRequestBody, ProcessIntervention, RunRequestBodyPhase, OnResponseHeaderList,
      EndResponseChunk, FinalizeResponseBodyPhase, AppendResponse, SanitizeInterruptedResponseBody, FinishPhases;
    assert st.(active := true).(active := true) == st.(active := true);
  }

  lemma LiveHandleKeeps(e: Engine, cfg: Config, st: Stream, stage: Stage, cb: Callback)
    requires LogsNonDisruptive(e) && cfg.engineReady && InService(st)
    requires stage.InRequest? || (stage.InResponse? && st.requestProcessed)
    requires Next(stage, cb).Some?
    ensures var r := Handle(e, cfg, st, cb).0; StageInv(cfg, Next(stage, cb).value, r) && Onward(st, r)
  {
    hide OnRequestBody, OnRequestTrailers, OnResponseHeaders, OnResponseBody, OnResponseTrailers, OnLog, OnDelete,
      Books, Caught, Onward, Ended;
    match cb
    case RequestHeaders(head) =>
    case RequestBody(length, got, eos) => OnRequestBodyServes(e, cfg, st, length, got, eos);
    case RequestTrailers(buffered, got) => OnRequestTrailersServes(e, cfg, st, buffered, got);
    case ResponseHeaders(head) => OnResponseHeadersServes(e, cfg, st, head);
    case ResponseBody(length, got, eos) => OnResponseBodyServes(e, cfg, st, length, got, eos);
    case ResponseTrailers(buffered, got) => OnResponseTrailersServes(e, cfg, st, buffered, got);
    case Log => OnLogServes(e, st);
    case Delete => OnDeleteEnds(e, cfg, st);
  }

  lemma IdleHandleKeeps(e: Engine, cfg: Config, st: Stream, stage: Stage, cb: Callback)
    requires LogsNonDisruptive(e) && StageInv(cfg, stage, st)
    requires Next(stage, cb).Some?
    requires !cfg.engineReady || stage.Created?
    ensures var r := Handle(e, cfg, st, cb).0; StageInv(cfg, Next(stage, cb).value, r) && Onward(st, r)
  {
    if cfg.engineReady && cb.RequestHeaders? {
      OnRequestHeadersServes(e, cfg, st, cb.request);
      assert st.trace == [] && st.messages == [] && st.exports == [];
    } else {
      assert !st.transaction;
    }
  }

  lemma ReactivatedHandleKeeps(e: Engine, cfg: Config, st: Stream, stage: Stage, cb: Callback)
    requires LogsNonDisruptive(e) && cfg.engineReady && Alive(st)
    requires stage.InRequest? || (stage.InResponse? && st.requestProcessed)
    requires Next(stage, cb).Some?
    ensures var r := Handle(e, cfg, st, cb).0; StageInv(cfg, Next(stage, cb).value, r) && Onward(st, r)
  {
    hide Handle, Ordered, ClosedEarly, Select, Times, Records, Disruptive, LastId;
    var live := st.(active := true);
    HandleActivates(e, cfg, st, cb);
    LiveHandleKeeps(e, cfg, live, stage, cb);
    var r := Handle(e, cfg, st, cb).0;
    if r == st {
      StillUntouched(e, cfg, st, stage, cb);
    } else {
      assert Onward(live, r);
    }
  }

  /** Only callbacks that come too late to matter leave a live stream as it was. */
  lemma StillUntouched(e: Engine, cfg: Config, st: Stream, stage: Stage, cb: Callback)
    requires cfg.engineReady && Alive(st) && Next(stage, cb).Some?
    requires stage.InRequest? || (stage.InResponse? && st.requestProcessed)
    requires Handle(e, cfg, st, cb).0 == st
    requires StageInv(cfg, Next(stage, cb).value, Handle(e, cfg, st.(active := true), cb).0)
    ensures StageInv(cfg, Next(stage, cb).value, st)
  {
    hide AppendRequest, CloseRequestBody, ProcessIntervention, RunRequestBodyPhase, OnResponseHeaderList,
      EndResponseChunk, FinalizeResponseBodyPhase, AppendResponse, SanitizeInterruptedResponseBody, FinishPhases,
      Ordered, ClosedEarly, Select, Times, Records, Disruptive, LastId;
    if cb.ResponseHeaders? && stage.InRequest? {
      assert Handle(e, cfg, st, cb) == Handle(e, cfg, st.(active := true), cb);
    }
  }

  lemma HandleKeeps(e: Engine, cfg: Config, st: Stream, stage: Stage, cb: Callback)
    requires LogsNonDisruptive(e) && StageInv(cfg, stage, st)
    requires Next(stage, cb).Some?
    ensures var r := Handle(e, cfg, st, cb).0; StageInv(cfg, Next(stage, cb).value, r) && Onward(st, r)
  {
    if !cfg.engineReady || stage.Created? {
      IdleHandleKeeps(e, cfg, st, stage, cb);
    } else {
      ReactivatedHandleKeeps(e, cfg, st, stage, cb);
    }
  }

  lemma {:induction false} RunKeeps(e: Engine, cfg: Config, st: Stream, stage: Stage, cbs: seq<Callback>)
    requires LogsNonDisruptive(e) && StageInv(cfg, stage, st)
    requires StageAfter(stage, cbs).Some?
    ensures var r := Run(e, cfg, st, cbs); StageInv(cfg, StageAfter(stage, cbs).value, r) && Onward(st, r)
    decreases |cbs|
  {
    if cbs != [] {
      HandleKeeps(e, cfg, st, stage, cbs[0]);
      var next := Handle(e, cfg, st, cbs[0]).0;
      RunKeeps(e, cfg, next, Next(stage, cbs[0]).value, cbs[1..]);
      OnwardIsTransitive(st, next, Run(e, cfg, next, cbs[1..]));
    }
  }

  /** Every legal run from request headers to deletion ends balanced, whatever the engine does. */
  lemma WholeRun(e: Engine, cfg: Config, cbs: seq<Callback>)
    requires LogsNonDisruptive(e) && cfg.engineReady
    requires cbs != [] && cbs[0].RequestHeaders?
    requires StageAfter(Created, cbs) == Some(Deleted)
    ensures Ended(Run(e, cfg, FRESH, cbs))
  {
    HandleKeeps(e, cfg, FRESH, Created, cbs[0]);
    var open := Handle(e, cfg, FRESH, cbs[0]).0;
    assert Times(open.trace, TxTotal) == 1;
    RunKeeps(e, cfg, open, InRequest, cbs[1..]);
  }

  /** In every reachable state: the sanitized flag, the cursor, the order of phases, the export list. */
  lemma EveryMoment(e: Engine, cfg: Config, cbs: seq<Callback>)
    requires LogsNonDisruptive(e) && StageAfter(Created, cbs).Some?
    ensures var st := Run(e, cfg, FRESH, cbs);
      && (st.transaction && st.responseInterrupted ==> st.responseProcessed && st.interrupted)
      && Times(st.trace, SanitizeCounted) <= 1
      && (forall a :: a in st.trace ==> !a.Misdelivered?)
      && Ordered(st.trace)
      && |st.exports| <= 16
      && (st.transaction ==> st.seen <= |st.messages|)
      && (st.transaction ==> Select(st.trace, IsDisruptiveRecord) == Records(Disruptive(st.messages[..st.seen])))
  {
    RunKeeps(e, cfg, FRESH, Created, cbs);
  }

  lemma {:induction false} RunConcat(e: Engine, cfg: Config, st: Stream, s: seq<Callback>, t: seq<Callback>)
    ensures Run(e, cfg, st, s + t) == Run(e, cfg, Run(e, cfg, st, s), t)
    decreases |s|
  {
    if s == [] {
      assert s + t == t;
    } else {
      assert (s + t)[1..] == s[1..] + t;
      RunConcat(e, cfg, Handle(e, cfg, st, s[0]).0, s[1..], t);
    }
  }

  lemma {:induction false} StageConcat(stage: Stage, s: seq<Callback>, t: seq<Callback>)
    ensures StageAfter(stage, s + t) ==
      match StageAfter(stage, s) case None => None case Some(mid) => StageAfter(mid, t)
    decreases |s|
  {
    if s == [] {
      assert s + t == t;
    } else {
      assert (s + t)[1..] == s[1..] + t;
      if Next(stage, s[0]).Some? {
        StageConcat(Next(stage, s[0]).value, s[1..], t);
      }
    }
  }

  /**
   * Between any two moments of a run the message cursor does not go back, no interruption is
   * forgotten, and the first fifteen export entries stay what they were.
   */
  lemma LaterMoments(e: Engine, cfg: Config, s: seq<Callback>, t: seq<Callback>)
    requires LogsNonDisruptive(e) && StageAfter(Created, s + t).Some?
    ensures Onward(Run(e, cfg, FRESH, s), Run(e, cfg, FRESH, s + t))
  {
    RunConcat(e, cfg, FRESH, s, t);
    StageConcat(Created, s, t);
    RunKeeps(e, cfg, FRESH, Created, s);
    RunKeeps(e, cfg, Run(e, cfg, FRESH, s), StageAfter(Created, s).value, t);
  }

  lemma ReplacedWhole(e: Engine, cfg: Config, st: Stream, cb: Callback)
    requires Alive(st) && SanitizeCounted in st.trace && cb.ResponseBody?
    ensures Handle(e, cfg, st, cb) == (st.(active := true, trace := st.trace + Replacement(cb.length)), Continue)
  {
    assert Times(st.trace, SanitizeCounted) > 0;
    assert st.trace + [] == st.trace;
  }

  /** Once sanitized, a response buffer is replaced whole and the engine is not asked again. */
  lemma SanitizedStaysSanitized(e: Engine, cfg: Config, cbs: seq<Callback>, cb: Callback)
    requires LogsNonDisruptive(e) && StageAfter(Created, cbs) == Some(InResponse) && cb.ResponseBody?
    requires SanitizeCounted in Run(e, cfg, FRESH, cbs).trace
    ensures var st := Run(e, cfg, FRESH, cbs);
      Handle(e, cfg, st, cb) == (st.(active := true, trace := st.trace + Replacement(cb.length)), Continue)
  {
    RunKeeps(e, cfg, FRESH, Created, cbs);
    ReplacedWhole(e, cfg, Run(e, cfg, FRESH, cbs), cb);
  }
}
