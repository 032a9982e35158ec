/** What every callback keeps, whatever the engine does, and what holds of every whole run. */
module StreamInvariants {
  import opened Prelude
  import opened StreamModel

  // ---------------------------------------------------------------------------
  // Reading a trace
  // ---------------------------------------------------------------------------

  function Times(trace: seq<Act>, a: Act): nat {
    multiset(trace)[a]
  }

  const PHASE2 := Engine(ProcessRequestBody)
  const PHASE4 := Engine(ProcessResponseBody)
  const PHASE5 := Engine(ProcessLogging)

  predicate IsResponsePhase(a: Act) {
    a.Engine? && (a.call.ProcessResponseHeaders? || a.call.ProcessResponseBody?)
  }

  predicate IsDisruptiveRecord(a: Act) { a.Recorded? && a.m.disruptive }

  function Records(ms: seq<RuleMessage>): seq<Act> {
    seq(|ms|, i requires 0 <= i < |ms| => Recorded(ms[i]))
  }

  predicate IsRequestFeed(a: Act) { a.Engine? && a.call.AppendRequestBody? }

  /** No response phase before the request-body phase, and no byte of the request body after it. */
  ghost predicate Ordered(trace: seq<Act>) {
    trace == [] ||
    (var last, before := trace[|trace| - 1], trace[..|trace| - 1];
     && Ordered(before)
     && (IsResponsePhase(last) ==> PHASE2 in before)
     && (IsRequestFeed(last) ==> PHASE2 !in before))
  }

  /** A verdict that must be answered: one with a status. */
  predicate NeedsReply(a: Act) { a.Interrupted? && a.status != 0 }

  /** A verdict on the response body before its phase ran, which sanitized the response and closed the phase. */
  ghost predicate ClosedAt(trace: seq<Act>, i: nat) {
    && i + 1 < |trace| && NeedsReply(trace[i]) && trace[i].phase == AtResponseBody
    && trace[i + 1] == SanitizeCounted && PHASE4 !in trace[..i]
  }

  ghost predicate ClosedEarly(trace: seq<Act>) {
    exists i: nat :: ClosedAt(trace, i)
  }

  function LastId(before: int, ms: seq<RuleMessage>): int {
    if ms == [] then before
    else if ms[|ms| - 1].disruptive then ms[|ms| - 1].ruleId
    else LastId(before, ms[..|ms| - 1])
  }

  // ---------------------------------------------------------------------------
  // Invariants
  // ---------------------------------------------------------------------------

  /** Flags agree with the trace. */
  ghost predicate Books(st: Stream) {
    && Times(st.trace, PHASE2) == Bit(st.requestProcessed)
    && Times(st.trace, PHASE5) == Bit(st.loggingDone)
    && Times(st.trace, PHASE4) <= Bit(st.responseProcessed)
    && (ClosedEarly(st.trace) <==> st.responseProcessed && Times(st.trace, PHASE4) == 0)
    && Times(st.trace, SanitizeCounted) == Bit(st.responseInterrupted)
    && (st.responseInterrupted ==> st.responseProcessed && st.interrupted)
    && (st.interrupted <==> exists a :: a in st.trace && a.Interrupted?)
    && (forall a :: a in st.trace ==> !a.Misdelivered?)
    && Ordered(st.trace)
    && Times(st.trace, TxTotal) == 1
    && Times(st.trace, TxAllowed) == 0
  }

  /** The disruptive messages up to the cursor, and only they, have been recorded, once and in order. */
  ghost predicate Caught(st: Stream) {
    && st.seen <= |st.messages|
    && Select(st.trace, IsDisruptiveRecord) == Records(Disruptive(st.messages[..st.seen]))
    && st.lastDisruptive == LastId(0, st.messages[..st.seen])
    && |st.exports| <= 16
  }

  ghost predicate Drained(st: Stream) { st.seen == |st.messages| }

  ghost predicate Good(st: Stream) {
    st.transaction && st.active && Books(st) && Caught(st)
  }

  ghost predicate SameFlags(a: Stream, b: Stream) {
    && a.requestProcessed == b.requestProcessed && a.responseProcessed == b.responseProcessed
    && a.responseInterrupted == b.responseInterrupted && a.loggingDone == b.loggingDone
    && a.requestReceived == b.requestReceived && a.responseReceived == b.responseReceived
  }

  /** The first fifteen export entries are never displaced. */
  ghost predicate KeepsFirst(a: seq<ExportMatch>, b: seq<ExportMatch>) {
    && |a| <= |b| <= 16
    && forall i :: 0 <= i < |a| && i < 15 ==> b[i] == a[i]
  }

  /** Nothing that was observed or counted is taken back. */
  ghost predicate Onward(a: Stream, b: Stream) {
    && a.trace <= b.trace && a.messages <= b.messages && a.seen <= b.seen
    && (a.interrupted ==> b.interrupted)
    && KeepsFirst(a.exports, b.exports)
  }

  lemma OnwardIsTransitive(a: Stream, b: Stream, c: Stream)
    requires Onward(a, b) && Onward(b, c)
    ensures Onward(a, c)
  {
  }

  // ---------------------------------------------------------------------------
  // Lists
  // ---------------------------------------------------------------------------

  lemma {:induction false} SelectConcat<T>(s: seq<T>, t: seq<T>, keep: T -> bool)
    ensures Select(s + t, keep) == Select(s, keep) + Select(t, keep)
  {
    if s == [] {
      assert s + t == t;
    } else {
      assert (s + t)[1..] == s[1..] + t;
      SelectConcat(s[1..], t, keep);
      Associate(if keep(s[0]) then [s[0]] else [], Select(s[1..], keep), Select(t, keep));
    }
  }

  lemma {:induction false} SelectNone<T>(s: seq<T>, keep: T -> bool)
    requires forall x :: x in s ==> !keep(x)
    ensures Select(s, keep) == []
  {
    if s != [] {
      assert s[0] in s;
      SelectNone(s[1..], keep);
    }
  }

  lemma {:induction false} SelectAll<T>(s: seq<T>, keep: T -> bool)
    requires forall x :: x in s ==> keep(x)
    ensures Select(s, keep) == s
  {
    if s != [] {
      assert s[0] in s;
      SelectAll(s[1..], keep);
    }
  }

  lemma {:induction false} SelectMembers<T>(s: seq<T>, keep: T -> bool)
    ensures forall x :: x in Select(s, keep) <==> x in s && keep(x)
  {
    if s != [] {
      SelectMembers(s[1..], keep);
    }
  }

  lemma {:induction false} SelectRecords(ms: seq<RuleMessage>)
    ensures Select(Records(ms), IsDisruptiveRecord) == Records(Disruptive(ms))
  {
    if ms != [] {
      SelectRecords(ms[1..]);
      assert Records(ms)[1..] == Records(ms[1..]);
    }
  }

  lemma {:induction false} LastIdConcat(before: int, s: seq<RuleMessage>, t: seq<RuleMessage>)
    ensures LastId(before, s + t) == LastId(LastId(before, s), t)
  {
    if t == [] {
      assert s + t == s;
    } else {
      assert (s + t)[..|s + t| - 1] == s + t[..|t| - 1];
      LastIdConcat(before, s, t[..|t| - 1]);
    }
  }

  lemma {:induction false} LastIdOfDisruptive(before: int, ms: seq<RuleMessage>)
    ensures LastId(before, Disruptive(ms)) == LastId(before, ms)
  {
    if ms != [] {
      var init, last := ms[..|ms| - 1], ms[|ms| - 1..];
      assert ms == init + last;
      SelectConcat(init, last, IsDisruptive);
      LastIdOfDisruptive(before, init);
      LastIdConcat(before, Disruptive(init), Disruptive(last));
      LastIdConcat(before, init, last);
      assert Disruptive(last) == if last[0].disruptive then last else [];
    }
  }

  lemma {:induction false} LastIdOfQuiet(before: int, ms: seq<RuleMessage>)
    requires forall m :: m in ms ==> !m.disruptive
    ensures LastId(before, ms) == before
  {
    if ms != [] {
      LastIdOfQuiet(before, ms[..|ms| - 1]);
    }
  }

  // ---------------------------------------------------------------------------
  // Extending a trace
  // ---------------------------------------------------------------------------

  predicate IsQuiet(a: Act) {
    || a.Recorded? || a.BlockReply? || a.BodyReplaced?
    || (a.Engine? && !a.call.ProcessRequestBody? && !a.call.ProcessResponseBody? && !a.call.ProcessLogging?)
  }

  lemma TimesConcat(s: seq<Act>, t: seq<Act>, a: Act)
    ensures Times(s + t, a) == Times(s, a) + Times(t, a)
  {
  }

  lemma TimesZero(s: seq<Act>, a: Act)
    requires a !in s
    ensures Times(s, a) == 0
  {
  }

  lemma {:induction false} OrderedConcat(trace: seq<Act>, acts: seq<Act>)
    requires Ordered(trace)
    requires PHASE2 in trace || forall a :: a in acts ==> !IsResponsePhase(a)
    requires (PHASE2 !in trace && PHASE2 !in acts) || forall a :: a in acts ==> !IsRequestFeed(a)
    ensures Ordered(trace + acts)
  {
    if acts == [] {
      assert trace + acts == trace;
    } else {
      var init := acts[..|acts| - 1];
      OrderedConcat(trace, init);
      assert (trace + acts)[..|trace + acts| - 1] == trace + init;
    }
  }

  /** Read position by position. */
  lemma {:induction false} OrderedMeans(trace: seq<Act>, i: nat)
    requires Ordered(trace) && i < |trace|
    ensures IsResponsePhase(trace[i]) ==> PHASE2 in trace[..i]
    ensures IsRequestFeed(trace[i]) ==> PHASE2 !in trace[..i]
  {
    if i < |trace| - 1 {
      var before := trace[..|trace| - 1];
      OrderedMeans(before, i);
      assert before[..i] == trace[..i];
    }
  }

  lemma ClosedEarlyConcat(trace: seq<Act>, acts: seq<Act>)
    requires SanitizeCounted !in acts
    ensures ClosedEarly(trace + acts) <==> ClosedEarly(trace)
  {
    var all := trace + acts;
    if i: nat :| ClosedAt(trace, i) {
      assert all[..i] == trace[..i] && all[i] == trace[i] && all[i + 1] == trace[i + 1];
      assert ClosedAt(all, i);
    }
    assert forall k :: |trace| <= k < |all| ==> all[k] == acts[k - |trace|];
    if i: nat :| ClosedAt(all, i) {
      assert i + 1 < |trace|;
      assert all[..i] == trace[..i];
      assert ClosedAt(trace, i);
    }
  }

  lemma BooksQuiet(st: Stream, acts: seq<Act>)
    requires Books(st)
    requires forall a :: a in acts ==> IsQuiet(a)
    requires st.requestProcessed || forall a :: a in acts ==> !IsResponsePhase(a)
    requires st.requestProcessed ==> forall a :: a in acts ==> !IsRequestFeed(a)
    ensures Books(st.(trace := st.trace + acts))
  {
    hide Ordered, ClosedEarly;
    forall a | a in {PHASE2, PHASE4, PHASE5, SanitizeCounted, TxTotal, TxAllowed}
      ensures Times(st.trace + acts, a) == Times(st.trace, a)
    {
      assert a !in acts;
      TimesConcat(st.trace, acts, a);
      TimesZero(acts, a);
    }
    ClosedEarlyConcat(st.trace, acts);
    OrderedConcat(st.trace, acts);
  }

  // ---------------------------------------------------------------------------
  // Each shared step
  // ---------------------------------------------------------------------------

  lemma StashKeepsFirst(exports: seq<ExportMatch>, m: ExportMatch, last: int)
    requires |exports| <= 16
    ensures KeepsFirst(exports, Stash(exports, m, last))
    ensures m.disruptive && m.ruleId == last ==>
      var after := Stash(exports, m, last); after[|after| - 1] == m
  {
  }

  lemma {:induction false} RecordAllShape(st: Stream, ms: seq<RuleMessage>)
    requires |st.exports| <= 16
    ensures var r := RecordAll(st, ms);
      && r == st.(
           trace := st.trace + Records(ms), lastDisruptive := LastId(st.lastDisruptive, ms), exports := r.exports)
      && KeepsFirst(st.exports, r.exports)
    decreases |ms|
  {
    if ms == [] {
      assert st.trace + Records(ms) == st.trace;
    } else {
      var m := ms[0];
      var one := Record(st, m);
      StashKeepsFirst(st.exports, RuleMatchEntry(m), one.lastDisruptive);
      RecordAllShape(one, ms[1..]);
      assert ms == [m] + ms[1..];
      LastIdConcat(st.lastDisruptive, [m], ms[1..]);
      assert [m][..0] == [];
      assert Records(ms) == [Recorded(m)] + Records(ms[1..]);
      assert st.trace + Records(ms) == one.trace + Records(ms[1..]);
    }
  }

  /** What a call adds to the trace. */
  function CallActs(call: EngineCall, logged: seq<RuleMessage>): seq<Act> {
    [Engine(call)] + Records(logged)
  }

  /** r is st after one call into the engine that added these acts. */
  ghost predicate Called(st: Stream, r: Stream, call: EngineCall, acts: seq<Act>) {
    && st.messages <= r.messages
    && KeepsFirst(st.exports, r.exports)
    && r == st.(trace := st.trace + acts, messages := r.messages, exports := r.exports)
    && |acts| > 0 && acts[0] == Engine(call)
    && (forall a :: a in acts[1..] ==> a.Recorded? && !a.m.disruptive)
    && (forall a :: a in acts ==> a == Engine(call) || (a.Recorded? && !a.m.disruptive))
  }

  lemma CallShape(e: Engine, st: Stream, call: EngineCall) returns (acts: seq<Act>)
    requires LogsNonDisruptive(e) && st.active && |st.exports| <= 16
    ensures Called(st, Call(e, st, call), call, acts)
  {
    var called := Emit(st, Engine(call));
    var reaction := e(called.trace);
    var grown := called.(messages := called.messages + reaction.appended);
    RecordAllShape(grown, reaction.logged);
    LastIdOfQuiet(st.lastDisruptive, reaction.logged);
    acts := CallActs(call, reaction.logged);
    assert acts[1..] == Records(reaction.logged);
    assert grown.trace + Records(reaction.logged) == st.trace + acts;
  }

  lemma CaughtUnderQuiet(st: Stream, st': Stream, acts: seq<Act>)
    requires Caught(st)
    requires st'.trace == st.trace + acts && forall a :: a in acts ==> !IsDisruptiveRecord(a)
    requires st.messages <= st'.messages && st'.seen == st.seen && st'.lastDisruptive == st.lastDisruptive
    requires |st'.exports| <= 16
    ensures Caught(st')
  {
    SelectConcat(st.trace, acts, IsDisruptiveRecord);
    SelectNone(acts, IsDisruptiveRecord);
    assert st'.messages[..st'.seen] == st.messages[..st.seen];
  }

  lemma CallKeeps(e: Engine, st: Stream, call: EngineCall)
    requires LogsNonDisruptive(e) && Good(st)
    requires IsQuiet(Engine(call))
    requires IsResponsePhase(Engine(call)) ==> st.requestProcessed
    requires IsRequestFeed(Engine(call)) ==> !st.requestProcessed
    ensures var r := Call(e, st, call);
      && Good(r) && SameFlags(st, r) && Onward(st, r) && r.interrupted == st.interrupted
  {
    hide Call, Ordered, ClosedEarly, Select, Disruptive, Records, LastId, Times;
    var acts := CallShape(e, st, call);
    BooksQuiet(st, acts);
    CaughtUnderQuiet(st, Call(e, st, call), acts);
  }

  /** A call that runs a phase: everything but its own count is kept. */
  ghost predicate PhaseRan(st: Stream, r: Stream, phase: Act) {
    && (forall a :: a in {PHASE2, PHASE4, PHASE5, SanitizeCounted, TxTotal, TxAllowed} ==>
         Times(r.trace, a) == Times(st.trace, a) + Bit(a == phase))
    && (ClosedEarly(r.trace) <==> ClosedEarly(st.trace))
    && (r.interrupted <==> exists a :: a in r.trace && a.Interrupted?)
    && (forall a :: a in r.trace ==> !a.Misdelivered?)
    && Ordered(r.trace)
  }

  lemma PhaseTrace(st: Stream, r: Stream, acts: seq<Act>)
    requires Books(st)
    requires r.trace == st.trace + acts && r.interrupted == st.interrupted
    requires |acts| > 0 && acts[0] in {PHASE2, PHASE4, PHASE5}
    requires acts[0] == PHASE4 ==> st.requestProcessed
    requires forall a :: a in acts[1..] ==> a.Recorded?
    ensures PhaseRan(st, r, acts[0])
  {
    hide Ordered, ClosedEarly, Times;
    assert acts == [acts[0]] + acts[1..];
    ClosedEarlyConcat(st.trace, acts);
    PhaseInOrder(st, acts);
    forall a | a in {PHASE2, PHASE4, PHASE5, SanitizeCounted, TxTotal, TxAllowed}
      ensures Times(r.trace, a) == Times(st.trace, a) + Bit(a == acts[0])
    {
      TimesConcat(st.trace, acts, a);
      TimesConcat([acts[0]], acts[1..], a);
      TimesZero(acts[1..], a);
      TimesOne(acts[0], a);
    }
  }

  lemma PhaseInOrder(st: Stream, acts: seq<Act>)
    requires Books(st) && acts != [] && acts[0] in {PHASE2, PHASE4, PHASE5}
    requires acts[0] == PHASE4 ==> st.requestProcessed
    requires forall a :: a in acts[1..] ==> a.Recorded?
    ensures Ordered(st.trace + acts)
  {
    hide Ordered, ClosedEarly;
    forall a | a in acts ensures a == acts[0] || a.Recorded? {}
    OrderedConcat(st.trace, acts);
  }

  lemma TimesOne(b: Act, a: Act)
    ensures Times([b], a) == Bit(a == b)
  {
  }

  /** Everything but the count of its own phase is kept. */
  ghost predicate PhaseEffect(st: Stream, r: Stream, call: EngineCall) {
    && r.transaction && r.active && Caught(r) && SameFlags(st, r) && Onward(st, r)
    && r.interrupted == st.interrupted && r.seen == st.seen
    && PhaseRan(st, r, Engine(call))
  }

  lemma CalledPhase(st: Stream, r: Stream, call: EngineCall, acts: seq<Act>)
    requires Good(st) && Called(st, r, call, acts)
    requires call in {ProcessRequestBody, ProcessResponseBody, ProcessLogging}
    requires call == ProcessResponseBody ==> st.requestProcessed
    ensures PhaseEffect(st, r, call)
  {
    hide Ordered, ClosedEarly, Select, Disruptive, Records, LastId, Times;
    assert Caught(r) by {
      CaughtUnderQuiet(st, r, acts);
    }
    assert PhaseRan(st, r, Engine(call)) by {
      PhaseTrace(st, r, acts);
    }
  }

  lemma PhaseCall(e: Engine, st: Stream, call: EngineCall)
    requires LogsNonDisruptive(e) && Good(st)
    requires call in {ProcessRequestBody, ProcessResponseBody, ProcessLogging}
    requires call == ProcessResponseBody ==> st.requestProcessed
    ensures PhaseEffect(st, Call(e, st, call), call)
  {
    var acts := CallShape(e, st, call);
    CalledPhase(st, Call(e, st, call), call, acts);
  }

  lemma RequestBodyPhaseKeeps(e: Engine, st: Stream)
    requires LogsNonDisruptive(e) && Good(st) && !st.requestProcessed
    ensures var r := RunRequestBodyPhase(e, st);
      && Good(r) && r.requestProcessed && Onward(st, r) && r.interrupted == st.interrupted
      && SameFlags(st.(requestProcessed := true), r)
  {
    PhaseCall(e, st, ProcessRequestBody);
  }

  lemma FinalizeKeeps(e: Engine, st: Stream)
    requires LogsNonDisruptive(e) && Good(st) && st.requestProcessed
    ensures var r := FinalizeResponseBodyPhase(e, st);
      && Good(r) && r.responseProcessed && r.requestProcessed && Onward(st, r) && r.interrupted == st.interrupted
      && r.loggingDone == st.loggingDone && r.responseInterrupted == st.responseInterrupted
  {
    hide Call, Ordered, ClosedEarly, Select, LastId;
    if !st.responseProcessed {
      PhaseCall(e, st, ProcessResponseBody);
    }
  }

  lemma DisruptiveTwice(ms: seq<RuleMessage>)
    ensures Disruptive(Disruptive(ms)) == Disruptive(ms)
  {
    SelectMembers(ms, IsDisruptive);
    SelectAll(Disruptive(ms), IsDisruptive);
  }

  lemma RecordsConcat(s: seq<RuleMessage>, t: seq<RuleMessage>)
    ensures Records(s + t) == Records(s) + Records(t)
  {
  }

  lemma RecordedSelects(trace: seq<Act>, recorded: seq<RuleMessage>, before: seq<RuleMessage>, after: seq<RuleMessage>)
    requires recorded == after || recorded == Disruptive(after)
    requires Select(trace, IsDisruptiveRecord) == Records(Disruptive(before))
    ensures Select(trace + Records(recorded), IsDisruptiveRecord) == Records(Disruptive(before + after))
  {
    calc {
      Select(trace + Records(recorded), IsDisruptiveRecord);
      { SelectConcat(trace, Records(recorded), IsDisruptiveRecord); }
      Records(Disruptive(before)) + Select(Records(recorded), IsDisruptiveRecord);
      { SelectRecords(recorded); }
      Records(Disruptive(before)) + Records(Disruptive(recorded));
      { DisruptiveTwice(after); }
      Records(Disruptive(before)) + Records(Disruptive(after));
      { RecordsConcat(Disruptive(before), Disruptive(after)); }
      Records(Disruptive(before) + Disruptive(after));
      { SelectConcat(before, after, IsDisruptive); }
      Records(Disruptive(before + after));
    }
  }

  /** Recording the disruptive, or all, messages beyond the cursor catches the books up. */
  lemma CaughtUp(st: Stream, r: Stream, recorded: seq<RuleMessage>)
    requires Caught(st)
    requires recorded == st.messages[st.seen..] || recorded == Disruptive(st.messages[st.seen..])
    requires r.trace == st.trace + Records(recorded) && r.messages == st.messages && r.seen == |r.messages|
    requires r.lastDisruptive == LastId(st.lastDisruptive, recorded) && |r.exports| <= 16
    ensures Caught(r)
  {
    var before, after := st.messages[..st.seen], st.messages[st.seen..];
    assert before + after == r.messages[..r.seen];
    RecordedSelects(st.trace, recorded, before, after);
    assert r.lastDisruptive == LastId(0, before + after) by {
      LastIdConcat(0, before, after);
      LastIdOfDisruptive(st.lastDisruptive, after);
    }
  }

  ghost predicate CatchUpEffect(st: Stream, r: Stream) {
    && Good(r) && Drained(r) && SameFlags(st, r) && Onward(st, r) && r.interrupted == st.interrupted
    && r.messages == st.messages
  }

  lemma CatchUp(st: Stream, recorded: seq<RuleMessage>)
    requires Good(st)
    requires recorded == st.messages[st.seen..] || recorded == Disruptive(st.messages[st.seen..])
    ensures CatchUpEffect(st, RecordAll(st, recorded).(seen := |st.messages|))
  {
    hide RecordAll, Ordered, ClosedEarly, Select, Disruptive, LastId, Times;
    var r := RecordAll(st, recorded).(seen := |st.messages|);
    RecordAllShape(st, recorded);
    BooksQuiet(st, Records(recorded));
    CaughtUp(st, r, recorded);
  }

  lemma FlushKeeps(st: Stream)
    requires Good(st)
    ensures CatchUpEffect(st, FlushNewRuleMessages(st))
  {
    CatchUp(st, Disruptive(st.messages[st.seen..]));
  }

  lemma LoggingRan(st: Stream, ran: Stream, recorded: seq<RuleMessage>)
    requires Good(st) && !st.loggingDone && PhaseEffect(st, ran, ProcessLogging)
    requires recorded == ran.messages[st.seen..]
    ensures CatchUpEffect(
      ran.(loggingDone := true), RecordAll(ran, recorded).(seen := |ran.messages|, loggingDone := true))
  {
    var marked := ran.(loggingDone := true);
    assert Good(marked);
    CatchUp(marked, recorded);
    RecordAllFlag(ran, recorded);
  }

  lemma LoggingKeeps(e: Engine, st: Stream)
    requires LogsNonDisruptive(e) && Good(st)
    ensures var r := RunLoggingPhaseIfNeeded(e, st);
      && Good(r) && r.loggingDone && Onward(st, r) && r.interrupted == st.interrupted
      && r.requestProcessed == st.requestProcessed && r.responseProcessed == st.responseProcessed
      && r.responseInterrupted == st.responseInterrupted
      && (Drained(r) || (st.loggingDone && r == st))
  {
    if !st.loggingDone {
      assert st.(active := true) == st;
      PhaseCall(e, st, ProcessLogging);
      var ran := Call(e, st, ProcessLogging);
      LoggingRan(st, ran, ran.messages[st.seen..]);
      OnwardIsTransitive(st, ran.(loggingDone := true), RunLoggingPhaseIfNeeded(e, st));
    }
  }

  lemma {:induction false} RecordAllFlag(st: Stream, ms: seq<RuleMessage>)
    ensures RecordAll(st.(loggingDone := true), ms) == RecordAll(st, ms).(loggingDone := true)
    decreases |ms|
  {
    if ms != [] {
      RecordAllFlag(Record(st, ms[0]), ms[1..]);
      assert Record(st.(loggingDone := true), ms[0]) == Record(st, ms[0]).(loggingDone := true);
    }
  }

  /** The last export entry is the interruption itself. */
  ghost predicate EndsInInterrupt(exports: seq<ExportMatch>, phase: Phase, ruleId: int) {
    && |exports| > 0
    && exports[|exports| - 1].event == TxInterruptEvent
    && exports[|exports| - 1].phase == phase
    && exports[|exports| - 1].ruleId == ruleId
  }

  lemma BooksInterrupted(st: Stream, a: Act)
    requires Books(st) && a.Interrupted?
    ensures Books(st.(trace := st.trace + [a], interrupted := true))
  {
    hide Ordered, ClosedEarly;
    forall b | b in {PHASE2, PHASE4, PHASE5, SanitizeCounted, TxTotal, TxAllowed}
      ensures Times(st.trace + [a], b) == Times(st.trace, b)
    {
      TimesConcat(st.trace, [a], b);
    }
    ClosedEarlyConcat(st.trace, [a]);
    OrderedConcat(st.trace, [a]);
    assert a in st.trace + [a];
  }

  /** The last act is a verdict with this status at this phase. */
  predicate StruckLast(trace: seq<Act>, phase: Phase, status: int) {
    |trace| > 0 && trace[|trace| - 1].Interrupted? && trace[|trace| - 1].phase == phase
    && trace[|trace| - 1].status == status
  }

  ghost predicate InterventionEffect(st: Stream, r: Stream, status: int, phase: Phase) {
    && Good(r) && Drained(r) && SameFlags(st, r) && Onward(st, r)
    && (status != 0 ==> r.interrupted && StruckLast(r.trace, phase, status))
  }

  lemma AskKeeps(st: Stream)
    requires Good(st) && Drained(st)
    ensures CatchUpEffect(st, Emit(st, Engine(AskIntervention)))
  {
    hide Ordered, ClosedEarly, Select, Disruptive, Records, LastId, Times;
    var acts := [Engine(AskIntervention)];
    BooksQuiet(st, acts);
    CaughtUnderQuiet(st, Emit(st, acts[0]), acts);
  }

  lemma InterruptKeeps(asked: Stream, r: Stream, status: int, phase: Phase, entry: ExportMatch)
    requires Good(asked) && Drained(asked)
    requires entry.event == TxInterruptEvent && entry.disruptive && entry.phase == phase
    requires entry.ruleId == asked.lastDisruptive
    requires r == Emit(asked, Interrupted(phase, asked.lastDisruptive, status)).(
      interrupted := true, exports := Stash(asked.exports, entry, asked.lastDisruptive))
    ensures InterventionEffect(asked, r, status, phase)
    ensures EndsInInterrupt(r.exports, phase, r.lastDisruptive)
  {
    hide Ordered, ClosedEarly, Select, Disruptive, Records, LastId, Times;
    var a := Interrupted(phase, asked.lastDisruptive, status);
    BooksInterrupted(asked, a);
    StashKeepsFirst(asked.exports, entry, asked.lastDisruptive);
    CaughtUnderQuiet(asked, r, [a]);
  }

  lemma InterventionComposes(st: Stream, asked: Stream, r: Stream, status: int, phase: Phase)
    requires CatchUpEffect(st, asked) && InterventionEffect(asked, r, status, phase)
    ensures InterventionEffect(st, r, status, phase)
  {
    OnwardIsTransitive(st, asked, r);
  }

  lemma CatchUpComposes(a: Stream, b: Stream, c: Stream)
    requires CatchUpEffect(a, b) && CatchUpEffect(b, c)
    ensures CatchUpEffect(a, c)
  {
    OnwardIsTransitive(a, b, c);
  }

  lemma InterventionKeeps(e: Engine, cfg: Config, st: Stream, phase: Phase)
    requires Good(st)
    ensures var (r, status) := ProcessIntervention(e, cfg, st, phase);
      && InterventionEffect(st, r, status, phase)
      && (e(Emit(FlushNewRuleMessages(st), Engine(AskIntervention)).trace).verdict.Some? ==>
            EndsInInterrupt(r.exports, phase, r.lastDisruptive))
  {
    hide Books, Caught, Onward, KeepsFirst, SameFlags, FlushNewRuleMessages, Stash, Prefix;
    var flushed := FlushNewRuleMessages(st);
    FlushKeeps(st);
    AskKeeps(flushed);
    var asked := Emit(flushed, Engine(AskIntervention));
    CatchUpComposes(st, flushed, asked);
    var verdict := e(asked.trace).verdict;
    if verdict.Some? {
      var (r, status) := ProcessIntervention(e, cfg, st, phase);
      var entry := ExportMatch(
        TxInterruptEvent, asked.lastDisruptive, phase, -1, true, Prefix(verdict.value.log, 256), "");
      InterruptKeeps(asked, r, status, phase, entry);
      InterventionComposes(st, asked, r, status, phase);
    } else {
      QuietVerdict(st, asked, phase);
    }
  }

  lemma QuietVerdict(st: Stream, asked: Stream, phase: Phase)
    requires CatchUpEffect(st, asked)
    ensures InterventionEffect(st, asked, 0, phase)
  {
  }
}
