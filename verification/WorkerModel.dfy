/**
 * One worker thread and all its streams: the single active-context pointer is shared, callbacks of
 * different streams interleave freely, and the worker's metric log is what they all add to it.
 */
module WorkerModel {
  import opened Prelude
  import opened StreamModel
  import opened StreamInvariants
  import opened StreamReplies
  import opened StreamRuns
  import F = StreamFlags

  datatype Entry = Entry(st: Stream, stage: Stage)

  /** `log` is every act of every stream in the order they happened. */
  datatype Worker = Worker(active: Option<nat>, streams: map<nat, Entry>, log: seq<Act>)

  const IDLE := Worker(None, map[], [])

  datatype Event = Create(id: nat) | Host(id: nat, cb: Callback)

  predicate Allowed(w: Worker, ev: Event) {
    match ev
    case Create(id) => id !in w.streams
    case Host(id, cb) => id in w.streams && Next(w.streams[id].stage, cb).Some?
  }

  /** The stream as it sees the shared pointer. */
  function Viewed(w: Worker, id: nat): Stream
    requires id in w.streams
  {
    w.streams[id].st.(active := w.active == Some(id))
  }

  function Step(e: nat -> Engine, cfg: Config, w: Worker, ev: Event): Worker
    requires Allowed(w, ev)
  {
    match ev
    case Create(id) => w.(streams := w.streams[id := Entry(FRESH, Created)])
    case Host(id, cb) =>
      var st := Viewed(w, id);
      var r := Handle(e(id), cfg, st, cb).0;
      Worker(
        if r.active then Some(id) else if st.active || Vacates(st, cb) then None else w.active,
        w.streams[id := Entry(r.(active := false), Next(w.streams[id].stage, cb).value)],
        w.log + (if |st.trace| <= |r.trace| then r.trace[|st.trace|..] else []))
  }

  ghost predicate AllowedAll(e: nat -> Engine, cfg: Config, w: Worker, evs: seq<Event>)
    decreases |evs|
  {
    evs != [] ==> Allowed(w, evs[0]) && AllowedAll(e, cfg, Step(e, cfg, w, evs[0]), evs[1..])
  }

  function RunAll(e: nat -> Engine, cfg: Config, w: Worker, evs: seq<Event>): Worker
    requires AllowedAll(e, cfg, w, evs)
    decreases |evs|
  {
    if evs == [] then w else RunAll(e, cfg, Step(e, cfg, w, evs[0]), evs[1..])
  }

  predicate IsInterruption(a: Act) { a.Interrupted? }

  function Open(w: Worker): set<nat> {
    set id | id in w.streams && w.streams[id].st.transaction
  }

  /** Streams that ended after at least one interruption. */
  function EndedInterrupted(w: Worker): set<nat> {
    set id | id in w.streams && !w.streams[id].st.transaction && w.streams[id].st.interrupted
  }

  function InterruptedStreams(w: Worker): set<nat> {
    set id | id in w.streams && w.streams[id].st.interrupted
  }

  /** Every admitted transaction is allowed, or ended interrupted, or still open. */
  ghost predicate Accounted(w: Worker) {
    && Times(w.log, TxTotal) == Times(w.log, TxAllowed) + |EndedInterrupted(w)| + |Open(w)|
    && |Select(w.log, IsInterruption)| >= |InterruptedStreams(w)|
  }

  /** The shared pointer never names a deleted stream, and no match goes to the wrong stream. */
  ghost predicate Attributed(w: Worker) {
    && (w.active.Some? ==> w.active.value in w.streams && w.streams[w.active.value].st.transaction
                           && !w.streams[w.active.value].stage.Deleted?)
    && (forall id :: id in w.streams ==> forall a :: a in w.streams[id].st.trace ==> !a.Misdelivered?)
  }

  /** While nothing but its answer has followed a verdict, that stream's export list ends in its entry. */
  ghost predicate Noted(w: Worker) {
    forall id :: id in w.streams ==> Marked(w.streams[id].st)
  }

  ghost predicate WorkerInv(cfg: Config, w: Worker) {
    && (forall id :: id in w.streams ==> StageInv(cfg, w.streams[id].stage, w.streams[id].st))
    && Attributed(w)
    && Accounted(w)
    && Noted(w)
  }

  ghost predicate LogOnly(e: nat -> Engine) {
    forall id :: LogsNonDisruptive(e(id))
  }

  // ---------------------------------------------------------------------------

  /**
   * Where the active pointer is after a callback: at its stream if the callback had something to do; nowhere if
   * it deleted an open stream, whichever was active, or the active one; and otherwise where it was.
   */
  lemma PointerMoves(e: nat -> Engine, cfg: Config, w: Worker, id: nat, cb: Callback)
    requires Allowed(w, Host(id, cb))
    ensures var st := w.streams[id].st;
      Step(e, cfg, w, Host(id, cb)).active ==
        if cb.Delete? then if st.transaction || w.active == Some(id) then None else w.active
        else if F.Activates(cfg, st, cb) then Some(id)
        else w.active
  {
    hide Handle;
    F.HandleLeaves(e(id), cfg, Viewed(w, id), cb);
  }

  // ---------------------------------------------------------------------------

  /** The books of one stream at any stage. */
  lemma Balanced(cfg: Config, stage: Stage, st: Stream)
    requires StageInv(cfg, stage, st)
    ensures Times(st.trace, TxTotal) ==
      Times(st.trace, TxAllowed) + Bit(!st.transaction && st.interrupted) + Bit(st.transaction)
    ensures st.interrupted <==> exists a :: a in st.trace && a.Interrupted?
    ensures forall a :: a in st.trace ==> !a.Misdelivered?
    ensures stage.Deleted? ==> !st.transaction
  {
  }

  lemma StageInvIgnoresActive(cfg: Config, stage: Stage, st: Stream, active: bool)
    requires StageInv(cfg, stage, st)
    requires stage.Deleted? ==> !active
    ensures StageInv(cfg, stage, st.(active := active))
  {
  }

  /** How a set of streams changes when one of them does. */
  lemma CardinalityOfChange(before: set<nat>, after: set<nat>, id: nat)
    requires before - {id} == after - {id}
    ensures |after| == |before| - Bit(id in before) + Bit(id in after)
  {
    var rest := before - {id};
    assert before == if id in before then rest + {id} else rest;
    assert after == if id in after then rest + {id} else rest;
  }

  lemma InterruptionsGrow(log: seq<Act>, acts: seq<Act>)
    ensures |Select(log + acts, IsInterruption)| >= |Select(log, IsInterruption)|
    ensures (exists a :: a in acts && a.Interrupted?) ==>
      |Select(log + acts, IsInterruption)| >= |Select(log, IsInterruption)| + 1
  {
    SelectConcat(log, acts, IsInterruption);
    SelectMembers(acts, IsInterruption);
    if a :| a in acts && a.Interrupted? {
      assert a in Select(acts, IsInterruption);
    }
  }

  /** What one callback does to one stream, seen from the worker. */
  lemma HostedHandle(e: nat -> Engine, cfg: Config, w: Worker, id: nat, cb: Callback)
    requires LogOnly(e) && WorkerInv(cfg, w) && Allowed(w, Host(id, cb))
    ensures var r := Handle(e(id), cfg, Viewed(w, id), cb).0;
      var stage := Next(w.streams[id].stage, cb).value;
      && StageInv(cfg, stage, r) && StageInv(cfg, stage, r.(active := false))
      && Onward(Viewed(w, id), r)
      && (r.active ==> r.transaction)
  {
    var entry := w.streams[id];
    StageInvIgnoresActive(cfg, entry.stage, entry.st, w.active == Some(id));
    HandleKeeps(e(id), cfg, Viewed(w, id), entry.stage, cb);
    var r := Handle(e(id), cfg, Viewed(w, id), cb).0;
    StageInvIgnoresActive(cfg, Next(entry.stage, cb).value, r, false);
    ActiveIsOpen(e(id), cfg, Viewed(w, id), entry.stage, cb);
  }

  lemma ActiveIsOpen(e: Engine, cfg: Config, st: Stream, stage: Stage, cb: Callback)
    requires LogsNonDisruptive(e) && StageInv(cfg, stage, st) && Next(stage, cb).Some?
    requires st.active ==> st.transaction
    ensures var r := Handle(e, cfg, st, cb).0; r.active ==> r.transaction
  {
    HandleKeeps(e, cfg, st, stage, cb);
  }

  lemma MarkedWhateverActive(before: Stream, r: Stream, active: bool)
    ensures Marked(before) <==> Marked(before.(active := active))
    ensures Marked(r) <==> Marked(r.(active := false))
  {
    hide LastReal;
  }

  lemma HostKeeps(e: nat -> Engine, cfg: Config, w: Worker, id: nat, cb: Callback)
    requires LogOnly(e) && WorkerInv(cfg, w) && Allowed(w, Host(id, cb))
    ensures WorkerInv(cfg, Step(e, cfg, w, Host(id, cb)))
  {
    hide Handle, StageInv, Attributed, Accounted, Marked;
    HostedHandle(e, cfg, w, id, cb);
    var st := Viewed(w, id);
    var r := Handle(e(id), cfg, st, cb).0;
    var acts := r.trace[|st.trace|..];
    assert r.trace == st.trace + acts;
    var w' := Step(e, cfg, w, Host(id, cb));
    assert w'.log == w.log + acts;
    HandleReplies(e(id), cfg, st, cb);
    MarkedWhateverActive(w.streams[id].st, r, w.active == Some(id));
    HostAttributed(cfg, w, w', id, r);
    HostAccounted(cfg, w, w', id, r, acts);
  }

  lemma HostAttributed(cfg: Config, w: Worker, w': Worker, id: nat, r: Stream)
    requires WorkerInv(cfg, w) && id in w.streams && id in w'.streams
    requires w'.streams == w.streams[id := w'.streams[id]] && w'.streams[id].st == r.(active := false)
    requires StageInv(cfg, w'.streams[id].stage, w'.streams[id].st) && (r.active ==> r.transaction)
    requires if r.active then w'.active == Some(id)
      else w'.active == None || (w'.active == w.active && w.active != Some(id))
    ensures Attributed(w')
    ensures forall i :: i in w'.streams ==> StageInv(cfg, w'.streams[i].stage, w'.streams[i].st)
  {
    Balanced(cfg, w'.streams[id].stage, w'.streams[id].st);
    hide StageInv, Accounted, Noted;
  }

  /** How the three sets of streams change when one stream becomes r. */
  lemma SetsChange(w: Worker, w': Worker, id: nat, r: Stream)
    requires id in w.streams && id in w'.streams
    requires w'.streams == w.streams[id := w'.streams[id]] && w'.streams[id].st == r.(active := false)
    ensures var st := w.streams[id].st;
      && |Open(w')| == |Open(w)| - Bit(st.transaction) + Bit(r.transaction)
      && |EndedInterrupted(w')| == |EndedInterrupted(w)|
           - Bit(!st.transaction && st.interrupted) + Bit(!r.transaction && r.interrupted)
      && |InterruptedStreams(w')| == |InterruptedStreams(w)| - Bit(st.interrupted) + Bit(r.interrupted)
  {
    CardinalityOfChange(Open(w), Open(w'), id);
    CardinalityOfChange(EndedInterrupted(w), EndedInterrupted(w'), id);
    CardinalityOfChange(InterruptedStreams(w), InterruptedStreams(w'), id);
  }

  lemma NewInterruption(st: Stream, r: Stream, log: seq<Act>, acts: seq<Act>)
    requires r.trace == st.trace + acts && (st.interrupted ==> r.interrupted)
    requires st.interrupted <==> exists a :: a in st.trace && a.Interrupted?
    requires r.interrupted <==> exists a :: a in r.trace && a.Interrupted?
    ensures |Select(log + acts, IsInterruption)| >=
      |Select(log, IsInterruption)| + Bit(r.interrupted) - Bit(st.interrupted)
  {
    InterruptionsGrow(log, acts);
    if r.interrupted && !st.interrupted {
      var a :| a in r.trace && a.Interrupted?;
      assert a in acts;
    }
  }

  lemma HostAccounted(cfg: Config, w: Worker, w': Worker, id: nat, r: Stream, acts: seq<Act>)
    requires WorkerInv(cfg, w) && id in w.streams && id in w'.streams
    requires w'.streams == w.streams[id := w'.streams[id]] && w'.streams[id].st == r.(active := false)
    requires StageInv(cfg, w'.streams[id].stage, w'.streams[id].st)
    requires w'.log == w.log + acts && r.trace == w.streams[id].st.trace + acts
    requires w.streams[id].st.interrupted ==> r.interrupted
    ensures Accounted(w')
  {
    var st := w.streams[id].st;
    Balanced(cfg, w.streams[id].stage, st);
    Balanced(cfg, w'.streams[id].stage, w'.streams[id].st);
    NewInterruption(st, r, w.log, acts);
    SetsChange(w, w', id, r);
    BooksAdd(st, r, w.log, acts);
  }

  lemma BooksAdd(st: Stream, r: Stream, log: seq<Act>, acts: seq<Act>)
    requires r.trace == st.trace + acts
    requires Times(st.trace, TxTotal) ==
      Times(st.trace, TxAllowed) + Bit(!st.transaction && st.interrupted) + Bit(st.transaction)
    requires Times(r.trace, TxTotal) ==
      Times(r.trace, TxAllowed) + Bit(!r.transaction && r.interrupted) + Bit(r.transaction)
    ensures Times(log + acts, TxTotal) - Times(log, TxTotal)
         == Times(log + acts, TxAllowed) - Times(log, TxAllowed)
          + Bit(!r.transaction && r.interrupted) + Bit(r.transaction)
          - Bit(!st.transaction && st.interrupted) - Bit(st.transaction)
  {
    TimesConcat(log, acts, TxTotal);
    TimesConcat(log, acts, TxAllowed);
    TimesConcat(st.trace, acts, TxTotal);
    TimesConcat(st.trace, acts, TxAllowed);
  }

  lemma CreateKeeps(e: nat -> Engine, cfg: Config, w: Worker, id: nat)
    requires WorkerInv(cfg, w) && id !in w.streams
    ensures WorkerInv(cfg, Step(e, cfg, w, Create(id)))
  {
    assert StageInv(cfg, Created, FRESH) && Marked(FRESH);
    hide StageInv, Times, Select, Marked;
    var w' := Step(e, cfg, w, Create(id));
    assert Open(w') == Open(w);
    assert EndedInterrupted(w') == EndedInterrupted(w);
    assert InterruptedStreams(w') == InterruptedStreams(w);
  }

  lemma {:induction false} InterleavingKeeps(e: nat -> Engine, cfg: Config, w: Worker, evs: seq<Event>)
    requires LogOnly(e) && WorkerInv(cfg, w) && AllowedAll(e, cfg, w, evs)
    ensures WorkerInv(cfg, RunAll(e, cfg, w, evs))
    decreases |evs|
  {
    if evs != [] {
      match evs[0] {
        case Create(id) => CreateKeeps(e, cfg, w, id);
        case Host(id, cb) => HostKeeps(e, cfg, w, id, cb);
      }
      InterleavingKeeps(e, cfg, Step(e, cfg, w, evs[0]), evs[1..]);
    }
  }

  /** Any interleaving of any number of streams is accounted for, attributed and exported correctly. */
  lemma EveryInterleaving(e: nat -> Engine, cfg: Config, evs: seq<Event>)
    requires LogOnly(e) && AllowedAll(e, cfg, IDLE, evs)
    ensures var w := RunAll(e, cfg, IDLE, evs); Accounted(w) && Attributed(w) && Noted(w)
  {
    assert Open(IDLE) == {} && EndedInterrupted(IDLE) == {} && InterruptedStreams(IDLE) == {};
    InterleavingKeeps(e, cfg, IDLE, evs);
  }
}
