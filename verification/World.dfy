/** The running sidecar as a step system: two informer controllers and two reconcilers that share
    one Manager, the Run of each controller, the single steps of a write, and crashes.

    A Manager call is atomic up to its write (the mutex), and the steps of the write are separate;
    one event is many calls, between which the other writers run. */
module World {
  import opened Collections
  import opened Store
  import opened Events

  /** An event being processed: its number in the log and the Manager calls still to be made. */
  datatype Task = Task(id: nat, calls: seq<Call>)

  datatype World = World(
    kinds: set<Kind>,                 // the controllers that were started
    store: Store,
    index: map<Owner, seq<string>>,   // resourceKeys of all controllers
    tasks: map<Writer, Task>,
    holder: Option<Writer>,           // who holds the mutex while a write is in progress
    forced: set<Kind>,                // Run has called ForceWrite
    synced: set<Kind>,                // Run has stored true in synced
    // history: nothing the program does depends on what follows
    live: Live,                       // the specification, updated when an event begins
    log: seq<Event>,                  // events of this lifetime, in the order in which they began
    flags: seq<bool>,                 // the write flag each of them loaded
    dirty: set<nat>)                  // events that changed a map without a write since the last successful write

  datatype Step =
    | Begin(e: Event, keys: seq<string>, order: seq<string>)  // two ranges over the entries
    | DoCall(writer: Writer)
    | DoWrite(m: WriteStep)
    | Force(kind: Kind)
    | Sync(kind: Kind)
    | Die

  function OldKeys(w: World, o: Owner): seq<string> {
    if o in w.index then w.index[o] else []
  }

  /** A delivered object is processed with the value of `synced` at that moment; reconcilers always
      write, and a deletion makes no call that could take the flag. */
  function WriteFlag(w: World, e: Event): bool {
    e.Deliver? ==> e.kind in w.synced
  }

  predicate Free(w: World, writer: Writer) {
    && (writer in w.tasks ==> w.tasks[writer].calls == [])
    && w.holder != Some(writer)
  }

  ghost predicate Enabled(s: Step, w: World) {
    match s
    case Begin(e, keys, order) =>
      && Free(w, WriterOf(e))
      && ((e.Deliver? || e.Deleted?) ==> e.kind in w.kinds)
      && (e.Deliver? ==> Enumerates(keys, e.entries.Keys) && Enumerates(order, e.entries.Keys))
    case DoCall(writer) => w.holder.None? && writer in w.tasks && w.tasks[writer].calls != []
    case DoWrite(m) => w.holder.Some? && CanWrite(m, w.store)
    case Force(kind) => w.holder.None? && kind in w.kinds && kind !in w.forced
    case Sync(kind) => kind in w.forced && kind !in w.synced && w.holder != Some(Runner(kind))
    case Die => true
  }

  function AfterCall(w: World, writer: Writer): World
    requires writer in w.tasks && w.tasks[writer].calls != []
  {
    var t := w.tasks[writer];
    var c := t.calls[0];
    var store := BeginCall(c, w.store);
    w.(store := store,
       tasks := w.tasks[writer := Task(t.id, t.calls[1..])],
       holder := if store.phase.Idle? then None else Some(writer),
       dirty := if Effective(c, w.store) && !Writes(c, w.store) then w.dirty + {t.id} else w.dirty)
  }

  function AfterBegin(w: World, e: Event, keys: seq<string>, order: seq<string>): World
    requires e.Deliver? ==> forall k :: k in order ==> k in e.entries
  {
    var write := WriteFlag(w, e);
    w.(index := UpdateIndex(w.index, e, keys),
       tasks := w.tasks[WriterOf(e) := Task(|w.log|, Plan(e, OldKeys(w, OwnerOf(e)), order, write))],
       live := UpdateLive(w.live, e),
       log := w.log + [e],
       flags := w.flags + [write])
  }

  function AfterWrite(w: World, m: WriteStep): World
    requires CanWrite(m, w.store)
  {
    var store := Write(m, w.store);
    w.(store := store,
       holder := if store.phase.Idle? then None else w.holder,
       dirty := if m.RenameOk? then {} else w.dirty)
  }

  ghost function Do(s: Step, w: World): World
    requires Enabled(s, w)
  {
    match s
    case Begin(e, keys, order) => AfterBegin(w, e, keys, order)
    case DoCall(writer) => AfterCall(w, writer)
    case DoWrite(m) => AfterWrite(w, m)
    case Force(kind) =>
      w.(store := BeginCall(ForceWrite, w.store), holder := Some(Runner(kind)), forced := w.forced + {kind})
    case Sync(kind) => w.(synced := w.synced + {kind})
    case Die => Fresh(w.kinds, Crash(w.store))
  }

  function Fresh(kinds: set<Kind>, store: Store): World {
    World(kinds, store, map[], map[], None, {}, {}, map[], [], [], {})
  }

  ghost predicate Init(w: World, output: Option<Doc>) {
    exists tmp :: w == Fresh(w.kinds, Start(output, tmp))
  }

  ghost predicate Next(w: World, w': World) {
    exists s :: Enabled(s, w) && w' == Do(s, w)
  }

  /** A run of the sidecar from a start with the given content of the output file. */
  ghost predicate Behaviour(ws: seq<World>, output: Option<Doc>) {
    && |ws| > 0
    && Init(ws[0], output)
    && forall i :: 0 <= i < |ws| - 1 ==> NextAt(ws, i)
  }

  ghost predicate NextAt(ws: seq<World>, i: int)
    requires 0 <= i < |ws| - 1
  {
    Next(ws[i], ws[i + 1])
  }

  /** The step that a run takes at position i. */
  lemma StepAt(ws: seq<World>, output: Option<Doc>, i: nat) returns (s: Step)
    requires Behaviour(ws, output) && i + 1 < |ws|
    ensures Enabled(s, ws[i]) && ws[i + 1] == Do(s, ws[i])
  {
    assert NextAt(ws, i);
    s :| Enabled(s, ws[i]) && ws[i + 1] == Do(s, ws[i]);
  }

  /** The step at position i is not a crash. */
  ghost predicate AliveAt(ws: seq<World>, i: int) {
    0 <= i < |ws| - 1 && exists s :: Enabled(s, ws[i]) && !s.Die? && ws[i + 1] == Do(s, ws[i])
  }

  /** No event is being processed by this writer. */
  predicate IdleWriter(w: World, writer: Writer) {
    writer in w.tasks ==> w.tasks[writer].calls == []
  }

  ghost predicate Quiescent(w: World) {
    forall writer :: IdleWriter(w, writer)
  }

  function TaskEvent(w: World, writer: Writer): Event
    requires writer in w.tasks && w.tasks[writer].id < |w.log|
  {
    w.log[w.tasks[writer].id]
  }

  /** Steps that neither begin an event nor make a writer's call leave both maps and all plans alone. */
  lemma QuietStep(s: Step, w: World)
    requires Enabled(s, w) && (s.DoWrite? || s.Force? || s.Sync?)
    ensures var w' := Do(s, w);
      && w'.store.pub == w.store.pub && w'.store.priv == w.store.priv
      && w'.tasks == w.tasks && w'.log == w.log && w'.flags == w.flags && w'.live == w.live && w'.index == w.index
  {
    match s
    case DoWrite(m) => WriteMaps(m, w.store);
    case _ =>
  }

  // ----- structure: index, specification and pending calls fit together -----

  ghost predicate IndexOk(w: World) {
    && (forall o :: o in w.index <==> o in w.live && o.Object?)
    && (forall o :: o in w.index ==> Enumerates(w.index[o], w.live[o].Keys))
    && (forall o :: o in w.live ==> !o.Private? && (o.Custom? ==> w.live[o].Keys == {o.name}))
  }

  /** A pending call does what the specification asks of the owner whose event it belongs to. */
  predicate CallOk(live: Live, e: Event, flag: bool, c: Call) {
    var o := OwnerOf(e);
    match c
    case Put(k, r, write) => o in live && k in live[o] && live[o][k] == r && write == flag
    case Remove(k) => !o.Private? && !(o in live && k in live[o])
    case PutPrivate(k, p, write) => e.PrivateAccepted? && e.name == k && e.private == p && write
    case RemovePrivate(k) => e.PrivateGone? && e.name == k
    case ForceWrite => false
  }

  ghost predicate TaskOk(w: World, writer: Writer)
    requires writer in w.tasks
  {
    var t := w.tasks[writer];
    && t.id < |w.log| == |w.flags|
    && WriterOf(w.log[t.id]) == writer
    && forall c :: c in t.calls ==> CallOk(w.live, w.log[t.id], w.flags[t.id], c)
  }

  ghost predicate TasksOk(w: World) {
    && |w.flags| == |w.log|
    && forall writer :: writer in w.tasks ==> TaskOk(w, writer)
  }

  ghost predicate LiveOk(w: World) {
    forall o :: Lookup(w.live, o) == Latest(w.log, o)
  }

  ghost predicate HolderOk(w: World) {
    w.holder.None? <==> w.store.phase.Idle?
  }

  ghost predicate StructureOk(w: World) {
    IndexOk(w) && TasksOk(w) && LiveOk(w) && HolderOk(w)
  }

  lemma BeginIndexOk(w: World, e: Event, keys: seq<string>, order: seq<string>)
    requires IndexOk(w) && Enabled(Begin(e, keys, order), w)
    ensures IndexOk(Do(Begin(e, keys, order), w))
  {
  }

  lemma BeginPlanOk(w: World, e: Event, keys: seq<string>, order: seq<string>)
    requires StructureOk(w) && Enabled(Begin(e, keys, order), w)
    ensures TaskOk(Do(Begin(e, keys, order), w), WriterOf(e))
  {
    var w' := Do(Begin(e, keys, order), w);
    var calls := w'.tasks[WriterOf(e)].calls;
    forall c | c in calls ensures CallOk(w'.live, e, WriteFlag(w, e), c) {
      if e.Deliver? || e.Deleted? {
        PlanExact(e, OldKeys(w, OwnerOf(e)), order, WriteFlag(w, e), c);
      }
    }
  }

  lemma BeginTasksOk(w: World, e: Event, keys: seq<string>, order: seq<string>)
    requires StructureOk(w) && Enabled(Begin(e, keys, order), w)
    ensures TasksOk(Do(Begin(e, keys, order), w))
  {
    var w' := Do(Begin(e, keys, order), w);
    BeginPlanOk(w, e, keys, order);
    forall writer | writer in w'.tasks && writer != WriterOf(e) ensures TaskOk(w', writer) {
      assert TaskOk(w, writer);
      var id := w.tasks[writer].id;
      assert w'.log[id] == w.log[id] && w'.flags[id] == w.flags[id];
      forall c | c in w.tasks[writer].calls ensures CallOk(w'.live, w.log[id], w.flags[id], c) {
        assert CallOk(w.live, w.log[id], w.flags[id], c);
      }
    }
  }

  lemma BeginLiveOk(w: World, e: Event, keys: seq<string>, order: seq<string>)
    requires LiveOk(w) && Enabled(Begin(e, keys, order), w)
    ensures LiveOk(Do(Begin(e, keys, order), w))
  {
    LatestSnoc(w.log, e);
    var w' := Do(Begin(e, keys, order), w);
    forall o ensures Lookup(w'.live, o) == Latest(w'.log, o) {
      assert Lookup(w.live, o) == Latest(w.log, o);
      assert w'.log[..|w'.log| - 1] == w.log;
    }
  }

  lemma CallTasksOk(w: World, writer: Writer)
    requires TasksOk(w) && Enabled(DoCall(writer), w)
    ensures TasksOk(Do(DoCall(writer), w))
  {
    var w' := Do(DoCall(writer), w);
    forall wr | wr in w'.tasks ensures TaskOk(w', wr) {
      assert TaskOk(w, wr);
      assert forall c :: c in w'.tasks[wr].calls ==> c in w.tasks[wr].calls;
    }
  }

  lemma StructureStep(s: Step, w: World)
    requires StructureOk(w) && Enabled(s, w)
    ensures StructureOk(Do(s, w))
  {
    match s
    case Begin(e, keys, order) =>
      BeginIndexOk(w, e, keys, order);
      BeginTasksOk(w, e, keys, order);
      BeginLiveOk(w, e, keys, order);
    case DoCall(writer) =>
      CallTasksOk(w, writer);
    case DoWrite(_) =>
      OtherTasksOk(w, Do(s, w));
    case Force(_) =>
      OtherTasksOk(w, Do(s, w));
    case Sync(_) =>
      OtherTasksOk(w, Do(s, w));
    case Die =>
  }

  lemma OtherTasksOk(w: World, w': World)
    requires TasksOk(w)
    requires w'.tasks == w.tasks && w'.log == w.log && w'.flags == w.flags && w'.live == w.live
    ensures TasksOk(w')
  {
    forall wr | wr in w'.tasks ensures TaskOk(w', wr) {
      assert TaskOk(w, wr);
    }
  }

  // ----- invariants over runs -----

  lemma {:induction false} StructureOverRun(ws: seq<World>, output: Option<Doc>, i: nat)
    requires Behaviour(ws, output) && i < |ws|
    ensures StructureOk(ws[i]) && StoreOk(ws[i].store, output)
    decreases i
  {
    if i == 0 {
      StructureAtFirst(ws[0], output);
    } else {
      StructureOverRun(ws, output, i - 1);
      StructureNext(ws, output, i - 1);
    }
  }

  lemma StructureAtFirst(w: World, output: Option<Doc>)
    requires Init(w, output)
    ensures StructureOk(w) && StoreOk(w.store, output)
  {
    var tmp :| w == Fresh(w.kinds, Start(output, tmp));
    StartOk(output, tmp);
  }

  lemma StructureNext(ws: seq<World>, output: Option<Doc>, i: nat)
    requires Behaviour(ws, output) && i + 1 < |ws|
    requires StructureOk(ws[i]) && StoreOk(ws[i].store, output)
    ensures StructureOk(ws[i + 1]) && StoreOk(ws[i + 1].store, output)
  {
    var s := StepAt(ws, output, i);
    StructureStep(s, ws[i]);
    StoreStep(s, ws[i], output);
  }

  lemma StoreStep(s: Step, w: World, output: Option<Doc>)
    requires StoreOk(w.store, output) && HolderOk(w) && Enabled(s, w)
    ensures StoreOk(Do(s, w).store, output)
  {
    match s
    case Begin(_, _, _) =>
    case DoCall(writer) => BeginCallOk(w.tasks[writer].calls[0], w.store, output);
    case DoWrite(m) => WriteOk(m, w.store, output);
    case Force(_) => BeginCallOk(ForceWrite, w.store, output);
    case Sync(_) =>
    case Die => CrashOk(w.store, output);
  }
}
