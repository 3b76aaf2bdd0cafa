/** From schedules of calls to runs: the maps of a run are those of its schedule, and a run whose
    writers touch different keys can be replaced by one that handles one event at a time. */
module SerialRuns {
  import opened Blueprint
  import opened Store
  import opened Events
  import opened World
  import opened Confluence
  import opened ControllerObject
  import opened HandlerRuns
  import opened Serial

  // ----- the schedule of a run -----

  ghost predicate TookAt(ws: seq<World>, steps: seq<Step>, i: int)
    requires 0 <= i < |steps| == |ws| - 1
  {
    Enabled(steps[i], ws[i]) && ws[i + 1] == Do(steps[i], ws[i])
  }

  /** The run consists of these steps, none of which is a crash. */
  ghost predicate Took(ws: seq<World>, steps: seq<Step>) {
    && |ws| == |steps| + 1
    && forall i :: 0 <= i < |steps| ==> TookAt(ws, steps, i) && !steps[i].Die?
  }

  /** The call that a step makes, if it makes one. A forced write touches no key. */
  ghost function SlotOf(s: Step, w: World): seq<Slot>
    requires Enabled(s, w)
  {
    if s.DoCall? then [Slot(s.writer, w.tasks[s.writer].calls[0])] else []
  }

  /** The Manager calls of the first n steps in the order in which the mutex admitted them. */
  ghost function Schedule(ws: seq<World>, steps: seq<Step>, n: nat): seq<Slot>
    requires Took(ws, steps) && n <= |steps|
  {
    if n == 0 then []
    else assert TookAt(ws, steps, n - 1); Schedule(ws, steps, n - 1) + SlotOf(steps[n - 1], ws[n - 1])
  }

  lemma RunSnoc(s: seq<Slot>, x: Slot, pub: Entries, priv: PrivateEntries)
    ensures RunPub(s + [x], pub) == PubAfter(x.call, RunPub(s, pub))
    ensures RunPriv(s + [x], priv) == PrivAfter(x.call, RunPriv(s, priv))
  {
    assert (s + [x])[..|s|] == s;
  }

  lemma {:induction false} RunConcat(a: seq<Slot>, b: seq<Slot>, pub: Entries, priv: PrivateEntries)
    ensures RunPub(a + b, pub) == RunPub(b, RunPub(a, pub))
    ensures RunPriv(a + b, priv) == RunPriv(b, RunPriv(a, priv))
  {
    if b == [] {
      assert a + b == a;
    } else {
      var init, last := b[..|b| - 1], b[|b| - 1];
      RunConcat(a, init, pub, priv);
      assert b == init + [last] && a + b == a + init + [last];
      RunSnoc(a + init, last, pub, priv);
      RunSnoc(init, last, RunPub(a, pub), RunPriv(a, priv));
    }
  }

  lemma StepMaps(s: Step, w: World)
    requires Enabled(s, w) && !s.Die?
    ensures Do(s, w).store.pub == RunPub(SlotOf(s, w), w.store.pub)
    ensures Do(s, w).store.priv == RunPriv(SlotOf(s, w), w.store.priv)
  {
    if s.DoCall? {
      var x := Slot(s.writer, w.tasks[s.writer].calls[0]);
      RunSnoc([], x, w.store.pub, w.store.priv);
      assert [] + [x] == [x];
    } else if !s.Begin? {
      QuietStep(s, w);
    }
  }

  /** Nothing but the calls of the schedule decides the maps: not when events begin, not when and how
      writes end, not the synchronisation. */
  lemma {:induction false} ScheduleMaps(ws: seq<World>, steps: seq<Step>, n: nat)
    requires Took(ws, steps) && n <= |steps|
    ensures ws[n].store.pub == RunPub(Schedule(ws, steps, n), ws[0].store.pub)
    ensures ws[n].store.priv == RunPriv(Schedule(ws, steps, n), ws[0].store.priv)
  {
    if n > 0 {
      ScheduleMaps(ws, steps, n - 1);
      assert TookAt(ws, steps, n - 1);
      StepMaps(steps[n - 1], ws[n - 1]);
      RunConcat(Schedule(ws, steps, n - 1), SlotOf(steps[n - 1], ws[n - 1]), ws[0].store.pub, ws[0].store.priv);
    }
  }

  /** Two runs from the same maps in which every writer makes the same calls in the same order, and
      different writers touch different keys, end in the same maps. */
  lemma SameCallsSameMaps(ws: seq<World>, steps: seq<Step>, ws': seq<World>, steps': seq<Step>)
    requires Took(ws, steps) && Took(ws', steps')
    requires ws[0].store.pub == ws'[0].store.pub && ws[0].store.priv == ws'[0].store.priv
    requires Disjoint(Schedule(ws, steps, |steps|))
    requires SameWork(Schedule(ws, steps, |steps|), Schedule(ws', steps', |steps'|))
    ensures ws[|steps|].store.pub == ws'[|steps'|].store.pub
    ensures ws[|steps|].store.priv == ws'[|steps'|].store.priv
  {
    ScheduleMaps(ws, steps, |steps|);
    ScheduleMaps(ws', steps', |steps'|);
    SchedulesConverge(Schedule(ws, steps, |steps|), Schedule(ws', steps', |steps'|), ws[0].store.pub, ws[0].store.priv);
  }

  /** In particular a run ends where doing all of one writer's calls, then all of the next writer's, and
      so on, would end. */
  lemma RunIsOneAfterAnother(ws: seq<World>, steps: seq<Step>)
    requires Took(ws, steps) && Disjoint(Schedule(ws, steps, |steps|))
    ensures var s := OneAfterAnother(Schedule(ws, steps, |steps|), ALL_WRITERS);
      && ws[|steps|].store.pub == RunPub(s, ws[0].store.pub)
      && ws[|steps|].store.priv == RunPriv(s, ws[0].store.priv)
  {
    ScheduleMaps(ws, steps, |steps|);
    InterleavingIsSerial(Schedule(ws, steps, |steps|), ws[0].store.pub, ws[0].store.priv);
  }

  // ----- making a writer's calls at once -----

  function SlotsOf(writer: Writer, calls: seq<Call>): (s: seq<Slot>)
    ensures |s| == |calls|
  {
    seq(|calls|, i requires 0 <= i < |calls| => Slot(writer, calls[i]))
  }

  /** The calls, with every write failing at once. */
  function FailingTrace(calls: seq<Call>): (trace: seq<Done>)
    ensures |trace| == |calls|
  {
    seq(|calls|, i requires 0 <= i < |calls| => Done(calls[i], MarshalError))
  }

  lemma {:induction false} FailingIsPossible(trace: seq<Done>, s: Store)
    requires forall i :: 0 <= i < |trace| ==> trace[i].end == MarshalError
    ensures TraceOk(trace, s)
  {
    if trace != [] {
      FailingIsPossible(trace[..|trace| - 1], s);
    }
  }

  lemma FailingTraceIsPossible(calls: seq<Call>, s: Store)
    ensures Calls(FailingTrace(calls)) == calls && TraceOk(FailingTrace(calls), s)
  {
    var trace := FailingTrace(calls);
    FailingIsPossible(trace, s);
    forall i | 0 <= i < |calls| ensures Calls(trace)[i] == calls[i] {
      CallsAt(trace, i);
    }
  }

  lemma {:induction false} TraceMaps(writer: Writer, trace: seq<Done>, s: Store)
    ensures RunTrace(trace, s).pub == RunPub(SlotsOf(writer, Calls(trace)), s.pub)
    ensures RunTrace(trace, s).priv == RunPriv(SlotsOf(writer, Calls(trace)), s.priv)
  {
    if trace != [] {
      var init, d := trace[..|trace| - 1], trace[|trace| - 1];
      TraceMaps(writer, init, s);
      RunCallMaps(d.call, d.end, RunTrace(init, s));
      assert SlotsOf(writer, Calls(trace)) == SlotsOf(writer, Calls(init)) + [Slot(writer, d.call)];
      RunSnoc(SlotsOf(writer, Calls(init)), Slot(writer, d.call), s.pub, s.priv);
    }
  }

  lemma {:induction false} ProjectOwn(writer: Writer, calls: seq<Call>, other: Writer)
    ensures Project(SlotsOf(writer, calls), other) == if other == writer then SlotsOf(writer, calls) else []
  {
    if calls != [] {
      var init := calls[..|calls| - 1];
      ProjectOwn(writer, init, other);
      var s := SlotsOf(writer, calls);
      assert s[..|s| - 1] == SlotsOf(writer, init);
      ProjectLast(s, other);
      assert s == SlotsOf(writer, init) + [s[|s| - 1]];
    }
  }

  // ----- the serial twin -----

  ghost predicate SerialPath(ws: seq<World>) {
    forall j :: 0 <= j < |ws| - 1 ==> SerialAt(ws, j)
  }

  function PendingSlots(w: World, writer: Writer): seq<Slot> {
    if writer in w.tasks then SlotsOf(writer, w.tasks[writer].calls) else []
  }

  /** What the writer has done according to the second schedule is what it has done according to the
      first and the calls that it has still to make in w. */
  ghost predicate Ahead(done: seq<Slot>, w: World, done': seq<Slot>, writer: Writer) {
    Project(done', writer) == Project(done, writer) + PendingSlots(w, writer)
  }

  /** The state v has handled completely what w has begun. */
  ghost predicate Twin(w: World, done: seq<Slot>, v: World, done': seq<Slot>) {
    && SameRest(w, v)
    && Quiescent(v) && v.holder.None? && HolderOk(v)
    && forall writer :: Ahead(done, w, done', writer)
  }

  /** The maps of v' are those of v after these calls. */
  predicate MapsMove(v: World, added: seq<Slot>, v': World) {
    v'.store.pub == RunPub(added, v.store.pub) && v'.store.priv == RunPriv(added, v.store.priv)
  }

  lemma SteadyIsSerial(ws: seq<World>)
    requires Steady(ws)
    ensures SerialPath(ws)
  {
  }

  lemma HandlerIsSerial(ws: seq<World>)
    requires |ws| > 0 && Steady(ws[1..]) && Quiescent(ws[0])
    ensures SerialPath(ws)
  {
    forall j | 0 <= j < |ws| - 1 ensures SerialAt(ws, j) {
      if j > 0 {
        assert ws[1..][j - 1] == ws[j] && ws[1..][j] == ws[j + 1];
      }
    }
  }

  lemma JoinSerial(a: seq<World>, b: seq<World>, w: World, mid: World, w': World) returns (joined: seq<World>)
    requires Chain(a, w, mid) && Chain(b, mid, w') && SerialPath(a) && SerialPath(b)
    ensures Chain(joined, w, w') && SerialPath(joined)
  {
    joined := ChainJoin(a, b, w, mid, w');
    assert forall i :: |a| - 1 <= i < |joined| ==> joined[i] == b[i - (|a| - 1)];
    forall j | 0 <= j < |joined| - 1 ensures SerialAt(joined, j) {
      if j < |a| - 1 {
        assert SerialAt(a, j);
      } else {
        assert SerialAt(b, j - (|a| - 1));
      }
    }
  }

  /** What begins in the run can begin in its twin, with the same plan. */
  lemma TwinCanBegin(b: Step, w: World, done: seq<Slot>, v: World, done': seq<Slot>)
    requires b.Begin? && Enabled(b, w) && Twin(w, done, v, done')
    ensures Enabled(b, v) && SameRest(Do(b, w), Do(b, v))
    ensures OldKeys(v, OwnerOf(b.e)) == OldKeys(w, OwnerOf(b.e)) && WriteFlag(v, b.e) == WriteFlag(w, b.e)
  {
    assert IdleWriter(v, WriterOf(b.e));
  }

  lemma BeginSlots(b: Step, w: World, calls: seq<Call>, writer: Writer)
    requires b.Begin? && Enabled(b, w) && calls == Plan(b.e, OldKeys(w, OwnerOf(b.e)), b.order, WriteFlag(w, b.e))
    ensures PendingSlots(Do(b, w), writer)
         == PendingSlots(w, writer) + if writer == WriterOf(b.e) then SlotsOf(writer, calls) else []
  {
    if writer == WriterOf(b.e) {
      assert PendingSlots(w, writer) == [];
    }
  }

  lemma CallSlots(caller: Writer, w: World, writer: Writer)
    requires Enabled(DoCall(caller), w)
    ensures PendingSlots(w, writer)
         == (if writer == caller then SlotOf(DoCall(caller), w) else []) + PendingSlots(Do(DoCall(caller), w), writer)
  {
  }

  /** Appending one writer's calls to a schedule appends them to its own projection only. */
  lemma ProjectAppend(s: seq<Slot>, writer: Writer, calls: seq<Call>, other: Writer)
    ensures Project(s + SlotsOf(writer, calls), other)
         == Project(s, other) + if other == writer then SlotsOf(writer, calls) else []
  {
    ProjectConcat(s, SlotsOf(writer, calls), other);
    ProjectOwn(writer, calls, other);
  }

  lemma AheadGrows(done: seq<Slot>, w: World, w': World, done': seq<Slot>, writer: Writer, calls: seq<Call>,
                   other: Writer)
    requires Ahead(done, w, done', other)
    requires PendingSlots(w', other) == PendingSlots(w, other) + if other == writer then SlotsOf(writer, calls) else []
    ensures Ahead(done, w', done' + SlotsOf(writer, calls), other)
  {
    ProjectAppend(done', writer, calls, other);
  }

  lemma AheadCatchesUp(done: seq<Slot>, w: World, w': World, done': seq<Slot>, writer: Writer, calls: seq<Call>,
                       other: Writer)
    requires Ahead(done, w, done', other)
    requires PendingSlots(w, other)
          == (if other == writer then SlotsOf(writer, calls) else []) + PendingSlots(w', other)
    ensures Ahead(done + SlotsOf(writer, calls), w', done', other)
  {
    ProjectAppend(done, writer, calls, other);
  }

  /** Where an event begins in the run, its twin handles it from beginning to end. */
  lemma TwinBegin(b: Step, w: World, done: seq<Slot>, v: World, done': seq<Slot>)
    returns (vs: seq<World>, v': World, added: seq<Slot>)
    requires b.Begin? && Enabled(b, w) && Twin(w, done, v, done')
    ensures Chain(vs, v, v') && SerialPath(vs)
    ensures Twin(Do(b, w), done, v', done' + added) && MapsMove(v, added, v')
  {
    TwinCanBegin(b, w, done, v, done');
    var calls := Plan(b.e, OldKeys(w, OwnerOf(b.e)), b.order, WriteFlag(w, b.e));
    FailingTraceIsPossible(calls, v.store);
    vs, v' := HandlerIsRun(v, b, FailingTrace(calls));
    HandlerIsSerial(vs);
    added := SlotsOf(WriterOf(b.e), calls);
    TraceMaps(WriterOf(b.e), FailingTrace(calls), v.store);
    forall writer ensures Ahead(done, Do(b, w), done' + added, writer) {
      BeginSlots(b, w, calls, writer);
      AheadGrows(done, w, Do(b, w), done', WriterOf(b.e), calls, writer);
    }
  }

  /** Where the run makes a call, its twin has made it already. */
  lemma TwinCall(writer: Writer, w: World, done: seq<Slot>, v: World, done': seq<Slot>)
    requires Enabled(DoCall(writer), w) && Twin(w, done, v, done')
    ensures Twin(Do(DoCall(writer), w), done + SlotOf(DoCall(writer), w), v, done')
  {
    var w', x := Do(DoCall(writer), w), SlotOf(DoCall(writer), w);
    assert x == SlotsOf(writer, [x[0].call]);
    forall wr ensures Ahead(done + x, w', done', wr) {
      CallSlots(writer, w, wr);
      AheadCatchesUp(done, w, w', done', writer, [x[0].call], wr);
    }
  }

  lemma TwinForce(kind: Kind, w: World, done: seq<Slot>, v: World, done': seq<Slot>)
    returns (vs: seq<World>, v': World)
    requires Enabled(Force(kind), w) && Twin(w, done, v, done')
    ensures Chain(vs, v, v') && SerialPath(vs)
    ensures Twin(Do(Force(kind), w), done, v', done') && MapsMove(v, [], v')
  {
    var forced := Do(Force(kind), v);
    ResultsAreReachable(MarshalError, forced.store);
    FinishedIsIdle(Done(ForceWrite, MarshalError), v.store);
    RunCallMaps(ForceWrite, MarshalError, v.store);
    var rest;
    rest, v' := WritePath(forced, StepsOf(MarshalError, forced.store));
    vs := ChainStep(Force(kind), v, rest, v');
    SteadyIsSerial(vs);
    TwinStays(w, Do(Force(kind), w), done, v, v', done');
  }

  lemma TwinStays(w: World, w': World, done: seq<Slot>, v: World, v': World, done': seq<Slot>)
    requires Twin(w, done, v, done') && w'.tasks == w.tasks && v'.tasks == v.tasks
    requires SameRest(w', v') && v'.holder.None? && HolderOk(v')
    ensures Twin(w', done, v', done')
  {
    forall writer ensures IdleWriter(v', writer) {
      assert IdleWriter(v, writer);
    }
    forall writer ensures Ahead(done, w', done', writer) {
      assert Ahead(done, w, done', writer);
    }
  }

  lemma TwinStep(s: Step, w: World, done: seq<Slot>, v: World, done': seq<Slot>)
    returns (vs: seq<World>, v': World, added: seq<Slot>)
    requires Enabled(s, w) && !s.Die? && Twin(w, done, v, done')
    ensures Chain(vs, v, v') && SerialPath(vs)
    ensures Twin(Do(s, w), done + SlotOf(s, w), v', done' + added) && MapsMove(v, added, v')
  {
    vs, v', added := [v], v, [];
    assert done' + [] == done';
    if s.DoCall? {
      TwinCall(s.writer, w, done, v, done');
    } else {
      assert done + SlotOf(s, w) == done;
      if s.Begin? {
        vs, v', added := TwinBegin(s, w, done, v, done');
      } else if s.Force? {
        vs, v' := TwinForce(s.kind, w, done, v, done');
      } else {
        if s.Sync? {
          v' := Do(s, v);
          vs := ChainStep(s, v, [v'], v');
        }
        TwinStays(w, Do(s, w), done, v, v', done');
      }
    }
  }

  lemma {:induction false} TwinPath(ws: seq<World>, steps: seq<Step>, n: nat)
    returns (vs: seq<World>, v: World, done: seq<Slot>)
    requires Took(ws, steps) && n <= |steps|
    requires Quiescent(ws[0]) && ws[0].holder.None? && HolderOk(ws[0])
    ensures Chain(vs, ws[0], v) && SerialPath(vs)
    ensures Twin(ws[n], Schedule(ws, steps, n), v, done) && MapsMove(ws[0], done, v)
  {
    if n == 0 {
      vs, v, done := [ws[0]], ws[0], [];
      forall writer ensures PendingSlots(ws[0], writer) == [] {
        assert IdleWriter(ws[0], writer);
      }
    } else {
      var before, mid, early := TwinPath(ws, steps, n - 1);
      assert TookAt(ws, steps, n - 1);
      var after, added;
      after, v, added := TwinStep(steps[n - 1], ws[n - 1], Schedule(ws, steps, n - 1), mid, early);
      done := early + added;
      RunConcat(early, added, ws[0].store.pub, ws[0].store.priv);
      vs := JoinSerial(before, after, ws[0], mid, v);
    }
  }

  /** Serializability. Take any stretch of a run without a crash that begins and ends with no event in
      progress, and in which different writers touch different keys, however it interleaves events,
      writes and synchronisation. From the same state there is a run without a crash that begins an
      event only when the previous one is done, begins the same events in the same order with the
      same flags, and ends with the same two maps, index and specification. How its writes end, and
      hence the file and the history of writes, is not matched. */
  lemma SerialTwin(ws: seq<World>, steps: seq<Step>) returns (vs: seq<World>, v: World)
    requires Took(ws, steps) && Disjoint(Schedule(ws, steps, |steps|))
    requires Quiescent(ws[0]) && ws[0].holder.None? && HolderOk(ws[0]) && Quiescent(ws[|steps|])
    ensures Chain(vs, ws[0], v) && SerialPath(vs) && Quiescent(v) && SameRest(ws[|steps|], v)
    ensures forall j :: 0 <= j < |vs| - 1 ==> AliveAt(vs, j)
    ensures v.store.pub == ws[|steps|].store.pub && v.store.priv == ws[|steps|].store.priv
    ensures forall output :: Behaviour(ws, output) ==> Behaviour(vs, output)
  {
    var w, schedule, done := ws[|steps|], Schedule(ws, steps, |steps|), [];
    vs, v, done := TwinPath(ws, steps, |steps|);
    forall writer ensures Project(done, writer) == Project(schedule, writer) {
      assert IdleWriter(w, writer);
      assert Ahead(schedule, w, done, writer);
    }
    ScheduleMaps(ws, steps, |steps|);
    SchedulesConverge(schedule, done, ws[0].store.pub, ws[0].store.priv);
    forall j | 0 <= j < |vs| - 1 ensures NextAt(vs, j) {
      assert AliveAt(vs, j);
    }
  }
}
