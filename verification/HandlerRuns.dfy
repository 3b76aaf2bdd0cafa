/** The handler methods of the objects and the step system describe the same program: what a handler
    does when it runs alone is a run of the step system. */
module HandlerRuns {
  import opened Store
  import opened Events
  import opened World
  import opened ControllerObject

  /** A path of the step system, without a crash. */
  ghost predicate Chain(ws: seq<World>, w: World, w': World) {
    && |ws| > 0 && ws[0] == w && ws[|ws| - 1] == w'
    && forall i :: 0 <= i < |ws| - 1 ==> AliveAt(ws, i)
  }

  /** No event begins along the way. */
  ghost predicate Steady(ws: seq<World>) {
    forall i :: 0 <= i < |ws| - 1 ==> |ws[i + 1].log| == |ws[i].log|
  }

  /** The two states differ at most in the store, the pending calls and the mutex. */
  ghost predicate SameRest(w: World, w': World) {
    && w'.kinds == w.kinds && w'.index == w.index && w'.live == w.live && w'.log == w.log
    && w'.flags == w.flags && w'.forced == w.forced && w'.synced == w.synced
  }

  lemma ChainStep(s: Step, w: World, ws: seq<World>, w': World) returns (longer: seq<World>)
    requires Enabled(s, w) && !s.Die? && Chain(ws, Do(s, w), w')
    ensures Chain(longer, w, w') && longer == [w] + ws
    ensures Steady(ws) && |Do(s, w).log| == |w.log| ==> Steady(longer)
  {
    longer := [w] + ws;
    forall i | 0 <= i < |longer| - 1 ensures AliveAt(longer, i) {
      if i > 0 {
        assert AliveAt(ws, i - 1);
      }
    }
  }

  lemma ChainJoin(a: seq<World>, b: seq<World>, w: World, mid: World, w': World) returns (joined: seq<World>)
    requires Chain(a, w, mid) && Chain(b, mid, w')
    ensures Chain(joined, w, w') && joined == a + b[1..]
    ensures Steady(a) && Steady(b) ==> Steady(joined)
  {
    joined := a + b[1..];
    assert forall i :: |a| - 1 <= i < |joined| ==> joined[i] == b[i - (|a| - 1)];
    forall i | 0 <= i < |joined| - 1 ensures AliveAt(joined, i) {
      if i < |a| - 1 {
        assert AliveAt(a, i);
      } else {
        assert AliveAt(b, i - (|a| - 1));
      }
    }
  }

  /** The steps of one write, made while the mutex is held. */
  lemma {:induction false} WritePath(w: World, ms: seq<WriteStep>) returns (ws: seq<World>, w': World)
    requires HolderOk(w) && CanRun(ms, w.store) && Run(ms, w.store).phase.Idle?
    ensures Chain(ws, w, w') && Steady(ws) && SameRest(w, w')
    ensures w'.store == Run(ms, w.store) && w'.tasks == w.tasks && w'.holder.None?
    decreases |ms|
  {
    if ms == [] {
      ws, w' := [w], w;
    } else {
      var next := AfterWrite(w, ms[0]);
      assert next == Do(DoWrite(ms[0]), w);
      var rest;
      rest, w' := WritePath(next, ms[1..]);
      ws := ChainStep(DoWrite(ms[0]), w, rest, w');
    }
  }

  lemma CallPath(w: World, writer: Writer, d: Done) returns (ws: seq<World>, w': World)
    requires HolderOk(w) && w.holder.None? && writer in w.tasks
    requires w.tasks[writer].calls != [] && w.tasks[writer].calls[0] == d.call && Possible(d.end, w.store)
    ensures Chain(ws, w, w') && Steady(ws) && SameRest(w, w')
    ensures w'.store == RunCall(d.call, d.end, w.store) && w'.holder.None? && HolderOk(w')
    ensures w'.tasks == w.tasks[writer := Task(w.tasks[writer].id, w.tasks[writer].calls[1..])]
  {
    var begun := AfterCall(w, writer);
    assert begun == Do(DoCall(writer), w);
    var ms := if begun.store.phase.Marshalling? then StepsOf(d.end, begun.store) else [];
    if begun.store.phase.Marshalling? {
      ResultsAreReachable(d.end, begun.store);
    }
    FinishedIsIdle(d, w.store);
    var rest;
    rest, w' := WritePath(begun, ms);
    ws := ChainStep(DoCall(writer), w, rest, w');
  }

  lemma FinishedIsIdle(d: Done, s: Store)
    requires s.phase.Idle?
    ensures RunCall(d.call, d.end, s).phase.Idle?
    ensures var begun := BeginCall(d.call, s); begun.phase.Idle? || begun.phase.Marshalling?
    ensures BeginCall(d.call, s).tmp == s.tmp
  {
  }

  lemma {:induction false} CallsAt(trace: seq<Done>, i: nat)
    requires i < |trace|
    ensures Calls(trace)[i] == trace[i].call
    ensures Calls(trace[..i]) == Calls(trace)[..i]
    decreases |trace|
  {
    if i < |trace| - 1 {
      CallsAt(trace[..|trace| - 1], i);
      assert trace[..|trace| - 1][..i] == trace[..i];
    }
  }

  lemma {:induction false} TraceOkPrefix(trace: seq<Done>, s: Store, n: nat)
    requires n < |trace| && TraceOk(trace, s)
    ensures TraceOk(trace[..n], s) && Possible(trace[n].end, RunTrace(trace[..n], s))
    ensures RunTrace(trace[..n + 1], s) == RunCall(trace[n].call, trace[n].end, RunTrace(trace[..n], s))
    decreases |trace|
  {
    assert trace[..n + 1][..n] == trace[..n];
    if n < |trace| - 1 {
      TraceOkPrefix(trace[..|trace| - 1], s, n);
      assert trace[..|trace| - 1][..n] == trace[..n];
    }
  }

  lemma {:induction false} PrefixPath(w: World, writer: Writer, trace: seq<Done>, n: nat)
    returns (ws: seq<World>, w': World)
    requires HolderOk(w) && w.holder.None? && writer in w.tasks
    requires n <= |trace| && w.tasks[writer].calls == Calls(trace) && TraceOk(trace, w.store)
    ensures Chain(ws, w, w') && Steady(ws) && SameRest(w, w') && HolderOk(w')
    ensures w'.store == RunTrace(trace[..n], w.store) && w'.holder.None?
    ensures w'.tasks == w.tasks[writer := Task(w.tasks[writer].id, Calls(trace)[n..])]
    decreases n
  {
    if n == 0 {
      ws, w' := [w], w;
      assert Calls(trace)[0..] == Calls(trace);
    } else {
      var before, mid := PrefixPath(w, writer, trace, n - 1);
      TraceOkPrefix(trace, w.store, n - 1);
      CallsAt(trace, n - 1);
      var after;
      after, w' := CallPath(mid, writer, trace[n - 1]);
      ws := ChainJoin(before, after, w, mid, w');
    }
  }

  /** Whatever a handler does on its own - the plan's calls, their writes ending in any possible way -
      the step system can do: it begins the event, makes the calls and steps through the writes, and
      ends in the same store with nothing left to do. */
  lemma HandlerIsRun(w: World, b: Step, trace: seq<Done>) returns (ws: seq<World>, w': World)
    requires HolderOk(w) && w.holder.None?
    requires b.Begin? && Enabled(b, w)
    requires Calls(trace) == Plan(b.e, OldKeys(w, OwnerOf(b.e)), b.order, WriteFlag(w, b.e)) && TraceOk(trace, w.store)
    ensures Chain(ws, w, w') && SameRest(Do(b, w), w') && Steady(ws[1..])
    ensures Leads(trace, w.store, w'.store)
    ensures w'.holder.None? && HolderOk(w') && IdleWriter(w', WriterOf(b.e)) && (Quiescent(w) ==> Quiescent(w'))
  {
    var begun := Do(b, w);
    var rest;
    rest, w' := PrefixPath(begun, WriterOf(b.e), trace, |trace|);
    assert trace[..|trace|] == trace;
    ws := ChainStep(b, w, rest, w');
    assert ws[1..] == rest;
    if Quiescent(w) {
      forall writer ensures IdleWriter(w', writer) {
        assert IdleWriter(w, writer);
      }
    }
  }

  /** Force a write, step through it, and only then set the flag: the end of a controller's Run. */
  lemma FinishIsRun(w: World, kind: Kind, end: Result) returns (ws: seq<World>, w': World)
    requires HolderOk(w) && w.holder.None? && Possible(end, w.store)
    requires kind in w.kinds && kind !in w.forced && kind !in w.synced
    ensures Chain(ws, w, w') && Steady(ws)
    ensures w' == w.(store := RunCall(ForceWrite, end, w.store), forced := w.forced + {kind},
                     synced := w.synced + {kind}, dirty := w'.dirty)
  {
    var forced := Do(Force(kind), w);
    ResultsAreReachable(end, forced.store);
    FinishedIsIdle(Done(ForceWrite, end), w.store);
    var writing, written := WritePath(forced, StepsOf(end, forced.store));
    w' := Do(Sync(kind), written);
    var last := ChainStep(Sync(kind), written, [w'], w');
    var rest := ChainJoin(writing, last, forced, written, w');
    ws := ChainStep(Force(kind), w, rest, w');
  }
}
