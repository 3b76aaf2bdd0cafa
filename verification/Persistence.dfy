/** The output file over whole runs: when it agrees with the store, what it can contain at any
    moment, and what the health check says about it. */
module Persistence {
  import opened Collections
  import opened Store
  import opened Events
  import opened World
  import opened Refinement

  // ----- agreement of file and store under the synchronisation race -----

  /** Changes are left unwritten only by events that loaded `synced` before Run had stored true. */
  ghost predicate DirtyOk(w: World) {
    && |w.flags| == |w.log|
    && (w.store.unsaved <==> w.dirty != {})
    && forall id :: id in w.dirty ==> id < |w.log| && !w.flags[id] && w.log[id].Deliver?
  }

  /** Reconcilers always write. */
  ghost predicate FlagsOk(w: World) {
    && |w.flags| == |w.log|
    && forall id :: 0 <= id < |w.log| ==> w.flags[id] || w.log[id].Deliver?
  }

  lemma DirtyStep(s: Step, w: World)
    requires StructureOk(w) && Enabled(s, w) && DirtyOk(w) && FlagsOk(w)
    ensures DirtyOk(Do(s, w)) && FlagsOk(Do(s, w))
  {
    match s
    case DoCall(writer) => DirtyCall(w, writer);
    case Begin(e, keys, order) => DirtyBegin(w, e, keys, order);
    case DoWrite(_) =>
    case Force(_) =>
    case Sync(_) =>
    case Die =>
  }

  lemma DirtyBegin(w: World, e: Event, keys: seq<string>, order: seq<string>)
    requires Enabled(Begin(e, keys, order), w) && DirtyOk(w) && FlagsOk(w)
    ensures DirtyOk(Do(Begin(e, keys, order), w)) && FlagsOk(Do(Begin(e, keys, order), w))
  {
  }

  lemma DirtyCall(w: World, writer: Writer)
    requires StructureOk(w) && Enabled(DoCall(writer), w) && DirtyOk(w) && FlagsOk(w)
    ensures DirtyOk(Do(DoCall(writer), w))
  {
    NextCall(w, writer);
    var t, w' := w.tasks[writer], Do(DoCall(writer), w);
    if Effective(t.calls[0], w.store) && !Writes(t.calls[0], w.store) {
      assert t.id in w'.dirty;
      assert FlagsOk(w);
    } else {
      assert w'.dirty == w.dirty;
    }
  }

  lemma {:induction false} DirtyOverRun(ws: seq<World>, output: Option<Doc>, i: nat)
    requires Behaviour(ws, output) && i < |ws|
    ensures DirtyOk(ws[i]) && FlagsOk(ws[i])
    decreases i
  {
    if i > 0 {
      DirtyOverRun(ws, output, i - 1);
      StructureOverRun(ws, output, i - 1);
      var s := StepAt(ws, output, i - 1);
      DirtyStep(s, ws[i - 1]);
    }
  }

  /** In every reachable state with no Manager call in progress in which this process has tried to
      write, the file is the rendering of the current two maps, unless the last try failed or an
      informer event that had loaded `synced` as false changed a map since the last success. */
  lemma FileAgrees(ws: seq<World>, output: Option<Doc>, i: nat)
    requires Behaviour(ws, output) && i < |ws|
    requires ws[i].store.phase.Idle? && Tried(ws[i].store)
    ensures var w := ws[i];
      || w.store.output == Some(Document(w.store.pub, w.store.priv))
      || LastAttempt(w.store).outcome.Failed?
      || exists id :: id in w.dirty && id < |w.log| == |w.flags| && !w.flags[id] && w.log[id].Deliver?
  {
    StructureOverRun(ws, output, i);
    DirtyOverRun(ws, output, i);
    FileAgreesUnless(ws[i].store, output);
    if ws[i].store.unsaved {
      var id :| id in ws[i].dirty;
    }
  }

  /** Any single successful write, forced or not, restores full agreement, of the private map too. */
  lemma SuccessRestores(ws: seq<World>, output: Option<Doc>, i: nat, now: int)
    requires Behaviour(ws, output) && i < |ws| && Enabled(DoWrite(RenameOk(now)), ws[i])
    ensures var w' := Do(DoWrite(RenameOk(now)), ws[i]);
      && w'.store.output == Some(Document(w'.store.pub, w'.store.priv))
      && w'.store.phase.Idle? && w'.dirty == {} && !w'.store.lastWriteErr
      && w'.store.pub == ws[i].store.pub && w'.store.priv == ws[i].store.priv
  {
    StructureOverRun(ws, output, i);
  }

  /** Every controller has stored true in `synced` and no event that loaded it earlier still has a
      change to make. */
  ghost predicate SyncedUp(w: World) {
    && w.kinds <= w.synced
    && forall writer, c :: writer in w.tasks && c in w.tasks[writer].calls && c.Put? ==> c.write
  }

  lemma SyncedUpStep(s: Step, w: World)
    requires StructureOk(w) && Enabled(s, w) && SyncedUp(w) && !s.Die?
    ensures SyncedUp(Do(s, w))
    ensures w.dirty == {} ==> Do(s, w).dirty == {}
  {
    var w' := Do(s, w);
    match s
    case Begin(e, keys, order) =>
      forall writer, c | writer in w'.tasks && c in w'.tasks[writer].calls && c.Put? ensures c.write {
        if writer == WriterOf(e) && (e.Deliver? || e.Deleted?) {
          PlanExact(e, OldKeys(w, OwnerOf(e)), order, WriteFlag(w, e), c);
        }
      }
    case DoCall(writer) =>
      NextCall(w, writer);
      var calls := w.tasks[writer].calls;
      assert forall c :: c in calls[1..] ==> c in calls;
      assert calls[0] in calls;
    case _ =>
  }

  lemma AliveNext(ws: seq<World>, i: nat)
    requires AliveAt(ws, i) && StructureOk(ws[i]) && SyncedUp(ws[i])
    ensures SyncedUp(ws[i + 1])
    ensures ws[i].dirty == {} ==> ws[i + 1].dirty == {}
  {
    var s :| Enabled(s, ws[i]) && !s.Die? && ws[i + 1] == Do(s, ws[i]);
    SyncedUpStep(s, ws[i]);
  }

  /** Once all controllers have synchronised, the stragglers are done and one write has succeeded,
      the race is over for good: from then on until a crash the file agrees with the store between
      calls whenever the last try to write did not fail. */
  lemma {:induction false} RaceEnds(ws: seq<World>, output: Option<Doc>, a: nat, i: nat)
    requires Behaviour(ws, output) && a <= i < |ws|
    requires SyncedUp(ws[a]) && ws[a].dirty == {}
    requires forall j :: a <= j < i ==> AliveAt(ws, j)
    ensures SyncedUp(ws[i]) && ws[i].dirty == {}
    ensures ws[i].store.phase.Idle? && Tried(ws[i].store) && !ws[i].store.lastWriteErr ==>
      ws[i].store.output == Some(Document(ws[i].store.pub, ws[i].store.priv))
    decreases i
  {
    if a < i {
      RaceEnds(ws, output, a, i - 1);
      StructureOverRun(ws, output, i - 1);
      AliveNext(ws, i - 1);
    }
    StructureOverRun(ws, output, i);
    DirtyOverRun(ws, output, i);
    if ws[i].store.phase.Idle? && Tried(ws[i].store) {
      FileAgreesUnless(ws[i].store, output);
    }
  }

  // ----- what the file can contain -----

  /** A step adds at most one attempt, of the maps of the state it leads to, and does not touch what
      earlier attempts set out to write. */
  ghost predicate AttemptsGrow(s: Store, s': Store) {
    && |s.attempts| <= |s'.attempts| <= |s.attempts| + 1
    && (forall a :: 0 <= a < |s.attempts| ==>
          s'.attempts[a].pub == s.attempts[a].pub && s'.attempts[a].priv == s.attempts[a].priv)
    && (|s'.attempts| > |s.attempts| ==>
          s'.phase.Marshalling? && LastAttempt(s').pub == s'.pub && LastAttempt(s').priv == s'.priv)
    && OutputIndex(s.attempts) <= OutputIndex(s'.attempts)
  }

  lemma AppendKeepsOutput(attempts: seq<Attempt>, a: Attempt)
    requires !a.outcome.Succeeded?
    ensures OutputIndex(attempts + [a]) == OutputIndex(attempts)
  {
    assert (attempts + [a])[..|attempts|] == attempts;
  }

  lemma NewAttemptGrows(s: Store, s': Store)
    requires s'.attempts == s.attempts + [Attempt(s'.pub, s'.priv, Running)] && s'.phase.Marshalling?
    ensures AttemptsGrow(s, s')
  {
    AppendKeepsOutput(s.attempts, Attempt(s'.pub, s'.priv, Running));
  }

  lemma BeginCallGrows(c: Call, s: Store)
    ensures AttemptsGrow(s, BeginCall(c, s))
  {
    var s' := BeginCall(c, s);
    if Writes(c, s) {
      NewAttemptGrows(s, s');
    } else {
      assert s'.attempts == s.attempts;
    }
  }

  lemma MarkGrows(s: Store, s': Store, o: Outcome)
    requires s.attempts != [] && LastAttempt(s).outcome.Running? && s'.attempts == Mark(s.attempts, o)
    ensures AttemptsGrow(s, s')
  {
    MarkKeepsOutput(s.attempts, o);
  }

  lemma AttemptsStep(s: Step, w: World, output: Option<Doc>)
    requires StructureOk(w) && StoreOk(w.store, output) && Enabled(s, w)
    ensures AttemptsGrow(w.store, Do(s, w).store)
  {
    match s
    case Begin(_, _, _) =>
    case DoCall(writer) => BeginCallGrows(w.tasks[writer].calls[0], w.store);
    case Force(_) => BeginCallGrows(ForceWrite, w.store);
    case Sync(_) =>
    case Die =>
      if !w.store.phase.Idle? {
        MarkGrows(w.store, Do(s, w).store, Abandoned);
      }
    case DoWrite(m) => WriteGrows(m, w.store, output);
  }

  lemma WriteGrows(m: WriteStep, s: Store, output: Option<Doc>)
    requires StoreOk(s, output) && CanWrite(m, s)
    ensures AttemptsGrow(s, Write(m, s))
  {
    match m
    case MarshalFail => MarkGrows(s, Write(m, s), Failed);
    case TempFail => MarkGrows(s, Write(m, s), Failed);
    case Cleanup(_) => MarkGrows(s, Write(m, s), Failed);
    case RenameOk(now) => MarkGrows(s, Write(m, s), Succeeded(now));
    case MarshalOk =>
    case TempChunk(_) =>
    case TempOk =>
    case RenameFail =>
  }

  lemma AttemptsNext(ws: seq<World>, output: Option<Doc>, i: nat)
    requires Behaviour(ws, output) && i + 1 < |ws|
    ensures AttemptsGrow(ws[i].store, ws[i + 1].store)
  {
    StructureOverRun(ws, output, i);
    var s := StepAt(ws, output, i);
    AttemptsStep(s, ws[i], output);
  }

  lemma {:induction false} AttemptsOverRun(ws: seq<World>, output: Option<Doc>, i: nat, j: nat)
    requires Behaviour(ws, output) && i <= j < |ws|
    ensures |ws[i].store.attempts| <= |ws[j].store.attempts|
    ensures OutputIndex(ws[i].store.attempts) <= OutputIndex(ws[j].store.attempts)
    decreases j
  {
    if i < j {
      AttemptsOverRun(ws, output, i, j - 1);
      AttemptsNext(ws, output, j - 1);
    }
  }

  /** The state of the run in which a writeState began. */
  ghost predicate StartedAt(ws: seq<World>, a: nat, m: nat) {
    m < |ws| && ws[m].store.phase.Marshalling? && |ws[m].store.attempts| == a + 1
  }

  lemma NoAttemptsAtFirst(ws: seq<World>, output: Option<Doc>)
    requires Behaviour(ws, output)
    ensures ws[0].store.attempts == []
  {
    var tmp :| ws[0] == Fresh(ws[0].kinds, Start(output, tmp));
  }

  /** What an attempt sets out to write was current in the state in which it began. */
  lemma {:induction false} AttemptWasCurrent(ws: seq<World>, output: Option<Doc>, i: nat, a: nat) returns (m: nat)
    requires Behaviour(ws, output) && i < |ws| && a < |ws[i].store.attempts|
    ensures m <= i && StartedAt(ws, a, m)
    ensures ws[m].store.pub == ws[i].store.attempts[a].pub && ws[m].store.priv == ws[i].store.attempts[a].priv
    decreases i
  {
    assert i > 0 by {
      NoAttemptsAtFirst(ws, output);
    }
    if i > 0 {
      AttemptsNext(ws, output, i - 1);
      if a < |ws[i - 1].store.attempts| {
        m := AttemptWasCurrent(ws, output, i - 1, a);
      } else {
        m := i;
      }
    }
  }

  /** The file holds the initial content (m = -1), or the rendering of the maps as they were at
      state m of the run, where a writeState began. */
  ghost predicate Holds(ws: seq<World>, output: Option<Doc>, i: nat, m: int) {
    && i < |ws| && -1 <= m <= i
    && (m == -1 ==> ws[i].store.output == output)
    && (m >= 0 ==>
          && ws[m].store.phase.Marshalling?
          && ws[i].store.output == Some(Document(ws[m].store.pub, ws[m].store.priv)))
  }

  lemma {:induction false} AttemptsStay(ws: seq<World>, output: Option<Doc>, i: nat, j: nat, a: nat)
    requires Behaviour(ws, output) && i <= j < |ws| && a < |ws[i].store.attempts|
    ensures a < |ws[j].store.attempts|
    ensures ws[j].store.attempts[a].pub == ws[i].store.attempts[a].pub
    ensures ws[j].store.attempts[a].priv == ws[i].store.attempts[a].priv
    decreases j
  {
    if i < j {
      AttemptsStay(ws, output, i, j - 1, a);
      AttemptsNext(ws, output, j - 1);
    }
  }

  /** Position m of the run is where the attempt began whose document the file holds at position i;
      -1 if it still has its initial content. */
  ghost predicate StemsFrom(ws: seq<World>, i: nat, m: int)
    requires i < |ws|
  {
    var n := OutputIndex(ws[i].store.attempts);
    if n < 0 then m == -1 else 0 <= m <= i && StartedAt(ws, n, m)
  }

  lemma StemmingHolds(ws: seq<World>, output: Option<Doc>, i: nat, m: int)
    requires Behaviour(ws, output) && i < |ws| && StemsFrom(ws, i, m)
    ensures Holds(ws, output, i, m)
  {
    StructureOverRun(ws, output, i);
    var n := OutputIndex(ws[i].store.attempts);
    if n >= 0 {
      StructureOverRun(ws, output, m);
      AttemptsStay(ws, output, m, i, n);
    }
  }

  /** One state later the file stems from the same position or from a later one. */
  lemma NextPosition(ws: seq<World>, output: Option<Doc>, i: nat, m: int) returns (n: int)
    requires Behaviour(ws, output) && i + 1 < |ws| && StemsFrom(ws, i, m)
    ensures m <= n && StemsFrom(ws, i + 1, n)
    ensures OutputIndex(ws[i].store.attempts) == OutputIndex(ws[i + 1].store.attempts) ==> n == m
  {
    AttemptsOverRun(ws, output, i, i + 1);
    var a, b := OutputIndex(ws[i].store.attempts), OutputIndex(ws[i + 1].store.attempts);
    if a == b {
      n := m;
    } else {
      n := AttemptWasCurrent(ws, output, i + 1, b);
      if m >= 0 && n < m {
        AttemptsOverRun(ws, output, n, m);
      }
    }
  }

  lemma {:induction false} PositionsUpTo(ws: seq<World>, output: Option<Doc>, i: nat) returns (at: seq<int>)
    requires Behaviour(ws, output) && i < |ws|
    ensures |at| == i + 1 && forall j :: 0 <= j <= i ==> StemsFrom(ws, j, at[j])
    ensures forall j, j' :: 0 <= j <= j' <= i ==> at[j] <= at[j']
    decreases i
  {
    if i == 0 {
      NoAttemptsAtFirst(ws, output);
      at := [-1];
    } else {
      var before := PositionsUpTo(ws, output, i - 1);
      var n := NextPosition(ws, output, i - 1, before[i - 1]);
      at := before + [n];
    }
  }

  /** Crash-atomic output, as one history of the file: each state of a run, in the middle of a write,
      after failures and after crashes, is given one position of the run such that the file is whole -
      its initial content (-1) or the complete rendering of the maps at that position, where the last
      successful writeState began - and the positions never go back. */
  lemma OutputIsWholeAndMonotone(ws: seq<World>, output: Option<Doc>) returns (at: seq<int>)
    requires Behaviour(ws, output)
    ensures |at| == |ws|
    ensures forall i :: 0 <= i < |ws| ==> Holds(ws, output, i, at[i]) && StemsFrom(ws, i, at[i])
    ensures forall i, j :: 0 <= i <= j < |ws| ==> at[i] <= at[j]
  {
    at := PositionsUpTo(ws, output, |ws| - 1);
    forall i | 0 <= i < |ws| ensures Holds(ws, output, i, at[i]) {
      StemmingHolds(ws, output, i, at[i]);
    }
  }

  /** The health check over a run: between calls it is positive exactly when this process has not
      tried to write yet or its last try succeeded no longer than the threshold ago; then the file is
      the rendering of the maps with which that try began. */
  lemma HealthOverRun(ws: seq<World>, output: Option<Doc>, i: nat, now: int, threshold: int)
    requires Behaviour(ws, output) && i < |ws| && ws[i].store.phase.Idle?
    ensures var s := ws[i].store;
      Healthy(s, now, threshold) <==>
        !Tried(s) || (LastAttempt(s).outcome.Succeeded? && now - LastAttempt(s).outcome.at <= threshold)
    ensures Tried(ws[i].store) && Healthy(ws[i].store, now, threshold) ==>
      exists m :: 0 <= m <= i && Holds(ws, output, i, m) && |ws[m].store.attempts| == |ws[i].store.attempts|
  {
    var s := ws[i].store;
    StructureOverRun(ws, output, i);
    HealthReflectsHistory(s, output, now, threshold);
    if Tried(s) && Healthy(s, now, threshold) {
      var m := AttemptWasCurrent(ws, output, i, |s.attempts| - 1);
      assert Holds(ws, output, i, m);
    }
  }

  // ----- private resources -----

  function PendingPrivate(w: World): seq<Call> {
    if PrivateReconciler in w.tasks then w.tasks[PrivateReconciler].calls else []
  }

  /** The private map once the call in flight, if any, has been made. */
  function PrivSoon(w: World): PrivateEntries {
    if PendingPrivate(w) == [] then w.store.priv else PrivAfter(PendingPrivate(w)[0], w.store.priv)
  }

  ghost predicate PrivateOk(w: World) {
    && |PendingPrivate(w)| <= 1
    && forall name :: Lookup(PrivSoon(w), name) == LatestPrivate(w.log, name)
  }

  lemma PrivateBegin(w: World, e: Event, keys: seq<string>, order: seq<string>)
    requires StructureOk(w) && Enabled(Begin(e, keys, order), w) && PrivateOk(w)
    ensures PrivateOk(Do(Begin(e, keys, order), w))
  {
    var w' := Do(Begin(e, keys, order), w);
    forall name ensures Lookup(PrivSoon(w'), name) == LatestPrivate(w'.log, name) {
      assert w'.log[..|w'.log| - 1] == w.log;
      assert Lookup(PrivSoon(w), name) == LatestPrivate(w.log, name);
    }
  }

  lemma CallMaps(w: World, writer: Writer)
    requires Enabled(DoCall(writer), w)
    ensures var w', calls := Do(DoCall(writer), w), w.tasks[writer].calls;
      && w'.store.priv == PrivAfter(calls[0], w.store.priv) && w'.log == w.log
      && w'.tasks == w.tasks[writer := Task(w.tasks[writer].id, calls[1..])]
  {
  }

  lemma OnlyItsReconciler(w: World, writer: Writer)
    requires StructureOk(w) && Enabled(DoCall(writer), w) && writer != PrivateReconciler
    ensures PrivAfter(w.tasks[writer].calls[0], w.store.priv) == w.store.priv
  {
    NextCall(w, writer);
  }

  lemma PrivateCall(w: World, writer: Writer)
    requires StructureOk(w) && Enabled(DoCall(writer), w)
    requires |PendingPrivate(w)| <= 1
    ensures var w' := Do(DoCall(writer), w);
      |PendingPrivate(w')| <= 1 && PrivSoon(w') == PrivSoon(w) && w'.log == w.log
  {
    CallMaps(w, writer);
    if writer != PrivateReconciler {
      OnlyItsReconciler(w, writer);
    }
  }

  lemma PrivateSame(w: World, w': World)
    requires PrivateOk(w)
    requires PrivSoon(w') == PrivSoon(w) && |PendingPrivate(w')| <= 1 && w'.log == w.log
    ensures PrivateOk(w')
  {
    forall name ensures Lookup(PrivSoon(w'), name) == LatestPrivate(w'.log, name) {
      assert Lookup(PrivSoon(w), name) == LatestPrivate(w.log, name);
    }
  }

  lemma PrivateStep(s: Step, w: World)
    requires StructureOk(w) && Enabled(s, w) && PrivateOk(w)
    ensures PrivateOk(Do(s, w))
  {
    match s
    case Begin(e, keys, order) =>
      PrivateBegin(w, e, keys, order);
    case DoCall(writer) =>
      PrivateCall(w, writer);
      PrivateSame(w, Do(s, w));
    case Die =>
    case _ =>
      QuietStep(s, w);
      PrivateSame(w, Do(s, w));
  }

  lemma {:induction false} PrivateOverRun(ws: seq<World>, output: Option<Doc>, i: nat)
    requires Behaviour(ws, output) && i < |ws|
    ensures PrivateOk(ws[i])
    decreases i
  {
    if i > 0 {
      PrivateOverRun(ws, output, i - 1);
      StructureOverRun(ws, output, i - 1);
      var s := StepAt(ws, output, i - 1);
      PrivateStep(s, ws[i - 1]);
    }
  }

  /** The private map, unconditionally: while its reconciler is idle it holds under each name what
      the last reconciliation of any object of that name asked for, whatever the namespace; invalid
      specs and failed reads never change it. */
  lemma PrivateLastValid(ws: seq<World>, output: Option<Doc>, i: nat, name: string)
    requires Behaviour(ws, output) && i < |ws| && IdleWriter(ws[i], PrivateReconciler)
    ensures Lookup(ws[i].store.priv, name) == LatestPrivate(ws[i].log, name)
  {
    PrivateOverRun(ws, output, i);
    assert Lookup(PrivSoon(ws[i]), name) == LatestPrivate(ws[i].log, name);
  }
}
