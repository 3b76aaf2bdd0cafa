/** The objects as a whole: while their methods are called one after the other, the fields of the
    controllers and of the Manager are at every moment those of a state of the step system, and each
    call extends a run of it. Hence whatever is proved about runs holds of the objects. */
module ObjectRuns {
  import opened Collections
  import opened Blueprint
  import opened Objects
  import opened Store
  import opened Events
  import opened World
  import opened Sources
  import opened ManagerObject
  import opened ControllerObject
  import opened HandlerRuns

  /** The controller's index and flag are those of its kind in the state. */
  ghost predicate Shows(c: Controller, w: World)
    reads c
  {
    && (c.synced <==> c.kind in w.synced)
    && SameIndex(c.kind, c.resourceKeys, w.index)
  }

  /** The objects are in the state w, and none of their methods is running. */
  ghost predicate Represents(cs: set<Controller>, m: Manager, w: World)
    reads cs, m
  {
    && w.store == m.State() && w.holder.None? && Quiescent(w)
    && (forall c :: c in cs ==> c.manager == m && c.kind in w.kinds && Shows(c, w))
    && (forall c, c' :: c in cs && c' in cs && c.kind == c'.kind ==> c == c')
  }

  function Last(run: seq<World>): World
    requires run != []
  {
    run[|run| - 1]
  }

  /** The objects are in the state to which the run has led. */
  ghost predicate Tracks(run: seq<World>, cs: set<Controller>, m: Manager)
    reads cs, m
  {
    Behaviour(run, m.initial) && Represents(cs, m, Last(run))
  }

  lemma TrackedIsValid(run: seq<World>, cs: set<Controller>, m: Manager)
    requires Tracks(run, cs, m)
    ensures m.Valid() && StructureOk(Last(run))
  {
    StructureOverRun(run, m.initial, |run| - 1);
  }

  lemma ExtendRun(run: seq<World>, output: Option<Doc>, ws: seq<World>, w': World) returns (longer: seq<World>)
    requires Behaviour(run, output) && Chain(ws, Last(run), w')
    ensures Behaviour(longer, output) && run <= longer && Last(longer) == w'
  {
    longer := run + ws[1..];
    forall i | 0 <= i < |longer| - 1 ensures NextAt(longer, i) {
      if i < |run| - 1 {
        assert NextAt(run, i);
      } else {
        assert longer[i] == ws[i - (|run| - 1)];
        assert AliveAt(ws, i - (|run| - 1));
      }
    }
  }

  /** What the end of an event leaves as it was or must have become. */
  ghost predicate AfterEvent(w: World, b: Step, w': World)
    requires b.Begin?
  {
    && w'.kinds == w.kinds && w'.synced == w.synced && w'.log == w.log + [b.e]
    && w'.index == UpdateIndex(w.index, b.e, b.keys)
    && w'.holder.None? && Quiescent(w')
  }

  /** Handling one event extends the run. */
  lemma EventRuns(run: seq<World>, output: Option<Doc>, b: Step, trace: seq<Done>) returns (longer: seq<World>)
    requires Behaviour(run, output) && Quiescent(Last(run)) && Last(run).holder.None?
    requires b.Begin? && ((b.e.Deliver? || b.e.Deleted?) ==> b.e.kind in Last(run).kinds)
    requires b.e.Deliver? ==> Enumerates(b.keys, b.e.entries.Keys) && Enumerates(b.order, b.e.entries.Keys)
    requires TraceOk(trace, Last(run).store)
    requires Calls(trace) == Plan(b.e, OldKeys(Last(run), OwnerOf(b.e)), b.order, WriteFlag(Last(run), b.e))
    ensures Behaviour(longer, output) && run <= longer
    ensures AfterEvent(Last(run), b, Last(longer)) && Last(longer).store == RunTrace(trace, Last(run).store)
  {
    StructureOverRun(run, output, |run| - 1);
    assert IdleWriter(Last(run), WriterOf(b.e));
    var ws, w' := HandlerIsRun(Last(run), b, trace);
    longer := ExtendRun(run, output, ws, w');
  }

  /** An index of a controller and the entries of its kind in the common one. */
  ghost predicate SameIndex(kind: Kind, resourceKeys: map<string, seq<string>>, index: map<Owner, seq<string>>) {
    forall objKey :: Lookup(resourceKeys, objKey) == Lookup(index, Object(kind, objKey))
  }

  /** Handling an object changes both in the same way. */
  lemma IndexFollows(e: Event, before: map<string, seq<string>>, after: map<string, seq<string>>,
                     index: map<Owner, seq<string>>, keys: seq<string>)
    requires (e.Deliver? || e.Deleted?) && SameIndex(e.kind, before, index)
    requires after - {e.objKey} == before - {e.objKey}
    requires Lookup(after, e.objKey) == if e.Deleted? || e.entries == map[] then None else Some(keys)
    ensures SameIndex(e.kind, after, UpdateIndex(index, e, keys))
  {
    forall k ensures Lookup(after, k) == Lookup(UpdateIndex(index, e, keys), Object(e.kind, k)) {
      assert Lookup(before, k) == Lookup(index, Object(e.kind, k));
      assert k != e.objKey ==> Lookup(after, k) == Lookup(after - {e.objKey}, k) == Lookup(before - {e.objKey}, k);
    }
  }

  /** An event of another kind, or of a reconciler, does not touch it. */
  lemma IndexStays(kind: Kind, resourceKeys: map<string, seq<string>>, index: map<Owner, seq<string>>,
                   e: Event, keys: seq<string>)
    requires SameIndex(kind, resourceKeys, index)
    requires (e.Deliver? || e.Deleted?) ==> e.kind != kind
    ensures SameIndex(kind, resourceKeys, UpdateIndex(index, e, keys))
  {
    forall k ensures Lookup(UpdateIndex(index, e, keys), Object(kind, k)) == Lookup(resourceKeys, k) {
      assert Lookup(resourceKeys, k) == Lookup(index, Object(kind, k));
    }
  }

  lemma OldKeysAgree(c: Controller, w: World, objKey: string)
    requires Shows(c, w)
    ensures c.OldKeys(objKey) == OldKeys(w, Object(c.kind, objKey))
  {
    assert Lookup(c.resourceKeys, objKey) == Lookup(w.index, Object(c.kind, objKey));
  }

  /** When a controller has handled an event of its own, all controllers are as the new state says. */
  lemma Handled(longer: seq<World>, cs: set<Controller>, m: Manager, c: Controller, w: World, b: Step,
                before: map<string, seq<string>>)
    requires c in cs && b.Begin? && (b.e.Deliver? || b.e.Deleted?) && b.e.kind == c.kind
    requires Behaviour(longer, m.initial) && AfterEvent(w, b, Last(longer)) && Last(longer).store == m.State()
    requires forall c' :: c' in cs ==> c'.manager == m && c'.kind in w.kinds
    requires forall c', c'' :: c' in cs && c'' in cs && c'.kind == c''.kind ==> c' == c''
    requires forall c' :: c' in cs && c' != c ==> Shows(c', w)
    requires (c.synced <==> c.kind in w.synced) && SameIndex(c.kind, before, w.index)
    requires c.resourceKeys - {b.e.objKey} == before - {b.e.objKey}
    requires Lookup(c.resourceKeys, b.e.objKey) == if b.e.Deleted? || b.e.entries == map[] then None else Some(b.keys)
    ensures Tracks(longer, cs, m)
  {
    forall c' | c' in cs ensures Shows(c', Last(longer)) {
      if c' == c {
        IndexFollows(b.e, before, c.resourceKeys, w.index, b.keys);
      } else {
        IndexStays(c'.kind, c'.resourceKeys, w.index, b.e, b.keys);
      }
    }
  }

  /** The plan of a reconciliation depends on nothing but its event. */
  lemma ReconcilerPlan(e: Event, oldKeys: seq<string>, w: World)
    requires !e.Deliver? && !e.Deleted?
    ensures WriteFlag(w, e) && Plan(e, oldKeys, [], true) == Plan(e, [], [], true)
  {
  }

  lemma AllStay(cs: set<Controller>, w: World, b: Step, w': World)
    requires b.Begin? && AfterEvent(w, b, w') && !b.e.Deliver? && !b.e.Deleted?
    requires forall c :: c in cs ==> Shows(c, w)
    ensures forall c :: c in cs ==> Shows(c, w')
  {
    forall c | c in cs ensures Shows(c, w') {
      IndexStays(c.kind, c.resourceKeys, w.index, b.e, b.keys);
    }
  }

  /** A new process: nothing but what the previous one left in the two files. */
  method StartUp(kinds: seq<Kind>, cfg: Config, output: Option<Doc>, tmp: Option<Doc>)
    returns (m: Manager, cs: set<Controller>, ghost run: seq<World>)
    requires NoRepeats(kinds)
    ensures Tracks(run, cs, m) && m.initial == output && Last(run) == Fresh(Elements(kinds), Start(output, tmp))
    ensures fresh(m) && fresh(cs)
    ensures forall kind :: kind in kinds <==> exists c :: c in cs && c.kind == kind
  {
    m := new Manager(output, tmp);
    cs := {};
    for i := 0 to |kinds|
      invariant fresh(cs) && m.State() == Start(output, tmp)
      invariant forall c :: c in cs ==> c.manager == m && c.resourceKeys == map[] && !c.synced && c.kind in kinds[..i]
      invariant forall j :: 0 <= j < i ==> exists c :: c in cs && c.kind == kinds[j]
      invariant forall c, c' :: c in cs && c' in cs && c.kind == c'.kind ==> c == c'
    {
      var c := new Controller(kinds[i], cfg, m);
      cs := cs + {c};
    }
    run := [Fresh(Elements(kinds), Start(output, tmp))];
  }

  /** An object is added or updated. */
  method AddOrUpdateObject(ghost run: seq<World>, cs: set<Controller>, m: Manager, c: Controller,
                           obj: Watched, secret: SecretData)
    returns (ghost longer: seq<World>)
    requires Tracks(run, cs, m) && c in cs && obj.Kind() == c.kind
    modifies c`resourceKeys, m
    ensures Tracks(longer, cs, m) && run <= longer
    ensures Last(longer).log == Last(run).log + [DeliverEvent(obj, secret, c.cfg)]
  {
    ghost var w, e := Last(run), DeliverEvent(obj, secret, c.cfg);
    TrackedIsValid(run, cs, m);
    OldKeysAgree(c, w, e.objKey);
    ghost var trace, order := c.OnDeliver(obj, secret);
    ghost var keys := c.OldKeys(obj.Meta().ObjKey());
    longer := EventRuns(run, m.initial, Begin(e, keys, order), trace);
    Handled(longer, cs, m, c, w, Begin(e, keys, order), old(c.resourceKeys));
  }

  /** An object is deleted. */
  method DeleteObject(ghost run: seq<World>, cs: set<Controller>, m: Manager, c: Controller,
                      namespace: string, name: string)
    returns (ghost longer: seq<World>)
    requires Tracks(run, cs, m) && c in cs
    modifies c`resourceKeys, m
    ensures Tracks(longer, cs, m) && run <= longer
    ensures Last(longer).log == Last(run).log + [Deleted(c.kind, namespace + "/" + name)]
  {
    ghost var w, e := Last(run), Deleted(c.kind, namespace + "/" + name);
    TrackedIsValid(run, cs, m);
    OldKeysAgree(c, w, e.objKey);
    ghost var trace := c.OnDelete(namespace, name);
    longer := EventRuns(run, m.initial, Begin(e, [], []), trace);
    Handled(longer, cs, m, c, w, Begin(e, [], []), old(c.resourceKeys));
  }

  method ReconcilePublicResource(ghost run: seq<World>, cs: set<Controller>, m: Manager, r: PublicReconcilerObject,
                         namespace: string, name: string, fetched: Fetch<PublicSpec>, secret: SecretData)
    returns (ok: bool, ghost longer: seq<World>)
    requires Tracks(run, cs, m) && r.manager == m
    modifies m
    ensures Tracks(longer, cs, m) && run <= longer
    ensures Last(longer).log == Last(run).log + [PublicEvent(namespace, name, fetched, secret, r.siteId)]
  {
    ghost var w, e := Last(run), PublicEvent(namespace, name, fetched, secret, r.siteId);
    TrackedIsValid(run, cs, m);
    ghost var trace;
    ok, trace := r.Reconcile(namespace, name, fetched, secret);
    ReconcilerPlan(e, OldKeys(w, OwnerOf(e)), w);
    longer := EventRuns(run, m.initial, Begin(e, [], []), trace);
    AllStay(cs, w, Begin(e, [], []), Last(longer));
  }

  method ReconcilePrivateResource(ghost run: seq<World>, cs: set<Controller>, m: Manager, r: PrivateReconcilerObject,
                          namespace: string, name: string, fetched: Fetch<PrivateSpec>, isCidr: string -> bool)
    returns (ok: bool, ghost longer: seq<World>)
    requires Tracks(run, cs, m) && r.manager == m
    modifies m
    ensures Tracks(longer, cs, m) && run <= longer
    ensures Last(longer).log == Last(run).log + [PrivateEvent(namespace, name, fetched, isCidr, r.siteId)]
  {
    ghost var w, e := Last(run), PrivateEvent(namespace, name, fetched, isCidr, r.siteId);
    TrackedIsValid(run, cs, m);
    ghost var trace;
    ok, trace := r.Reconcile(namespace, name, fetched, isCidr);
    ReconcilerPlan(e, OldKeys(w, OwnerOf(e)), w);
    longer := EventRuns(run, m.initial, Begin(e, [], []), trace);
    AllStay(cs, w, Begin(e, [], []), Last(longer));
  }

  /** The caches have synced: Run forces a write and then sets the flag. It does so once. */
  method FinishSynchronization(ghost run: seq<World>, cs: set<Controller>, m: Manager, c: Controller)
    returns (ghost longer: seq<World>)
    requires Tracks(run, cs, m) && c in cs && c.kind !in Last(run).forced && !c.synced
    modifies c`synced, m
    ensures Tracks(longer, cs, m) && run <= longer
    ensures Last(longer).log == Last(run).log && c.synced
  {
    ghost var w := Last(run);
    TrackedIsValid(run, cs, m);
    ghost var end := c.FinishRun();
    ghost var ws, w' := FinishIsRun(w, c.kind, end);
    longer := ExtendRun(run, m.initial, ws, w');
    forall writer ensures IdleWriter(w', writer) {
      assert IdleWriter(w, writer);
    }
  }
}
