/** Events that run one at a time: exactly which of them preserve agreement with the rebuilt store,
    and why disjoint live owners are then enough. */
module Serial {
  import opened Collections
  import opened Blueprint
  import opened Store
  import opened Events
  import opened World

  // ----- harmless events -----

  /** The event makes no call on the public map. */
  predicate LeavesPublic(e: Event) {
    e.Skipped? || e.PrivateAccepted? || e.PrivateGone? || e.PrivateSkipped?
  }

  /** The event removes this key from the store. A PublicResource that is not found takes the key
      of its name away even if it has never been accepted. */
  ghost predicate Drops(live: Live, e: Event, k: string) {
    match e
    case Deliver(_, _, entries) => Lists(live, OwnerOf(e), k) && k !in entries
    case Deleted(_, _) => Lists(live, OwnerOf(e), k)
    case Gone(_, name) => k == name
    case _ => false
  }

  /** What the store holds under a key after an event: the owner's new entry, nothing if the event
      drops the key, and otherwise what was there. */
  ghost function Expected(pub: Entries, live: Live, e: Event, k: string): Option<Resource> {
    var live' := UpdateLive(live, e);
    if Lists(live', OwnerOf(e), k) && !LeavesPublic(e) then Some(live'[OwnerOf(e)][k])
    else if Drops(live, e, k) then None
    else Lookup(pub, k)
  }

  lemma PlanEffect(e: Event, oldKeys: seq<string>, order: seq<string>, write: bool, pub: Entries, live: Live, k: string)
    requires e.Deliver? ==> forall k :: k in order <==> k in e.entries
    requires e.Deliver? || e.Deleted? ==> forall k :: k in oldKeys <==> Lists(live, OwnerOf(e), k)
    ensures Lookup(PubAfterAll(Plan(e, oldKeys, order, write), pub), k) == Expected(pub, live, e, k)
  {
    match e
    case Deliver(_, _, _) => DeliverEffect(e, oldKeys, order, write, pub, k);
    case Deleted(_, _) => RemoveStaleEffect(oldKeys, map[], pub, k);
    case Accepted(_, name, r) => assert Plan(e, oldKeys, order, write)[..0] == [];
    case Gone(_, name) => assert Plan(e, oldKeys, order, write)[..0] == [];
    case PrivateAccepted(_, name, p) => assert Plan(e, oldKeys, order, write)[..0] == [];
    case PrivateGone(_, name) => assert Plan(e, oldKeys, order, write)[..0] == [];
    case _ =>
  }

  /** This other owner relies on a value under the key that the event takes away or replaces. */
  ghost predicate Harms(live: Live, e: Event, o: Owner, k: string) {
    && o != OwnerOf(e) && Lists(live, o, k)
    && (|| Drops(live, e, k)
        || (e.Deliver? && k in e.entries && e.entries[k] != live[o][k])
        || (e.Accepted? && k == e.name && e.resource != live[o][k]))
  }

  /** Whether an event is harmless can be told before it runs. */
  ghost predicate Harmless(live: Live, e: Event) {
    forall o, k :: !Harms(live, e, o, k)
  }

  lemma HarmShows(pub: Entries, pub': Entries, live: Live, e: Event, o: Owner, k: string)
    requires Agrees(pub, live) && Harms(live, e, o, k)
    requires Lookup(pub', k) == Expected(pub, live, e, k)
    ensures !Agrees(pub', UpdateLive(live, e))
  {
    assert Lists(UpdateLive(live, e), o, k) && UpdateLive(live, e)[o][k] == live[o][k];
  }

  lemma HarmlessListed(pub: Entries, pub': Entries, live: Live, e: Event, o: Owner, k: string)
    requires Agrees(pub, live) && !Harms(live, e, o, k)
    requires Lookup(pub', k) == Expected(pub, live, e, k)
    requires Lists(UpdateLive(live, e), o, k)
    ensures Lookup(pub', k) == Some(UpdateLive(live, e)[o][k])
  {
    if o != OwnerOf(e) || LeavesPublic(e) {
      assert Lists(live, o, k);
    }
  }

  lemma NothingStrayLeft(pub: Entries, pub': Entries, live: Live, e: Event, k: string)
    requires Agrees(pub, live) && k in pub'
    requires forall o :: o in live && o.Custom? ==> live[o].Keys == {o.name}
    requires Lookup(pub', k) == Expected(pub, live, e, k)
    ensures Listed(UpdateLive(live, e), k)
  {
    var live' := UpdateLive(live, e);
    assert Lookup(pub', k).Some?;
    if !Lists(live', OwnerOf(e), k) || LeavesPublic(e) {
      var o :| o in live && k in live[o];
      assert Lists(live, o, k);
      assert o in live' && k in live'[o];
    }
  }

  /** Exactly which events preserve agreement: run on its own from a store that agrees with the live
      owners, an event leaves a store that agrees again if and only if it is harmless to the others. */
  lemma EventKeepsAgreementIff(pub: Entries, live: Live, e: Event,
                               oldKeys: seq<string>, order: seq<string>, write: bool)
    requires Agrees(pub, live)
    requires forall o :: o in live && o.Custom? ==> live[o].Keys == {o.name}
    requires e.Deliver? ==> forall k :: k in order <==> k in e.entries
    requires e.Deliver? || e.Deleted? ==> forall k :: k in oldKeys <==> Lists(live, OwnerOf(e), k)
    ensures Agrees(PubAfterAll(Plan(e, oldKeys, order, write), pub), UpdateLive(live, e)) <==> Harmless(live, e)
  {
    var pub', live' := PubAfterAll(Plan(e, oldKeys, order, write), pub), UpdateLive(live, e);
    forall k ensures Lookup(pub', k) == Expected(pub, live, e, k) {
      PlanEffect(e, oldKeys, order, write, pub, live, k);
    }
    if Harmless(live, e) {
      forall o, k | Lists(live', o, k) ensures Lookup(pub', k) == Some(live'[o][k]) {
        HarmlessListed(pub, pub', live, e, o, k);
      }
      forall k | k in pub' ensures Listed(live', k) {
        NothingStrayLeft(pub, pub', live, e, k);
      }
    } else {
      var o, k :| Harms(live, e, o, k);
      HarmShows(pub, pub', live, e, o, k);
    }
  }

  // ----- serial runs -----

  /** The step of the run at position j begins an event. */
  ghost predicate BeginsAt(ws: seq<World>, j: int) {
    0 <= j < |ws| - 1 && |ws[j + 1].log| > |ws[j].log|
  }

  /** Events run one at a time: a new one begins only when all calls of the earlier ones are made. */
  ghost predicate SerialAt(ws: seq<World>, j: int) {
    BeginsAt(ws, j) ==> Quiescent(ws[j])
  }

  /** If an event begins there, it is harmless. */
  ghost predicate HarmlessAt(ws: seq<World>, j: int) {
    BeginsAt(ws, j) ==> Harmless(ws[j].live, ws[j + 1].log[|ws[j].log|])
  }

  ghost predicate OneBusy(w: World) {
    forall writer, writer' :: !IdleWriter(w, writer) && !IdleWriter(w, writer') ==> writer == writer'
  }

  /** The public map once the writer at work has made its remaining calls. */
  ghost function PubSoon(w: World): Entries {
    if writer :| !IdleWriter(w, writer) then PubAfterAll(w.tasks[writer].calls, w.store.pub) else w.store.pub
  }

  ghost predicate AgreesSoon(w: World) {
    Agrees(PubSoon(w), w.live)
  }

  lemma PubAfterFirst(calls: seq<Call>, pub: Entries)
    requires calls != []
    ensures PubAfterAll(calls, pub) == PubAfterAll(calls[1..], PubAfter(calls[0], pub))
  {
    assert calls == [calls[0]] + calls[1..];
    PubAfterConcat([calls[0]], calls[1..], pub);
    PubAfterSnoc([], calls[0], pub);
    assert [] + [calls[0]] == [calls[0]];
  }

  /** Whoever is at work, this is what it will leave. */
  lemma PubSoonIs(w: World, writer: Writer)
    requires forall writer' :: !IdleWriter(w, writer') ==> writer' == writer
    ensures PubSoon(w) == if writer in w.tasks then PubAfterAll(w.tasks[writer].calls, w.store.pub) else w.store.pub
  {
    if IdleWriter(w, writer) {
      assert forall writer' :: IdleWriter(w, writer');
    }
  }

  lemma SoonCall(w: World, writer: Writer)
    requires Enabled(DoCall(writer), w) && OneBusy(w)
    ensures var w' := Do(DoCall(writer), w);
      OneBusy(w') && PubSoon(w') == PubSoon(w) && w'.live == w.live
  {
    var w', calls := Do(DoCall(writer), w), w.tasks[writer].calls;
    assert !IdleWriter(w, writer);
    forall writer' | !IdleWriter(w', writer') ensures writer' == writer {
      assert !IdleWriter(w, writer');
    }
    PubSoonIs(w, writer);
    PubSoonIs(w', writer);
    PubAfterFirst(calls, w.store.pub);
  }

  lemma SoonQuiet(w: World, w': World)
    requires w'.tasks == w.tasks && w'.store.pub == w.store.pub && OneBusy(w)
    ensures OneBusy(w') && PubSoon(w') == PubSoon(w)
  {
    forall writer ensures IdleWriter(w', writer) <==> IdleWriter(w, writer) {
    }
    if writer :| !IdleWriter(w, writer) {
      PubSoonIs(w, writer);
      PubSoonIs(w', writer);
    }
  }

  lemma SoonBegin(w: World, e: Event, keys: seq<string>, order: seq<string>)
    requires StructureOk(w) && Enabled(Begin(e, keys, order), w) && Quiescent(w)
    ensures var w' := Do(Begin(e, keys, order), w);
      OneBusy(w') && (AgreesSoon(w) ==> (AgreesSoon(w') <==> Harmless(w.live, e)))
  {
    var w', oldKeys := Do(Begin(e, keys, order), w), OldKeys(w, OwnerOf(e));
    forall writer | !IdleWriter(w', writer) ensures writer == WriterOf(e) {
      assert IdleWriter(w, writer);
    }
    PubSoonIs(w', WriterOf(e));
    if AgreesSoon(w) {
      assert forall writer :: IdleWriter(w, writer);
      assert e.Deliver? || e.Deleted? ==> forall k :: k in oldKeys <==> Lists(w.live, OwnerOf(e), k);
      EventKeepsAgreementIff(w.store.pub, w.live, e, oldKeys, order, WriteFlag(w, e));
    }
  }

  /** A step preserves agreement-to-be if and only if it does not begin a harmful event. */
  lemma SoonNext(ws: seq<World>, output: Option<Doc>, j: nat)
    requires Behaviour(ws, output) && j + 1 < |ws| && SerialAt(ws, j) && OneBusy(ws[j])
    ensures OneBusy(ws[j + 1])
    ensures AgreesSoon(ws[j]) ==> (AgreesSoon(ws[j + 1]) <==> HarmlessAt(ws, j))
    ensures AliveAt(ws, j) && !BeginsAt(ws, j) ==> (AgreesSoon(ws[j + 1]) <==> AgreesSoon(ws[j]))
  {
    StructureOverRun(ws, output, j);
    var s := StepAt(ws, output, j);
    var w, w' := ws[j], ws[j + 1];
    if AliveAt(ws, j) && !BeginsAt(ws, j) {
      var s' :| Enabled(s', w) && !s'.Die? && w' == Do(s', w);
      SoonOther(s', w);
    }
    if s.Begin? {
      SoonBegin(w, s.e, s.keys, s.order);
    } else if !s.Die? {
      SoonOther(s, w);
    }
  }

  lemma SoonOther(s: Step, w: World)
    requires Enabled(s, w) && OneBusy(w) && !s.Begin? && !s.Die?
    ensures OneBusy(Do(s, w)) && PubSoon(Do(s, w)) == PubSoon(w) && Do(s, w).live == w.live
    ensures |Do(s, w).log| == |w.log|
  {
    if s.DoCall? {
      SoonCall(w, s.writer);
    } else {
      QuietStep(s, w);
      SoonQuiet(w, Do(s, w));
    }
  }

  lemma {:induction false} OneBusyOverRun(ws: seq<World>, output: Option<Doc>, a: nat, i: nat)
    requires Behaviour(ws, output) && a <= i < |ws| && Quiescent(ws[a])
    requires forall j :: a <= j < i ==> SerialAt(ws, j)
    ensures OneBusy(ws[i])
    decreases i
  {
    if a < i {
      OneBusyOverRun(ws, output, a, i - 1);
      SoonNext(ws, output, i - 1);
    }
  }

  /** The exact condition for serial runs, crashes included: from a state between events in which the
      store agrees with the live owners, every later state agrees with them once the event in
      progress is done, if and only if every event that begins is harmless. */
  lemma {:induction false} SerialExactly(ws: seq<World>, output: Option<Doc>, a: nat, i: nat)
    requires Behaviour(ws, output) && a <= i < |ws|
    requires Quiescent(ws[a]) && Agrees(ws[a].store.pub, ws[a].live)
    requires forall j :: a <= j < i ==> SerialAt(ws, j)
    ensures (forall j :: a <= j <= i ==> AgreesSoon(ws[j])) <==> (forall j :: a <= j < i ==> HarmlessAt(ws, j))
    decreases i
  {
    if a < i {
      SerialExactly(ws, output, a, i - 1);
      OneBusyOverRun(ws, output, a, i - 1);
      SoonNext(ws, output, i - 1);
    }
  }

  /** A disagreement to come shows between events, unless the process crashes first. */
  lemma {:induction false} DisagreementShows(ws: seq<World>, output: Option<Doc>, a: nat, j: nat, i: nat)
    returns (q: nat)
    requires Behaviour(ws, output) && a <= j <= i < |ws| && Quiescent(ws[a]) && Quiescent(ws[i])
    requires forall n :: a <= n < i ==> SerialAt(ws, n) && AliveAt(ws, n)
    requires !AgreesSoon(ws[j])
    ensures j <= q <= i && Quiescent(ws[q]) && !Agrees(ws[q].store.pub, ws[q].live)
    decreases i - j
  {
    if Quiescent(ws[j]) {
      q := j;
    } else {
      assert SerialAt(ws, j);
      OneBusyOverRun(ws, output, a, j);
      SoonNext(ws, output, j);
      q := DisagreementShows(ws, output, a, j + 1, i);
    }
  }

  ghost predicate AgreesBetweenEvents(w: World) {
    Quiescent(w) ==> Agrees(w.store.pub, w.live)
  }

  /** Without crashes this can be said of the states between events alone: there the store always
      agrees with the live owners if and only if every event that begins is harmless. */
  lemma SerialAgreesIff(ws: seq<World>, output: Option<Doc>, a: nat, i: nat)
    requires Behaviour(ws, output) && a <= i < |ws| && Quiescent(ws[i])
    requires Quiescent(ws[a]) && Agrees(ws[a].store.pub, ws[a].live)
    requires forall j :: a <= j < i ==> SerialAt(ws, j) && AliveAt(ws, j)
    ensures (forall j :: a <= j <= i ==> AgreesBetweenEvents(ws[j])) <==> (forall j :: a <= j < i ==> HarmlessAt(ws, j))
  {
    SerialExactly(ws, output, a, i);
    if forall j :: a <= j < i ==> HarmlessAt(ws, j) {
      forall j | a <= j <= i ensures AgreesBetweenEvents(ws[j]) {
        assert AgreesSoon(ws[j]);
      }
    } else {
      var j :| a <= j <= i && !AgreesSoon(ws[j]);
      var q := DisagreementShows(ws, output, a, j, i);
      assert !AgreesBetweenEvents(ws[q]);
    }
  }

  // ----- disjoint owners are one way to be harmless -----

  /** A PublicResource that is reported missing does not take its name away from another owner. */
  ghost predicate NotStray(live: Live, e: Event) {
    e.Gone? ==> forall o :: Lists(live, o, e.name) ==> o == OwnerOf(e)
  }

  lemma DisjointIsHarmless(live: Live, e: Event)
    requires LiveDisjoint(live) && LiveDisjoint(UpdateLive(live, e)) && NotStray(live, e)
    ensures Harmless(live, e)
  {
    var live', me := UpdateLive(live, e), OwnerOf(e);
    forall o, k ensures !Harms(live, e, o, k) {
      if o != me && Lists(live, o, k) {
        assert Lists(live', o, k);
        assert (e.Deliver? && k in e.entries) || (e.Accepted? && k == e.name) ==> Lists(live', me, k);
      }
    }
  }

  ghost predicate DisjointAt(ws: seq<World>, j: int) {
    BeginsAt(ws, j) ==>
      && LiveDisjoint(ws[j].live) && LiveDisjoint(ws[j + 1].live)
      && NotStray(ws[j].live, ws[j + 1].log[|ws[j].log|])
  }

  lemma DisjointNext(ws: seq<World>, output: Option<Doc>, j: nat)
    requires Behaviour(ws, output) && j + 1 < |ws| && DisjointAt(ws, j)
    ensures HarmlessAt(ws, j)
  {
    var s := StepAt(ws, output, j);
    if BeginsAt(ws, j) {
      assert s.Begin?;
      DisjointIsHarmless(ws[j].live, s.e);
    }
  }

  /** When events run one at a time, no two live owners list a common key and no stray not-found
      comes in, the store between events is the rebuilt one, after crashes too. */
  lemma SerialRunRefinesRebuild(ws: seq<World>, output: Option<Doc>, i: nat)
    requires Behaviour(ws, output) && i < |ws| && Quiescent(ws[i])
    requires forall j :: 0 <= j < i ==> SerialAt(ws, j) && DisjointAt(ws, j)
    ensures ws[i].store.pub == Rebuild(ws[i].live)
  {
    forall j | 0 <= j < i ensures HarmlessAt(ws, j) {
      DisjointNext(ws, output, j);
    }
    SerialExactly(ws, output, 0, i);
    assert AgreesSoon(ws[i]);
    AgreeingIsRebuilding(ws[i].store.pub, ws[i].live);
  }
}
