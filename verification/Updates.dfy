/** What the other writers, the file and its readers can see while an object is being updated. */
module Updates {
  import opened Collections
  import opened Blueprint
  import opened Store
  import opened Events
  import opened World
  import opened Refinement
  import opened Persistence

  /** Event number `id` of the log is still the one its writer is working on. */
  ghost predicate InEvent(id: nat, e: Event, w: World) {
    && id < |w.log| && w.log[id] == e
    && WriterOf(e) in w.tasks
    && w.tasks[WriterOf(e)].id == id
  }

  ghost predicate OnlyClaimedBy(w: World, o: Owner, k: string) {
    forall o' :: Claims(w, o', k) ==> o' == o
  }

  /** Position a of the run is the beginning of the delivery of an object, and at position i that
      event is still in progress. */
  ghost predicate Updating(ws: seq<World>, output: Option<Doc>, a: nat, i: nat, b: Step) {
    && Behaviour(ws, output) && a < i < |ws|
    && b.Begin? && b.e.Deliver? && Enabled(b, ws[a]) && ws[a + 1] == Do(b, ws[a])
    && forall j :: a < j <= i ==> InEvent(|ws[a].log|, b.e, ws[j])
  }

  /** While the update runs, nobody else claims the key. */
  ghost predicate Undisturbed(ws: seq<World>, a: nat, i: nat, o: Owner, k: string) {
    i < |ws| && forall j :: a < j < i ==> OnlyClaimedBy(ws[j], o, k)
  }

  // ----- no flapping -----

  /** The key holds its value from before the update or its value from after it, and the owner lists
      the new entries. */
  ghost predicate OldOrNew(w: World, e: Event, k: string, before: Resource)
    requires e.Deliver? && k in e.entries
  {
    && Lookup(w.live, OwnerOf(e)) == Some(e.entries)
    && (Lookup(w.store.pub, k) == Some(before) || Lookup(w.store.pub, k) == Some(e.entries[k]))
  }

  lemma FlapCall(w: World, writer: Writer, e: Event, k: string, before: Resource)
    requires StructureOk(w) && Enabled(DoCall(writer), w)
    requires e.Deliver? && k in e.entries && OldOrNew(w, e, k, before) && OnlyClaimedBy(w, OwnerOf(e), k)
    ensures OldOrNew(Do(DoCall(writer), w), e, k, before)
  {
    NextCall(w, writer);
    var c, o := w.tasks[writer].calls[0], OwnerOf(w.log[w.tasks[writer].id]);
    CallMapsPub(w, writer);
    if IsPublic(c) && c.key == k {
      assert Claims(w, o, k);
    }
  }

  lemma FlapStep(s: Step, w: World, id: nat, e: Event, k: string, before: Resource)
    requires StructureOk(w) && Enabled(s, w)
    requires InEvent(id, e, w) && InEvent(id, e, Do(s, w))
    requires e.Deliver? && k in e.entries && OldOrNew(w, e, k, before) && OnlyClaimedBy(w, OwnerOf(e), k)
    ensures OldOrNew(Do(s, w), e, k, before)
  {
    match s
    case Begin(e', _, _) =>
      assert WriterOf(e') != WriterOf(e);
    case DoCall(writer) =>
      FlapCall(w, writer, e, k, before);
    case Die =>
    case _ =>
      QuietStep(s, w);
  }

  lemma FlapNext(ws: seq<World>, output: Option<Doc>, a: nat, i: nat, b: Step, k: string, before: Resource)
    requires Updating(ws, output, a, i + 1, b) && a < i
    requires k in b.e.entries && OldOrNew(ws[i], b.e, k, before) && OnlyClaimedBy(ws[i], OwnerOf(b.e), k)
    ensures OldOrNew(ws[i + 1], b.e, k, before)
  {
    StructureOverRun(ws, output, i);
    var s := StepAt(ws, output, i);
    assert InEvent(|ws[a].log|, b.e, ws[i]) && InEvent(|ws[a].log|, b.e, ws[i + 1]);
    FlapStep(s, ws[i], |ws[a].log|, b.e, k, before);
  }

  lemma FlapStart(ws: seq<World>, output: Option<Doc>, a: nat, b: Step, k: string)
    requires Updating(ws, output, a, a + 1, b)
    requires k in b.e.entries && k in ws[a].store.pub
    ensures OldOrNew(ws[a + 1], b.e, k, ws[a].store.pub[k])
  {
  }

  lemma ShorterUpdate(ws: seq<World>, output: Option<Doc>, a: nat, i: nat, b: Step, k: string)
    requires Updating(ws, output, a, i, b) && Undisturbed(ws, a, i, OwnerOf(b.e), k) && a + 1 < i
    ensures Updating(ws, output, a, i - 1, b) && Undisturbed(ws, a, i - 1, OwnerOf(b.e), k)
    ensures OnlyClaimedBy(ws[i - 1], OwnerOf(b.e), k)
  {
  }

  /** No flapping: while an object is being updated, a key that it lists before and after, and that
      nobody else claims, is in the store at every moment - between any two calls of the update and
      of any other writer - with its old value or its new one. */
  lemma {:induction false} NoFlapping(ws: seq<World>, output: Option<Doc>, a: nat, i: nat, b: Step, k: string)
    requires Updating(ws, output, a, i, b) && Undisturbed(ws, a, i, OwnerOf(b.e), k)
    requires k in b.e.entries && Lists(ws[a].live, OwnerOf(b.e), k) && k in ws[a].store.pub
    ensures OldOrNew(ws[i], b.e, k, ws[a].store.pub[k])
    decreases i
  {
    if i == a + 1 {
      FlapStart(ws, output, a, b, k);
    } else {
      ShorterUpdate(ws, output, a, i, b, k);
      NoFlapping(ws, output, a, i - 1, b, k);
      FlapNext(ws, output, a, i - 1, b, k, ws[a].store.pub[k]);
    }
  }

  /** Hence every document that anyone sets out to write during the update contains the key. */
  lemma SnapshotsKeepKey(ws: seq<World>, output: Option<Doc>, a: nat, i: nat, b: Step, k: string, n: nat)
    requires Updating(ws, output, a, i, b) && Undisturbed(ws, a, i, OwnerOf(b.e), k)
    requires k in b.e.entries && Lists(ws[a].live, OwnerOf(b.e), k) && k in ws[a].store.pub
    requires |ws[a].store.attempts| <= n < |ws[i].store.attempts|
    ensures k in ws[i].store.attempts[n].pub
    ensures ws[i].store.attempts[n].pub[k] in [ws[a].store.pub[k], b.e.entries[k]]
  {
    var m := AttemptWasCurrent(ws, output, i, n);
    if m <= a {
      AttemptsOverRun(ws, output, m, a);
    }
    NoFlapping(ws, output, a, m, b, k);
  }

  // ----- resynchronisation -----

  /** The object is delivered again unchanged: it is live with just these entries, its keys were settled
      once and no call that has spoiled them since is left unhealed, and nobody is about to touch them. */
  ghost predicate Unchanged(ws: seq<World>, output: Option<Doc>, i: nat, e: Event) {
    && Behaviour(ws, output) && i < |ws|
    && e.Deliver? && e.entries != map[] && Lookup(ws[i].live, OwnerOf(e)) == Some(e.entries)
    && forall k :: k in e.entries ==> QuietKey(ws, i, k)
  }

  ghost predicate QuietKey(ws: seq<World>, i: nat, k: string) {
    && i < |ws|
    && (exists a :: 0 <= a <= i && Settled(ws[a], k) && Intact(ws, a, i, k))
    && (forall o :: !PendingKey(ws[i], o, k))
  }

  lemma UnchangedIsStored(ws: seq<World>, output: Option<Doc>, i: nat, e: Event, k: string)
    requires Unchanged(ws, output, i, e) && k in e.entries
    ensures Lists(ws[i].live, OwnerOf(e), k)
    ensures Lookup(ws[i].store.pub, k) == Some(e.entries[k])
  {
    assert QuietKey(ws, i, k);
    var a :| 0 <= a <= i && Settled(ws[a], k) && Intact(ws, a, i, k);
    RefinesAtKey(ws, output, a, i, k);
    assert Lists(ws[i].live, OwnerOf(e), k);
  }

  /** A call that puts what the object already has under its key. */
  ghost predicate PutsAgain(e: Event, c: Call)
    requires e.Deliver?
  {
    c.Put? && c.key in e.entries && c.resource == e.entries[c.key]
  }

  lemma UnchangedKeys(ws: seq<World>, output: Option<Doc>, i: nat, e: Event)
    requires Unchanged(ws, output, i, e)
    ensures Enumerates(OldKeys(ws[i], OwnerOf(e)), e.entries.Keys)
  {
    StructureOverRun(ws, output, i);
  }

  lemma ResyncCall(ws: seq<World>, output: Option<Doc>, i: nat, e: Event, order: seq<string>, c: Call)
    requires Unchanged(ws, output, i, e) && Enumerates(order, e.entries.Keys)
    requires c in Plan(e, OldKeys(ws[i], OwnerOf(e)), order, WriteFlag(ws[i], e))
    ensures PutsAgain(e, c) && BeginCall(c, ws[i].store) == ws[i].store
  {
    UnchangedKeys(ws, output, i, e);
    PlanExact(e, OldKeys(ws[i], OwnerOf(e)), order, WriteFlag(ws[i], e), c);
    UnchangedIsStored(ws, output, i, e, c.key);
    IneffectiveCall(c, ws[i].store);
  }

  /** Processing an unchanged accepted object again changes no map and lists the same keys, and every
      call it is going to make would leave the store, the file and the write history alone. */
  lemma ResyncBegins(ws: seq<World>, output: Option<Doc>, i: nat, e: Event, keys: seq<string>, order: seq<string>)
    requires Unchanged(ws, output, i, e) && Enabled(Begin(e, keys, order), ws[i])
    ensures var w, w', o := ws[i], Do(Begin(e, keys, order), ws[i]), OwnerOf(e);
      && w'.store == w.store && w'.live == w.live
      && Elements(OldKeys(w', o)) == Elements(OldKeys(w, o)) == e.entries.Keys
      && forall c :: c in w'.tasks[WriterOf(e)].calls ==> PutsAgain(e, c) && BeginCall(c, w.store) == w.store
  {
    var w, w' := ws[i], Do(Begin(e, keys, order), ws[i]);
    UnchangedKeys(ws, output, i, e);
    forall c | c in w'.tasks[WriterOf(e)].calls ensures PutsAgain(e, c) && BeginCall(c, w.store) == w.store {
      ResyncCall(ws, output, i, e, order, c);
    }
    assert w.live[OwnerOf(e) := e.entries] == w.live;
  }

  lemma CallsShrink(s: Step, w: World, id: nat, e: Event, c: Call)
    requires Enabled(s, w) && InEvent(id, e, w) && InEvent(id, e, Do(s, w)) && id < |w.log|
    requires c in Do(s, w).tasks[WriterOf(e)].calls
    ensures c in w.tasks[WriterOf(e)].calls
  {
    match s
    case DoCall(writer) =>
      assert forall x :: x in w.tasks[writer].calls[1..] ==> x in w.tasks[writer].calls;
    case Begin(e', _, _) =>
      assert WriterOf(e') != WriterOf(e);
    case _ =>
  }

  lemma CallsShrinkNext(ws: seq<World>, output: Option<Doc>, a: nat, i: nat, b: Step, c: Call)
    requires Updating(ws, output, a, i + 1, b) && a < i
    requires WriterOf(b.e) in ws[i + 1].tasks && c in ws[i + 1].tasks[WriterOf(b.e)].calls
    ensures Updating(ws, output, a, i, b) && WriterOf(b.e) in ws[i].tasks && c in ws[i].tasks[WriterOf(b.e)].calls
  {
    assert InEvent(|ws[a].log|, b.e, ws[i]) && InEvent(|ws[a].log|, b.e, ws[i + 1]);
    var s := StepAt(ws, output, i);
    CallsShrink(s, ws[i], |ws[a].log|, b.e, c);
  }

  /** The calls an event still has to make are among those it began with. */
  lemma {:induction false} CallsFromStart(ws: seq<World>, output: Option<Doc>, a: nat, i: nat, b: Step, c: Call)
    requires Updating(ws, output, a, i, b)
    requires WriterOf(b.e) in ws[i].tasks && c in ws[i].tasks[WriterOf(b.e)].calls
    ensures WriterOf(b.e) in ws[a + 1].tasks && c in ws[a + 1].tasks[WriterOf(b.e)].calls
    decreases i
  {
    if i > a + 1 {
      CallsShrinkNext(ws, output, a, i - 1, b, c);
      CallsFromStart(ws, output, a, i - 1, b, c);
    }
  }

  /** And so it stays until its last call, whatever the other writers do meanwhile to other keys: no
      call of a resynchronised object has any effect, and none writes the file. */
  lemma ResyncIsNoOp(ws: seq<World>, output: Option<Doc>, a: nat, i: nat, b: Step)
    requires Updating(ws, output, a, i, b) && Unchanged(ws, output, a, b.e)
    requires forall k :: k in b.e.entries ==> Undisturbed(ws, a, i, OwnerOf(b.e), k)
    requires Enabled(DoCall(WriterOf(b.e)), ws[i])
    ensures Do(DoCall(WriterOf(b.e)), ws[i]).store == ws[i].store
  {
    ResyncBegins(ws, output, a, b.e, b.keys, b.order);
    assert InEvent(|ws[a].log|, b.e, ws[a + 1]) && InEvent(|ws[a].log|, b.e, ws[i]);
    var c := ws[i].tasks[WriterOf(b.e)].calls[0];
    CallsFromStart(ws, output, a, i, b, c);
    UnchangedIsStored(ws, output, a, b.e, c.key);
    NoFlapping(ws, output, a, i, b, c.key);
    IneffectiveCall(c, ws[i].store);
  }
}
