/** The incremental index refines "rebuild everything": as long as no call takes away a value that
    another owner relies on, the store holds under every key with no call outstanding exactly what
    the latest accepted version of its owner asks for, although the code only applies differences. */
module Refinement {
  import opened Collections
  import opened Store
  import opened Events
  import opened World

  // ----- who is concerned with a key -----

  /** The call is still to be made for an event of this owner. */
  ghost predicate Pending(w: World, o: Owner, c: Call) {
    var writer := WriterFor(o);
    && writer in w.tasks
    && w.tasks[writer].id < |w.log|
    && OwnerOf(TaskEvent(w, writer)) == o
    && c in w.tasks[writer].calls
  }

  ghost predicate PendingKey(w: World, o: Owner, k: string) {
    exists c :: Pending(w, o, c) && IsPublic(c) && c.key == k
  }

  /** An owner claims the keys it lists and those its current event is still going to touch. */
  ghost predicate Claims(w: World, o: Owner, k: string) {
    Lists(w.live, o, k) || PendingKey(w, o, k)
  }

  ghost predicate KeyDisjoint(w: World, k: string) {
    forall o, o' :: Claims(w, o, k) && Claims(w, o', k) ==> o == o'
  }

  // ----- the two halves of the invariant, key by key -----

  ghost predicate PutPending(w: World, o: Owner, k: string) {
    exists c :: Pending(w, o, c) && c.Put? && c.key == k
  }

  ghost predicate SettledFor(w: World, o: Owner, k: string) {
    Lists(w.live, o, k) ==> Lookup(w.store.pub, k) == Some(w.live[o][k]) || PutPending(w, o, k)
  }

  /** Whoever lists the key has its value in the store or is about to put it there. */
  ghost predicate Settled(w: World, k: string) {
    forall o :: SettledFor(w, o, k)
  }

  ghost predicate RemovePending(w: World, k: string) {
    exists o :: Pending(w, o, Remove(k))
  }

  /** A stored key is listed by a live owner or about to be removed. */
  ghost predicate NoOrphan(w: World, k: string) {
    k in w.store.pub ==> Listed(w.live, k) || RemovePending(w, k)
  }

  // ----- pending calls under a step -----

  lemma PendingElsewhere(w: World, e: Event, keys: seq<string>, order: seq<string>, o: Owner, c: Call)
    requires StructureOk(w) && Enabled(Begin(e, keys, order), w)
    requires Pending(w, o, c)
    ensures o != OwnerOf(e) && Pending(Do(Begin(e, keys, order), w), o, c)
  {
    assert WriterFor(o) != WriterOf(e);
  }

  lemma PendingNew(w: World, e: Event, keys: seq<string>, order: seq<string>, c: Call)
    requires StructureOk(w) && Enabled(Begin(e, keys, order), w)
    requires c in Plan(e, OldKeys(w, OwnerOf(e)), order, WriteFlag(w, e))
    ensures Pending(Do(Begin(e, keys, order), w), OwnerOf(e), c)
  {
  }

  /** After an event has begun, its owner has the plan ahead and everybody else what they had before. */
  lemma PendingAfterBegin(w: World, e: Event, keys: seq<string>, order: seq<string>, o: Owner, c: Call)
    requires StructureOk(w) && Enabled(Begin(e, keys, order), w)
    requires Pending(Do(Begin(e, keys, order), w), o, c)
    ensures if o == OwnerOf(e) then c in Plan(e, OldKeys(w, o), order, WriteFlag(w, e)) else Pending(w, o, c)
  {
  }

  lemma PendingAfterCall(w: World, writer: Writer, o: Owner, c: Call)
    requires StructureOk(w) && Enabled(DoCall(writer), w)
    ensures Pending(Do(DoCall(writer), w), o, c) ==> Pending(w, o, c)
    ensures Pending(w, o, c) && !(WriterFor(o) == writer && c == w.tasks[writer].calls[0]) ==>
      Pending(Do(DoCall(writer), w), o, c)
  {
    var calls := w.tasks[writer].calls;
    assert calls == [calls[0]] + calls[1..];
  }

  /** The owner whose event the next call of a writer belongs to, and what the call may be. */
  lemma NextCall(w: World, writer: Writer)
    requires StructureOk(w) && Enabled(DoCall(writer), w)
    ensures var t := w.tasks[writer]; var o := OwnerOf(w.log[t.id]);
      && WriterFor(o) == writer
      && Pending(w, o, t.calls[0])
      && CallOk(w.live, w.log[t.id], w.flags[t.id], t.calls[0])
  {
    assert TaskOk(w, writer);
  }

  // ----- no orphans: no assumption about collisions -----

  lemma OrphanBegin(w: World, e: Event, keys: seq<string>, order: seq<string>, k: string)
    requires StructureOk(w) && Enabled(Begin(e, keys, order), w) && NoOrphan(w, k)
    ensures NoOrphan(Do(Begin(e, keys, order), w), k)
  {
    var w', o := Do(Begin(e, keys, order), w), OwnerOf(e);
    if k in w'.store.pub {
      if RemovePending(w, k) {
        var o' :| Pending(w, o', Remove(k));
        PendingElsewhere(w, e, keys, order, o', Remove(k));
      } else {
        var o' :| o' in w.live && k in w.live[o'];
        if o' != o {
          assert o' in w'.live && k in w'.live[o'];
        } else if !Lists(w'.live, o, k) {
          if o.Object? {
            assert k in w.index[o];
            PlanExact(e, OldKeys(w, o), order, WriteFlag(w, e), Remove(k));
          }
          PendingNew(w, e, keys, order, Remove(k));
        }
      }
    }
  }

  lemma OrphanCall(w: World, writer: Writer, k: string)
    requires StructureOk(w) && Enabled(DoCall(writer), w) && NoOrphan(w, k)
    ensures NoOrphan(Do(DoCall(writer), w), k)
  {
    var w', c := Do(DoCall(writer), w), w.tasks[writer].calls[0];
    NextCall(w, writer);
    if k in w'.store.pub && !Listed(w'.live, k) {
      assert k in w.store.pub;
      var o :| Pending(w, o, Remove(k));
      assert c != Remove(k);
      PendingAfterCall(w, writer, o, Remove(k));
    }
  }

  lemma OrphanStep(s: Step, w: World, k: string)
    requires StructureOk(w) && Enabled(s, w) && NoOrphan(w, k)
    ensures NoOrphan(Do(s, w), k)
  {
    var w' := Do(s, w);
    match s
    case Begin(e, keys, order) => OrphanBegin(w, e, keys, order, k);
    case DoCall(writer) => OrphanCall(w, writer, k);
    case Die =>
    case _ =>
      QuietStep(s, w);
      SamePending(w, w');
  }

  lemma SamePending(w: World, w': World)
    requires w'.tasks == w.tasks && w'.log == w.log
    ensures forall o, c :: Pending(w', o, c) <==> Pending(w, o, c)
  {
  }

  // ----- settled owners: what spoils them and what heals them -----

  /** A live owner's value is in the store and would be lost to this call. */
  ghost predicate Spoils(w: World, c: Call, owner: Owner, o: Owner) {
    && IsPublic(c) && o != owner && Lists(w.live, o, c.key) && !PutPending(w, o, c.key)
    && (c.Put? ==> c.resource != w.live[o][c.key])
  }

  /** The step makes a call that costs this owner its value under the key. */
  ghost predicate SpoilsFor(s: Step, w: World, o: Owner, k: string)
    requires Enabled(s, w)
  {
    && s.DoCall? && w.tasks[s.writer].id < |w.log|
    && var c := w.tasks[s.writer].calls[0];
       IsPublic(c) && c.key == k && Spoils(w, c, OwnerOf(TaskEvent(w, s.writer)), o)
  }

  predicate IsSkip(e: Event) {
    e.Skipped? || e.PrivateSkipped?
  }

  /** The step puts things right for this owner under the key: the process dies and starts over, an
      event of the owner begins that is not skipped, or anybody puts what the owner wants there. */
  ghost predicate Heals(s: Step, w: World, o: Owner, k: string)
    requires Enabled(s, w)
  {
    match s
    case Die => true
    case Begin(e, _, _) => OwnerOf(e) == o && !IsSkip(e)
    case DoCall(writer) =>
      var c := w.tasks[writer].calls[0];
      c.Put? && c.key == k && Lists(w.live, o, k) && c.resource == w.live[o][k]
    case _ => false
  }

  lemma OwnEvent(w: World, e: Event, keys: seq<string>, order: seq<string>, k: string)
    requires StructureOk(w) && Enabled(Begin(e, keys, order), w) && !IsSkip(e)
    ensures SettledFor(Do(Begin(e, keys, order), w), OwnerOf(e), k)
  {
    var w', o := Do(Begin(e, keys, order), w), OwnerOf(e);
    if Lists(w'.live, o, k) && (e.Deliver? || e.Accepted?) {
      var c := Put(k, w'.live[o][k], WriteFlag(w, e));
      if e.Deliver? {
        PlanExact(e, OldKeys(w, o), order, WriteFlag(w, e), c);
      }
      PendingNew(w, e, keys, order, c);
    }
  }

  lemma PutPendingAfterBegin(w: World, e: Event, keys: seq<string>, order: seq<string>, o: Owner, k: string)
    requires StructureOk(w) && Enabled(Begin(e, keys, order), w) && (OwnerOf(e) != o || IsSkip(e))
    ensures PutPending(Do(Begin(e, keys, order), w), o, k) <==> PutPending(w, o, k)
  {
    var w' := Do(Begin(e, keys, order), w);
    if PutPending(w, o, k) {
      var c :| Pending(w, o, c) && c.Put? && c.key == k;
      PendingElsewhere(w, e, keys, order, o, c);
    }
    if PutPending(w', o, k) {
      var c :| Pending(w', o, c) && c.Put? && c.key == k;
      PendingAfterBegin(w, e, keys, order, o, c);
    }
  }

  lemma OthersLive(live: Live, e: Event, o: Owner)
    requires OwnerOf(e) != o || IsSkip(e)
    ensures Lookup(UpdateLive(live, e), o) == Lookup(live, o)
  {
  }

  lemma SettledAlike(w: World, w': World, o: Owner, k: string)
    requires Lookup(w'.live, o) == Lookup(w.live, o) && w'.store.pub == w.store.pub
    requires PutPending(w', o, k) <==> PutPending(w, o, k)
    ensures SettledFor(w', o, k) <==> SettledFor(w, o, k)
  {
  }

  lemma OtherEvent(w: World, e: Event, keys: seq<string>, order: seq<string>, o: Owner, k: string)
    requires StructureOk(w) && Enabled(Begin(e, keys, order), w) && (OwnerOf(e) != o || IsSkip(e))
    ensures SettledFor(Do(Begin(e, keys, order), w), o, k) <==> SettledFor(w, o, k)
  {
    PutPendingAfterBegin(w, e, keys, order, o, k);
    OthersLive(w.live, e, o);
    SettledAlike(w, Do(Begin(e, keys, order), w), o, k);
  }

  lemma PutPendingAfterCall(w: World, writer: Writer, o: Owner, k: string)
    requires StructureOk(w) && Enabled(DoCall(writer), w) && Lists(w.live, o, k)
    ensures var w', c := Do(DoCall(writer), w), w.tasks[writer].calls[0];
      var own := o == OwnerOf(w.log[w.tasks[writer].id]);
      && (PutPending(w', o, k) ==> PutPending(w, o, k))
      && (PutPending(w, o, k) && !PutPending(w', o, k) ==> own && c.Put? && c.key == k)
      && (own && IsPublic(c) && c.key == k ==> c.Put? && c.resource == w.live[o][k])
  {
    NextCall(w, writer);
    var w' := Do(DoCall(writer), w);
    if PutPending(w', o, k) {
      var c :| Pending(w', o, c) && c.Put? && c.key == k;
      PendingAfterCall(w, writer, o, c);
    }
    if PutPending(w, o, k) {
      var c :| Pending(w, o, c) && c.Put? && c.key == k;
      PendingAfterCall(w, writer, o, c);
    }
  }

  lemma CallMapsPub(w: World, writer: Writer)
    requires Enabled(DoCall(writer), w)
    ensures var w', c := Do(DoCall(writer), w), w.tasks[writer].calls[0];
      w'.store.pub == PubAfter(c, w.store.pub) && w'.live == w.live
  {
  }

  /** What a call makes of an owner's value, given what it makes of the owner's pending Puts. */
  lemma ValueAfterCall(w: World, w': World, c: Call, owner: Owner, o: Owner, k: string)
    requires w'.store.pub == PubAfter(c, w.store.pub) && w'.live == w.live && Lists(w.live, o, k)
    requires PutPending(w', o, k) ==> PutPending(w, o, k)
    requires PutPending(w, o, k) && !PutPending(w', o, k) ==> o == owner && c.Put? && c.key == k
    requires o == owner && IsPublic(c) && c.key == k ==> c.Put? && c.resource == w.live[o][k]
    ensures SettledFor(w', o, k) <==>
      || (c.Put? && c.key == k && c.resource == w.live[o][k])
      || (SettledFor(w, o, k) && !(IsPublic(c) && c.key == k && Spoils(w, c, owner, o)))
  {
  }

  lemma OwnerCall(w: World, writer: Writer, o: Owner, k: string)
    requires StructureOk(w) && Enabled(DoCall(writer), w)
    ensures var s := DoCall(writer);
      SettledFor(Do(s, w), o, k) <==> Heals(s, w, o, k) || (SettledFor(w, o, k) && !SpoilsFor(s, w, o, k))
  {
    NextCall(w, writer);
    CallMapsPub(w, writer);
    if Lists(w.live, o, k) {
      PutPendingAfterCall(w, writer, o, k);
      ValueAfterCall(w, Do(DoCall(writer), w), w.tasks[writer].calls[0], OwnerOf(TaskEvent(w, writer)), o, k);
    }
  }

  /** Exactly what a step does to an owner under a key: afterwards its value is there or about to be
      put if and only if the step heals it, or it was so before and the step does not spoil it. */
  lemma OwnerStep(s: Step, w: World, o: Owner, k: string)
    requires StructureOk(w) && Enabled(s, w)
    ensures SettledFor(Do(s, w), o, k) <==> Heals(s, w, o, k) || (SettledFor(w, o, k) && !SpoilsFor(s, w, o, k))
  {
    match s
    case Begin(e, keys, order) =>
      if OwnerOf(e) == o && !IsSkip(e) {
        OwnEvent(w, e, keys, order, k);
      } else {
        OtherEvent(w, e, keys, order, o, k);
      }
    case DoCall(writer) => OwnerCall(w, writer, o, k);
    case DoWrite(_) => QuietOwner(s, w, o, k);
    case Force(_) => QuietOwner(s, w, o, k);
    case Sync(_) => QuietOwner(s, w, o, k);
    case Die =>
  }

  lemma QuietOwner(s: Step, w: World, o: Owner, k: string)
    requires Enabled(s, w) && (s.DoWrite? || s.Force? || s.Sync?)
    ensures SettledFor(Do(s, w), o, k) <==> SettledFor(w, o, k)
  {
    QuietStep(s, w);
    SamePending(w, Do(s, w));
  }

  /** Exactly which calls do damage: making the next call of a writer keeps a key settled if and
      only if the call is not about that key, or no owner other than the call's own relies on
      another value under it. */
  lemma CallKeepsSettledIff(w: World, writer: Writer, k: string)
    requires StructureOk(w) && Enabled(DoCall(writer), w) && Settled(w, k)
    ensures var t := w.tasks[writer]; var c := t.calls[0];
      Settled(Do(DoCall(writer), w), k) <==>
        !(IsPublic(c) && c.key == k && exists o :: Spoils(w, c, OwnerOf(w.log[t.id]), o))
  {
    NextCall(w, writer);
    var w', c, owner := Do(DoCall(writer), w), w.tasks[writer].calls[0], OwnerOf(w.log[w.tasks[writer].id]);
    forall o
      ensures SettledFor(w', o, k) <==> !(IsPublic(c) && c.key == k && Spoils(w, c, owner, o))
    {
      assert SettledFor(w, o, k);
      OwnerCall(w, writer, o, k);
    }
    if IsPublic(c) && c.key == k && exists o :: Spoils(w, c, owner, o) {
      var o :| Spoils(w, c, owner, o);
      assert !SettledFor(w', o, k);
    }
  }

  // ----- over runs -----

  lemma NothingPendingAtAll(w: World)
    requires Quiescent(w)
    ensures forall o, c :: !Pending(w, o, c)
  {
    forall o, c ensures !Pending(w, o, c) {
      assert IdleWriter(w, WriterFor(o));
    }
  }

  lemma NothingPendingAt(w: World, k: string)
    requires forall o :: !PendingKey(w, o, k)
    ensures !RemovePending(w, k)
    ensures forall o :: !PutPending(w, o, k)
  {
    forall o, c ensures !(Pending(w, o, c) && IsPublic(c) && c.key == k) {
      assert !PendingKey(w, o, k);
    }
  }

  /** In every reachable state, even when keys collide, a stored key is listed by a live owner or
      is about to be removed; between events only the former is left. */
  lemma {:induction false} NoOrphansEver(ws: seq<World>, output: Option<Doc>, i: nat, k: string)
    requires Behaviour(ws, output) && i < |ws|
    ensures NoOrphan(ws[i], k)
    ensures Quiescent(ws[i]) && k in ws[i].store.pub ==> Listed(ws[i].live, k)
    decreases i
  {
    if i > 0 {
      NoOrphansEver(ws, output, i - 1, k);
      StructureOverRun(ws, output, i - 1);
      var s := StepAt(ws, output, i - 1);
      OrphanStep(s, ws[i - 1], k);
    }
    if Quiescent(ws[i]) {
      NothingPendingAtAll(ws[i]);
    }
  }

  /** The step of the run at position j spoils the key for the owner, or heals it. */
  ghost predicate SpoilAt(ws: seq<World>, j: int, o: Owner, k: string) {
    0 <= j < |ws| - 1 && exists s :: Enabled(s, ws[j]) && ws[j + 1] == Do(s, ws[j]) && SpoilsFor(s, ws[j], o, k)
  }

  ghost predicate HealAt(ws: seq<World>, j: int, o: Owner, k: string) {
    0 <= j < |ws| - 1 && exists s :: Enabled(s, ws[j]) && ws[j + 1] == Do(s, ws[j]) && Heals(s, ws[j], o, k)
  }

  lemma OwnerNext(ws: seq<World>, output: Option<Doc>, j: nat, o: Owner, k: string)
    requires Behaviour(ws, output) && j + 1 < |ws|
    ensures SettledFor(ws[j + 1], o, k) <==> HealAt(ws, j, o, k) || (SettledFor(ws[j], o, k) && !SpoilAt(ws, j, o, k))
    ensures SpoilAt(ws, j, o, k) ==> !HealAt(ws, j, o, k)
  {
    StructureOverRun(ws, output, j);
    var s := StepAt(ws, output, j);
    OwnerStep(s, ws[j], o, k);
    forall s | Enabled(s, ws[j]) && ws[j + 1] == Do(s, ws[j])
      ensures Heals(s, ws[j], o, k) ==> SettledFor(ws[j + 1], o, k)
      ensures SpoilsFor(s, ws[j], o, k) ==> !SettledFor(ws[j + 1], o, k)
    {
      OwnerStep(s, ws[j], o, k);
    }
  }

  ghost function Settlings(ws: seq<World>, o: Owner, k: string): int -> bool {
    j => 0 <= j < |ws| && SettledFor(ws[j], o, k)
  }

  ghost function Spoilings(ws: seq<World>, o: Owner, k: string): int -> bool {
    j => SpoilAt(ws, j, o, k)
  }

  ghost function Healings(ws: seq<World>, o: Owner, k: string): int -> bool {
    j => HealAt(ws, j, o, k)
  }

  /** Something bad happened at or after position a and before position i, and nothing good since. */
  ghost predicate Unmended(bad: int -> bool, good: int -> bool, a: int, i: int) {
    exists j :: a <= j < i && bad(j) && forall n :: j < n < i ==> !good(n)
  }

  /** A state that good steps establish, that bad steps destroy and that other steps leave as it is,
      holds exactly as long as nothing bad is unmended. */
  lemma {:induction false} HoldsUnlessUnmended(state: int -> bool, bad: int -> bool, good: int -> bool, a: int, i: int)
    requires a <= i && state(a)
    requires forall j :: a <= j < i ==> (bad(j) ==> !good(j)) && (state(j + 1) <==> good(j) || (state(j) && !bad(j)))
    ensures state(i) <==> !Unmended(bad, good, a, i)
    decreases i - a
  {
    if a < i {
      HoldsUnlessUnmended(state, bad, good, a, i - 1);
    }
  }

  /** At position i the owner suffers under the key: a call made since position a has spoiled it, and no
      later step has healed it. */
  ghost predicate Hurt(ws: seq<World>, a: nat, i: nat, o: Owner, k: string) {
    Unmended(Spoilings(ws, o, k), Healings(ws, o, k), a, i)
  }

  /** The exact condition for one owner in one state: from a state in which its value is stored or
      about to be put, the same is true later if and only if every call that has spoiled it since
      was followed by a step that healed it. */
  lemma SettledIffUnhurt(ws: seq<World>, output: Option<Doc>, a: nat, i: nat, o: Owner, k: string)
    requires Behaviour(ws, output) && a <= i < |ws| && SettledFor(ws[a], o, k)
    ensures SettledFor(ws[i], o, k) <==> !Hurt(ws, a, i, o, k)
  {
    var state, bad, good := Settlings(ws, o, k), Spoilings(ws, o, k), Healings(ws, o, k);
    forall j | a <= j < i
      ensures (bad(j) ==> !good(j)) && (state(j + 1) <==> good(j) || (state(j) && !bad(j)))
    {
      OwnerNext(ws, output, j, o, k);
    }
    HoldsUnlessUnmended(state, bad, good, a, i);
  }

  /** No owner suffers under the key. */
  ghost predicate Intact(ws: seq<World>, a: nat, i: nat, k: string) {
    forall o :: !Hurt(ws, a, i, o, k)
  }

  ghost predicate AllIntact(ws: seq<World>, a: nat, i: nat) {
    forall k :: Intact(ws, a, i, k)
  }

  ghost predicate AllSettled(w: World) {
    forall k :: Settled(w, k)
  }

  /** A process that has just started, for the first time or after a crash, has every key settled. */
  lemma StartIsSettled(w: World)
    requires w.live == map[]
    ensures AllSettled(w)
  {
  }

  lemma KeySettledIffIntact(ws: seq<World>, output: Option<Doc>, a: nat, i: nat, k: string)
    requires Behaviour(ws, output) && a <= i < |ws| && Settled(ws[a], k)
    ensures Settled(ws[i], k) <==> Intact(ws, a, i, k)
  {
    forall o ensures SettledFor(ws[i], o, k) <==> !Hurt(ws, a, i, o, k) {
      assert SettledFor(ws[a], o, k);
      SettledIffUnhurt(ws, output, a, i, o, k);
    }
  }

  /** The step at position j spoils the key for somebody. */
  ghost predicate SpoilStep(ws: seq<World>, j: int, k: string) {
    exists o :: SpoilAt(ws, j, o, k)
  }

  lemma SettledNext(ws: seq<World>, output: Option<Doc>, j: nat, k: string)
    requires Behaviour(ws, output) && j + 1 < |ws| && Settled(ws[j], k)
    ensures Settled(ws[j + 1], k) <==> !SpoilStep(ws, j, k)
  {
    if SpoilStep(ws, j, k) {
      var o :| SpoilAt(ws, j, o, k);
      OwnerNext(ws, output, j, o, k);
      assert !SettledFor(ws[j + 1], o, k);
    } else {
      var w' := ws[j + 1];
      forall o ensures SettledFor(w', o, k) {
        assert SettledFor(ws[j], o, k) && !SpoilAt(ws, j, o, k);
        OwnerNext(ws, output, j, o, k);
      }
    }
  }

  /** The same for all states at once: a settled key stays settled throughout, not just at the end, if
      and only if no call in between spoils it. */
  lemma {:induction false} SettledExactly(ws: seq<World>, output: Option<Doc>, a: nat, i: nat, k: string)
    requires Behaviour(ws, output) && a <= i < |ws| && Settled(ws[a], k)
    ensures (forall j :: a <= j <= i ==> Settled(ws[j], k)) <==> (forall j :: a <= j < i ==> !SpoilStep(ws, j, k))
    decreases i
  {
    if a < i {
      SettledExactly(ws, output, a, i - 1, k);
      if Settled(ws[i - 1], k) {
        SettledNext(ws, output, i - 1, k);
      }
    }
  }

  /** While no pending call is about a key, the store agrees with the live owners there if and only if
      the key is settled. */
  lemma AgreesAtIffSettled(ws: seq<World>, output: Option<Doc>, i: nat, k: string)
    requires Behaviour(ws, output) && i < |ws| && forall o :: !PendingKey(ws[i], o, k)
    ensures AgreesAt(ws[i].store.pub, ws[i].live, k) <==> Settled(ws[i], k)
  {
    var w := ws[i];
    NoOrphansEver(ws, output, i, k);
    NothingPendingAt(w, k);
    forall o ensures SettledFor(w, o, k) <==> (Lists(w.live, o, k) ==> Lookup(w.store.pub, k) == Some(w.live[o][k])) {
    }
  }

  /** Refinement at one key, exactly. From a state in which the key was settled (it may since have
      moved from owner to owner, and several may list it): whenever no pending call is about it -
      whatever else is going on - it is stored just when some live owner lists it, with the value of
      every such owner, if and only if each call that has spoiled it for somebody has been healed. */
  lemma RefinesAtKey(ws: seq<World>, output: Option<Doc>, a: nat, i: nat, k: string)
    requires Behaviour(ws, output) && a <= i < |ws| && Settled(ws[a], k)
    requires forall o :: !PendingKey(ws[i], o, k)
    ensures AgreesAt(ws[i].store.pub, ws[i].live, k) <==> Intact(ws, a, i, k)
  {
    AgreesAtIffSettled(ws, output, i, k);
    KeySettledIffIntact(ws, output, a, i, k);
  }

  lemma NothingPendingAtKeys(w: World)
    requires Quiescent(w)
    ensures forall o, k :: !PendingKey(w, o, k)
  {
    NothingPendingAtAll(w);
  }

  /** Refinement of the whole store, exactly. From a state in which all keys were settled (such as the
      first one, or the one after a crash): between events the store agrees with the live owners if
      and only if each call that has spoiled a key for somebody has been healed. Then it is the map
      rebuilt from scratch, from what the history alone says is the latest accepted version of every
      owner. */
  lemma RefinesRebuild(ws: seq<World>, output: Option<Doc>, a: nat, i: nat)
    requires Behaviour(ws, output) && a <= i < |ws| && AllSettled(ws[a]) && Quiescent(ws[i])
    ensures Agrees(ws[i].store.pub, ws[i].live) <==> AllIntact(ws, a, i)
    ensures AllIntact(ws, a, i) ==> ws[i].store.pub == Rebuild(ws[i].live)
    ensures forall o :: Lookup(ws[i].live, o) == Latest(ws[i].log, o)
  {
    StructureOverRun(ws, output, i);
    NothingPendingAtKeys(ws[i]);
    forall k ensures AgreesAt(ws[i].store.pub, ws[i].live, k) <==> Intact(ws, a, i, k) {
      assert Settled(ws[a], k);
      RefinesAtKey(ws, output, a, i, k);
    }
    AgreesIffAtEveryKey(ws[i].store.pub, ws[i].live);
    if AllIntact(ws, a, i) {
      AgreeingIsRebuilding(ws[i].store.pub, ws[i].live);
    }
  }

  // ----- disjoint claims are one way to spoil nothing -----

  lemma DisjointSpoilsNothing(ws: seq<World>, output: Option<Doc>, j: nat, k: string)
    requires Behaviour(ws, output) && j < |ws| && KeyDisjoint(ws[j], k)
    ensures !SpoilStep(ws, j, k)
  {
    StructureOverRun(ws, output, j);
    var w := ws[j];
    forall s, o | Enabled(s, w) ensures !SpoilsFor(s, w, o, k) {
      if SpoilsFor(s, w, o, k) {
        NextCall(w, s.writer);
        assert Claims(w, OwnerOf(TaskEvent(w, s.writer)), k) && Claims(w, o, k);
      }
    }
  }

  lemma DisjointIsIntact(ws: seq<World>, output: Option<Doc>, a: nat, i: nat, k: string)
    requires Behaviour(ws, output) && i < |ws|
    requires forall j :: a <= j < i ==> KeyDisjoint(ws[j], k)
    ensures Intact(ws, a, i, k)
  {
    forall o ensures !Hurt(ws, a, i, o, k) {
      forall j | a <= j < i ensures !SpoilAt(ws, j, o, k) {
        DisjointSpoilsNothing(ws, output, j, k);
      }
    }
  }

  /** Last valid wins: while the object's reconciler is idle and nobody else lists the key `name` or
      has a call about it pending, the entry under that name is the one built from the last spec of
      the object `namespace/name` that passed validation since the object was last found missing, and
      absent if there was none - if and only if each call that has spoiled the key for the object has
      been healed. Invalid specs and failed reads do not count. */
  lemma CustomResourceLastValid(ws: seq<World>, output: Option<Doc>, a: nat, i: nat, namespace: string, name: string)
    requires Behaviour(ws, output) && a <= i < |ws| && SettledFor(ws[a], Custom(namespace, name), name)
    requires forall o :: Claims(ws[i], o, name) ==> o == Custom(namespace, name)
    requires IdleWriter(ws[i], PublicReconciler)
    ensures var latest := Latest(ws[i].log, Custom(namespace, name)); latest.Some? ==> name in latest.value
    ensures var latest := Latest(ws[i].log, Custom(namespace, name));
      var wanted := if latest.Some? then Some(latest.value[name]) else None;
      Lookup(ws[i].store.pub, name) == wanted <==> !Hurt(ws, a, i, Custom(namespace, name), name)
  {
    var w, me := ws[i], Custom(namespace, name);
    StructureOverRun(ws, output, i);
    forall o ensures !PendingKey(w, o, name) {
      if PendingKey(w, o, name) {
        assert Claims(w, o, name);
      }
    }
    NothingPendingAt(w, name);
    NoOrphansEver(ws, output, i, name);
    SettledIffUnhurt(ws, output, a, i, me, name);
    assert Lookup(w.live, me) == Latest(w.log, me);
    if Listed(w.live, name) {
      var o :| o in w.live && name in w.live[o];
      assert Lists(w.live, o, name) && Claims(w, o, name);
    }
    if me in w.live {
      assert w.live[me].Keys == {name};
      assert Lists(w.live, me, name);
    }
  }
}
