/** Interleaving does not matter for writers that touch different keys. */
module Confluence {
  import opened Collections
  import opened Blueprint
  import opened Store
  import opened Events
  import opened World
  import opened Refinement
  import opened Persistence

  /** The Manager calls of all writers in the order in which the mutex admits them. */
  datatype Slot = Slot(writer: Writer, call: Call)

  function RunPub(s: seq<Slot>, pub: Entries): Entries {
    if |s| == 0 then pub else PubAfter(s[|s| - 1].call, RunPub(s[..|s| - 1], pub))
  }

  function RunPriv(s: seq<Slot>, priv: PrivateEntries): PrivateEntries {
    if |s| == 0 then priv else PrivAfter(s[|s| - 1].call, RunPriv(s[..|s| - 1], priv))
  }

  /** The calls of one writer, in order. */
  function Project(s: seq<Slot>, writer: Writer): seq<Slot> {
    if |s| == 0 then []
    else Project(s[..|s| - 1], writer) + if s[|s| - 1].writer == writer then [s[|s| - 1]] else []
  }

  predicate TouchesPub(c: Call, k: string) {
    IsPublic(c) && c.key == k
  }

  predicate TouchesPriv(c: Call, k: string) {
    IsPrivate(c) && c.key == k
  }

  /** Calls of different writers are about different keys. */
  ghost predicate Disjoint(s: seq<Slot>) {
    forall i, j :: 0 <= i < |s| && 0 <= j < |s| && s[i].writer != s[j].writer ==>
      forall k :: !(TouchesPub(s[i].call, k) && TouchesPub(s[j].call, k))
               && !(TouchesPriv(s[i].call, k) && TouchesPriv(s[j].call, k))
  }

  lemma {:induction false} ProjectMembers(s: seq<Slot>, writer: Writer)
    ensures forall x :: x in Project(s, writer) <==> x in s && x.writer == writer
  {
    if s != [] {
      ProjectMembers(s[..|s| - 1], writer);
      assert s == s[..|s| - 1] + [s[|s| - 1]];
    }
  }

  /** A call leaves other keys alone, and what it does to its own key does not depend on the map. */
  lemma OneCallOneKey(c: Call, k: string, pub: Entries, pub': Entries)
    ensures !TouchesPub(c, k) ==> Lookup(PubAfter(c, pub), k) == Lookup(pub, k)
    ensures TouchesPub(c, k) ==> Lookup(PubAfter(c, pub), k) == Lookup(PubAfter(c, pub'), k)
  {
  }

  lemma OneCallOnePrivateKey(c: Call, k: string, priv: PrivateEntries, priv': PrivateEntries)
    ensures !TouchesPriv(c, k) ==> Lookup(PrivAfter(c, priv), k) == Lookup(priv, k)
    ensures TouchesPriv(c, k) ==> Lookup(PrivAfter(c, priv), k) == Lookup(PrivAfter(c, priv'), k)
  {
  }

  lemma ProjectLast(s: seq<Slot>, writer: Writer)
    requires s != []
    ensures var p, init, last := Project(s, writer), Project(s[..|s| - 1], writer), s[|s| - 1];
      if last.writer == writer then p == init + [last] && p[..|p| - 1] == init else p == init
  {
  }

  /** What is stored under a key depends only on the writer that touches the key. */
  lemma {:induction false} KeyDependsOnItsWriter(s: seq<Slot>, writer: Writer, k: string, pub: Entries)
    requires forall x :: x in s && TouchesPub(x.call, k) ==> x.writer == writer
    ensures Lookup(RunPub(s, pub), k) == Lookup(RunPub(Project(s, writer), pub), k)
  {
    if s != [] {
      var init, last := s[..|s| - 1], s[|s| - 1];
      assert s == init + [last];
      KeyDependsOnItsWriter(init, writer, k, pub);
      ProjectLast(s, writer);
      OneCallOneKey(last.call, k, RunPub(init, pub), RunPub(Project(init, writer), pub));
      if last.writer == writer {
        OneCallOneKey(last.call, k, RunPub(Project(init, writer), pub), RunPub(init, pub));
      }
    }
  }

  lemma {:induction false} PrivateKeyDependsOnItsWriter(s: seq<Slot>, writer: Writer, k: string, priv: PrivateEntries)
    requires forall x :: x in s && TouchesPriv(x.call, k) ==> x.writer == writer
    ensures Lookup(RunPriv(s, priv), k) == Lookup(RunPriv(Project(s, writer), priv), k)
  {
    if s != [] {
      var init, last := s[..|s| - 1], s[|s| - 1];
      assert s == init + [last];
      PrivateKeyDependsOnItsWriter(init, writer, k, priv);
      ProjectLast(s, writer);
      OneCallOnePrivateKey(last.call, k, RunPriv(init, priv), RunPriv(Project(init, writer), priv));
      if last.writer == writer {
        OneCallOnePrivateKey(last.call, k, RunPriv(Project(init, writer), priv), RunPriv(init, priv));
      }
    }
  }

  ghost predicate SameWork(s: seq<Slot>, s': seq<Slot>) {
    forall writer :: Project(s, writer) == Project(s', writer)
  }

  /** A writer that touches the key, or any writer if none does. */
  lemma WriterOfKey(s: seq<Slot>, s': seq<Slot>, k: string) returns (writer: Writer)
    requires Disjoint(s) && SameWork(s, s')
    ensures forall x :: (x in s || x in s') && TouchesPub(x.call, k) ==> x.writer == writer
  {
    if y :| y in s && TouchesPub(y.call, k) {
      writer := y.writer;
    } else {
      writer := PublicReconciler;
    }
    forall x | x in s' ensures x in s {
      ProjectMembers(s', x.writer);
      ProjectMembers(s, x.writer);
      assert x in Project(s, x.writer);
    }
  }

  lemma WriterOfPrivateKey(s: seq<Slot>, s': seq<Slot>, k: string) returns (writer: Writer)
    requires Disjoint(s) && SameWork(s, s')
    ensures forall x :: (x in s || x in s') && TouchesPriv(x.call, k) ==> x.writer == writer
  {
    if y :| y in s && TouchesPriv(y.call, k) {
      writer := y.writer;
    } else {
      writer := PrivateReconciler;
    }
    forall x | x in s' ensures x in s {
      ProjectMembers(s', x.writer);
      ProjectMembers(s, x.writer);
      assert x in Project(s, x.writer);
    }
  }

  /** Two schedules in which every writer makes the same calls in the same order end in the same two
      maps, however the writers are interleaved, provided different writers touch different keys. */
  lemma SchedulesConverge(s: seq<Slot>, s': seq<Slot>, pub: Entries, priv: PrivateEntries)
    requires Disjoint(s) && SameWork(s, s')
    ensures RunPub(s, pub) == RunPub(s', pub)
    ensures RunPriv(s, priv) == RunPriv(s', priv)
  {
    forall k ensures Lookup(RunPub(s, pub), k) == Lookup(RunPub(s', pub), k) {
      var writer := WriterOfKey(s, s', k);
      KeyDependsOnItsWriter(s, writer, k, pub);
      KeyDependsOnItsWriter(s', writer, k, pub);
      assert Project(s, writer) == Project(s', writer);
    }
    forall k ensures Lookup(RunPriv(s, priv), k) == Lookup(RunPriv(s', priv), k) {
      var writer := WriterOfPrivateKey(s, s', k);
      PrivateKeyDependsOnItsWriter(s, writer, k, priv);
      PrivateKeyDependsOnItsWriter(s', writer, k, priv);
      assert Project(s, writer) == Project(s', writer);
    }
    SameLookups(RunPub(s, pub), RunPub(s', pub));
    SameLookups(RunPriv(s, priv), RunPriv(s', priv));
  }

  lemma SameLookups<V>(m: map<string, V>, m': map<string, V>)
    requires forall k :: Lookup(m, k) == Lookup(m', k)
    ensures m == m'
  {
    forall k ensures k in m <==> k in m' {
      assert Lookup(m, k) == Lookup(m', k);
    }
    forall k | k in m ensures m[k] == m'[k] {
      assert Lookup(m, k) == Lookup(m', k);
    }
  }

  // ----- one writer after the other -----

  /** The schedule in which the listed writers do all their work one after the other. */
  function OneAfterAnother(s: seq<Slot>, writers: seq<Writer>): seq<Slot> {
    if |writers| == 0 then []
    else OneAfterAnother(s, writers[..|writers| - 1]) + Project(s, writers[|writers| - 1])
  }

  lemma {:induction false} ProjectConcat(a: seq<Slot>, b: seq<Slot>, writer: Writer)
    ensures Project(a + b, writer) == Project(a, writer) + Project(b, writer)
  {
    if b == [] {
      assert a + b == a;
    } else {
      assert (a + b)[..|a + b| - 1] == a + b[..|b| - 1];
      ProjectConcat(a, b[..|b| - 1], writer);
    }
  }

  lemma {:induction false} ProjectTwice(s: seq<Slot>, writer: Writer, other: Writer)
    ensures Project(Project(s, writer), other) == if writer == other then Project(s, writer) else []
  {
    if s != [] {
      var init, last := s[..|s| - 1], s[|s| - 1];
      ProjectTwice(init, writer, other);
      if last.writer == writer {
        ProjectConcat(Project(init, writer), [last], other);
        assert [last][..0] == [];
      } else {
        assert Project(s, writer) == Project(init, writer);
      }
    }
  }

  lemma {:induction false} OneAfterAnotherProjects(s: seq<Slot>, writers: seq<Writer>, writer: Writer)
    requires NoRepeats(writers)
    ensures Project(OneAfterAnother(s, writers), writer) == if writer in writers then Project(s, writer) else []
  {
    if writers != [] {
      var init, last := writers[..|writers| - 1], writers[|writers| - 1];
      assert writers == init + [last];
      OneAfterAnotherProjects(s, init, writer);
      ProjectConcat(OneAfterAnother(s, init), Project(s, last), writer);
      ProjectTwice(s, last, writer);
    }
  }

  const ALL_WRITERS: seq<Writer> :=
    [Informer(HTTPRoutes), Runner(HTTPRoutes), Informer(Services), Runner(Services),
     PublicReconciler, PrivateReconciler]

  lemma EveryWriterIsListed(writer: Writer)
    ensures writer in ALL_WRITERS
  {
    var all := ALL_WRITERS;
    match writer
    case Informer(HTTPRoutes) => assert writer == all[0];
    case Runner(HTTPRoutes) => assert writer == all[1];
    case Informer(Services) => assert writer == all[2];
    case Runner(Services) => assert writer == all[3];
    case PublicReconciler => assert writer == all[4];
    case PrivateReconciler => assert writer == all[5];
  }

  /** Every interleaving ends where running the writers one after the other ends. */
  lemma InterleavingIsSerial(s: seq<Slot>, pub: Entries, priv: PrivateEntries)
    requires Disjoint(s)
    ensures RunPub(s, pub) == RunPub(OneAfterAnother(s, ALL_WRITERS), pub)
    ensures RunPriv(s, priv) == RunPriv(OneAfterAnother(s, ALL_WRITERS), priv)
  {
    forall writer: Writer ensures writer in ALL_WRITERS {
      EveryWriterIsListed(writer);
    }
    forall writer ensures Project(s, writer) == Project(OneAfterAnother(s, ALL_WRITERS), writer) {
      OneAfterAnotherProjects(s, ALL_WRITERS, writer);
    }
    SchedulesConverge(s, OneAfterAnother(s, ALL_WRITERS), pub, priv);
  }

  // ----- whole runs -----

  /** The events one writer was told, in order. */
  function Told(log: seq<Event>, writer: Writer): seq<Event> {
    if |log| == 0 then []
    else Told(log[..|log| - 1], writer) + if WriterOf(log[|log| - 1]) == writer then [log[|log| - 1]] else []
  }

  lemma ToldLast(log: seq<Event>, writer: Writer)
    requires log != []
    ensures var told, init, last := Told(log, writer), Told(log[..|log| - 1], writer), log[|log| - 1];
      if WriterOf(last) == writer then |told| > 0 && told[..|told| - 1] == init && told[|told| - 1] == last
      else told == init
  {
  }

  lemma {:induction false} LatestFromOwnWriter(log: seq<Event>, o: Owner)
    ensures Latest(Told(log, WriterFor(o)), o) == Latest(log, o)
  {
    if log != [] {
      var init, last := log[..|log| - 1], log[|log| - 1];
      LatestFromOwnWriter(init, o);
      ToldLast(log, WriterFor(o));
    }
  }

  ghost predicate SameEvents(log: seq<Event>, log': seq<Event>) {
    forall writer: Writer :: Told(log, writer) == Told(log', writer)
  }

  lemma {:induction false} LatestPrivateFromOwnWriter(log: seq<Event>, name: string)
    ensures LatestPrivate(Told(log, PrivateReconciler), name) == LatestPrivate(log, name)
  {
    if log != [] {
      LatestPrivateFromOwnWriter(log[..|log| - 1], name);
      ToldLast(log, PrivateReconciler);
    }
  }

  /** The private maps converge too, with no assumption about claims. */
  lemma PrivateRunsConverge(ws: seq<World>, ws': seq<World>, output: Option<Doc>, output': Option<Doc>)
    requires Behaviour(ws, output) && Behaviour(ws', output')
    requires IdleWriter(ws[|ws| - 1], PrivateReconciler) && IdleWriter(ws'[|ws'| - 1], PrivateReconciler)
    requires Told(ws[|ws| - 1].log, PrivateReconciler) == Told(ws'[|ws'| - 1].log, PrivateReconciler)
    ensures ws[|ws| - 1].store.priv == ws'[|ws'| - 1].store.priv
  {
    var w, w' := ws[|ws| - 1], ws'[|ws'| - 1];
    forall name ensures Lookup(w.store.priv, name) == Lookup(w'.store.priv, name) {
      PrivateLastValid(ws, output, |ws| - 1, name);
      PrivateLastValid(ws', output', |ws'| - 1, name);
      LatestPrivateFromOwnWriter(w.log, name);
      LatestPrivateFromOwnWriter(w'.log, name);
    }
    SameLookups(w.store.priv, w'.store.priv);
  }

  /** Two runs in which every writer was told the same events in the same order, and in neither of
      which a call that has spoiled a key is left unhealed, end, once all calls are made, with the
      same public map, whatever the interleaving, the orders in which maps were ranged over, the
      moment of synchronisation and the failures of writes. */
  lemma RunsConverge(ws: seq<World>, ws': seq<World>, output: Option<Doc>, output': Option<Doc>, a: nat, a': nat)
    requires Behaviour(ws, output) && Behaviour(ws', output')
    requires a < |ws| && AllSettled(ws[a]) && AllIntact(ws, a, |ws| - 1)
    requires a' < |ws'| && AllSettled(ws'[a']) && AllIntact(ws', a', |ws'| - 1)
    requires Quiescent(ws[|ws| - 1]) && Quiescent(ws'[|ws'| - 1])
    requires SameEvents(ws[|ws| - 1].log, ws'[|ws'| - 1].log)
    ensures ws[|ws| - 1].store.pub == ws'[|ws'| - 1].store.pub
  {
    var w, w' := ws[|ws| - 1], ws'[|ws'| - 1];
    RefinesRebuild(ws, output, a, |ws| - 1);
    RefinesRebuild(ws', output', a', |ws'| - 1);
    forall o ensures Lookup(w.live, o) == Lookup(w'.live, o) {
      LatestFromOwnWriter(w.log, o);
      LatestFromOwnWriter(w'.log, o);
      assert Told(w.log, WriterFor(o)) == Told(w'.log, WriterFor(o));
      assert Lookup(w.live, o) == Latest(w.log, o);
      assert Lookup(w'.live, o) == Latest(w'.log, o);
    }
    SameLive(w.live, w'.live);
  }

  lemma SameLive(a: Live, b: Live)
    requires forall o :: Lookup(a, o) == Lookup(b, o)
    ensures a == b
  {
    forall o ensures o in a <==> o in b {
      assert Lookup(a, o) == Lookup(b, o);
    }
    forall o | o in a ensures a[o] == b[o] {
      assert Lookup(a, o) == Lookup(b, o);
    }
  }
}
