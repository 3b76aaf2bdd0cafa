/** What the writers of the store are told, what each event makes them do, and what the store
    should hold afterwards if it were rebuilt from scratch.

    An informer event carries the entries its object gives rise to: none when the object is not
    accepted or builds nothing. A PublicResource or PrivateResource event is one reconciliation. */
module Events {
  import opened Collections
  import opened Blueprint
  import opened Store

  datatype Kind = HTTPRoutes | Services

  /** Whoever can put keys into the store. */
  datatype Owner =
    | Object(kind: Kind, objKey: string)
    | Custom(namespace: string, name: string)
    | Private(namespace: string, name: string)

  datatype Event =
    | Deliver(kind: Kind, objKey: string, entries: Entries)                          // onAdd, onUpdate
    | Deleted(kind: Kind, objKey: string)                                            // onDelete
    | Accepted(namespace: string, name: string, resource: Resource)                  // a valid spec
    | Gone(namespace: string, name: string)                                          // not found
    | Skipped(namespace: string, name: string)                                       // invalid spec, or get failed
    | PrivateAccepted(namespace: string, name: string, private: PrivateResource)
    | PrivateGone(namespace: string, name: string)
    | PrivateSkipped(namespace: string, name: string)

  /** The sequential processes: an informer's handler and the Run of its controller, and the
      workers of the two reconcilers. */
  datatype Writer = Informer(kind: Kind) | Runner(kind: Kind) | PublicReconciler | PrivateReconciler

  function OwnerOf(e: Event): Owner {
    match e
    case Deliver(kind, objKey, _) => Object(kind, objKey)
    case Deleted(kind, objKey) => Object(kind, objKey)
    case Accepted(ns, name, _) => Custom(ns, name)
    case Gone(ns, name) => Custom(ns, name)
    case Skipped(ns, name) => Custom(ns, name)
    case PrivateAccepted(ns, name, _) => Private(ns, name)
    case PrivateGone(ns, name) => Private(ns, name)
    case PrivateSkipped(ns, name) => Private(ns, name)
  }

  function WriterFor(o: Owner): Writer {
    match o
    case Object(kind, _) => Informer(kind)
    case Custom(_, _) => PublicReconciler
    case Private(_, _) => PrivateReconciler
  }

  function WriterOf(e: Event): Writer {
    WriterFor(OwnerOf(e))
  }

  // ----- the Manager calls of one event -----

  /** Remove calls for the old keys that are not built any more, in the order of the old keys. */
  function RemoveStale(oldKeys: seq<string>, entries: Entries): seq<Call> {
    if |oldKeys| == 0 then []
    else
      var k := oldKeys[|oldKeys| - 1];
      RemoveStale(oldKeys[..|oldKeys| - 1], entries) + if k in entries then [] else [Remove(k)]
  }

  function PutAll(order: seq<string>, entries: Entries, write: bool): seq<Call>
    requires forall k :: k in order ==> k in entries
  {
    if |order| == 0 then []
    else
      var k := order[|order| - 1];
      PutAll(order[..|order| - 1], entries, write) + [Put(k, entries[k], write)]
  }

  /** `order` is the order in which Go happens to range over the entries. */
  function Plan(e: Event, oldKeys: seq<string>, order: seq<string>, write: bool): seq<Call>
    requires e.Deliver? ==> forall k :: k in order ==> k in e.entries
  {
    match e
    case Deliver(_, _, entries) => RemoveStale(oldKeys, entries) + PutAll(order, entries, write)
    case Deleted(_, _) => RemoveStale(oldKeys, map[])
    case Accepted(_, name, r) => [Put(name, r, true)]
    case Gone(_, name) => [Remove(name)]
    case PrivateAccepted(_, name, p) => [PutPrivate(name, p, true)]
    case PrivateGone(_, name) => [RemovePrivate(name)]
    case _ => []
  }

  lemma {:induction false} RemoveStaleExact(oldKeys: seq<string>, entries: Entries)
    ensures forall c :: c in RemoveStale(oldKeys, entries) <==> c.Remove? && c.key in oldKeys && c.key !in entries
  {
    if oldKeys != [] {
      RemoveStaleExact(oldKeys[..|oldKeys| - 1], entries);
      assert oldKeys == oldKeys[..|oldKeys| - 1] + [oldKeys[|oldKeys| - 1]];
    }
  }

  lemma {:induction false} PutAllExact(order: seq<string>, entries: Entries, write: bool)
    requires forall k :: k in order ==> k in entries
    ensures forall c :: c in PutAll(order, entries, write) <==>
      (c.Put? && c.key in order && c.resource == entries[c.key] && c.write == write)
  {
    if order != [] {
      PutAllExact(order[..|order| - 1], entries, write);
      assert order == order[..|order| - 1] + [order[|order| - 1]];
    }
  }

  /** The plan for an object puts what was built and removes what is no longer built. */
  lemma PlanExact(e: Event, oldKeys: seq<string>, order: seq<string>, write: bool, c: Call)
    requires e.Deliver? || e.Deleted?
    requires e.Deliver? ==> forall k :: k in order <==> k in e.entries
    ensures var entries := if e.Deliver? then e.entries else map[];
      c in Plan(e, oldKeys, order, write) <==>
        || (c.Remove? && c.key in oldKeys && c.key !in entries)
        || (c.Put? && c.key in entries && c.resource == entries[c.key] && c.write == write)
  {
    var entries := if e.Deliver? then e.entries else map[];
    RemoveStaleExact(oldKeys, entries);
    if e.Deliver? {
      PutAllExact(order, entries, write);
    }
  }

  // ----- the effect of a whole plan -----

  function PubAfterAll(calls: seq<Call>, pub: Entries): Entries {
    if |calls| == 0 then pub
    else PubAfter(calls[|calls| - 1], PubAfterAll(calls[..|calls| - 1], pub))
  }

  lemma {:induction false} PubAfterConcat(a: seq<Call>, b: seq<Call>, pub: Entries)
    ensures PubAfterAll(a + b, pub) == PubAfterAll(b, PubAfterAll(a, pub))
  {
    if b == [] {
      assert a + b == a;
    } else {
      assert (a + b)[..|a + b| - 1] == a + b[..|b| - 1];
      PubAfterConcat(a, b[..|b| - 1], pub);
    }
  }

  lemma PubAfterSnoc(calls: seq<Call>, c: Call, pub: Entries)
    ensures PubAfterAll(calls + [c], pub) == PubAfter(c, PubAfterAll(calls, pub))
  {
    assert (calls + [c])[..|calls|] == calls;
  }

  lemma {:induction false} RemoveStaleEffect(oldKeys: seq<string>, entries: Entries, pub: Entries, k: string)
    ensures Lookup(PubAfterAll(RemoveStale(oldKeys, entries), pub), k)
         == if k in oldKeys && k !in entries then None else Lookup(pub, k)
  {
    if oldKeys != [] {
      var init, last := oldKeys[..|oldKeys| - 1], oldKeys[|oldKeys| - 1];
      RemoveStaleEffect(init, entries, pub, k);
      assert k in oldKeys <==> k in init || k == last;
      if last in entries {
        assert RemoveStale(oldKeys, entries) == RemoveStale(init, entries);
      } else {
        PubAfterSnoc(RemoveStale(init, entries), Remove(last), pub);
      }
    }
  }

  lemma {:induction false} PutAllEffect(order: seq<string>, entries: Entries, write: bool, pub: Entries, k: string)
    requires forall k :: k in order ==> k in entries
    ensures Lookup(PubAfterAll(PutAll(order, entries, write), pub), k)
         == if k in order then Some(entries[k]) else Lookup(pub, k)
  {
    if order != [] {
      var init, last := order[..|order| - 1], order[|order| - 1];
      PutAllEffect(init, entries, write, pub, k);
      assert k in order <==> k in init || k == last;
      PubAfterSnoc(PutAll(init, entries, write), Put(last, entries[last], write), pub);
    }
  }

  /** Applying only the differences amounts to replacing the owner's old keys by its new entries,
      whatever the order in which the entries are visited. */
  lemma DeliverEffect(e: Event, oldKeys: seq<string>, order: seq<string>, write: bool, pub: Entries, k: string)
    requires e.Deliver? && forall k :: k in order <==> k in e.entries
    ensures Lookup(PubAfterAll(Plan(e, oldKeys, order, write), pub), k)
         == if k in e.entries then Some(e.entries[k]) else if k in oldKeys then None else Lookup(pub, k)
  {
    var removes, puts := RemoveStale(oldKeys, e.entries), PutAll(order, e.entries, write);
    PubAfterConcat(removes, puts, pub);
    RemoveStaleEffect(oldKeys, e.entries, pub, k);
    PutAllEffect(order, e.entries, write, PubAfterAll(removes, pub), k);
  }

  // ----- the specification: the latest accepted version of every owner -----

  /** Each live owner with the entries built at its last accepted event. */
  type Live = map<Owner, Entries>

  function UpdateLive(live: Live, e: Event): Live {
    var o := OwnerOf(e);
    match e
    case Deliver(_, _, entries) => if entries == map[] then live - {o} else live[o := entries]
    case Deleted(_, _) => live - {o}
    case Accepted(_, name, r) => live[o := map[name := r]]
    case Gone(_, _) => live - {o}
    case _ => live
  }

  function UpdateIndex(index: map<Owner, seq<string>>, e: Event, keys: seq<string>): map<Owner, seq<string>> {
    match e
    case Deliver(_, _, entries) => if entries == map[] then index - {OwnerOf(e)} else index[OwnerOf(e) := keys]
    case Deleted(_, _) => index - {OwnerOf(e)}
    case _ => index
  }

  ghost predicate Lists(live: Live, o: Owner, k: string) {
    o in live && k in live[o]
  }

  ghost predicate Listed(live: Live, k: string) {
    exists o :: o in live && k in live[o]
  }

  /** What an owner contributes according to the history alone: skipped reconciliations change
      nothing, an empty delivery, a deletion or a not-found end its contribution. */
  function Latest(log: seq<Event>, o: Owner): Option<Entries> {
    if log == [] then None
    else
      var e := log[|log| - 1];
      if OwnerOf(e) != o then Latest(log[..|log| - 1], o)
      else
        match e
        case Deliver(_, _, entries) => if entries == map[] then None else Some(entries)
        case Deleted(_, _) => None
        case Accepted(_, name, r) => Some(map[name := r])
        case Gone(_, _) => None
        case _ => Latest(log[..|log| - 1], o)
  }

  /** The private entry under a name according to the history: that of the last reconciliation of
      any object of that name, in whatever namespace, that was not skipped. */
  function LatestPrivate(log: seq<Event>, name: string): Option<PrivateResource> {
    if log == [] then None
    else
      var e := log[|log| - 1];
      match e
      case PrivateAccepted(_, n, p) => if n == name then Some(p) else LatestPrivate(log[..|log| - 1], name)
      case PrivateGone(_, n) => if n == name then None else LatestPrivate(log[..|log| - 1], name)
      case _ => LatestPrivate(log[..|log| - 1], name)
  }

  lemma LatestSnoc(log: seq<Event>, e: Event)
    ensures (log + [e])[..|log|] == log
    ensures forall o :: o != OwnerOf(e) ==> Latest(log + [e], o) == Latest(log, o)
    ensures forall name :: (e.PrivateAccepted? || e.PrivateGone?) && e.name != name ==>
      LatestPrivate(log + [e], name) == LatestPrivate(log, name)
  {
    assert (log + [e])[..|log + [e]| - 1] == log;
  }

  /** Every key of every owner, with the value of an owner that lists it: the store rebuilt from scratch. */
  ghost function Rebuild(live: Live): Entries {
    map k | k in AllKeys(live) :: AnyValue(live, k)
  }

  ghost function AllKeys(live: Live): set<string> {
    set o, k | o in live && k in live[o] :: k
  }

  ghost function AnyValue(live: Live, k: string): Resource
    requires k in AllKeys(live)
  {
    var o :| o in live && k in live[o];
    live[o][k]
  }

  /** No two owners list the same key. */
  ghost predicate LiveDisjoint(live: Live) {
    forall o, o', k :: Lists(live, o, k) && Lists(live, o', k) ==> o == o'
  }

  /** The store holds, under every key, what each owner that lists it wants there, and nothing else. */
  ghost predicate Agrees(pub: Entries, live: Live) {
    && (forall o, k :: Lists(live, o, k) ==> Lookup(pub, k) == Some(live[o][k]))
    && (forall k :: k in pub ==> Listed(live, k))
  }

  /** The store holds under the key what each owner that lists it wants there, and nothing if none does. */
  ghost predicate AgreesAt(pub: Entries, live: Live, k: string) {
    && (k in pub ==> Listed(live, k))
    && forall o :: Lists(live, o, k) ==> Lookup(pub, k) == Some(live[o][k])
  }

  lemma AgreesIffAtEveryKey(pub: Entries, live: Live)
    ensures Agrees(pub, live) <==> forall k :: AgreesAt(pub, live, k)
  {
    if forall k :: AgreesAt(pub, live, k) {
      forall o, k | Lists(live, o, k) ensures Lookup(pub, k) == Some(live[o][k]) {
        assert AgreesAt(pub, live, k);
      }
      forall k | k in pub ensures Listed(live, k) {
        assert AgreesAt(pub, live, k);
      }
    }
  }

  lemma AgreeingIsRebuilding(pub: Entries, live: Live)
    requires Agrees(pub, live)
    ensures pub == Rebuild(live)
  {
    forall k ensures k in pub <==> k in Rebuild(live) {
      if k in Rebuild(live) {
        var o :| o in live && k in live[o];
        assert Lists(live, o, k);
      }
    }
    forall k | k in pub ensures pub[k] == Rebuild(live)[k] {
      var o :| o in live && k in live[o] && AnyValue(live, k) == live[o][k];
      assert Lists(live, o, k);
    }
  }
}
