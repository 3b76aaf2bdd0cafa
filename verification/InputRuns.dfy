/** What the store should hold according to what the sidecar was told - objects, deletions and reads -
    rather than to the events that its code makes of it. */
module InputRuns {
  import opened Collections
  import opened Blueprint
  import opened Objects
  import opened Store
  import opened Events
  import opened World
  import opened Refinement
  import opened Sources
  import opened Inputs
  import RouteBuilder
  import ServiceBuilder
  import PublicBuilder
  import PrivateBuilder
  import Persistence

  /** Whom an input is about. */
  function About(input: Input): Owner {
    match input
    case Upserted(Route(route), _) => Object(HTTPRoutes, route.meta.namespace + "/" + route.meta.name)
    case Upserted(Svc(svc), _) => Object(Services, svc.meta.namespace + "/" + svc.meta.name)
    case Removed(kind, namespace, name) => Object(kind, namespace + "/" + name)
    case PublicRead(namespace, name, _, _) => Custom(namespace, name)
    case PrivateRead(namespace, name, _) => Private(namespace, name)
  }

  /** A domain for HTTP, a port for a tunnel. */
  predicate UsablePublic(spec: PublicSpec) {
    && (spec.protocol == "http" ==> spec.fullDomain != "")
    && (spec.protocol == "tcp" || spec.protocol == "udp" ==> spec.proxyPort != 0)
  }

  predicate UsablePrivate(spec: PrivateSpec, isCidr: string -> bool) {
    (spec.mode == "cidr" ==> isCidr(spec.destination)) && "Admin" !in spec.roles
  }

  function Unless(entries: Entries): Option<Entries> {
    if entries == map[] then None else Some(entries)
  }

  /** What its owner should have in the store after an input, given what it should have had before: a
      rejected object nothing, any other object what it builds; a deleted or missing one nothing; a
      usable spec its build. A failed read or an unusable spec says nothing. */
  ghost function After(input: Input, before: Option<Entries>, setup: Setup): Option<Entries> {
    match input
    case Upserted(obj, secret) =>
      if Rejected(obj, setup.cfg) then None
      else if obj.Route? then Unless(RouteBuilder.RouteEntries(obj.route, secret, setup.cfg))
      else Unless(ServiceBuilder.ServiceEntries(obj.service, secret, setup.cfg))
    case Removed(_, _, _) => None
    case PublicRead(_, name, fetched, secret) =>
      if fetched.NotFound? then None
      else if fetched.Found? && UsablePublic(fetched.spec) then
        Some(map[name := PublicBuilder.PublicResourceOf(fetched.spec, secret, setup.cfg.siteId)])
      else before
    case PrivateRead(_, _, _) => before
  }

  ghost function Wanted(ins: seq<Input>, o: Owner, setup: Setup): Option<Entries> {
    if |ins| == 0 then None
    else
      var before, last := Wanted(ins[..|ins| - 1], o, setup), ins[|ins| - 1];
      if About(last) == o then After(last, before, setup) else before
  }

  ghost function WantedPrivate(ins: seq<Input>, name: string, setup: Setup): Option<PrivateResource> {
    if |ins| == 0 then None
    else
      var before, last := WantedPrivate(ins[..|ins| - 1], name, setup), ins[|ins| - 1];
      if last.PrivateRead? && last.name == name then
        if last.private.NotFound? then None
        else if last.private.Found? && UsablePrivate(last.private.spec, setup.isCidr) then
          Some(PrivateBuilder.PrivateResourceOf(last.private.spec, setup.cfg.siteId))
        else before
      else before
  }

  /** The events are those that the inputs give rise to. */
  ghost predicate Tells(ins: seq<Input>, log: seq<Event>, setup: Setup) {
    |ins| == |log| && forall i :: 0 <= i < |ins| ==> log[i] == EventOf(ins[i], setup)
  }

  /** What an event makes of the latest version of its owner. */
  function LatestAfter(e: Event, before: Option<Entries>): Option<Entries> {
    match e
    case Deliver(_, _, entries) => Unless(entries)
    case Deleted(_, _) => None
    case Accepted(_, name, r) => Some(map[name := r])
    case Gone(_, _) => None
    case _ => before
  }

  lemma LatestLast(log: seq<Event>, o: Owner)
    requires log != []
    ensures var before, last := Latest(log[..|log| - 1], o), log[|log| - 1];
      Latest(log, o) == if OwnerOf(last) == o then LatestAfter(last, before) else before
  {
  }

  lemma EventFollowsInput(input: Input, before: Option<Entries>, setup: Setup)
    ensures OwnerOf(EventOf(input, setup)) == About(input)
    ensures LatestAfter(EventOf(input, setup), before) == After(input, before, setup)
  {
    if input.Upserted? {
      DeliveryExact(input.obj, input.secret, setup.cfg);
    }
  }

  /** The latest version of every owner is what the inputs ask for. */
  lemma {:induction false} LatestIsWanted(ins: seq<Input>, log: seq<Event>, o: Owner, setup: Setup)
    requires Tells(ins, log, setup)
    ensures Latest(log, o) == Wanted(ins, o, setup)
  {
    if ins != [] {
      var n := |ins| - 1;
      LatestIsWanted(ins[..n], log[..n], o, setup);
      LatestLast(log, o);
      EventFollowsInput(ins[n], Wanted(ins[..n], o, setup), setup);
    }
  }

  lemma PrivateFollowsInput(input: Input, setup: Setup)
    ensures var e := EventOf(input, setup);
      if input.PrivateRead? && input.private.NotFound? then e == PrivateGone(input.namespace, input.name)
      else if input.PrivateRead? && input.private.Found? && UsablePrivate(input.private.spec, setup.isCidr) then
        e == PrivateAccepted(input.namespace, input.name,
                             PrivateBuilder.PrivateResourceOf(input.private.spec, setup.cfg.siteId))
      else !e.PrivateAccepted? && !e.PrivateGone?
  {
  }

  lemma {:induction false} LatestPrivateIsWanted(ins: seq<Input>, log: seq<Event>, name: string, setup: Setup)
    requires Tells(ins, log, setup)
    ensures LatestPrivate(log, name) == WantedPrivate(ins, name, setup)
  {
    if ins != [] {
      var n := |ins| - 1;
      LatestPrivateIsWanted(ins[..n], log[..n], name, setup);
      PrivateFollowsInput(ins[n], setup);
    }
  }

  // ----- whole runs -----

  /** The map has everything that is wanted, at its wanted value, and nothing else. */
  ghost predicate HoldsWanted(pub: Entries, ins: seq<Input>, setup: Setup) {
    && (forall o, k :: Wants(ins, o, k, setup) ==> Lookup(pub, k) == Some(Wanted(ins, o, setup).value[k]))
    && (forall k :: k in pub ==> exists o :: Wants(ins, o, k, setup))
  }

  ghost predicate Wants(ins: seq<Input>, o: Owner, k: string, setup: Setup) {
    Wanted(ins, o, setup).Some? && k in Wanted(ins, o, setup).value
  }

  lemma LiveIsWanted(ws: seq<World>, output: Option<Doc>, i: nat, ins: seq<Input>, setup: Setup, o: Owner, k: string)
    requires Behaviour(ws, output) && i < |ws| && Tells(ins, ws[i].log, setup)
    ensures Lookup(ws[i].live, o) == Wanted(ins, o, setup)
    ensures Lists(ws[i].live, o, k) <==> Wants(ins, o, k, setup)
  {
    StructureOverRun(ws, output, i);
    LatestIsWanted(ins, ws[i].log, o, setup);
    assert Lookup(ws[i].live, o) == Latest(ws[i].log, o);
  }

  /** From what the sidecar is told to what it stores: between events the public map holds just what the
      inputs of this process ask for, if and only if every call that has spoiled a key for an owner
      since all keys were settled was followed by a step that healed it. */
  lemma StoreFollowsInputs(ws: seq<World>, output: Option<Doc>, a: nat, i: nat, ins: seq<Input>, setup: Setup)
    requires Behaviour(ws, output) && a <= i < |ws| && AllSettled(ws[a]) && Quiescent(ws[i])
    requires Tells(ins, ws[i].log, setup)
    ensures HoldsWanted(ws[i].store.pub, ins, setup) <==> AllIntact(ws, a, i)
  {
    RefinesRebuild(ws, output, a, i);
    var w := ws[i];
    forall o, k
      ensures Lists(w.live, o, k) <==> Wants(ins, o, k, setup)
      ensures Lists(w.live, o, k) ==> w.live[o][k] == Wanted(ins, o, setup).value[k]
    {
      LiveIsWanted(ws, output, i, ins, setup, o, k);
    }
    forall k ensures Listed(w.live, k) <==> exists o :: Wants(ins, o, k, setup) {
      if Listed(w.live, k) {
        var o :| o in w.live && k in w.live[o];
        assert Lists(w.live, o, k);
      }
      if o :| Wants(ins, o, k, setup) {
        assert Lists(w.live, o, k);
      }
    }
  }

  /** The input says something about what its owner should have. */
  predicate Counts(input: Input) {
    match input
    case PublicRead(_, _, fetched, _) => fetched.NotFound? || (fetched.Found? && UsablePublic(fetched.spec))
    case PrivateRead(_, _, _) => false
    case _ => true
  }

  lemma AfterCounts(input: Input, before: Option<Entries>, setup: Setup)
    ensures After(input, before, setup) == if Counts(input) then After(input, None, setup) else before
    ensures After(input, None, setup).Some? ==>
      Counts(input) && (input.PublicRead? || (input.Upserted? && !Rejected(input.obj, setup.cfg)))
  {
  }

  lemma WantedLast(ins: seq<Input>, o: Owner, setup: Setup)
    requires ins != []
    ensures var before, last := Wanted(ins[..|ins| - 1], o, setup), ins[|ins| - 1];
      Wanted(ins, o, setup) == if About(last) == o && Counts(last) then After(last, None, setup) else before
  {
    AfterCounts(ins[|ins| - 1], Wanted(ins[..|ins| - 1], o, setup), setup);
  }

  /** The input at position n is the last that says anything about the owner. */
  ghost predicate IsLastWord(ins: seq<Input>, o: Owner, n: int) {
    && 0 <= n < |ins| && About(ins[n]) == o && Counts(ins[n])
    && forall m :: n < m < |ins| && About(ins[m]) == o ==> !Counts(ins[m])
  }

  lemma {:induction false} WantedIsLastWord(ins: seq<Input>, o: Owner, setup: Setup, n: int)
    requires IsLastWord(ins, o, n)
    ensures Wanted(ins, o, setup) == After(ins[n], None, setup)
  {
    WantedLast(ins, o, setup);
    if n < |ins| - 1 {
      WantedIsLastWord(ins[..|ins| - 1], o, setup, n);
    }
  }

  lemma {:induction false} LastWordExists(ins: seq<Input>, o: Owner, setup: Setup) returns (n: nat)
    requires Wanted(ins, o, setup).Some?
    ensures IsLastWord(ins, o, n)
  {
    n := |ins| - 1;
    WantedLast(ins, o, setup);
    if About(ins[n]) != o || !Counts(ins[n]) {
      n := LastWordExists(ins[..n], o, setup);
    }
  }

  /** What is wanted of an owner is its last word: an accepted object's build or a usable spec's. In
      particular nothing is wanted of an object that is rejected in its last version. */
  lemma LastWord(ins: seq<Input>, o: Owner, setup: Setup) returns (n: nat)
    requires Wanted(ins, o, setup).Some?
    ensures IsLastWord(ins, o, n) && Wanted(ins, o, setup) == After(ins[n], None, setup)
    ensures ins[n].PublicRead? || (ins[n].Upserted? && !Rejected(ins[n].obj, setup.cfg))
  {
    n := LastWordExists(ins, o, setup);
    WantedIsLastWord(ins, o, setup, n);
    AfterCounts(ins[n], None, setup);
  }

  /** Nothing else is ever stored, even when keys collide: between events each public key is asked for by
      the last word on some owner, which is an accepted object or a usable spec. So no key stems from
      rejected objects only. */
  lemma NothingUnwantedStored(ws: seq<World>, output: Option<Doc>, i: nat, ins: seq<Input>, setup: Setup, k: string)
    returns (o: Owner, n: nat)
    requires Behaviour(ws, output) && i < |ws| && Quiescent(ws[i]) && Tells(ins, ws[i].log, setup)
    requires k in ws[i].store.pub
    ensures IsLastWord(ins, o, n) && After(ins[n], None, setup).Some? && k in After(ins[n], None, setup).value
    ensures ins[n].PublicRead? || (ins[n].Upserted? && !Rejected(ins[n].obj, setup.cfg))
  {
    NoOrphansEver(ws, output, i, k);
    o :| o in ws[i].live && k in ws[i].live[o];
    LiveIsWanted(ws, output, i, ins, setup, o, k);
    n := LastWord(ins, o, setup);
  }

  /** A PublicResource, read by read: while nobody else lists its name or has a call about it pending and
      its reconciler is idle, its entry is what its reads ask for - the build of the last usable spec
      since it was last found missing - if and only if each call that spoiled it was healed. */
  lemma PublicResourceFollowsReads(
      ws: seq<World>, output: Option<Doc>, a: nat, i: nat, ins: seq<Input>, setup: Setup,
      namespace: string, name: string)
    requires Behaviour(ws, output) && a <= i < |ws| && SettledFor(ws[a], Custom(namespace, name), name)
    requires forall o :: Claims(ws[i], o, name) ==> o == Custom(namespace, name)
    requires IdleWriter(ws[i], PublicReconciler) && Tells(ins, ws[i].log, setup)
    ensures var wanted := Wanted(ins, Custom(namespace, name), setup); wanted.Some? ==> name in wanted.value
    ensures var wanted := Wanted(ins, Custom(namespace, name), setup);
      Lookup(ws[i].store.pub, name) == (if wanted.Some? then Some(wanted.value[name]) else None)
      <==> !Hurt(ws, a, i, Custom(namespace, name), name)
  {
    LatestIsWanted(ins, ws[i].log, Custom(namespace, name), setup);
    CustomResourceLastValid(ws, output, a, i, namespace, name);
  }

  /** PrivateResources, read by read and with no condition. */
  lemma PrivateFollowsReads(ws: seq<World>, output: Option<Doc>, i: nat, ins: seq<Input>, setup: Setup, name: string)
    requires Behaviour(ws, output) && i < |ws| && IdleWriter(ws[i], PrivateReconciler) && Tells(ins, ws[i].log, setup)
    ensures Lookup(ws[i].store.priv, name) == WantedPrivate(ins, name, setup)
  {
    Persistence.PrivateLastValid(ws, output, i, name);
    LatestPrivateIsWanted(ins, ws[i].log, name, setup);
  }
}
