/** The controller object and the two reconcilers (internal/controller/controller.go,
    internal/controller/publicresource/controller.go, internal/controller/privateresource/controller.go):
    their handlers, run on their own, make exactly the Manager calls of the event's plan. */
module ControllerObject {
  import opened Collections
  import opened Blueprint
  import opened Objects
  import opened Store
  import opened Events
  import opened Sources
  import opened ManagerObject
  import Handler
  import RouteBuilder
  import ServiceBuilder
  import PublicBuilder
  import PrivateBuilder

  // ----- what a handler did -----

  /** A Manager call that was made, and how its write ended if it wrote. */
  datatype Done = Done(call: Call, end: Result)

  ghost function Calls(trace: seq<Done>): (calls: seq<Call>)
    ensures |calls| == |trace|
  {
    if |trace| == 0 then [] else Calls(trace[..|trace| - 1]) + [trace[|trace| - 1].call]
  }

  ghost function RunTrace(trace: seq<Done>, s: Store): Store {
    if |trace| == 0 then s
    else RunCall(trace[|trace| - 1].call, trace[|trace| - 1].end, RunTrace(trace[..|trace| - 1], s))
  }

  /** Every write of the trace ends in a way that is possible at that point. */
  ghost predicate TraceOk(trace: seq<Done>, s: Store) {
    |trace| > 0 ==>
      && TraceOk(trace[..|trace| - 1], s)
      && Possible(trace[|trace| - 1].end, RunTrace(trace[..|trace| - 1], s))
  }

  /** Making these calls, one after the other and nobody else in between, leads from s to s'. */
  ghost predicate Leads(trace: seq<Done>, s: Store, s': Store) {
    TraceOk(trace, s) && s' == RunTrace(trace, s)
  }

  lemma TraceSnoc(trace: seq<Done>, d: Done, s: Store)
    ensures Calls(trace + [d]) == Calls(trace) + [d.call]
    ensures RunTrace(trace + [d], s) == RunCall(d.call, d.end, RunTrace(trace, s))
    ensures TraceOk(trace, s) && Possible(d.end, RunTrace(trace, s)) ==> TraceOk(trace + [d], s)
  {
    assert (trace + [d])[..|trace|] == trace;
  }

  lemma {:induction false} TracePub(trace: seq<Done>, s: Store)
    ensures RunTrace(trace, s).pub == PubAfterAll(Calls(trace), s.pub)
  {
    if trace != [] {
      var init := trace[..|trace| - 1];
      TracePub(init, s);
      RunCallMaps(trace[|trace| - 1].call, trace[|trace| - 1].end, RunTrace(init, s));
      assert Calls(trace)[..|trace| - 1] == Calls(init);
    }
  }

  /** Calls that each leave a store alone leave it alone together. */
  lemma {:induction false} IdleTrace(trace: seq<Done>, s: Store)
    requires forall c :: c in Calls(trace) ==> !c.ForceWrite? && !Effective(c, s)
    requires s.phase.Idle?
    ensures RunTrace(trace, s) == s
  {
    if trace != [] {
      var init, d := trace[..|trace| - 1], trace[|trace| - 1];
      assert Calls(trace)[|trace| - 1] == d.call;
      assert forall c :: c in Calls(init) ==> c in Calls(trace);
      IdleTrace(init, s);
      IneffectiveCall(d.call, s);
    }
  }

  /** Handling an unchanged object again, whose entries are all stored: whatever the order of the
      calls and the flag, the Manager ends in the very state in which it began. */
  lemma ResyncTrace(e: Event, oldKeys: seq<string>, order: seq<string>, write: bool, trace: seq<Done>, s: Store)
    requires e.Deliver? && Enumerates(order, e.entries.Keys) && Elements(oldKeys) == e.entries.Keys
    requires forall k :: k in e.entries ==> Lookup(s.pub, k) == Some(e.entries[k])
    requires Calls(trace) == Plan(e, oldKeys, order, write) && s.phase.Idle?
    ensures RunTrace(trace, s) == s
  {
    assert forall k :: k in oldKeys <==> k in Elements(oldKeys);
    forall c | c in Calls(trace) ensures !c.ForceWrite? && !Effective(c, s) {
      PlanExact(e, oldKeys, order, write, c);
    }
    IdleTrace(trace, s);
  }

  /** What a map holds under a key once the entries have taken the place of the old keys. */
  function Replaced(pub: Entries, oldKeys: seq<string>, entries: Entries, k: string): Option<Resource> {
    if k in entries then Some(entries[k]) else if k in oldKeys then None else Lookup(pub, k)
  }

  // ----- ranging over a map -----

  /** The keys in the order in which Go happens to visit them. */
  method RangeKeys(m: Entries) returns (keys: seq<string>)
    ensures Enumerates(keys, m.Keys)
  {
    keys := [];
    var rest := m.Keys;
    while rest != {}
      invariant Enumerates(keys, m.Keys - rest) && rest <= m.Keys
      decreases rest
    {
      var k :| k in rest;
      keys := keys + [k];
      rest := rest - {k};
    }
  }

  class Controller {
    const kind: Kind
    const cfg: Config
    const manager: Manager
    var resourceKeys: map<string, seq<string>>
    var synced: bool

    constructor (kind: Kind, cfg: Config, manager: Manager)
      ensures this.kind == kind && this.cfg == cfg && this.manager == manager
      ensures resourceKeys == map[] && !synced
    {
      this.kind, this.cfg, this.manager := kind, cfg, manager;
      resourceKeys, synced := map[], false;
    }

    function OldKeys(objKey: string): seq<string>
      reads this
    {
      if objKey in resourceKeys then resourceKeys[objKey] else []
    }

    /** The two separate steps of Run once the caches have synced. */
    method FinishRun() returns (ghost end: Result)
      requires manager.Valid()
      modifies this`synced, manager
      ensures manager.Valid()
      ensures manager.resources == old(manager.resources) && manager.privateResources == old(manager.privateResources)
      ensures |manager.attempts| == |old(manager.attempts)| + 1
      ensures synced && Possible(end, old(manager.State()))
      ensures manager.State() == RunCall(ForceWrite, end, old(manager.State()))
      ensures resourceKeys == old(resourceKeys)
    {
      end := manager.ForceWrite();
      ForceWriteOutcome(end, old(manager.State()));
      synced := true;
    }

    /** onAdd and onUpdate. */
    method OnDeliver(obj: Watched, secret: SecretData) returns (ghost trace: seq<Done>, ghost order: seq<string>)
      requires obj.Kind() == kind
      requires manager.Valid()
      modifies this`resourceKeys, manager
      ensures manager.Valid()
      ensures Enumerates(order, obj.EntriesFor(secret, cfg).Keys)
      ensures Calls(trace) == Plan(DeliverEvent(obj, secret, cfg), old(OldKeys(obj.Meta().ObjKey())), order, synced)
      ensures Leads(trace, old(manager.State()), manager.State())
      ensures Installed(obj.Meta().ObjKey(), obj.EntriesFor(secret, cfg), old(resourceKeys), old(manager.resources))
      ensures synced == old(synced)
    {
      trace, order := ProcessObject(obj, secret, synced);
    }

    method OnDelete(namespace: string, name: string) returns (ghost trace: seq<Done>)
      requires manager.Valid()
      modifies this`resourceKeys, manager
      ensures manager.Valid()
      ensures var objKey := namespace + "/" + name;
        Calls(trace) == Plan(Deleted(kind, objKey), old(OldKeys(objKey)), [], true)
      ensures Leads(trace, old(manager.State()), manager.State())
      ensures resourceKeys == old(resourceKeys) - {namespace + "/" + name}
      ensures forall k ::
        Lookup(manager.resources, k)
        == if k in old(OldKeys(namespace + "/" + name)) then None else Lookup(old(manager.resources), k)
    {
      trace := RemoveObject(namespace + "/" + name);
    }

    method Accepts(obj: Watched) returns (accepted: bool)
      ensures accepted == obj.ShouldProcess(cfg)
    {
      match obj
      case Svc(svc) =>
        accepted := ServiceBuilder.ShouldProcess(svc, cfg);
      case Route(route) =>
        var filter := true;
        if cfg.gatewayName != "" {
          filter := RouteBuilder.ReferencesGateway(route, cfg.gatewayName, cfg.gatewayNamespace);
        }
        accepted := Handler.ShouldProcess(route.meta.annotations, Some(filter), None);
    }

    method Build(obj: Watched, secret: SecretData) returns (entries: Entries)
      ensures entries == obj.BuildEntries(secret, cfg)
    {
      match obj
      case Route(route) =>
        entries := RouteBuilder.BuildEntries(route, secret, cfg);
      case Svc(svc) =>
        entries := ServiceBuilder.BuildEntries(svc, secret, cfg);
    }

    /** An object that is not accepted, and one that builds nothing, are removed; otherwise the entries
        built are installed. */
    method ProcessObject(obj: Watched, secret: SecretData, write: bool)
      returns (ghost trace: seq<Done>, ghost order: seq<string>)
      requires obj.Kind() == kind
      requires manager.Valid()
      modifies this`resourceKeys, manager
      ensures manager.Valid()
      ensures var objKey, entries := obj.Meta().ObjKey(), obj.EntriesFor(secret, cfg);
        && Enumerates(order, entries.Keys)
        && Calls(trace) == Plan(DeliverEvent(obj, secret, cfg), old(OldKeys(objKey)), order, write)
        && Installed(objKey, entries, old(resourceKeys), old(manager.resources))
      ensures Leads(trace, old(manager.State()), manager.State())
      ensures Rejected(obj, cfg) ==>
        Installed(obj.Meta().ObjKey(), map[], old(resourceKeys), old(manager.resources))
      ensures !Rejected(obj, cfg) && obj.Route? ==>
        Installed(obj.Meta().ObjKey(), RouteBuilder.RouteEntries(obj.route, secret, cfg),
                  old(resourceKeys), old(manager.resources))
      ensures !Rejected(obj, cfg) && obj.Svc? ==>
        Installed(obj.Meta().ObjKey(), ServiceBuilder.ServiceEntries(obj.service, secret, cfg),
                  old(resourceKeys), old(manager.resources))
    {
      var entries: Entries := map[];
      var accepted := Accepts(obj);
      if accepted {
        entries := Build(obj, secret);
      }
      ghost var before, known := manager.State(), OldKeys(obj.Meta().ObjKey());
      trace, order := Install(obj.Meta().ObjKey(), entries, write);
      StoreAfter(DeliverEvent(obj, secret, cfg), known, order, write, trace, before);
      DeliveryExact(obj, secret, cfg);
    }

    /** The store holds the object's entries in place of what the object had before and is otherwise
        unchanged; the index lists exactly the new keys for it, and nothing if there are none. */
    ghost predicate Installed(
        objKey: string, entries: Entries, oldIndex: map<string, seq<string>>, oldResources: Entries)
      reads this, manager
    {
      var oldKeys := if objKey in oldIndex then oldIndex[objKey] else [];
      && (forall k :: Lookup(manager.resources, k) == Replaced(oldResources, oldKeys, entries, k))
      && Indexed(objKey, entries, oldIndex)
    }

    ghost predicate Indexed(objKey: string, entries: Entries, oldIndex: map<string, seq<string>>)
      reads this
    {
      && resourceKeys - {objKey} == oldIndex - {objKey}
      && (objKey in resourceKeys <==> entries != map[])
      && Enumerates(OldKeys(objKey), entries.Keys)
    }

    method Install(objKey: string, entries: Entries, write: bool)
      returns (ghost trace: seq<Done>, ghost order: seq<string>)
      requires manager.Valid()
      modifies this`resourceKeys, manager
      ensures manager.Valid()
      ensures Enumerates(order, entries.Keys)
      ensures Calls(trace) == Plan(Deliver(kind, objKey, entries), old(OldKeys(objKey)), order, write)
      ensures Leads(trace, old(manager.State()), manager.State())
      ensures Indexed(objKey, entries, old(resourceKeys))
    {
      if |entries| == 0 {
        order := [];
        trace := RemoveObject(objKey);
        EmptyPlan(Deliver(kind, objKey, entries), old(OldKeys(objKey)), write);
        return;
      }
      var newKeys := RangeKeys(entries);
      var oldKeys := OldKeys(objKey);
      resourceKeys := resourceKeys[objKey := newKeys];
      assert Indexed(objKey, entries, old(resourceKeys));
      trace, order := ReplaceEntries(oldKeys, newKeys, entries, write);
    }

    /** The Manager calls for an object that builds something. */
    method ReplaceEntries(oldKeys: seq<string>, newKeys: seq<string>, entries: Entries, write: bool)
      returns (ghost trace: seq<Done>, ghost order: seq<string>)
      requires Enumerates(newKeys, entries.Keys)
      requires manager.Valid()
      modifies manager
      ensures manager.Valid()
      ensures Enumerates(order, entries.Keys)
      ensures Calls(trace) == RemoveStale(oldKeys, entries) + PutAll(order, entries, write)
      ensures Leads(trace, old(manager.State()), manager.State())
    {
      ghost var before := manager.State();
      trace := RemoveOthers(oldKeys, newKeys, entries);
      ghost var puts;
      puts, order := PutEntries(entries, write);
      AppendTraces(trace, puts, before);
      trace := trace + puts;
    }

    /** Removes the old keys that are not built any more. */
    method RemoveOthers(oldKeys: seq<string>, newKeys: seq<string>, entries: Entries) returns (ghost trace: seq<Done>)
      requires Enumerates(newKeys, entries.Keys)
      requires manager.Valid()
      modifies manager
      ensures manager.Valid()
      ensures Calls(trace) == RemoveStale(oldKeys, entries)
      ensures Leads(trace, old(manager.State()), manager.State())
    {
      var newSet: set<string> := {};
      for i := 0 to |newKeys|
        invariant forall k :: k in newSet <==> k in newKeys[..i]
      {
        newSet := newSet + {newKeys[i]};
      }
      assert newKeys[..|newKeys|] == newKeys;
      trace := [];
      for i := 0 to |oldKeys|
        invariant Calls(trace) == RemoveStale(oldKeys[..i], entries)
        invariant manager.Valid() && Leads(trace, old(manager.State()), manager.State())
      {
        assert oldKeys[..i + 1][..i] == oldKeys[..i];
        if oldKeys[i] !in newSet {
          var _, end := manager.Remove(oldKeys[i]);
          TraceSnoc(trace, Done(Remove(oldKeys[i]), end), old(manager.State()));
          trace := trace + [Done(Remove(oldKeys[i]), end)];
        }
      }
      assert oldKeys[..|oldKeys|] == oldKeys;
    }

    method PutEntries(entries: Entries, write: bool) returns (ghost trace: seq<Done>, ghost visited: seq<string>)
      requires manager.Valid()
      modifies manager
      ensures manager.Valid()
      ensures Enumerates(visited, entries.Keys)
      ensures Calls(trace) == PutAll(visited, entries, write)
      ensures Leads(trace, old(manager.State()), manager.State())
    {
      var order := RangeKeys(entries);
      trace := [];
      for i := 0 to |order|
        invariant Calls(trace) == PutAll(order[..i], entries, write)
        invariant manager.Valid() && Leads(trace, old(manager.State()), manager.State())
      {
        assert order[..i + 1][..i] == order[..i];
        var _, end := manager.AddOrUpdate(order[i], entries[order[i]], write);
        TraceSnoc(trace, Done(Put(order[i], entries[order[i]], write), end), old(manager.State()));
        trace := trace + [Done(Put(order[i], entries[order[i]], write), end)];
      }
      assert order[..|order|] == order;
      visited := order;
    }

    method RemoveObject(objKey: string) returns (ghost trace: seq<Done>)
      requires manager.Valid()
      modifies this`resourceKeys, manager
      ensures manager.Valid()
      ensures Calls(trace) == RemoveStale(old(OldKeys(objKey)), map[])
      ensures Leads(trace, old(manager.State()), manager.State())
      ensures resourceKeys == old(resourceKeys) - {objKey}
      ensures forall k ::
        Lookup(manager.resources, k)
        == if k in old(OldKeys(objKey)) then None else Lookup(old(manager.resources), k)
    {
      var keys := OldKeys(objKey);
      resourceKeys := resourceKeys - {objKey};
      trace := [];
      for i := 0 to |keys|
        invariant Calls(trace) == RemoveStale(keys[..i], map[])
        invariant manager.Valid() && Leads(trace, old(manager.State()), manager.State())
        invariant resourceKeys == old(resourceKeys) - {objKey}
      {
        assert keys[..i + 1][..i] == keys[..i];
        var _, end := manager.Remove(keys[i]);
        TraceSnoc(trace, Done(Remove(keys[i]), end), old(manager.State()));
        trace := trace + [Done(Remove(keys[i]), end)];
      }
      assert keys[..|keys|] == keys;
      RemovedAfter(trace, keys, old(manager.State()));
    }
  }

  /** An object that builds nothing is treated like one that is gone. */
  lemma EmptyPlan(e: Event, oldKeys: seq<string>, write: bool)
    requires e.Deliver? && e.entries == map[]
    ensures Plan(e, oldKeys, [], write) == RemoveStale(oldKeys, map[])
  {
  }

  lemma {:induction false} AppendTraces(a: seq<Done>, b: seq<Done>, s: Store)
    ensures Calls(a + b) == Calls(a) + Calls(b)
    ensures RunTrace(a + b, s) == RunTrace(b, RunTrace(a, s))
    ensures TraceOk(a, s) && TraceOk(b, RunTrace(a, s)) ==> TraceOk(a + b, s)
  {
    if b == [] {
      assert a + b == a;
    } else {
      assert (a + b)[..|a + b| - 1] == a + b[..|b| - 1];
      AppendTraces(a, b[..|b| - 1], s);
    }
  }

  lemma StoreAfter(e: Event, oldKeys: seq<string>, order: seq<string>, write: bool, trace: seq<Done>, s: Store)
    requires e.Deliver? && Enumerates(order, e.entries.Keys)
    requires Calls(trace) == Plan(e, oldKeys, order, write)
    ensures forall k :: Lookup(RunTrace(trace, s).pub, k) == Replaced(s.pub, oldKeys, e.entries, k)
  {
    TracePub(trace, s);
    forall k
      ensures Lookup(RunTrace(trace, s).pub, k) == Replaced(s.pub, oldKeys, e.entries, k)
    {
      DeliverEffect(e, oldKeys, order, write, s.pub, k);
    }
  }

  lemma RemovedAfter(trace: seq<Done>, keys: seq<string>, s: Store)
    requires Calls(trace) == RemoveStale(keys, map[])
    ensures forall k :: Lookup(RunTrace(trace, s).pub, k) == if k in keys then None else Lookup(s.pub, k)
  {
    TracePub(trace, s);
    forall k ensures Lookup(RunTrace(trace, s).pub, k) == if k in keys then None else Lookup(s.pub, k) {
      RemoveStaleEffect(keys, map[], s.pub, k);
    }
  }

  lemma OneCall(c: Call, end: Result, s: Store, s': Store)
    requires Possible(end, s) && s' == RunCall(c, end, s)
    ensures Calls([Done(c, end)]) == [c] && Leads([Done(c, end)], s, s')
  {
    TraceSnoc([], Done(c, end), s);
    assert [] + [Done(c, end)] == [Done(c, end)];
  }

  class PublicReconcilerObject {
    const manager: Manager
    const siteId: string

    constructor (manager: Manager, siteId: string)
      ensures this.manager == manager && this.siteId == siteId
    {
      this.manager, this.siteId := manager, siteId;
    }

    method Reconcile(namespace: string, name: string, fetched: Fetch<PublicSpec>, secret: SecretData)
      returns (ok: bool, ghost trace: seq<Done>)
      requires manager.Valid()
      modifies manager
      ensures manager.Valid()
      ensures ok == !fetched.GetError?
      ensures Calls(trace) == Plan(PublicEvent(namespace, name, fetched, secret, siteId), [], [], true)
      ensures Leads(trace, old(manager.State()), manager.State())
      ensures manager.privateResources == old(manager.privateResources)
      ensures manager.resources == old(manager.resources) ==> manager.State() == old(manager.State())
      ensures manager.resources != old(manager.resources) ==> |manager.attempts| == |old(manager.attempts)| + 1
      ensures fetched.GetError? ==> !ok && manager.resources == old(manager.resources)
      ensures fetched.NotFound? ==> ok && manager.resources == old(manager.resources) - {name}
      ensures fetched.Found? ==>
        var spec := fetched.spec;
        var usable := !(spec.protocol == "http" && spec.fullDomain == "")
                      && !((spec.protocol == "tcp" || spec.protocol == "udp") && spec.proxyPort == 0);
        && ok
        && manager.resources ==
             if usable then old(manager.resources)[name := PublicBuilder.PublicResourceOf(spec, secret, siteId)]
             else old(manager.resources)
    {
      ok, trace := true, [];
      match fetched
      case NotFound =>
        var _, end := manager.Remove(name);
        OneCall(Remove(name), end, old(manager.State()), manager.State());
        RunCallOutcome(Remove(name), end, old(manager.State()));
        trace := [Done(Remove(name), end)];
      case GetError =>
        ok := false;
      case Found(spec) =>
        if PublicBuilder.Validate(spec) {
          var r := PublicBuilder.BuildResource(spec, secret, siteId);
          var _, end := manager.AddOrUpdate(name, r, true);
          OneCall(Put(name, r, true), end, old(manager.State()), manager.State());
          RunCallOutcome(Put(name, r, true), end, old(manager.State()));
          trace := [Done(Put(name, r, true), end)];
        }
    }
  }

  class PrivateReconcilerObject {
    const manager: Manager
    const siteId: string

    constructor (manager: Manager, siteId: string)
      ensures this.manager == manager && this.siteId == siteId
    {
      this.manager, this.siteId := manager, siteId;
    }

    method Reconcile(namespace: string, name: string, fetched: Fetch<PrivateSpec>, isCidr: string -> bool)
      returns (ok: bool, ghost trace: seq<Done>)
      requires manager.Valid()
      modifies manager
      ensures manager.Valid()
      ensures ok == !fetched.GetError?
      ensures Calls(trace) == Plan(PrivateEvent(namespace, name, fetched, isCidr, siteId), [], [], true)
      ensures Leads(trace, old(manager.State()), manager.State())
      ensures manager.resources == old(manager.resources)
      ensures manager.privateResources == old(manager.privateResources) ==> manager.State() == old(manager.State())
      ensures manager.privateResources != old(manager.privateResources) ==>
        |manager.attempts| == |old(manager.attempts)| + 1
      ensures fetched.GetError? ==> !ok && manager.privateResources == old(manager.privateResources)
      ensures fetched.NotFound? ==> ok && manager.privateResources == old(manager.privateResources) - {name}
      ensures fetched.Found? ==>
        var spec := fetched.spec;
        var usable := (spec.mode == "cidr" ==> isCidr(spec.destination)) && "Admin" !in spec.roles;
        && ok
        && manager.privateResources ==
             if usable then old(manager.privateResources)[name := PrivateBuilder.PrivateResourceOf(spec, siteId)]
             else old(manager.privateResources)
    {
      ok, trace := true, [];
      match fetched
      case NotFound =>
        var _, end := manager.RemovePrivate(name);
        OneCall(RemovePrivate(name), end, old(manager.State()), manager.State());
        RunCallOutcome(RemovePrivate(name), end, old(manager.State()));
        trace := [Done(RemovePrivate(name), end)];
      case GetError =>
        ok := false;
      case Found(spec) =>
        if PrivateBuilder.Validate(spec, isCidr) {
          var p := PrivateResource(
            spec.name, spec.mode, spec.destination, siteId, spec.tcpPorts, spec.udpPorts, spec.disableIcmp,
            spec.alias, spec.roles, spec.users, spec.machines);
          var _, end := manager.AddOrUpdatePrivate(name, p, true);
          OneCall(PutPrivate(name, p, true), end, old(manager.State()), manager.State());
          RunCallOutcome(PutPrivate(name, p, true), end, old(manager.State()));
          trace := [Done(PutPrivate(name, p, true), end)];
        }
    }
  }
}
