/** Two ways in which live owners that never share a key still lose an entry: the assumptions of
    the refinement theorems cannot be weakened to disjoint live owners alone. */
module Collisions {
  import opened Collections
  import opened Text
  import opened Blueprint
  import opened Store
  import opened Events
  import opened World
  import opened Objects
  import opened Sources
  import opened Inputs
  import opened WellFormed
  import RouteBuilder
  import ServiceBuilder

  // The cast: a route and a Service, two keys, what the route publishes under each of them, and what
  // the Service publishes under the first.
  datatype Cast = Cast(route: string, svc: string, a: string, b: string, ra: Resource, rb: Resource, rs: Resource) {
    function Route(): Owner {
      Object(HTTPRoutes, route)
    }

    function Svc(): Owner {
      Object(Services, svc)
    }

    function RouteAtA(): Event {
      Deliver(HTTPRoutes, route, map[a := ra])
    }

    function RouteAtB(): Event {
      Deliver(HTTPRoutes, route, map[b := rb])
    }

    function SvcAtA(): Event {
      Deliver(Services, svc, map[a := rs])
    }
  }

  // ----- objects that play the parts, for any configuration -----

  const UNDECODED := Decoded(None, None, None)

  function RouteFor(ns: string, name: string, host: string, cfg: Config): HttpRoute {
    HttpRoute(Meta(ns, name, map[AtEnabled := "true"], UNDECODED), [ParentRef(cfg.gatewayName, None)], [host])
  }

  function ServiceFor(ns: string, name: string, host: string): Service {
    Service(Meta(ns, name, map[AtEnabled := "true", AtFullDomain := host], UNDECODED), [Port("http", 80, "TCP")])
  }

  function RouteEntry(ns: string, name: string, host: string, cfg: Config): Resource {
    RouteBuilder.HostResource(RouteFor(ns, name, host, cfg), host, None, cfg)
  }

  function ServiceEntry(ns: string, name: string, host: string, cfg: Config): Resource {
    ServiceResource(ServiceBuilder.HttpPort(ServiceFor(ns, name, host), Port("http", 80, "TCP"), None, cfg), cfg)
  }

  lemma RouteIsAccepted(ns: string, name: string, host: string, cfg: Config)
    ensures RouteBuilder.ShouldProcess(RouteFor(ns, name, host, cfg), cfg)
  {
    var route := RouteFor(ns, name, host, cfg);
    assert ParentRef(cfg.gatewayName, None) in route.parentRefs;
    assert RouteBuilder.References(route, cfg.gatewayName, cfg.gatewayNamespace);
  }

  lemma RouteBuilds(ns: string, name: string, host: string, cfg: Config)
    ensures RouteBuilder.RouteEntries(RouteFor(ns, name, host, cfg), None, cfg)
         == map[HostnameToKey(host) := RouteEntry(ns, name, host, cfg)]
  {
    RouteBuilder.SingleHostname(RouteFor(ns, name, host, cfg), None, cfg, host);
  }

  /** The event of an accepted object that builds these entries. */
  lemma AcceptedGivesEvent(obj: Watched, entries: Entries, setup: Setup)
    requires obj.ShouldProcess(setup.cfg) && obj.BuildEntries(None, setup.cfg) == entries
    requires SchemaValid(Upserted(obj, None))
    ensures FromInput(Deliver(obj.Kind(), obj.Meta().ObjKey(), entries), setup)
  {
    assert EventOf(Upserted(obj, None), setup) == Deliver(obj.Kind(), obj.Meta().ObjKey(), entries);
  }

  lemma RouteDelivered(ns: string, name: string, host: string, setup: Setup)
    requires host != ""
    ensures FromInput(Deliver(HTTPRoutes, ns + "/" + name,
                              map[HostnameToKey(host) := RouteEntry(ns, name, host, setup.cfg)]), setup)
  {
    RouteIsAccepted(ns, name, host, setup.cfg);
    RouteBuilds(ns, name, host, setup.cfg);
    AcceptedGivesEvent(Watched.Route(RouteFor(ns, name, host, setup.cfg)),
                       map[HostnameToKey(host) := RouteEntry(ns, name, host, setup.cfg)], setup);
  }

  lemma ServiceBuilds(ns: string, name: string, host: string, cfg: Config)
    requires host != "" && TrimSpace(host) == host
    ensures ServiceBuilder.ServiceEntries(ServiceFor(ns, name, host), None, cfg)
         == map[HostnameToKey(host) := ServiceEntry(ns, name, host, cfg)]
  {
    var svc := ServiceFor(ns, name, host);
    assert Trimmed(svc.meta.annotations, AtFullDomain) == host;
    assert ServiceBuilder.SelectPort(svc.ports, svc.meta.annotations) == Some(Port("http", 80, "TCP"));
    ServiceBuilder.DomainPort(svc, Port("http", 80, "TCP"), None, cfg);
  }

  lemma ServiceIsAccepted(ns: string, name: string, host: string, cfg: Config)
    ensures ServiceBuilder.ShouldProcess(ServiceFor(ns, name, host), cfg)
  {
    assert IsTruthy("true");
  }

  lemma ServiceDelivered(ns: string, name: string, host: string, setup: Setup)
    requires host != "" && TrimSpace(host) == host
    ensures FromInput(Deliver(Services, ns + "/" + name,
                              map[HostnameToKey(host) := ServiceEntry(ns, name, host, setup.cfg)]), setup)
  {
    ServiceIsAccepted(ns, name, host, setup.cfg);
    ServiceBuilds(ns, name, host, setup.cfg);
    AcceptedGivesEvent(Watched.Svc(ServiceFor(ns, name, host)),
                       map[HostnameToKey(host) := ServiceEntry(ns, name, host, setup.cfg)], setup);
  }

  lemma NotFoundDelivered(ns: string, name: string, setup: Setup)
    ensures FromInput(Gone(ns, name), setup)
  {
    var input := PublicRead(ns, name, NotFound, None);
    assert SchemaValid(input) && EventOf(input, setup) == Gone(ns, name);
  }

  /** Only routes publish the enabled flag. */
  lemma EntriesDiffer(ns: string, route: string, svc: string, host: string, cfg: Config)
    ensures RouteEntry(ns, route, host, cfg) != ServiceEntry(ns, svc, host, cfg)
  {
    assert RouteEntry(ns, route, host, cfg).enabled.Some?;
    assert ServiceEntry(ns, svc, host, cfg).enabled.None?;
  }

  // ----- the route is published under a -----

  function W0(): World {
    Fresh({HTTPRoutes, Services}, Start(None, None))
  }

  function W1(c: Cast): World {
    W0().(index := map[c.Route() := [c.a]], live := map[c.Route() := map[c.a := c.ra]],
          tasks := map[Informer(HTTPRoutes) := Task(0, [Put(c.a, c.ra, false)])],
          log := [c.RouteAtA()], flags := [false])
  }

  function W2(c: Cast): World {
    W1(c).(store := Start(None, None).(pub := map[c.a := c.ra], unsaved := true),
           tasks := map[Informer(HTTPRoutes) := Task(0, [])], dirty := {0})
  }

  ghost predicate Follows(w: World, s: Step, w': World) {
    Enabled(s, w) && w' == Do(s, w) && LiveDisjoint(w'.live)
  }

  /** A run that is fed by inputs and in which live owners are disjoint throughout, grown step by step. */
  ghost predicate DisjointRun(ws: seq<World>, setup: Setup) {
    && Behaviour(ws, None)
    && forall i :: 0 <= i < |ws| ==> LiveDisjoint(ws[i].live) && FedByInputs(ws[i], setup)
  }

  /** The log has stayed as it was, or grown by an event that an input gives rise to. */
  ghost predicate LogGrows(w: World, w': World, setup: Setup) {
    w'.log == w.log || (|w'.log| == |w.log| + 1 && w'.log[..|w.log|] == w.log && FromInput(w'.log[|w.log|], setup))
  }

  lemma Grow(ws: seq<World>, s: Step, w: World, setup: Setup) returns (longer: seq<World>)
    requires DisjointRun(ws, setup) && Follows(ws[|ws| - 1], s, w) && LogGrows(ws[|ws| - 1], w, setup)
    ensures DisjointRun(longer, setup) && longer[|longer| - 1] == w
  {
    longer := ws + [w];
    var last := ws[|ws| - 1];
    forall i | 0 <= i < |w.log| ensures FromInput(w.log[i], setup) {
      if i < |last.log| {
        assert w.log[i] == last.log[i];
      }
    }
    forall i | 0 <= i < |longer| - 1 ensures NextAt(longer, i) {
      if i < |ws| - 1 {
        assert NextAt(ws, i);
      }
    }
  }

  lemma RoutePublished(c: Cast, setup: Setup) returns (ws: seq<World>)
    requires FromInput(c.RouteAtA(), setup)
    ensures DisjointRun(ws, setup) && ws[|ws| - 1] == W2(c)
  {
    ws := [W0()];
    assert Init(W0(), None) by {
      assert W0() == Fresh(W0().kinds, Start(None, None));
    }
    Step1(c);
    ws := Grow(ws, Begin(c.RouteAtA(), [c.a], [c.a]), W1(c), setup);
    Step2(c);
    ws := Grow(ws, DoCall(Informer(HTTPRoutes)), W2(c), setup);
  }

  lemma SinglePlan(e: Event, k: string, write: bool)
    requires e.Deliver? && e.entries.Keys == {k}
    ensures Enumerates([k], e.entries.Keys)
    ensures Plan(e, [], [k], write) == [Put(k, e.entries[k], write)]
  {
    assert [k][..0] == [];
    assert PutAll([k], e.entries, write) == PutAll([], e.entries, write) + [Put(k, e.entries[k], write)];
  }

  lemma Step1(c: Cast)
    ensures Follows(W0(), Begin(c.RouteAtA(), [c.a], [c.a]), W1(c))
  {
    SinglePlan(c.RouteAtA(), c.a, false);
  }

  lemma Step2(c: Cast)
    ensures Follows(W1(c), DoCall(Informer(HTTPRoutes)), W2(c))
  {
    assert [Put(c.a, c.ra, false)][1..] == [];
    var s := Start(None, None);
    assert s.pub[c.a := c.ra] == map[c.a := c.ra];
  }

  // ----- a PublicResource of that name is reported missing -----

  function V3(c: Cast, ns: string): World {
    W2(c).(tasks := W2(c).tasks[PublicReconciler := Task(1, [Remove(c.a)])],
           log := W2(c).log + [Gone(ns, c.a)], flags := [false, true])
  }

  function V4(c: Cast, ns: string): World {
    V3(c, ns).(store := W2(c).store.(pub := map[], phase := Marshalling, attempts := [Attempt(map[], map[], Running)]),
               tasks := W2(c).tasks[PublicReconciler := Task(1, [])], holder := Some(PublicReconciler))
  }

  function V5(c: Cast, ns: string): World {
    V4(c, ns).(store := GiveUp(V4(c, ns).store), holder := None)
  }

  lemma StrayStep3(c: Cast, ns: string)
    ensures Follows(W2(c), Begin(Gone(ns, c.a), [], []), V3(c, ns))
  {
  }

  lemma StrayStep4(c: Cast, ns: string)
    ensures Follows(V3(c, ns), DoCall(PublicReconciler), V4(c, ns))
  {
    assert [Remove(c.a)][1..] == [];
    assert map[c.a := c.ra] - {c.a} == map[];
  }

  lemma StrayStep5(c: Cast, ns: string)
    ensures Follows(V4(c, ns), DoWrite(MarshalFail), V5(c, ns))
  {
  }

  lemma StrayRun(c: Cast, ns: string, setup: Setup) returns (ws: seq<World>)
    requires FromInput(c.RouteAtA(), setup)
    ensures DisjointRun(ws, setup) && ws[|ws| - 1] == V5(c, ns)
  {
    ws := RoutePublished(c, setup);
    StrayStep3(c, ns);
    NotFoundDelivered(ns, c.a, setup);
    ws := Grow(ws, Begin(Gone(ns, c.a), [], []), V3(c, ns), setup);
    StrayStep4(c, ns);
    ws := Grow(ws, DoCall(PublicReconciler), V4(c, ns), setup);
    StrayStep5(c, ns);
    ws := Grow(ws, DoWrite(MarshalFail), V5(c, ns), setup);
  }

  lemma StrayEnd(c: Cast, ns: string)
    ensures Quiescent(V5(c, ns)) && Lists(V5(c, ns).live, c.Route(), c.a) && c.a !in V5(c, ns).store.pub
  {
  }

  /** Under every configuration and for every hostname, a run fed by inputs: a route is published, and
      a PublicResource named like its key, never accepted, is reported missing. The route's entry
      disappears, though no two live owners ever shared a key and the events ran one at a time. */
  lemma StrayNotFoundRemoves(setup: Setup, ns: string, route: string, host: string) returns (ws: seq<World>)
    requires host != ""
    ensures DisjointRun(ws, setup)
    ensures var w, o, k := ws[|ws| - 1], Object(HTTPRoutes, ns + "/" + route), HostnameToKey(host);
      Quiescent(w) && Lists(w.live, o, k) && k !in w.store.pub && k in Rebuild(w.live)
  {
    var k, r := HostnameToKey(host), RouteEntry(ns, route, host, setup.cfg);
    var c := Cast(ns + "/" + route, "", k, k, r, r, r);
    RouteDelivered(ns, route, host, setup);
    ws := StrayRun(c, ns, setup);
    StrayEnd(c, ns);
    ListedIsRebuilt(V5(c, ns).live, c.Route(), k);
  }

  lemma ListedIsRebuilt(live: Live, o: Owner, k: string)
    requires Lists(live, o, k)
    ensures k in Rebuild(live)
  {
    assert o in live && k in live[o];
  }

  // ----- a Service takes the key over before the route has removed it -----

  function X3(c: Cast): World {
    W2(c).(index := map[c.Route() := [c.b]], live := map[c.Route() := map[c.b := c.rb]],
           tasks := map[Informer(HTTPRoutes) := Task(1, [Remove(c.a), Put(c.b, c.rb, false)])],
           log := W2(c).log + [c.RouteAtB()], flags := [false, false])
  }

  function X4(c: Cast): World {
    X3(c).(index := X3(c).index[c.Svc() := [c.a]], live := X3(c).live[c.Svc() := map[c.a := c.rs]],
           tasks := X3(c).tasks[Informer(Services) := Task(2, [Put(c.a, c.rs, false)])],
           log := X3(c).log + [c.SvcAtA()], flags := [false, false, false])
  }

  function X5(c: Cast): World {
    X4(c).(store := X4(c).store.(pub := map[c.a := c.rs]), dirty := {0, 2},
           tasks := X3(c).tasks[Informer(Services) := Task(2, [])])
  }

  function X6(c: Cast): World {
    X5(c).(store := X5(c).store.(pub := map[], phase := Marshalling, attempts := [Attempt(map[], map[], Running)]),
           tasks := X5(c).tasks[Informer(HTTPRoutes) := Task(1, [Put(c.b, c.rb, false)])],
           holder := Some(Informer(HTTPRoutes)))
  }

  function X7(c: Cast): World {
    X6(c).(store := GiveUp(X6(c).store), holder := None)
  }

  function X8(c: Cast): World {
    X7(c).(store := X7(c).store.(pub := map[c.b := c.rb]), dirty := {0, 1, 2},
           tasks := X7(c).tasks[Informer(HTTPRoutes) := Task(1, [])])
  }

  lemma MovingPlan(c: Cast)
    requires c.a != c.b
    ensures Plan(c.RouteAtB(), [c.a], [c.b], false) == [Remove(c.a), Put(c.b, c.rb, false)]
  {
    var e := c.RouteAtB();
    SinglePlan(e, c.b, false);
    assert [c.a][..0] == [];
    assert RemoveStale([c.a], e.entries) == [Remove(c.a)];
    assert Plan(e, [c.a], [c.b], false) == [Remove(c.a)] + Plan(e, [], [c.b], false);
  }

  lemma LateStep3(c: Cast)
    requires c.a != c.b
    ensures Follows(W2(c), Begin(c.RouteAtB(), [c.b], [c.b]), X3(c))
  {
    MovingPlan(c);
    SinglePlan(c.RouteAtB(), c.b, false);
    var s := Begin(c.RouteAtB(), [c.b], [c.b]);
    assert Enabled(s, W2(c));
    assert OldKeys(W2(c), c.Route()) == [c.a];
    assert Do(s, W2(c)).tasks == X3(c).tasks;
    assert Do(s, W2(c)).live == X3(c).live;
    assert Do(s, W2(c)).index == X3(c).index;
    assert W2(c).flags + [false] == X3(c).flags;
  }

  lemma LateOwnersDisjoint(c: Cast)
    requires c.a != c.b
    ensures LiveDisjoint(X4(c).live)
  {
    forall o, o', k | Lists(X4(c).live, o, k) && Lists(X4(c).live, o', k) ensures o == o' {
      assert o == (if k == c.a then c.Svc() else c.Route());
    }
  }

  lemma LateStep4(c: Cast)
    requires c.a != c.b
    ensures Follows(X3(c), Begin(c.SvcAtA(), [c.a], [c.a]), X4(c))
  {
    SinglePlan(c.SvcAtA(), c.a, false);
    assert OldKeys(X3(c), c.Svc()) == [];
    assert X3(c).flags + [false] == X4(c).flags;
    LateOwnersDisjoint(c);
  }

  lemma LateStep5(c: Cast)
    requires c.a != c.b && c.ra != c.rs
    ensures Follows(X4(c), DoCall(Informer(Services)), X5(c))
  {
    assert [Put(c.a, c.rs, false)][1..] == [];
    assert X4(c).store.pub[c.a := c.rs] == map[c.a := c.rs];
    assert X4(c).dirty + {2} == {0, 2};
    LateOwnersDisjoint(c);
    assert X4(c).tasks[Informer(Services) := Task(2, [])] == X5(c).tasks;
  }

  lemma LateStep6(c: Cast)
    requires c.a != c.b
    ensures Follows(X5(c), DoCall(Informer(HTTPRoutes)), X6(c))
  {
    assert [Remove(c.a), Put(c.b, c.rb, false)][1..] == [Put(c.b, c.rb, false)];
    assert map[c.a := c.rs] - {c.a} == map[];
    LateOwnersDisjoint(c);
  }

  lemma LateStep7(c: Cast)
    requires c.a != c.b
    ensures Follows(X6(c), DoWrite(MarshalFail), X7(c))
  {
    LateOwnersDisjoint(c);
  }

  lemma LateStep8(c: Cast)
    requires c.a != c.b
    ensures Follows(X7(c), DoCall(Informer(HTTPRoutes)), X8(c))
  {
    assert [Put(c.b, c.rb, false)][1..] == [];
    assert X7(c).store.pub[c.b := c.rb] == map[c.b := c.rb];
    assert X7(c).dirty + {1} == X8(c).dirty;
    LateOwnersDisjoint(c);
  }

  lemma LateLogs(c: Cast, setup: Setup)
    requires FromInput(c.RouteAtB(), setup) && FromInput(c.SvcAtA(), setup)
    ensures LogGrows(W2(c), X3(c), setup) && LogGrows(X3(c), X4(c), setup) && LogGrows(X4(c), X5(c), setup)
  {
  }

  lemma LateTakeover(c: Cast, setup: Setup) returns (ws: seq<World>)
    requires c.a != c.b && c.ra != c.rs
    requires FromInput(c.RouteAtA(), setup) && FromInput(c.RouteAtB(), setup) && FromInput(c.SvcAtA(), setup)
    ensures DisjointRun(ws, setup) && ws[|ws| - 1] == X5(c)
  {
    ws := RoutePublished(c, setup);
    LateLogs(c, setup);
    LateStep3(c);
    ws := Grow(ws, Begin(c.RouteAtB(), [c.b], [c.b]), X3(c), setup);
    LateStep4(c);
    ws := Grow(ws, Begin(c.SvcAtA(), [c.a], [c.a]), X4(c), setup);
    LateStep5(c);
    ws := Grow(ws, DoCall(Informer(Services)), X5(c), setup);
  }

  lemma LateRun(c: Cast, setup: Setup) returns (ws: seq<World>)
    requires c.a != c.b && c.ra != c.rs
    requires FromInput(c.RouteAtA(), setup) && FromInput(c.RouteAtB(), setup) && FromInput(c.SvcAtA(), setup)
    ensures DisjointRun(ws, setup) && ws[|ws| - 1] == X8(c)
  {
    ws := LateTakeover(c, setup);
    LateStep6(c);
    ws := Grow(ws, DoCall(Informer(HTTPRoutes)), X6(c), setup);
    LateStep7(c);
    ws := Grow(ws, DoWrite(MarshalFail), X7(c), setup);
    LateStep8(c);
    ws := Grow(ws, DoCall(Informer(HTTPRoutes)), X8(c), setup);
  }

  lemma LateEnd(c: Cast)
    requires c.a != c.b
    ensures Quiescent(X8(c)) && Lists(X8(c).live, c.Svc(), c.a) && c.a !in X8(c).store.pub
  {
  }

  /** Under every configuration and for any two hostnames with different keys, a run fed by inputs: a
      route moves from one hostname to another and, before it has removed its old key, a Service is
      published at the first hostname. The late removal deletes the Service's entry, though no two
      live owners ever listed the key at once. */
  lemma LateRemoveDeletes(setup: Setup, ns: string, route: string, svc: string, host: string, host': string)
    returns (ws: seq<World>)
    requires host != "" && host' != "" && TrimSpace(host) == host && HostnameToKey(host) != HostnameToKey(host')
    ensures DisjointRun(ws, setup)
    ensures var w, o, k := ws[|ws| - 1], Object(Services, ns + "/" + svc), HostnameToKey(host);
      Quiescent(w) && Lists(w.live, o, k) && k !in w.store.pub && k in Rebuild(w.live)
  {
    var cfg := setup.cfg;
    var c := Cast(ns + "/" + route, ns + "/" + svc, HostnameToKey(host), HostnameToKey(host'),
                  RouteEntry(ns, route, host, cfg), RouteEntry(ns, route, host', cfg),
                  ServiceEntry(ns, svc, host, cfg));
    RouteDelivered(ns, route, host, setup);
    RouteDelivered(ns, route, host', setup);
    ServiceDelivered(ns, svc, host, setup);
    EntriesDiffer(ns, route, svc, host, cfg);
    ws := LateRun(c, setup);
    LateEnd(c);
    ListedIsRebuilt(X8(c).live, c.Svc(), c.a);
  }
}
