/** A sidecar that watches one namespace and publishes Services as tunnels needs no assumption about
    collisions: its keys cannot collide. */
module OneNamespace {
  import opened Collections
  import opened Text
  import opened Blueprint
  import opened Objects
  import opened Store
  import opened Events
  import opened World
  import opened Refinement
  import opened Sources
  import opened Inputs
  import ServiceBuilder

  // ----- every claim stems from the log -----

  function EventKeys(e: Event): set<string> {
    match e
    case Deliver(_, _, entries) => entries.Keys
    case Accepted(_, name, _) => {name}
    case Gone(_, name) => {name}
    case _ => {}
  }

  ghost predicate FromLog(log: seq<Event>, o: Owner, k: string) {
    exists i :: 0 <= i < |log| && OwnerOf(log[i]) == o && k in EventKeys(log[i])
  }

  ghost predicate ClaimsFromLog(w: World) {
    forall o, k :: Claims(w, o, k) ==> FromLog(w.log, o, k)
  }

  lemma FromLongerLog(log: seq<Event>, e: Event, o: Owner, k: string)
    requires FromLog(log, o, k) || (OwnerOf(e) == o && k in EventKeys(e))
    ensures FromLog(log + [e], o, k)
  {
    if FromLog(log, o, k) {
      var i :| 0 <= i < |log| && OwnerOf(log[i]) == o && k in EventKeys(log[i]);
      assert (log + [e])[i] == log[i];
    } else {
      assert (log + [e])[|log|] == e;
    }
  }

  lemma NewClaims(w: World, e: Event, keys: seq<string>, order: seq<string>, o: Owner, k: string)
    requires StructureOk(w) && Enabled(Begin(e, keys, order), w)
    requires Claims(Do(Begin(e, keys, order), w), o, k)
    ensures Claims(w, o, k) || (o == OwnerOf(e) && k in EventKeys(e))
  {
    var w' := Do(Begin(e, keys, order), w);
    if !Lists(w'.live, o, k) {
      var c :| Pending(w', o, c) && IsPublic(c) && c.key == k;
      PendingAfterBegin(w, e, keys, order, o, c);
      if o == OwnerOf(e) && (e.Deliver? || e.Deleted?) {
        PlanExact(e, OldKeys(w, o), order, WriteFlag(w, e), c);
        assert c.Remove? ==> Lists(w.live, o, k);
      }
    }
  }

  lemma ClaimsStep(s: Step, w: World)
    requires StructureOk(w) && Enabled(s, w) && ClaimsFromLog(w)
    ensures ClaimsFromLog(Do(s, w))
  {
    var w' := Do(s, w);
    forall o, k | Claims(w', o, k) ensures FromLog(w'.log, o, k) {
      match s
      case Begin(e, keys, order) =>
        NewClaims(w, e, keys, order, o, k);
        FromLongerLog(w.log, e, o, k);
      case DoCall(writer) =>
        if PendingKey(w', o, k) {
          var c :| Pending(w', o, c) && IsPublic(c) && c.key == k;
          PendingAfterCall(w, writer, o, c);
        }
        assert Claims(w, o, k);
      case Die =>
      case _ =>
        QuietStep(s, w);
        SamePending(w, w');
        assert Claims(w, o, k);
    }
  }

  lemma {:induction false} ClaimsOverRun(ws: seq<World>, output: Option<Doc>, i: nat)
    requires Behaviour(ws, output) && i < |ws|
    ensures ClaimsFromLog(ws[i])
    decreases i
  {
    if i > 0 {
      ClaimsOverRun(ws, output, i - 1);
      StructureOverRun(ws, output, i - 1);
      var s := StepAt(ws, output, i - 1);
      ClaimsStep(s, ws[i - 1]);
    }
  }

  // ----- tunnels of one namespace -----

  /** A Service of the namespace that is published as TCP or UDP tunnels, the deletion of one, or a
      reconciliation of any PrivateResource. */
  ghost predicate TunnelInput(input: Input, ns: string) {
    match input
    case Upserted(Svc(svc), _) =>
      svc.meta.namespace == ns && Trimmed(svc.meta.annotations, AtFullDomain) == "" && PortsValid(svc)
    case Removed(Services, namespace, _) => namespace == ns
    case PrivateRead(_, _, _) => true
    case _ => false
  }

  ghost predicate TunnelEvent(e: Event, ns: string, setup: Setup) {
    exists input :: TunnelInput(input, ns) && e == EventOf(input, setup)
  }

  /** The keys that a Service of the namespace may use. */
  ghost predicate MayUse(ns: string, o: Owner, k: string) {
    exists name, port: nat, protocol ::
      o == Object(Services, ns + "/" + name) && protocol in ["tcp", "udp"]
      && k == ServiceToKey(ns, name, Itoa(port), protocol)
  }

  lemma KeysAreTheirOwners(ns: string, o: Owner, o': Owner, k: string)
    requires MayUse(ns, o, k) && MayUse(ns, o', k)
    ensures o == o'
  {
    var n, p: nat, t :|
      o == Object(Services, ns + "/" + n) && t in ["tcp", "udp"] && k == ServiceToKey(ns, n, Itoa(p), t);
    var n', p': nat, t' :|
      o' == Object(Services, ns + "/" + n') && t' in ["tcp", "udp"] && k == ServiceToKey(ns, n', Itoa(p'), t');
    ServiceKeyInjective(ns, n, p, t, n', p', t');
  }

  lemma UseKey(ns: string, name: string, port: nat, protocol: string)
    requires protocol in ["tcp", "udp"]
    ensures MayUse(ns, Object(Services, ns + "/" + name), ServiceToKey(ns, name, Itoa(port), protocol))
  {
  }

  lemma TunnelKeys(svc: Service, secret: SecretData, cfg: Config, k: string)
    requires Trimmed(svc.meta.annotations, AtFullDomain) == "" && PortsValid(svc)
    requires k in ServiceBuilder.ServiceEntries(svc, secret, cfg)
    ensures MayUse(svc.meta.namespace, Object(Services, svc.meta.ObjKey()), k)
  {
    if k in ServiceBuilder.AllPortEntries(svc, cfg) {
      AllPortKeys(svc, cfg, k);
    } else {
      SinglePortKey(svc, secret, cfg, k);
    }
  }

  lemma AllPortKeys(svc: Service, cfg: Config, k: string)
    requires PortsValid(svc) && k in ServiceBuilder.AllPortEntries(svc, cfg)
    ensures MayUse(svc.meta.namespace, Object(Services, svc.meta.ObjKey()), k)
  {
    var i := ServiceBuilder.EntryOfPort(svc, cfg, k);
    var p := svc.ports[i];
    assert p in svc.ports;
    UseKey(svc.meta.namespace, svc.meta.name, p.port, ServiceBuilder.ServiceProtocol(p.protocol));
  }

  lemma SinglePortKey(svc: Service, secret: SecretData, cfg: Config, k: string)
    requires Trimmed(svc.meta.annotations, AtFullDomain) == "" && PortsValid(svc)
    requires k in ServiceBuilder.SinglePortEntry(svc, secret, cfg)
    ensures MayUse(svc.meta.namespace, Object(Services, svc.meta.ObjKey()), k)
  {
    ServiceBuilder.SelectedPortIsAPort(svc);
    var p := ServiceBuilder.SelectPort(svc.ports, svc.meta.annotations).value;
    UseKey(svc.meta.namespace, svc.meta.name, p.port, ServiceBuilder.TunnelProtocol(p, svc.meta.annotations));
  }

  lemma TunnelEventKeys(e: Event, ns: string, setup: Setup, k: string)
    requires TunnelEvent(e, ns, setup) && k in EventKeys(e)
    ensures MayUse(ns, OwnerOf(e), k)
  {
    var input :| TunnelInput(input, ns) && e == EventOf(input, setup);
    if input.Upserted? {
      TunnelKeys(input.obj.service, input.secret, setup.cfg, k);
    }
  }

  lemma TunnelClaimsDisjoint(ws: seq<World>, output: Option<Doc>, j: nat, ns: string, setup: Setup, k: string)
    requires Behaviour(ws, output) && j < |ws|
    requires forall n :: 0 <= n < |ws[j].log| ==> TunnelEvent(ws[j].log[n], ns, setup)
    ensures KeyDisjoint(ws[j], k)
  {
    ClaimsOverRun(ws, output, j);
    forall o, o' | Claims(ws[j], o, k) && Claims(ws[j], o', k) ensures o == o' {
      ClaimIsOwn(ws[j], ns, setup, o, k);
      ClaimIsOwn(ws[j], ns, setup, o', k);
      KeysAreTheirOwners(ns, o, o', k);
    }
  }

  /** Refinement without assumptions: a sidecar that is told only about Services of one namespace, all
      published as tunnels, and about any PrivateResources, holds between events exactly the rebuilt
      store, for every sequence of events, every interleaving and whatever dashes the names contain. */
  lemma TunnelsRefineUnconditionally(ws: seq<World>, output: Option<Doc>, i: nat, ns: string, setup: Setup)
    requires Behaviour(ws, output) && i < |ws|
    requires forall j, n :: 0 <= j <= i && 0 <= n < |ws[j].log| ==> TunnelEvent(ws[j].log[n], ns, setup)
    requires Quiescent(ws[i])
    ensures ws[i].store.pub == Rebuild(ws[i].live)
    ensures forall o :: Lookup(ws[i].live, o) == Latest(ws[i].log, o)
  {
    forall k ensures Intact(ws, 0, i, k) {
      forall j | 0 <= j < i ensures KeyDisjoint(ws[j], k) {
        TunnelClaimsDisjoint(ws, output, j, ns, setup, k);
      }
      DisjointIsIntact(ws, output, 0, i, k);
    }
    StartIsSettled(ws[0]);
    RefinesRebuild(ws, output, 0, i);
  }

  lemma ClaimIsOwn(w: World, ns: string, setup: Setup, o: Owner, k: string)
    requires ClaimsFromLog(w) && Claims(w, o, k)
    requires forall n :: 0 <= n < |w.log| ==> TunnelEvent(w.log[n], ns, setup)
    ensures MayUse(ns, o, k)
  {
    assert FromLog(w.log, o, k);
    var n :| 0 <= n < |w.log| && OwnerOf(w.log[n]) == o && k in EventKeys(w.log[n]);
    TunnelEventKeys(w.log[n], ns, setup, k);
  }
}
