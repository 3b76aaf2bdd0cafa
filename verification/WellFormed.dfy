/** Everything the sidecar ever stores or writes is a blueprint entry that makes sense. */
module WellFormed {
  import opened Collections
  import opened Blueprint
  import opened Objects
  import opened Store
  import opened Events
  import opened World
  import opened Refinement
  import opened Sources
  import opened Inputs
  import RouteBuilder
  import ServiceBuilder
  import PublicBuilder
  import PrivateBuilder
  import Persistence

  predicate OnSite(r: Resource, site: string) {
    |r.targets| >= 1 && forall t :: t in r.targets ==> t.site == site
  }

  /** An HTTP entry has a domain and a server name for its backend, any other entry is a TCP or UDP
      tunnel with a port; there is a target, and all targets are on the configured site. */
  predicate ResourceOk(r: Resource, site: string) {
    && (|| (r.protocol == "http" && r.fullDomain != "" && r.tlsServerName != "")
        || ((r.protocol == "tcp" || r.protocol == "udp") && r.proxyPort != 0))
    && OnSite(r, site)
  }

  predicate PrivateOk(p: PrivateResource, setup: Setup) {
    && p.site == setup.cfg.siteId
    && "Admin" !in p.roles
    && (p.mode == "cidr" ==> setup.isCidr(p.destination))
  }

  ghost predicate EntriesOk(entries: Entries, setup: Setup) {
    forall k :: k in entries ==> ResourceOk(entries[k], setup.cfg.siteId)
  }

  ghost predicate PrivateEntriesOk(priv: PrivateEntries, setup: Setup) {
    forall k :: k in priv ==> PrivateOk(priv[k], setup)
  }

  ghost predicate EventOk(e: Event, setup: Setup) {
    match e
    case Deliver(_, _, entries) => EntriesOk(entries, setup)
    case Accepted(_, _, r) => ResourceOk(r, setup.cfg.siteId)
    case PrivateAccepted(_, _, p) => PrivateOk(p, setup)
    case _ => true
  }

  // ----- the builders -----

  lemma RouteResourceOk(route: HttpRoute, hostname: string, secret: SecretData, cfg: Config)
    requires hostname != ""
    ensures ResourceOk(RouteBuilder.HostResource(route, hostname, secret, cfg), cfg.siteId)
  {
  }

  lemma RouteEntriesOk(route: HttpRoute, secret: SecretData, setup: Setup)
    requires NoneEmpty(route.hostnames)
    ensures EntriesOk(RouteBuilder.RouteEntries(route, secret, setup.cfg), setup)
  {
    forall k | k in RouteBuilder.RouteEntries(route, secret, setup.cfg)
      ensures ResourceOk(RouteBuilder.RouteEntries(route, secret, setup.cfg)[k], setup.cfg.siteId)
    {
      var i := RouteBuilder.EntryOfHostname(route, secret, setup.cfg, k);
      RouteResourceOk(route, route.hostnames[i], secret, setup.cfg);
    }
  }

  /** A TCP or UDP tunnel that carries nothing that belongs to HTTP. */
  predicate BareTunnel(r: Resource) {
    && (r.protocol == "tcp" || r.protocol == "udp")
    && r.auth == None && r.rules == [] && r.fullDomain == "" && r.headers == [] && r.maintenance == None
  }

  lemma AllPortEntriesOk(svc: Service, setup: Setup)
    requires PortsValid(svc)
    ensures EntriesOk(ServiceBuilder.AllPortEntries(svc, setup.cfg), setup)
  {
    forall k | k in ServiceBuilder.AllPortEntries(svc, setup.cfg)
      ensures ResourceOk(ServiceBuilder.AllPortEntries(svc, setup.cfg)[k], setup.cfg.siteId)
    {
      var i := ServiceBuilder.EntryOfPort(svc, setup.cfg, k);
      assert svc.ports[i] in svc.ports;
    }
  }

  lemma ChosenPortOk(svc: Service, secret: SecretData, setup: Setup)
    requires PortsValid(svc)
    ensures var chosen := ServiceBuilder.ChosenPort(svc, secret, setup.cfg);
      chosen.Some? ==> ResourceOk(ServiceResource(chosen.value, setup.cfg), setup.cfg.siteId)
  {
    ServiceBuilder.SelectedPortIsAPort(svc);
    var p := ServiceBuilder.SelectPort(svc.ports, svc.meta.annotations);
    if p.Some? && Trimmed(svc.meta.annotations, AtFullDomain) != "" {
      ServiceBuilder.HttpPortTarget(svc, p.value, secret, setup.cfg);
    }
  }

  lemma ServiceEntriesOk(svc: Service, secret: SecretData, setup: Setup)
    requires PortsValid(svc)
    ensures EntriesOk(ServiceBuilder.ServiceEntries(svc, secret, setup.cfg), setup)
  {
    AllPortEntriesOk(svc, setup);
    ChosenPortOk(svc, secret, setup);
  }

  /** A Service without a public domain publishes only bare tunnels. */
  lemma TunnelsAreBare(svc: Service, secret: SecretData, cfg: Config)
    requires Trimmed(svc.meta.annotations, AtFullDomain) == ""
    ensures var entries := ServiceBuilder.ServiceEntries(svc, secret, cfg);
      forall k :: k in entries ==> BareTunnel(entries[k])
  {
    forall k | k in ServiceBuilder.AllPortEntries(svc, cfg)
      ensures BareTunnel(ServiceBuilder.AllPortEntries(svc, cfg)[k])
    {
      var i := ServiceBuilder.EntryOfPort(svc, cfg, k);
    }
  }

  lemma PublicResourceOk(spec: PublicSpec, secret: SecretData, site: string)
    requires spec.protocol in ["http", "tcp", "udp"] && |spec.targets| >= 1 && PublicBuilder.Validate(spec)
    ensures ResourceOk(PublicBuilder.PublicResourceOf(spec, secret, site), site)
  {
  }

  /** Whatever the API server delivers within its schemas becomes an event with sound entries. */
  lemma InputsGiveSoundEvents(input: Input, setup: Setup)
    requires SchemaValid(input)
    ensures EventOk(EventOf(input, setup), setup)
  {
    match input
    case Upserted(Route(route), secret) => RouteEntriesOk(route, secret, setup);
    case Upserted(Svc(svc), secret) => ServiceEntriesOk(svc, secret, setup);
    case PublicRead(_, _, Found(spec), secret) =>
      if PublicBuilder.Validate(spec) {
        PublicResourceOk(spec, secret, setup.cfg.siteId);
      }
    case _ =>
  }

  // ----- whole runs -----

  ghost predicate MapsOk(pub: Entries, priv: PrivateEntries, setup: Setup) {
    EntriesOk(pub, setup) && PrivateEntriesOk(priv, setup)
  }

  ghost predicate LogOk(w: World, setup: Setup) {
    forall i :: 0 <= i < |w.log| ==> EventOk(w.log[i], setup)
  }

  /** The store, the specification and everything that was ever to be written are sound. */
  ghost predicate AllOk(w: World, setup: Setup) {
    && MapsOk(w.store.pub, w.store.priv, setup)
    && (forall o :: o in w.live ==> EntriesOk(w.live[o], setup))
    && (forall i :: 0 <= i < |w.store.attempts| ==> MapsOk(w.store.attempts[i].pub, w.store.attempts[i].priv, setup))
  }

  lemma CallMapsOk(w: World, writer: Writer, setup: Setup)
    requires StructureOk(w) && Enabled(DoCall(writer), w) && AllOk(w, setup) && LogOk(w, setup)
    ensures var c := w.tasks[writer].calls[0];
      MapsOk(PubAfter(c, w.store.pub), PrivAfter(c, w.store.priv), setup)
  {
    NextCall(w, writer);
    var c, e := w.tasks[writer].calls[0], w.log[w.tasks[writer].id];
    assert EventOk(e, setup);
    if c.Put? {
      assert EntriesOk(w.live[OwnerOf(e)], setup);
    }
  }

  lemma BeginCallAttemptsOk(c: Call, s: Store, setup: Setup)
    requires MapsOk(PubAfter(c, s.pub), PrivAfter(c, s.priv), setup)
    requires forall i :: 0 <= i < |s.attempts| ==> MapsOk(s.attempts[i].pub, s.attempts[i].priv, setup)
    ensures var s' := BeginCall(c, s);
      && MapsOk(s'.pub, s'.priv, setup)
      && forall i :: 0 <= i < |s'.attempts| ==> MapsOk(s'.attempts[i].pub, s'.attempts[i].priv, setup)
  {
  }

  lemma SoundStep(s: Step, w: World, setup: Setup)
    requires StructureOk(w) && Enabled(s, w) && AllOk(w, setup)
    requires LogOk(w, setup) && LogOk(Do(s, w), setup)
    ensures AllOk(Do(s, w), setup)
  {
    match s
    case Begin(e, keys, order) =>
      SoundBegin(e, keys, order, w, setup);
    case DoCall(writer) =>
      CallMapsOk(w, writer, setup);
      BeginCallAttemptsOk(w.tasks[writer].calls[0], w.store, setup);
    case Force(_) =>
      BeginCallAttemptsOk(ForceWrite, w.store, setup);
    case DoWrite(m) =>
      QuietStep(s, w);
      SoundWrite(m, w.store, setup);
    case Sync(_) =>
    case Die =>
  }

  lemma SoundBegin(e: Event, keys: seq<string>, order: seq<string>, w: World, setup: Setup)
    requires Enabled(Begin(e, keys, order), w) && AllOk(w, setup)
    requires LogOk(Do(Begin(e, keys, order), w), setup)
    ensures AllOk(Do(Begin(e, keys, order), w), setup)
  {
    assert Do(Begin(e, keys, order), w).log[|w.log|] == e;
  }

  lemma SoundWrite(m: WriteStep, s: Store, setup: Setup)
    requires CanWrite(m, s)
    requires forall i :: 0 <= i < |s.attempts| ==> MapsOk(s.attempts[i].pub, s.attempts[i].priv, setup)
    ensures var s' := Write(m, s);
      forall i :: 0 <= i < |s'.attempts| ==> MapsOk(s'.attempts[i].pub, s'.attempts[i].priv, setup)
  {
    var s' := Write(m, s);
    forall i | 0 <= i < |s'.attempts|
      ensures i < |s.attempts|
      ensures s'.attempts[i].pub == s.attempts[i].pub && s'.attempts[i].priv == s.attempts[i].priv
    {
    }
  }

  lemma SoundNext(ws: seq<World>, output: Option<Doc>, setup: Setup, i: nat)
    requires Behaviour(ws, output) && i + 1 < |ws|
    requires LogOk(ws[i], setup) && LogOk(ws[i + 1], setup) && AllOk(ws[i], setup)
    ensures AllOk(ws[i + 1], setup)
  {
    StructureOverRun(ws, output, i);
    var s := StepAt(ws, output, i);
    SoundStep(s, ws[i], setup);
  }

  lemma {:induction false} SoundOverRun(ws: seq<World>, output: Option<Doc>, setup: Setup, i: nat)
    requires Behaviour(ws, output) && i < |ws|
    requires forall j :: 0 <= j <= i ==> LogOk(ws[j], setup)
    ensures AllOk(ws[i], setup)
    decreases i
  {
    if i > 0 {
      SoundOverRun(ws, output, setup, i - 1);
      SoundNext(ws, output, setup, i - 1);
    }
  }

  /** The event is one that a schema-valid input gives rise to. */
  ghost predicate FromInput(e: Event, setup: Setup) {
    exists input :: SchemaValid(input) && e == EventOf(input, setup)
  }

  ghost predicate FedByInputs(w: World, setup: Setup) {
    forall i :: 0 <= i < |w.log| ==> FromInput(w.log[i], setup)
  }

  /** In every reachable state of every run that is fed schema-valid inputs, in the middle of events
      and of writes too, every stored public and private resource is sound, and the output file holds
      its initial content or a document in which every entry is. */
  lemma EverythingStoredIsSound(ws: seq<World>, output: Option<Doc>, setup: Setup, i: nat)
    requires Behaviour(ws, output) && i < |ws|
    requires forall j :: 0 <= j <= i ==> FedByInputs(ws[j], setup)
    ensures MapsOk(ws[i].store.pub, ws[i].store.priv, setup)
    ensures var file := ws[i].store.output;
      file == output || (file.Some? && file.value.Document? && MapsOk(file.value.pub, file.value.priv, setup))
  {
    forall j | 0 <= j <= i ensures LogOk(ws[j], setup) {
      assert FedByInputs(ws[j], setup);
      forall n | 0 <= n < |ws[j].log| ensures EventOk(ws[j].log[n], setup) {
        assert FromInput(ws[j].log[n], setup);
        var input :| SchemaValid(input) && ws[j].log[n] == EventOf(input, setup);
        InputsGiveSoundEvents(input, setup);
      }
    }
    SoundOverRun(ws, output, setup, i);
    StructureOverRun(ws, output, i);
  }

  // ----- where stored values come from -----

  /** The event asks for this value under the key. */
  ghost predicate Asks(e: Event, k: string, r: Resource) {
    (e.Deliver? && Lookup(e.entries, k) == Some(r)) || (e.Accepted? && e.name == k && e.resource == r)
  }

  ghost predicate Asked(log: seq<Event>, k: string, r: Resource) {
    exists i :: 0 <= i < |log| && Asks(log[i], k, r)
  }

  /** Every stored value was asked for by some event. */
  ghost predicate Traced(w: World) {
    forall k :: k in w.store.pub ==> Asked(w.log, k, w.store.pub[k])
  }

  lemma {:induction false} LatestWasAsked(log: seq<Event>, o: Owner, k: string)
    requires Latest(log, o).Some? && k in Latest(log, o).value
    ensures Asked(log, k, Latest(log, o).value[k])
  {
    var init, last := log[..|log| - 1], log[|log| - 1];
    if !Asks(last, k, Latest(log, o).value[k]) {
      LatestWasAsked(init, o, k);
      var i :| 0 <= i < |init| && Asks(init[i], k, Latest(init, o).value[k]);
      assert log[i] == init[i];
    }
  }

  lemma TracedCall(w: World, writer: Writer)
    requires StructureOk(w) && Enabled(DoCall(writer), w) && Traced(w)
    ensures Traced(Do(DoCall(writer), w))
  {
    NextCall(w, writer);
    var c, o := w.tasks[writer].calls[0], OwnerOf(w.log[w.tasks[writer].id]);
    if c.Put? {
      assert Lookup(w.live, o) == Latest(w.log, o);
      LatestWasAsked(w.log, o, c.key);
    }
  }

  lemma TracedSame(w: World, w': World)
    requires Traced(w) && w'.store.pub == w.store.pub && |w.log| <= |w'.log| && w'.log[..|w.log|] == w.log
    ensures Traced(w')
  {
    forall k | k in w'.store.pub ensures Asked(w'.log, k, w'.store.pub[k]) {
      assert Asked(w.log, k, w.store.pub[k]);
      var i :| 0 <= i < |w.log| && Asks(w.log[i], k, w.store.pub[k]);
      assert w'.log[i] == w.log[i];
    }
  }

  lemma TracedStep(s: Step, w: World)
    requires StructureOk(w) && Enabled(s, w) && Traced(w)
    ensures Traced(Do(s, w))
  {
    if s.DoCall? {
      TracedCall(w, s.writer);
    } else if s.Begin? {
      TracedSame(w, Do(s, w));
    } else if !s.Die? {
      QuietStep(s, w);
      TracedSame(w, Do(s, w));
    }
  }

  lemma {:induction false} TracedOverRun(ws: seq<World>, output: Option<Doc>, i: nat)
    requires Behaviour(ws, output) && i < |ws|
    ensures Traced(ws[i])
    decreases i
  {
    if i > 0 {
      TracedOverRun(ws, output, i - 1);
      StructureOverRun(ws, output, i - 1);
      var s := StepAt(ws, output, i - 1);
      TracedStep(s, ws[i - 1]);
    }
  }

  /** An informer delivery asks for HTTP entries and bare tunnels only. */
  lemma ObjectsGiveHttpOrBare(input: Input, setup: Setup, k: string, r: Resource)
    requires EventOf(input, setup).Deliver? && Asks(EventOf(input, setup), k, r)
    ensures r.protocol == "http" || BareTunnel(r)
  {
    match input.obj
    case Route(route) =>
      RoutesGiveHttp(route, input.secret, setup.cfg, k);
    case Svc(svc) =>
      if Trimmed(svc.meta.annotations, AtFullDomain) == "" {
        TunnelsAreBare(svc, input.secret, setup.cfg);
      } else {
        ServiceBuilder.DomainGivesOneHttpEntry(svc, input.secret, setup.cfg, k);
      }
  }

  lemma RoutesGiveHttp(route: HttpRoute, secret: SecretData, cfg: Config, k: string)
    requires k in RouteBuilder.RouteEntries(route, secret, cfg)
    ensures RouteBuilder.RouteEntries(route, secret, cfg)[k].protocol == "http"
  {
    var i := RouteBuilder.EntryOfHostname(route, secret, cfg, k);
  }

  /** The value is that of a PublicResource of this name which was accepted. */
  ghost predicate FromPublicResource(log: seq<Event>, k: string, r: Resource) {
    exists i :: 0 <= i < |log| && log[i].Accepted? && log[i].name == k && log[i].resource == r
  }

  /** Anything but an HTTP entry or a bare tunnel stems from a PublicResource. */
  ghost predicate OnlyPublicResourcesDressTunnels(w: World) {
    forall k :: k in w.store.pub ==>
      var r := w.store.pub[k];
      r.protocol == "http" || BareTunnel(r) || FromPublicResource(w.log, k, r)
  }

  lemma TracedTunnels(w: World, setup: Setup)
    requires Traced(w) && FedByInputs(w, setup)
    ensures OnlyPublicResourcesDressTunnels(w)
  {
    forall k | k in w.store.pub
      ensures var r := w.store.pub[k]; r.protocol == "http" || BareTunnel(r) || FromPublicResource(w.log, k, r)
    {
      var i :| 0 <= i < |w.log| && Asks(w.log[i], k, w.store.pub[k]);
      if w.log[i].Deliver? {
        assert FromInput(w.log[i], setup);
        var input :| SchemaValid(input) && w.log[i] == EventOf(input, setup);
        ObjectsGiveHttpOrBare(input, setup, k, w.store.pub[k]);
      }
    }
  }

  /** In every reachable state and whoever else writes: a stored entry that is not HTTP and carries
      authentication, rules, a domain, headers or a maintenance page is the resource of a
      PublicResource of that name; no Service gives rise to one. The same holds of the output file
      unless it still has its initial content. */
  lemma TunnelsAreBareOverRuns(ws: seq<World>, output: Option<Doc>, setup: Setup, i: nat) returns (m: int)
    requires Behaviour(ws, output) && i < |ws|
    requires forall j :: 0 <= j <= i ==> FedByInputs(ws[j], setup)
    ensures OnlyPublicResourcesDressTunnels(ws[i])
    ensures Persistence.Holds(ws, output, i, m) && (m >= 0 ==> OnlyPublicResourcesDressTunnels(ws[m]))
  {
    var at := Persistence.OutputIsWholeAndMonotone(ws, output);
    m := at[i];
    TracedOverRun(ws, output, i);
    TracedTunnels(ws[i], setup);
    if m >= 0 {
      assert FedByInputs(ws[m], setup);
      TracedOverRun(ws, output, m);
      TracedTunnels(ws[m], setup);
    }
  }
}
