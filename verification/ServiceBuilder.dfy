/** Services to entries (internal/resources/service/service.go). */
module ServiceBuilder {
  import opened Collections
  import opened Text
  import opened Blueprint
  import opened Objects
  import Handler

  predicate ShouldProcess(svc: Service, cfg: Config) {
    Handler.ShouldProcess(svc.meta.annotations, None, Some(cfg.autoService))
  }

  function ClusterHostname(svc: Service): string {
    svc.meta.name + "." + svc.meta.namespace + ".svc.cluster.local"
  }

  function ServiceProtocol(p: string): (r: string)
    ensures r in ["tcp", "udp"]
  {
    if p == "UDP" then "udp" else "tcp"
  }

  predicate ResolveAllPorts(a: Annotations, cfg: Config) {
    var v := Lookup(a, AtAllPorts);
    if v.Some? then IsTruthy(v.value) else cfg.allPorts
  }

  function PortDisplayName(svc: Service, p: Port): string {
    svc.meta.name + "-" + if p.name == "" then Itoa(p.port) else p.name
  }

  // ----- all ports -----

  function PortKey(svc: Service, p: Port): string {
    ServiceToKey(svc.meta.namespace, svc.meta.name, Itoa(p.port), ServiceProtocol(p.protocol))
  }

  function RawPort(svc: Service, p: Port, name: string, protocol: string): ServicePort {
    ServicePort(
      name, protocol, p.port, p.port, ClusterHostname(svc), "", "", "", false, "", [], None, None, [], NO_EXTRAS)
  }

  const NO_EXTRAS := BareTarget("", "", "", 0)

  function PortResource(svc: Service, p: Port, cfg: Config): Resource {
    ServiceResource(RawPort(svc, p, PortDisplayName(svc, p), ServiceProtocol(p.protocol)), cfg)
  }

  function PortKeys(svc: Service, ports: seq<Port>): (keys: seq<string>)
    ensures |keys| == |ports|
  {
    seq(|ports|, i requires 0 <= i < |ports| => PortKey(svc, ports[i]))
  }

  function PortResources(svc: Service, ports: seq<Port>, cfg: Config): (rs: seq<Resource>)
    ensures |rs| == |ports|
  {
    seq(|ports|, i requires 0 <= i < |ports| => PortResource(svc, ports[i], cfg))
  }

  function AllPortEntries(svc: Service, cfg: Config): Entries {
    Collect(PortKeys(svc, svc.ports), PortResources(svc, svc.ports, cfg))
  }

  method BuildAllPortEntries(svc: Service, cfg: Config) returns (entries: Entries)
    ensures entries == AllPortEntries(svc, cfg)
  {
    var ports := svc.ports;
    ghost var keys, values := PortKeys(svc, ports), PortResources(svc, ports, cfg);
    entries := map[];
    if |ports| == 0 {
      return;
    }
    for i := 0 to |ports|
      invariant entries == CollectFirst(keys, values, i)
    {
      var p := ports[i];
      var portName := p.name;
      if portName == "" {
        portName := Itoa(p.port);
      }
      var proto := ServiceProtocol(p.protocol);
      var key := ServiceToKey(svc.meta.namespace, svc.meta.name, Itoa(p.port), proto);
      entries := entries[key := ServiceResource(RawPort(svc, p, svc.meta.name + "-" + portName, proto), cfg)];
      CollectStep(keys, values, i);
    }
    CollectEnd(keys, values);
  }

  /** What tells two ports of one Service apart in the blueprint: number, and whether it is a UDP port. */
  function PortId(p: Port): (int, bool) {
    (p.port, p.protocol == "UDP")
  }

  function PortIds(ports: seq<Port>): (ids: seq<(int, bool)>)
    ensures |ids| == |ports|
  {
    seq(|ports|, i requires 0 <= i < |ports| => PortId(ports[i]))
  }

  /** The published protocol of a port. */
  lemma ProtocolIs(p: string)
    ensures ServiceProtocol(p) == if p == "UDP" then "udp" else "tcp"
  {
  }

  lemma PortKeysFollowIds(svc: Service, p: Port, q: Port)
    requires p.port >= 0 && q.port >= 0
    ensures PortKey(svc, p) == PortKey(svc, q) <==> PortId(p) == PortId(q)
  {
    ServiceKeyInjective(svc.meta.namespace,
                        svc.meta.name, p.port, ServiceProtocol(p.protocol),
                        svc.meta.name, q.port, ServiceProtocol(q.protocol));
  }

  /** The Service has no public domain, and its annotation or else the configuration asks for all ports. */
  ghost predicate PublishesAllPorts(svc: Service, cfg: Config) {
    var a := svc.meta.annotations;
    && (AtFullDomain in a ==> TrimSpace(a[AtFullDomain]) == "")
    && if AtAllPorts in a then a[AtAllPorts] == "true" || a[AtAllPorts] == "1" else cfg.allPorts
  }

  lemma ModeIs(svc: Service, secret: SecretData, cfg: Config)
    ensures ServiceEntries(svc, secret, cfg)
         == if PublishesAllPorts(svc, cfg) then AllPortEntries(svc, cfg) else SinglePortEntry(svc, secret, cfg)
  {
    assert TrimSpace("") == "";
  }

  /** All-ports mode publishes one entry for each distinct pair of a number and UDP or not, no more and
      no fewer; none is lost exactly when the pairs are distinct. */
  lemma AllPortKeysExact(svc: Service, secret: SecretData, cfg: Config)
    requires PublishesAllPorts(svc, cfg) && forall i :: 0 <= i < |svc.ports| ==> svc.ports[i].port >= 0
    ensures |ServiceEntries(svc, secret, cfg)|
         == |set i | 0 <= i < |svc.ports| :: (svc.ports[i].port, svc.ports[i].protocol == "UDP")|
    ensures |ServiceEntries(svc, secret, cfg)| == |svc.ports| <==>
      forall i, j :: 0 <= i < j < |svc.ports| ==>
        svc.ports[i].port != svc.ports[j].port || (svc.ports[i].protocol == "UDP") != (svc.ports[j].protocol == "UDP")
  {
    ModeIs(svc, secret, cfg);
    AllPortsCount(svc, cfg);
    IdsArePairs(svc.ports);
  }

  lemma IdsArePairs(ports: seq<Port>)
    ensures Elements(PortIds(ports)) == set i | 0 <= i < |ports| :: (ports[i].port, ports[i].protocol == "UDP")
    ensures NoRepeats(PortIds(ports)) <==>
      forall i, j :: 0 <= i < j < |ports| ==>
        ports[i].port != ports[j].port || (ports[i].protocol == "UDP") != (ports[j].protocol == "UDP")
  {
    var ids, pairs := PortIds(ports), set i | 0 <= i < |ports| :: (ports[i].port, ports[i].protocol == "UDP");
    forall id ensures id in Elements(ids) <==> id in pairs {
      if id in ids {
        var i :| 0 <= i < |ids| && ids[i] == id;
      }
      if i :| 0 <= i < |ports| && id == (ports[i].port, ports[i].protocol == "UDP") {
        assert ids[i] == id;
      }
    }
    if NoRepeats(ids) {
      forall i, j | 0 <= i < j < |ports|
        ensures ports[i].port != ports[j].port || (ports[i].protocol == "UDP") != (ports[j].protocol == "UDP")
      {
        assert ids[i] != ids[j];
      }
    }
  }

  lemma AllPortsCount(svc: Service, cfg: Config)
    requires forall i :: 0 <= i < |svc.ports| ==> svc.ports[i].port >= 0
    ensures |AllPortEntries(svc, cfg)| == |Elements(PortIds(svc.ports))|
    ensures |AllPortEntries(svc, cfg)| == |svc.ports| <==> NoRepeats(PortIds(svc.ports))
  {
    var ports := svc.ports;
    var keys, ids := PortKeys(svc, ports), PortIds(ports);
    CollectExact(keys, PortResources(svc, ports, cfg));
    forall i, j | 0 <= i < |ports| && 0 <= j < |ports| ensures keys[i] == keys[j] <==> ids[i] == ids[j] {
      PortKeysFollowIds(svc, ports[i], ports[j]);
    }
    RenamingKeepsCount(keys, ids);
    CountsWhenDistinct(ids);
    assert |AllPortEntries(svc, cfg)| == |AllPortEntries(svc, cfg).Keys|;
  }

  /** The key under which a port is tunnelled, written out. */
  function TunnelKey(svc: Service, port: int, udp: bool): string {
    svc.meta.namespace + "-" + svc.meta.name + "-" + Itoa(port) + (if udp then "-udp" else "-tcp")
  }

  lemma TunnelKeyIs(svc: Service, port: int, protocol: string)
    requires protocol in ["tcp", "udp"]
    ensures ServiceToKey(svc.meta.namespace, svc.meta.name, Itoa(port), protocol)
         == TunnelKey(svc, port, protocol == "udp")
  {
    var front := svc.meta.namespace + "-" + svc.meta.name + "-" + Itoa(port);
    assert front + "-" + protocol == front + ("-" + protocol);
    assert "-" + "tcp" == "-tcp" && "-" + "udp" == "-udp";
  }

  /** Where each field of a tunnel comes from, apart from its display name. */
  ghost predicate TunnelTo(r: Resource, svc: Service, port: int, udp: bool, site: string) {
    var target := Target(
      site := site, hostname := svc.meta.name + "." + svc.meta.namespace + ".svc.cluster.local", port := port,
      verb := "", enabled := None, internalPort := 0, path := "", pathMatch := "", rewritePath := "",
      rewriteMatch := "", priority := 0, healthCheck := None);
    r == Resource(
      name := r.name, protocol := if udp then "udp" else "tcp", proxyPort := port, targets := [target], enabled := None,
      ssl := false, fullDomain := "", hostHeader := "", tlsServerName := "", headers := [], auth := None,
      maintenance := None, rules := [])
  }

  lemma RawPortTunnels(svc: Service, p: Port, name: string, protocol: string, cfg: Config)
    requires protocol in ["tcp", "udp"]
    ensures TunnelTo(ServiceResource(RawPort(svc, p, name, protocol), cfg), svc, p.port, protocol == "udp", cfg.siteId)
    ensures ServiceResource(RawPort(svc, p, name, protocol), cfg).name == name
  {
  }

  /** In all-ports mode every port, whatever its position, has an entry under its own key that forwards
      its own number over its own protocol; the display name is that of the last port with that key. */
  lemma AllPortEntryForwardsItsPort(svc: Service, secret: SecretData, cfg: Config, i: int)
    requires PublishesAllPorts(svc, cfg) && forall j :: 0 <= j < |svc.ports| ==> svc.ports[j].port >= 0
    requires 0 <= i < |svc.ports|
    ensures var entries, p := ServiceEntries(svc, secret, cfg), svc.ports[i];
      var key := TunnelKey(svc, p.port, p.protocol == "UDP");
      && key in entries && TunnelTo(entries[key], svc, p.port, p.protocol == "UDP", cfg.siteId)
      && ((forall j :: i < j < |svc.ports| ==> PortId(svc.ports[j]) != PortId(p)) ==>
            entries[key].name == svc.meta.name + "-" + if p.name == "" then Itoa(p.port) else p.name)
  {
    ModeIs(svc, secret, cfg);
    var ports := svc.ports;
    var keys, values := PortKeys(svc, ports), PortResources(svc, ports, cfg);
    CollectExact(keys, values);
    var j := LastPosition(keys, i);
    TunnelKeyIs(svc, ports[i].port, ServiceProtocol(ports[i].protocol));
    assert keys[i] == PortKey(svc, ports[i]) && keys[j] == PortKey(svc, ports[j]);
    PortKeysFollowIds(svc, ports[i], ports[j]);
    var protocol := ServiceProtocol(ports[j].protocol);
    RawPortTunnels(svc, ports[j], PortDisplayName(svc, ports[j]), protocol, cfg);
    assert values[j] == ServiceResource(RawPort(svc, ports[j], PortDisplayName(svc, ports[j]), protocol), cfg);
  }

  /** Every entry of all-ports mode is that of one of the ports. */
  lemma EntryOfPort(svc: Service, cfg: Config, k: string) returns (i: nat)
    requires k in AllPortEntries(svc, cfg)
    ensures i < |svc.ports| && PortKey(svc, svc.ports[i]) == k
    ensures AllPortEntries(svc, cfg)[k] == PortResource(svc, svc.ports[i], cfg)
  {
    i := CollectedAt(PortKeys(svc, svc.ports), PortResources(svc, svc.ports, cfg), k);
  }

  lemma LastPosition(keys: seq<string>, i: int) returns (j: int)
    requires 0 <= i < |keys|
    ensures LastWith(keys, j) && keys[j] == keys[i]
    decreases |keys| - i
  {
    if j' :| i < j' < |keys| && keys[j'] == keys[i] {
      j := LastPosition(keys, j');
    } else {
      j := i;
    }
  }

  // ----- a single port -----

  predicate Matches(p: Port, v: string, byNumber: bool) {
    p.name == v || (byNumber && Itoa(p.port) == v)
  }

  /** The first port that matches. */
  function FirstPort(ports: seq<Port>, v: string, byNumber: bool): Option<Port> {
    if |ports| == 0 then None
    else if Matches(ports[0], v, byNumber) then Some(ports[0])
    else FirstPort(ports[1..], v, byNumber)
  }

  method FindPort(ports: seq<Port>, v: string, byNumber: bool) returns (selected: Option<Port>)
    ensures selected == FirstPort(ports, v, byNumber)
  {
    assert ports[0..] == ports;
    for i := 0 to |ports|
      invariant FirstPort(ports, v, byNumber) == FirstPort(ports[i..], v, byNumber)
    {
      assert ports[i..][1..] == ports[i + 1..];
      if Matches(ports[i], v, byNumber) {
        return Some(ports[i]);
      }
    }
    return None;
  }

  /** The annotation decides when it is present; otherwise a lone port, otherwise the one named "http". */
  function SelectPort(ports: seq<Port>, a: Annotations): Option<Port> {
    var v := Lookup(a, AtPort);
    if v.Some? then FirstPort(ports, TrimSpace(v.value), true)
    else if |ports| == 1 then Some(ports[0])
    else FirstPort(ports, "http", false)
  }

  predicate IsFirstMatch(ports: seq<Port>, i: int, v: string, byNumber: bool) {
    && 0 <= i < |ports| && Matches(ports[i], v, byNumber)
    && forall j :: 0 <= j < i ==> !Matches(ports[j], v, byNumber)
  }

  /** The selected port is the first that matches, and none is selected only when none matches. */
  lemma {:induction false} FirstPortIsAPort(ports: seq<Port>, v: string, byNumber: bool)
    ensures var p := FirstPort(ports, v, byNumber);
      && (p.Some? <==> exists i :: 0 <= i < |ports| && Matches(ports[i], v, byNumber))
      && (p.Some? ==> exists i :: IsFirstMatch(ports, i, v, byNumber) && ports[i] == p.value)
  {
    if |ports| > 0 {
      var p, rest := FirstPort(ports, v, byNumber), ports[1..];
      if Matches(ports[0], v, byNumber) {
        assert IsFirstMatch(ports, 0, v, byNumber);
      } else {
        FirstPortIsAPort(rest, v, byNumber);
        assert forall i :: 1 <= i < |ports| ==> ports[i] == rest[i - 1];
        if p.Some? {
          var i :| IsFirstMatch(rest, i, v, byNumber) && rest[i] == p.value;
          assert IsFirstMatch(ports, i + 1, v, byNumber);
        }
      }
    }
  }

  /** The port at position i is the one to expose: with a port annotation the first whose name or
      number is the annotated text; without one the only port there is; otherwise the first that is
      named "http". */
  ghost predicate Exposes(svc: Service, i: int) {
    var a, ports := svc.meta.annotations, svc.ports;
    && 0 <= i < |ports|
    && if AtPort in a then
         var v := TrimSpace(a[AtPort]);
         && (ports[i].name == v || Itoa(ports[i].port) == v)
         && forall j :: 0 <= j < i ==> ports[j].name != v && Itoa(ports[j].port) != v
       else
         |ports| == 1 || (ports[i].name == "http" && forall j :: 0 <= j < i ==> ports[j].name != "http")
  }

  /** The port that is selected is the exposed one, and none is selected only where there is none. */
  lemma SelectionExact(svc: Service)
    ensures var p := SelectPort(svc.ports, svc.meta.annotations);
      && (p.Some? <==> exists i :: Exposes(svc, i))
      && (forall i :: Exposes(svc, i) ==> p == Some(svc.ports[i]))
  {
    var a, ports := svc.meta.annotations, svc.ports;
    var v, byNumber := if AtPort in a then TrimSpace(a[AtPort]) else "http", AtPort in a;
    FirstPortIsAPort(ports, v, byNumber);
    forall i ensures Exposes(svc, i) <==>
      IsFirstMatch(ports, i, v, byNumber) || (AtPort !in a && |ports| == 1 && i == 0)
    {
    }
    if SelectPort(ports, a).Some? {
      if AtPort !in a && |ports| == 1 {
        assert Exposes(svc, 0);
      } else {
        var i :| IsFirstMatch(ports, i, v, byNumber) && ports[i] == SelectPort(ports, a).value;
        assert Exposes(svc, i);
      }
    }
    forall i | Exposes(svc, i) ensures SelectPort(ports, a) == Some(ports[i]) {
      if AtPort in a || |ports| != 1 {
        FirstMatchUnique(ports, i, v, byNumber);
      }
    }
  }

  lemma FirstMatchUnique(ports: seq<Port>, i: int, v: string, byNumber: bool)
    requires IsFirstMatch(ports, i, v, byNumber)
    ensures FirstPort(ports, v, byNumber) == Some(ports[i])
  {
    FirstPortIsAPort(ports, v, byNumber);
    var j :| IsFirstMatch(ports, j, v, byNumber) && FirstPort(ports, v, byNumber) == Some(ports[j]);
    assert i == j;
  }

  /** When there is a port to expose: with an annotation, exactly when some port has the annotated name
      or number; without one, exactly when there is a single port or some port is named "http". */
  lemma ExposureIff(svc: Service)
    ensures var a, ports := svc.meta.annotations, svc.ports;
      (exists i :: Exposes(svc, i)) <==>
        if AtPort in a then
          var v := TrimSpace(a[AtPort]);
          exists i :: 0 <= i < |ports| && (ports[i].name == v || Itoa(ports[i].port) == v)
        else |ports| == 1 || exists i :: 0 <= i < |ports| && ports[i].name == "http"
  {
    var a, ports := svc.meta.annotations, svc.ports;
    var v, byNumber := if AtPort in a then TrimSpace(a[AtPort]) else "http", AtPort in a;
    FirstPortIsAPort(ports, v, byNumber);
    SelectionExact(svc);
    if AtPort !in a && |ports| == 1 {
      assert Exposes(svc, 0);
    } else if i :| 0 <= i < |ports| && Matches(ports[i], v, byNumber) {
      var j :| IsFirstMatch(ports, j, v, byNumber) && ports[j] == FirstPort(ports, v, byNumber).value;
      assert Exposes(svc, j);
    }
  }

  lemma SelectedPortIsAPort(svc: Service)
    ensures var p := SelectPort(svc.ports, svc.meta.annotations); p.Some? ==> p.value in svc.ports
  {
    SelectionExact(svc);
  }

  function DisplayName(svc: Service, p: Port): string {
    TextOverride(TextOf(Lookup(svc.meta.annotations, AtName)), PortDisplayName(svc, p))
  }

  function TargetVerb(a: Annotations): string {
    var v := ToLower(Trimmed(a, AtMethod));
    if v == "https" || v == "h2c" then v else "http"
  }

  function TunnelProtocol(p: Port, a: Annotations): (r: string)
    ensures r in ["tcp", "udp"]
  {
    var v := ToLower(Trimmed(a, AtProtocol));
    if v == "tcp" || v == "udp" then v else ServiceProtocol(p.protocol)
  }

  function SslSetting(a: Annotations, cfg: Config): bool {
    var v := Lookup(a, AtSsl);
    if v.Some? then IsTruthy(v.value) else cfg.ssl
  }

  function HttpPort(svc: Service, p: Port, secret: SecretData, cfg: Config): ServicePort {
    var a, decoded := svc.meta.annotations, svc.meta.decoded;
    ServicePort(
      DisplayName(svc, p), "", 0, p.port, ClusterHostname(svc), Trimmed(a, AtFullDomain), Trimmed(a, AtTlsServerName),
      TargetVerb(a), SslSetting(a, cfg), TextOf(Lookup(a, AtHostHeader)), HeadersOf(a, decoded), MaintenanceOf(a),
      AuthOf(a, secret, cfg), RulesOf(a, decoded, cfg), TargetExtras(NO_EXTRAS, a, decoded))
  }

  function ChosenPort(svc: Service, secret: SecretData, cfg: Config): Option<ServicePort> {
    var a := svc.meta.annotations;
    var selected := SelectPort(svc.ports, a);
    if selected.None? then None
    else if Trimmed(a, AtFullDomain) != "" then Some(HttpPort(svc, selected.value, secret, cfg))
    else Some(RawPort(svc, selected.value, DisplayName(svc, selected.value), TunnelProtocol(selected.value, a)))
  }

  method SelectServicePort(ports: seq<Port>, a: Annotations) returns (selected: Option<Port>)
    ensures selected == SelectPort(ports, a)
  {
    var v := Lookup(a, AtPort);
    if v.Some? {
      selected := FindPort(ports, TrimSpace(v.value), true);
    } else if |ports| == 1 {
      selected := Some(ports[0]);
    } else {
      selected := FindPort(ports, "http", false);
    }
  }

  method ResolveVerb(a: Annotations) returns (verb: string)
    ensures verb == TargetVerb(a)
  {
    verb := "http";
    var v := Lookup(a, AtMethod);
    if v.Some? {
      var w := ToLower(TrimSpace(v.value));
      if w == "https" || w == "h2c" {
        verb := w;
      }
    }
  }

  method ResolveProtocol(p: Port, a: Annotations) returns (protocol: string)
    ensures protocol == TunnelProtocol(p, a)
  {
    protocol := ServiceProtocol(p.protocol);
    var v := Lookup(a, AtProtocol);
    if v.Some? {
      var w := ToLower(TrimSpace(v.value));
      if w == "tcp" || w == "udp" {
        protocol := w;
      }
    }
  }

  method ResolvePort(svc: Service, secret: SecretData, cfg: Config) returns (sp: Option<ServicePort>)
    ensures sp == ChosenPort(svc, secret, cfg)
  {
    var a, decoded := svc.meta.annotations, svc.meta.decoded;
    var fullDomain := Trimmed(a, AtFullDomain);
    var selected := SelectServicePort(svc.ports, a);
    if selected.None? {
      return None;
    }
    var p := selected.value;
    var displayName := PortDisplayName(svc, p);
    var v := Lookup(a, AtName);
    if v.Some? && v.value != "" {
      displayName := v.value;
    }
    if fullDomain != "" {
      var verb := ResolveVerb(a);
      var ssl := cfg.ssl;
      v := Lookup(a, AtSsl);
      if v.Some? {
        ssl := IsTruthy(v.value);
      }
      var extras := BuildTargetExtras(NO_EXTRAS, a, decoded);
      var rules := BuildRules(a, decoded, cfg);
      var auth := BuildAuth(a, secret, cfg);
      return Some(ServicePort(
        displayName, "", 0, p.port, ClusterHostname(svc), fullDomain, Trimmed(a, AtTlsServerName), verb, ssl,
        TextOf(Lookup(a, AtHostHeader)), HeadersOf(a, decoded), MaintenanceOf(a), auth, rules, extras));
    }
    var protocol := ResolveProtocol(p, a);
    return Some(RawPort(svc, p, displayName, protocol));
  }

  function ChosenKey(svc: Service, sp: ServicePort): string {
    if sp.fullDomain != "" then HostnameToKey(sp.fullDomain)
    else ServiceToKey(svc.meta.namespace, svc.meta.name, Itoa(sp.proxyPort), sp.protocol)
  }

  function SinglePortEntry(svc: Service, secret: SecretData, cfg: Config): Entries {
    match ChosenPort(svc, secret, cfg)
    case None => map[]
    case Some(sp) => map[ChosenKey(svc, sp) := ServiceResource(sp, cfg)]
  }

  method BuildSinglePortEntry(svc: Service, secret: SecretData, cfg: Config) returns (entries: Entries)
    ensures entries == SinglePortEntry(svc, secret, cfg)
  {
    var chosen := ResolvePort(svc, secret, cfg);
    match chosen
    case None =>
      entries := map[];
    case Some(sp) =>
      var key := ChosenKey(svc, sp);
      entries := map[key := ServiceResource(sp, cfg)];
  }

  /** A public domain rules out all-ports mode. */
  function ServiceEntries(svc: Service, secret: SecretData, cfg: Config): Entries {
    var a := svc.meta.annotations;
    if Trimmed(a, AtFullDomain) == "" && ResolveAllPorts(a, cfg) then AllPortEntries(svc, cfg)
    else SinglePortEntry(svc, secret, cfg)
  }

  method BuildEntries(svc: Service, secret: SecretData, cfg: Config) returns (entries: Entries)
    ensures entries == ServiceEntries(svc, secret, cfg)
  {
    var hasFullDomain := Trimmed(svc.meta.annotations, AtFullDomain) != "";
    if !hasFullDomain && ResolveAllPorts(svc.meta.annotations, cfg) {
      entries := BuildAllPortEntries(svc, cfg);
    } else {
      entries := BuildSinglePortEntry(svc, secret, cfg);
    }
  }

  /** Nothing is published where no port is to be exposed. */
  lemma NoPortNoEntry(svc: Service, secret: SecretData, cfg: Config)
    requires !PublishesAllPorts(svc, cfg) && forall i :: !Exposes(svc, i)
    ensures ServiceEntries(svc, secret, cfg) == map[]
  {
    ModeIs(svc, secret, cfg);
    SelectionExact(svc);
  }

  /** Without a public domain the exposed port is published as one tunnel, over the annotated protocol if
      that is tcp or udp and otherwise over its own, under the annotated display name if there is one. */
  lemma TunnelExact(svc: Service, secret: SecretData, cfg: Config, i: int)
    requires !PublishesAllPorts(svc, cfg) && Trimmed(svc.meta.annotations, AtFullDomain) == "" && Exposes(svc, i)
    ensures var a, p, entries := svc.meta.annotations, svc.ports[i], ServiceEntries(svc, secret, cfg);
      var asked := if AtProtocol in a then ToLower(TrimSpace(a[AtProtocol])) else "";
      var udp := asked == "udp" || (asked != "tcp" && p.protocol == "UDP");
      && entries.Keys == {TunnelKey(svc, p.port, udp)}
      && TunnelTo(entries[TunnelKey(svc, p.port, udp)], svc, p.port, udp, cfg.siteId)
      && entries[TunnelKey(svc, p.port, udp)].name == PublishedName(svc, p)
  {
    ModeIs(svc, secret, cfg);
    SelectionExact(svc);
    var a, p := svc.meta.annotations, svc.ports[i];
    assert TrimSpace("") == "" && ToLower("") == "";
    var protocol := TunnelProtocol(p, a);
    TunnelKeyIs(svc, p.port, protocol);
    RawPortTunnels(svc, p, DisplayName(svc, p), protocol, cfg);
    PublishedNameIs(svc, p);
  }

  /** The annotated name, or else that of the Service and the name or number of the port. */
  function PublishedName(svc: Service, p: Port): string {
    var a := svc.meta.annotations;
    if AtName in a && a[AtName] != "" then a[AtName]
    else svc.meta.name + "-" + if p.name == "" then Itoa(p.port) else p.name
  }

  lemma PublishedNameIs(svc: Service, p: Port)
    ensures DisplayName(svc, p) == PublishedName(svc, p)
  {
  }

  /** A public domain decides everything: whatever the all-ports setting, the Service publishes one entry
      if it has a port to expose, an HTTP one for the domain under the key of the domain, and it
      forwards to that port; and nothing otherwise. */
  lemma DomainGivesOneHttpEntry(svc: Service, secret: SecretData, cfg: Config, k: string)
    requires Trimmed(svc.meta.annotations, AtFullDomain) != ""
    ensures var domain := Trimmed(svc.meta.annotations, AtFullDomain);
      var entries := ServiceEntries(svc, secret, cfg);
      && (k in entries <==> k == HostnameToKey(domain) && exists i :: Exposes(svc, i))
      && (k in entries ==>
            && entries[k].protocol == "http" && entries[k].fullDomain == domain && entries[k].proxyPort == 0
            && |entries[k].targets| == 1
            && forall i :: Exposes(svc, i) ==> entries[k].targets[0].port == svc.ports[i].port)
  {
    SelectionExact(svc);
    var selected := SelectPort(svc.ports, svc.meta.annotations);
    if selected.Some? {
      DomainPort(svc, selected.value, secret, cfg);
      HttpEntry(HttpPort(svc, selected.value, secret, cfg), cfg);
    }
  }

  lemma DomainPort(svc: Service, p: Port, secret: SecretData, cfg: Config)
    ensures var sp := HttpPort(svc, p, secret, cfg);
      sp.fullDomain == Trimmed(svc.meta.annotations, AtFullDomain) && sp.targetPort == p.port
      && sp.targetHostname == ClusterHostname(svc)
  {
  }

  lemma HttpEntry(sp: ServicePort, cfg: Config)
    requires sp.fullDomain != ""
    ensures var r := ServiceResource(sp, cfg);
      && r.protocol == "http" && r.fullDomain == sp.fullDomain && r.proxyPort == 0
      && |r.targets| == 1 && r.targets[0].hostname == sp.targetHostname && r.targets[0].port == sp.targetPort
  {
  }

  // ----- the two HTTP builders -----

  function WithAddress(t: Target, site: string, hostname: string, verb: string, port: int): Target {
    t.(site := site, hostname := hostname, verb := verb, port := port)
  }

  /** Enriching a target and giving it an address commute. */
  lemma ExtrasCommuteWithAddress(t: Target, a: Annotations, decoded: Decoded,
                                 site: string, hostname: string, verb: string, port: int)
    ensures TargetExtras(WithAddress(t, site, hostname, verb, port), a, decoded)
         == WithAddress(TargetExtras(t, a, decoded), site, hostname, verb, port)
  {
  }

  lemma HttpPortTarget(svc: Service, p: Port, secret: SecretData, cfg: Config)
    requires Trimmed(svc.meta.annotations, AtFullDomain) != ""
    ensures ServiceResource(HttpPort(svc, p, secret, cfg), cfg).targets
         == [WithAddress(TargetExtras(NO_EXTRAS, svc.meta.annotations, svc.meta.decoded),
                         cfg.siteId, ClusterHostname(svc), TargetVerb(svc.meta.annotations), p.port)]
  {
  }

  /** The protocol towards the Service: http unless https or h2c is asked for. */
  function VerbAsked(a: Annotations): string {
    var asked := if AtMethod in a then ToLower(TrimSpace(a[AtMethod])) else "";
    if asked == "https" then "https" else if asked == "h2c" then "h2c" else "http"
  }

  lemma VerbIs(a: Annotations)
    ensures TargetVerb(a) == VerbAsked(a)
  {
    assert TrimSpace("") == "" && ToLower("") == "";
  }

  /** The two HTTP paths agree: with the same annotations, decoded JSON, secret and configuration,
      a Service published at a domain differs from a route's entry for that domain only in its
      display name, in the enabled flag (which only routes publish), and in the address of its
      target, which is that of the exposed port. Everything else, target extras included, is the same. */
  lemma HttpBuildersAgree(svc: Service, i: int, routeName: string, secret: SecretData, cfg: Config)
    requires Trimmed(svc.meta.annotations, AtFullDomain) != "" && Exposes(svc, i)
    ensures var a := svc.meta.annotations;
      var domain := Trimmed(a, AtFullDomain);
      var viaRoute := RouteResource(routeName, domain, a, svc.meta.decoded, secret, cfg);
      ServiceEntries(svc, secret, cfg) == map[HostnameToKey(domain) := viaRoute.(
        name := PublishedName(svc, svc.ports[i]), enabled := None,
        targets := [viaRoute.targets[0].(
          hostname := svc.meta.name + "." + svc.meta.namespace + ".svc.cluster.local",
          verb := VerbAsked(a), port := svc.ports[i].port)])]
  {
    DomainEntryIs(svc, i, secret, cfg);
    HttpResourceAgrees(svc, svc.ports[i], routeName, secret, cfg);
    VerbIs(svc.meta.annotations);
    PublishedNameIs(svc, svc.ports[i]);
  }

  lemma DomainEntryIs(svc: Service, i: int, secret: SecretData, cfg: Config)
    requires Trimmed(svc.meta.annotations, AtFullDomain) != "" && Exposes(svc, i)
    ensures ServiceEntries(svc, secret, cfg) == map[HostnameToKey(Trimmed(svc.meta.annotations, AtFullDomain)) :=
      ServiceResource(HttpPort(svc, svc.ports[i], secret, cfg), cfg)]
  {
    SelectionExact(svc);
    DomainPort(svc, svc.ports[i], secret, cfg);
  }

  lemma HttpResourceAgrees(svc: Service, p: Port, routeName: string, secret: SecretData, cfg: Config)
    requires Trimmed(svc.meta.annotations, AtFullDomain) != ""
    ensures var a := svc.meta.annotations;
      var viaRoute := RouteResource(routeName, Trimmed(a, AtFullDomain), a, svc.meta.decoded, secret, cfg);
      ServiceResource(HttpPort(svc, p, secret, cfg), cfg) == viaRoute.(
        name := DisplayName(svc, p), enabled := None,
        targets := [viaRoute.targets[0].(hostname := ClusterHostname(svc), verb := TargetVerb(a), port := p.port)])
  {
    HttpPortTarget(svc, p, secret, cfg);
    ExtrasCommuteWithAddress(NO_EXTRAS, svc.meta.annotations, svc.meta.decoded,
                             cfg.siteId, cfg.targetHostname, cfg.targetVerb, cfg.targetPort);
  }
}
