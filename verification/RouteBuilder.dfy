/** HTTPRoutes to entries (internal/resources/httproute/httproute.go). */
module RouteBuilder {
  import opened Collections
  import opened Blueprint
  import opened Objects
  import Handler

  predicate References(route: HttpRoute, gatewayName: string, gatewayNamespace: string) {
    exists p :: p in route.parentRefs && RefersTo(p, gatewayName, gatewayNamespace)
  }

  predicate RefersTo(p: ParentRef, gatewayName: string, gatewayNamespace: string) {
    && p.name == gatewayName
    && (gatewayNamespace == "" || p.namespace.None? || p.namespace.value == gatewayNamespace)
  }

  method ReferencesGateway(route: HttpRoute, gatewayName: string, gatewayNamespace: string) returns (found: bool)
    ensures found <==> References(route, gatewayName, gatewayNamespace)
  {
    for i := 0 to |route.parentRefs|
      invariant forall j :: 0 <= j < i ==> !RefersTo(route.parentRefs[j], gatewayName, gatewayNamespace)
    {
      var parent := route.parentRefs[i];
      if parent.name != gatewayName {
        continue;
      }
      if gatewayNamespace != "" && parent.namespace.Some? && parent.namespace.value != gatewayNamespace {
        continue;
      }
      assert parent in route.parentRefs && RefersTo(parent, gatewayName, gatewayNamespace);
      return true;
    }
    return false;
  }

  predicate ShouldProcess(route: HttpRoute, cfg: Config) {
    var filter := cfg.gatewayName == "" || References(route, cfg.gatewayName, cfg.gatewayNamespace);
    Handler.ShouldProcess(route.meta.annotations, Some(filter), None)
  }

  function HostKeys(hostnames: seq<string>): (keys: seq<string>)
    ensures |keys| == |hostnames| && forall i :: 0 <= i < |hostnames| ==> keys[i] == HostnameToKey(hostnames[i])
  {
    seq(|hostnames|, i requires 0 <= i < |hostnames| => HostnameToKey(hostnames[i]))
  }

  function HostResource(route: HttpRoute, hostname: string, secret: SecretData, cfg: Config): Resource {
    RouteResource(route.meta.name, hostname, route.meta.annotations, route.meta.decoded, secret, cfg)
  }

  function HostResources(route: HttpRoute, secret: SecretData, cfg: Config): (rs: seq<Resource>)
    ensures |rs| == |route.hostnames|
    ensures forall i :: 0 <= i < |rs| ==> rs[i] == HostResource(route, route.hostnames[i], secret, cfg)
  {
    var hs := route.hostnames;
    seq(|hs|, i requires 0 <= i < |hs| => HostResource(route, hs[i], secret, cfg))
  }

  function RouteEntries(route: HttpRoute, secret: SecretData, cfg: Config): Entries {
    Collect(HostKeys(route.hostnames), HostResources(route, secret, cfg))
  }

  /** The keys and values that are assigned in turn. */
  lemma Assignments(route: HttpRoute, secret: SecretData, cfg: Config)
    returns (keys: seq<string>, values: seq<Resource>)
    ensures AreKeysOf(keys, route.hostnames) && |values| == |keys|
    ensures forall i :: 0 <= i < |keys| ==> values[i] == HostResource(route, route.hostnames[i], secret, cfg)
    ensures RouteEntries(route, secret, cfg) == Collect(keys, values)
  {
    keys, values := HostKeys(route.hostnames), HostResources(route, secret, cfg);
  }

  method BuildEntries(route: HttpRoute, secret: SecretData, cfg: Config) returns (entries: Entries)
    ensures entries == RouteEntries(route, secret, cfg)
  {
    var hs := route.hostnames;
    ghost var keys, values := Assignments(route, secret, cfg);
    entries := map[];
    for i := 0 to |hs|
      invariant entries == CollectFirst(keys, values, i)
    {
      var key := HostnameToKey(hs[i]);
      var r := BuildResource(route.meta.name, hs[i], route.meta.annotations, route.meta.decoded, secret, cfg);
      entries := entries[key := r];
      assert key == keys[i] && r == values[i];
      CollectStep(keys, values, i);
    }
    CollectEnd(keys, values);
  }

  /** No later hostname of the route has the same key as the one at position i. */
  ghost predicate LastOfItsClass(hostnames: seq<string>, i: int) {
    0 <= i < |hostnames| && forall j :: i < j < |hostnames| ==> !DotDashVariants(hostnames[i], hostnames[j])
  }

  ghost predicate NoVariants(hs: seq<string>) {
    forall i, j :: 0 <= i < j < |hs| ==> !DotDashVariants(hs[i], hs[j])
  }

  ghost predicate AreKeysOf(keys: seq<string>, hs: seq<string>) {
    |keys| == |hs| && forall i :: 0 <= i < |hs| ==> keys[i] == HostnameToKey(hs[i])
  }

  lemma KeysCollide(keys: seq<string>, hs: seq<string>)
    requires AreKeysOf(keys, hs)
    ensures forall i, j :: 0 <= i < |hs| && 0 <= j < |hs| ==> (keys[i] == keys[j] <==> DotDashVariants(hs[i], hs[j]))
  {
    forall i, j | 0 <= i < |hs| && 0 <= j < |hs| ensures keys[i] == keys[j] <==> DotDashVariants(hs[i], hs[j]) {
      HostnameKeysCollideIff(hs[i], hs[j]);
    }
  }

  lemma ClassesFollowKeys(keys: seq<string>, hs: seq<string>)
    requires AreKeysOf(keys, hs)
    ensures forall i :: LastOfItsClass(hs, i) <==> LastWith(keys, i)
    ensures NoVariants(hs) <==> NoRepeats(keys)
  {
    KeysCollide(keys, hs);
  }

  lemma KeysAreImages(keys: seq<string>, hs: seq<string>)
    requires AreKeysOf(keys, hs)
    ensures Elements(keys) == set i | 0 <= i < |hs| :: HostnameToKey(hs[i])
  {
    forall k ensures k in keys <==> exists i :: 0 <= i < |hs| && k == HostnameToKey(hs[i]) {
      if i :| 0 <= i < |hs| && k == HostnameToKey(hs[i]) {
        assert keys[i] == k;
      }
    }
  }

  lemma LastOfClassWins(route: HttpRoute, secret: SecretData, cfg: Config, i: nat)
    requires LastOfItsClass(route.hostnames, i)
    ensures var host := route.hostnames[i];
      Lookup(RouteEntries(route, secret, cfg), HostnameToKey(host)) == Some(HostResource(route, host, secret, cfg))
  {
    var keys, values := Assignments(route, secret, cfg);
    ClassesFollowKeys(keys, route.hostnames);
    CollectExact(keys, values);
    assert LastWith(keys, i);
  }

  lemma HostResourceIs(route: HttpRoute, hostname: string, secret: SecretData, cfg: Config)
    ensures HostResource(route, hostname, secret, cfg)
         == RouteResource(route.meta.name, hostname, route.meta.annotations, route.meta.decoded, secret, cfg)
  {
  }

  lemma KeysExact(route: HttpRoute, secret: SecretData, cfg: Config)
    ensures RouteEntries(route, secret, cfg).Keys
         == set i | 0 <= i < |route.hostnames| :: HostnameToKey(route.hostnames[i])
    ensures |RouteEntries(route, secret, cfg)| == |route.hostnames| <==> NoVariants(route.hostnames)
  {
    var keys, values := Assignments(route, secret, cfg);
    ClassesFollowKeys(keys, route.hostnames);
    KeysAreImages(keys, route.hostnames);
    CollectExact(keys, values);
  }

  /** The keys of a route are the images of its hostnames, each key publishes the entry of the last
      hostname of its class, built from the route's own name and annotations, and no hostname is lost
      exactly when no two are dot-dash variants. */
  lemma RouteEntriesExact(route: HttpRoute, secret: SecretData, cfg: Config)
    ensures RouteEntries(route, secret, cfg).Keys
         == set i | 0 <= i < |route.hostnames| :: HostnameToKey(route.hostnames[i])
    ensures forall i :: LastOfItsClass(route.hostnames, i) ==>
      var meta, host := route.meta, route.hostnames[i];
      Lookup(RouteEntries(route, secret, cfg), HostnameToKey(host))
      == Some(RouteResource(meta.name, host, meta.annotations, meta.decoded, secret, cfg))
    ensures |RouteEntries(route, secret, cfg)| == |route.hostnames| <==> NoVariants(route.hostnames)
  {
    KeysExact(route, secret, cfg);
    forall i | LastOfItsClass(route.hostnames, i)
      ensures var meta, host := route.meta, route.hostnames[i];
        Lookup(RouteEntries(route, secret, cfg), HostnameToKey(host))
        == Some(RouteResource(meta.name, host, meta.annotations, meta.decoded, secret, cfg))
    {
      LastOfClassWins(route, secret, cfg, i);
      HostResourceIs(route, route.hostnames[i], secret, cfg);
    }
  }

  /** Every entry of a route is that of one of its hostnames. */
  lemma EntryOfHostname(route: HttpRoute, secret: SecretData, cfg: Config, k: string) returns (i: nat)
    requires k in RouteEntries(route, secret, cfg)
    ensures i < |route.hostnames| && HostnameToKey(route.hostnames[i]) == k
    ensures RouteEntries(route, secret, cfg)[k] == HostResource(route, route.hostnames[i], secret, cfg)
  {
    var keys, values := Assignments(route, secret, cfg);
    i := CollectedAt(keys, values, k);
  }

  lemma SingleHostname(route: HttpRoute, secret: SecretData, cfg: Config, hostname: string)
    requires route.hostnames == [hostname]
    ensures RouteEntries(route, secret, cfg)
         == map[HostnameToKey(hostname) := HostResource(route, hostname, secret, cfg)]
  {
    var keys, values := Assignments(route, secret, cfg);
    CollectOne(keys, values);
  }
}
