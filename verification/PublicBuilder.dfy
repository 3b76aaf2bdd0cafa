/** PublicResource specs to entries (internal/controller/publicresource/controller.go). */
module PublicBuilder {
  import opened Collections
  import opened Blueprint
  import opened Objects
  import opened AnnotationEffects

  /** The cross-field check. A protocol the schema does not allow passes it. */
  predicate Validate(spec: PublicSpec) {
    if spec.protocol == "http" then spec.fullDomain != ""
    else if spec.protocol == "tcp" || spec.protocol == "udp" then spec.proxyPort != 0
    else true
  }

  function ConvertTarget(t: TargetSpec, site: string): Target {
    Target(
      site := site, hostname := t.hostname, port := t.port, verb := t.verb, enabled := t.enabled,
      internalPort := t.internalPort, path := t.path, pathMatch := t.pathMatch, rewritePath := t.rewritePath,
      rewriteMatch := t.rewriteMatch, priority := t.priority, healthCheck := t.healthCheck)
  }

  function ConvertedTargets(targets: seq<TargetSpec>, site: string): (out: seq<Target>)
    ensures |out| == |targets|
  {
    seq(|targets|, i requires 0 <= i < |targets| => ConvertTarget(targets[i], site))
  }

  method ConvertTargets(targets: seq<TargetSpec>, site: string) returns (out: seq<Target>)
    ensures out == ConvertedTargets(targets, site)
  {
    var slots := new Target[|targets|];
    for i := 0 to |targets|
      invariant forall j :: 0 <= j < i ==> slots[j] == ConvertTarget(targets[j], site)
    {
      var t := targets[i];
      slots[i] := Target(site, t.hostname, t.enabled, t.verb, t.port, t.internalPort, t.path, t.pathMatch,
                         t.rewritePath, t.rewriteMatch, t.priority, t.healthCheck);
    }
    out := slots[..];
  }

  /** The auth block before the check for an empty one. */
  function AuthSettings(spec: Option<AuthSpec>, secret: SecretData): Auth {
    var s := if spec.Some? then spec.value else AuthSpec(false, [], [], [], 0);
    Auth(SecretPincode(secret), SecretText(secret, Password), SecretBasicAuth(secret),
         s.ssoEnabled, s.ssoRoles, s.ssoUsers, s.whitelistUsers, s.autoLoginIdp)
  }

  function AuthOf(spec: Option<AuthSpec>, secret: SecretData): Option<Auth> {
    var auth := AuthSettings(spec, secret);
    if auth == NO_AUTH then None else Some(auth)
  }

  method BuildAuth(spec: Option<AuthSpec>, secret: SecretData) returns (result: Option<Auth>)
    ensures result == AuthOf(spec, secret)
  {
    if spec.None? && (secret.None? || |secret.value| == 0) {
      return None;
    }
    var auth := NO_AUTH;
    if spec.Some? {
      var s := spec.value;
      auth := auth.(ssoEnabled := s.ssoEnabled, ssoRoles := s.ssoRoles, ssoUsers := s.ssoUsers,
                    whitelistUsers := s.whitelistUsers, autoLoginIdp := s.autoLoginIdp);
    }
    var pincode, password, basicAuth := ReadSecret(secret);
    auth := auth.(pincode := pincode, password := password, basicAuth := basicAuth);
    if && !auth.ssoEnabled && |auth.ssoRoles| == 0 && |auth.ssoUsers| == 0 && |auth.whitelistUsers| == 0
       && auth.autoLoginIdp == 0 && auth.pincode == 0 && auth.password == "" && auth.basicAuth == None {
      return None;
    }
    return Some(auth);
  }

  function PublicResourceOf(spec: PublicSpec, secret: SecretData, site: string): Resource {
    Resource(
      spec.name, spec.protocol, spec.enabled, spec.ssl, spec.fullDomain, spec.hostHeader,
      TextOverride(spec.tlsServerName, spec.fullDomain), spec.proxyPort, spec.headers,
      AuthOf(spec.auth, secret), spec.maintenance, spec.rules, ConvertedTargets(spec.targets, site))
  }

  method BuildResource(spec: PublicSpec, secret: SecretData, site: string) returns (r: Resource)
    ensures r == PublicResourceOf(spec, secret, site)
  {
    var auth := BuildAuth(spec.auth, secret);
    var targets := ConvertTargets(spec.targets, site);
    r := Resource(
      spec.name, spec.protocol, spec.enabled, spec.ssl, spec.fullDomain, spec.hostHeader, spec.tlsServerName,
      spec.proxyPort, spec.headers, auth, spec.maintenance, spec.rules, targets);
    if r.tlsServerName == "" && r.fullDomain != "" {
      r := r.(tlsServerName := r.fullDomain);
    }
  }

  /** Where each field of the entry comes from; the server name defaults to the domain. */
  lemma ResourceFields(spec: PublicSpec, secret: SecretData, site: string)
    ensures PublicResourceOf(spec, secret, site) == Resource(
      name := spec.name, protocol := spec.protocol, fullDomain := spec.fullDomain, proxyPort := spec.proxyPort,
      tlsServerName := if spec.tlsServerName != "" then spec.tlsServerName else spec.fullDomain,
      hostHeader := spec.hostHeader, ssl := spec.ssl, enabled := spec.enabled, headers := spec.headers,
      rules := spec.rules, maintenance := spec.maintenance, auth := AuthOf(spec.auth, secret),
      targets := ConvertedTargets(spec.targets, site))
  {
  }

  lemma TargetFields(targets: seq<TargetSpec>, site: string, i: nat)
    requires i < |targets|
    ensures |ConvertedTargets(targets, site)| == |targets|
    ensures var t := targets[i];
      ConvertedTargets(targets, site)[i] == Target(
        healthCheck := t.healthCheck, priority := t.priority, rewriteMatch := t.rewriteMatch,
        rewritePath := t.rewritePath, pathMatch := t.pathMatch, path := t.path, internalPort := t.internalPort,
        enabled := t.enabled, verb := t.verb, port := t.port, hostname := t.hostname, site := site)
  {
  }

  /** The block has the spec's settings and the Secret's credentials, and is left out when nothing is set. */
  lemma AuthFields(spec: Option<AuthSpec>, secret: SecretData)
    ensures AuthOf(spec, secret) == None <==> Opened(AuthOf(spec, secret)) == Opened(None)
    ensures spec.Some? ==>
      var s, auth := spec.value, Opened(AuthOf(spec, secret));
      && auth.ssoEnabled == s.ssoEnabled && auth.ssoRoles == s.ssoRoles && auth.ssoUsers == s.ssoUsers
      && auth.whitelistUsers == s.whitelistUsers && auth.autoLoginIdp == s.autoLoginIdp
    ensures spec.None? ==>
      var auth := Opened(AuthOf(spec, secret));
      && !auth.ssoEnabled && auth.ssoRoles == [] && auth.ssoUsers == []
      && auth.whitelistUsers == [] && auth.autoLoginIdp == 0
    ensures var auth, viaRoute := Opened(AuthOf(spec, secret)), Opened(Blueprint.AuthOf(map[], secret, NO_DEFAULTS));
      && auth.pincode == viaRoute.pincode && auth.password == viaRoute.password && auth.basicAuth == viaRoute.basicAuth
  {
    OpenedIsSettings(map[], secret, NO_DEFAULTS);
  }

  const NO_DEFAULTS := Config("", "", "", "", 0, "", "", false, false, false, "", "", 0, "")
}
