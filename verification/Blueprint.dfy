/** Blueprint entries, the keys they are stored under, and the builders that turn annotations
    and configuration into entries (internal/blueprint/blueprint.go).

    A value that may be nil or absent is an Option; a nil slice is the empty sequence.
    Builders that the source writes as loops, or as a local that is changed step by step, are
    methods proved equal to a function that says what each part of the result is. */
module Blueprint {
  import opened Collections
  import opened Text

  // ----- entries -----

  datatype Header = Header(name: string, value: string)

  datatype BasicAuth = BasicAuth(user: string, password: string)

  datatype HealthCheck = HealthCheck(
    hostname: string, port: int, enabled: Option<bool>, path: string, scheme: string, mode: string,
    interval: int, unhealthyInterval: int, timeout: int, headers: seq<Header>,
    followRedirects: Option<bool>, verb: string, status: int)

  datatype Maintenance = Maintenance(
    enabled: bool, kind: string, title: string, message: string, estimatedTime: string)

  datatype Auth = Auth(
    pincode: int, password: string, basicAuth: Option<BasicAuth>, ssoEnabled: bool,
    ssoRoles: seq<string>, ssoUsers: seq<string>, whitelistUsers: seq<string>, autoLoginIdp: int)

  datatype Rule = Rule(action: string, matches: string, value: string, priority: int)

  datatype Target = Target(
    site: string, hostname: string, enabled: Option<bool>, verb: string, port: int, internalPort: int,
    path: string, pathMatch: string, rewritePath: string, rewriteMatch: string, priority: int,
    healthCheck: Option<HealthCheck>)

  datatype Resource = Resource(
    name: string, protocol: string, enabled: Option<bool>, ssl: bool, fullDomain: string,
    hostHeader: string, tlsServerName: string, proxyPort: int, headers: seq<Header>,
    auth: Option<Auth>, maintenance: Option<Maintenance>, rules: seq<Rule>, targets: seq<Target>)

  datatype PrivateResource = PrivateResource(
    name: string, mode: string, destination: string, site: string, tcpPorts: string, udpPorts: string,
    disableIcmp: bool, alias: string, roles: seq<string>, users: seq<string>, machines: seq<string>)

  type Entries = map<string, Resource>

  // ----- configuration and annotations -----

  datatype Config = Config(
    gatewayName: string, gatewayNamespace: string, siteId: string, targetHostname: string,
    targetPort: int, targetVerb: string, denyCountries: string, ssl: bool,
    autoService: bool, allPorts: bool, authSsoRoles: string, authSsoUsers: string, authSsoIdp: int,
    authWhitelistUsers: string)

  /** The annotations the sidecar reads, by what follows "<prefix>/" in their name. */
  datatype AnnotationName =
    | AtEnabled | AtName | AtSsl | AtHostHeader | AtTlsServerName | AtHeaders | AtRules
    | AtFullDomain | AtAllPorts | AtPort | AtProtocol | AtMethod
    | AtAuthSso | AtAuthSsoRoles | AtAuthSsoUsers | AtAuthSsoIdp | AtAuthWhitelistUsers
    | AtMaintenanceEnabled | AtMaintenanceType | AtMaintenanceTitle | AtMaintenanceMessage | AtMaintenanceEstimatedTime
    | AtTargetPath | AtTargetPathMatch | AtTargetRewritePath | AtTargetRewriteMatch
    | AtTargetPriority | AtTargetInternalPort | AtTargetHealthcheck | AtTargetEnabled

  /** The annotations of an object that carry the configured prefix. */
  type Annotations = map<AnnotationName, string>

  /** What json.Unmarshal makes of the three JSON annotations of an object; None where it fails. */
  datatype Decoded = Decoded(headers: Option<seq<Header>>, rules: Option<seq<Rule>>, healthCheck: Option<HealthCheck>)

  datatype SecretKey = Pincode | Password | BasicAuthUser | BasicAuthPassword

  type SecretData = Option<map<SecretKey, string>>

  /** Go's one-valued map read: the empty string stands for an absent key. */
  function TextOf(o: Option<string>): string {
    if o.Some? then o.value else ""
  }

  predicate IsTruthy(v: string) {
    v == "true" || v == "1"
  }

  // ----- keys -----

  function HostnameToKey(hostname: string): string {
    DotsToDashes(hostname)
  }

  function ServiceToKey(namespace: string, name: string, port: string, protocol: string): string {
    namespace + "-" + name + "-" + port + "-" + protocol
  }

  /** Two hostnames that a route or a Service may publish are told apart by their keys unless
      they differ only in having a dot where the other has a dash. */
  ghost predicate DotDashVariants(a: string, b: string) {
    && |a| == |b|
    && forall i :: 0 <= i < |a| ==> a[i] == b[i] || (IsDotOrDash(a[i]) && IsDotOrDash(b[i]))
  }

  predicate IsDotOrDash(c: char) {
    c == '.' || c == '-'
  }

  lemma HostnameKeysCollideIff(a: string, b: string)
    ensures HostnameToKey(a) == HostnameToKey(b) <==> DotDashVariants(a, b)
  {
  }

  /** The key of a hostname has a dash for each dot and is otherwise the hostname. */
  lemma HostnameToKeyExact(hostname: string, i: nat)
    requires i < |hostname|
    ensures |HostnameToKey(hostname)| == |hostname|
    ensures HostnameToKey(hostname)[i] == if hostname[i] == '.' then '-' else hostname[i]
  {
  }

  /** When port and protocol contain no dash, two Service keys are equal exactly when both agree
      and the namespaces and names join to the same text. */
  lemma ServiceKeysCollideIff(ns: string, n: string, p: string, t: string,
                              ns': string, n': string, p': string, t': string)
    requires '-' !in p && '-' !in t && '-' !in p' && '-' !in t'
    ensures ServiceToKey(ns, n, p, t) == ServiceToKey(ns', n', p', t')
       <==> ns + "-" + n == ns' + "-" + n' && p == p' && t == t'
  {
    if ServiceToKey(ns, n, p, t) == ServiceToKey(ns', n', p', t') {
      LastDashSplits(ns + "-" + n + "-" + p, t, ns' + "-" + n' + "-" + p', t');
      LastDashSplits(ns + "-" + n, p, ns' + "-" + n', p');
    }
  }

  lemma PortTextHasNoDash(port: nat)
    ensures '-' !in Itoa(port)
  {
    var s := Itoa(port);
    assert forall i :: 0 <= i < |s| ==> IsDigit(s[i]);
  }

  /** With the namespace fixed, name, port and protocol can be read back from a Service key,
      whatever dashes the name contains. */
  lemma ServiceKeyInjective(ns: string, n: string, p: nat, t: string, n': string, p': nat, t': string)
    requires t in ["tcp", "udp"] && t' in ["tcp", "udp"]
    ensures ServiceToKey(ns, n, Itoa(p), t) == ServiceToKey(ns, n', Itoa(p'), t')
       <==> n == n' && p == p' && t == t'
  {
    if ServiceToKey(ns, n, Itoa(p), t) == ServiceToKey(ns, n', Itoa(p'), t') {
      PortTextHasNoDash(p);
      PortTextHasNoDash(p');
      ServiceKeysCollideIff(ns, n, Itoa(p), t, ns, n', Itoa(p'), t');
      var prefix := ns + "-";
      assert (prefix + n)[|prefix|..] == n && (prefix + n')[|prefix|..] == n';
      ItoaInjective(p, p');
    }
  }

  /** Across namespaces the key is ambiguous: a dash may belong to either part. */
  lemma ServiceKeyAmbiguousAcrossNamespaces(port: string, protocol: string)
    ensures ServiceToKey("a-b", "c", port, protocol) == ServiceToKey("a", "b-c", port, protocol)
  {
    assert "a-b" + "-" + "c" == "a" + "-" + "b-c";
  }

  // ----- comma-separated lists -----

  /** The non-empty fields of a list, trimmed, in order. */
  function KeptFields(fields: seq<string>): seq<string> {
    if |fields| == 0 then []
    else
      var last := TrimSpace(fields[|fields| - 1]);
      KeptFields(fields[..|fields| - 1]) + if last == "" then [] else [last]
  }

  function CsvItems(s: string): seq<string> {
    KeptFields(Split(s))
  }

  method SplitCsv(s: string) returns (out: seq<string>)
    ensures out == CsvItems(s)
  {
    if s == "" {
      assert KeptFields([""][..0]) == [];
      return [];
    }
    out := [];
    var fields := Split(s);
    for i := 0 to |fields|
      invariant out == KeptFields(fields[..i])
    {
      assert fields[..i + 1][..i] == fields[..i];
      var v := TrimSpace(fields[i]);
      if v != "" {
        out := out + [v];
      }
    }
    assert fields[..|fields|] == fields;
  }

  lemma {:induction false} KeptFieldsConcat(a: seq<string>, b: seq<string>)
    ensures KeptFields(a + b) == KeptFields(a) + KeptFields(b)
  {
    if b == [] {
      assert a + b == a;
    } else {
      var init := b[..|b| - 1];
      assert (a + b)[..|a + b| - 1] == a + init;
      KeptFieldsConcat(a, init);
    }
  }

  lemma CsvConcat(a: string, b: string)
    ensures CsvItems(a + "," + b) == CsvItems(a) + CsvItems(b)
  {
    SplitAtComma(a, b);
    KeptFieldsConcat(Split(a), Split(b));
  }

  /** An item that survives printing and parsing: trimmed, non-empty, no comma. */
  predicate CleanItem(x: string) {
    x != "" && TrimSpace(x) == x && ',' !in x
  }

  lemma {:induction false} KeptFieldsOfClean(xs: seq<string>)
    requires forall i :: 0 <= i < |xs| ==> CleanItem(xs[i])
    ensures KeptFields(xs) == xs
  {
    if xs != [] {
      KeptFieldsOfClean(xs[..|xs| - 1]);
    }
  }

  lemma CsvRoundTrip(xs: seq<string>)
    requires forall i :: 0 <= i < |xs| ==> CleanItem(xs[i])
    ensures CsvItems(Join(xs)) == xs
  {
    if xs == [] {
      assert Split("") == [""];
      assert [""][..0] == [];
      assert KeptFields([""]) == [];
    } else {
      SplitUndoesJoin(xs);
      KeptFieldsOfClean(xs);
    }
  }

  lemma TrimSpaceOfTrimmed(s: string)
    requires s == "" || (!IsSpace(s[0]) && !IsSpace(s[|s| - 1]))
    ensures TrimSpace(s) == s
  {
  }

  lemma TrimSpaceIdempotent(s: string)
    ensures TrimSpace(TrimSpace(s)) == TrimSpace(s)
    ensures forall c :: c in TrimSpace(s) ==> c in s
  {
    TrimSpaceEnds(s);
    TrimSpaceOfTrimmed(TrimSpace(s));
    var n := TrimSpaceExact(s);
    var t := TrimSpace(s);
    assert forall i :: 0 <= i < |t| ==> t[i] == s[n + i];
  }

  /** Everything the splitter returns is clean, so parsing is a projection: printing and parsing
      its result changes nothing. */
  lemma CsvItemsAreClean(s: string)
    ensures forall i :: 0 <= i < |CsvItems(s)| ==> CleanItem(CsvItems(s)[i])
    ensures CsvItems(Join(CsvItems(s))) == CsvItems(s)
  {
    KeptFieldsAreClean(Split(s));
    CsvRoundTrip(CsvItems(s));
  }

  lemma {:induction false} KeptFieldsAreClean(fields: seq<string>)
    requires forall i :: 0 <= i < |fields| ==> ',' !in fields[i]
    ensures forall i :: 0 <= i < |KeptFields(fields)| ==> CleanItem(KeptFields(fields)[i])
  {
    if fields != [] {
      KeptFieldsAreClean(fields[..|fields| - 1]);
      TrimSpaceIdempotent(fields[|fields| - 1]);
    }
  }

  // ----- rules -----

  predicate IsValidRule(r: Rule) {
    && r.action in ["allow", "deny", "pass"]
    && r.matches in ["cidr", "ip", "path", "country"]
    && r.value != ""
    && (r.priority != 0 ==> 1 <= r.priority <= 1000)
  }

  function DenyCountry(country: string): Rule {
    Rule("deny", "country", country, 0)
  }

  function DenyRules(countries: seq<string>): (rules: seq<Rule>)
    ensures |rules| == |countries|
  {
    seq(|countries|, i requires 0 <= i < |countries| => DenyCountry(countries[i]))
  }

  method BuildDenyRules(cfg: Config) returns (rules: seq<Rule>)
    ensures rules == DenyRules(CsvItems(cfg.denyCountries))
  {
    rules := [];
    if cfg.denyCountries == "" {
      assert [""][..0] == [];
      assert CsvItems("") == [];
      return;
    }
    var fields := Split(cfg.denyCountries);
    for i := 0 to |fields|
      invariant rules == DenyRules(KeptFields(fields[..i]))
    {
      assert fields[..i + 1][..i] == fields[..i];
      var country := TrimSpace(fields[i]);
      if country != "" {
        rules := rules + [DenyCountry(country)];
      }
    }
    assert fields[..|fields|] == fields;
  }

  /** The valid rules of a list, in order. */
  function ValidRules(rules: seq<Rule>): seq<Rule> {
    if |rules| == 0 then []
    else
      ValidRules(rules[..|rules| - 1])
      + if IsValidRule(rules[|rules| - 1]) then [rules[|rules| - 1]] else []
  }

  /** Annotation rules first, then the configured country rules. */
  function RulesOf(a: Annotations, decoded: Decoded, cfg: Config): seq<Rule> {
    var raw := TextOf(Lookup(a, AtRules));
    (if raw != "" && decoded.rules.Some? then ValidRules(decoded.rules.value) else [])
    + DenyRules(CsvItems(cfg.denyCountries))
  }

  method BuildRules(a: Annotations, decoded: Decoded, cfg: Config) returns (rules: seq<Rule>)
    ensures rules == RulesOf(a, decoded, cfg)
  {
    rules := [];
    var raw := Lookup(a, AtRules);
    if raw.Some? && raw.value != "" {
      match decoded.rules
      case None =>
      case Some(listed) =>
        for i := 0 to |listed|
          invariant rules == ValidRules(listed[..i])
        {
          assert listed[..i + 1][..i] == listed[..i];
          if IsValidRule(listed[i]) {
            rules := rules + [listed[i]];
          }
        }
        assert listed[..|listed|] == listed;
    }
    var denyRules := BuildDenyRules(cfg);
    rules := rules + denyRules;
  }

  /** A rule is kept exactly when it is listed, its action and match are known, it has a value, and its
      priority, if given, is within 1 and 1000. */
  lemma {:induction false} ValidRulesFilter(rules: seq<Rule>)
    ensures forall r :: r in ValidRules(rules) <==>
      && r in rules
      && (r.action == "allow" || r.action == "deny" || r.action == "pass")
      && (r.matches == "cidr" || r.matches == "ip" || r.matches == "path" || r.matches == "country")
      && r.value != "" && 0 <= r.priority <= 1000
  {
    if rules != [] {
      ValidRulesFilter(rules[..|rules| - 1]);
      assert rules == rules[..|rules| - 1] + [rules[|rules| - 1]];
    }
  }

  /** With the lemma above: the filter keeps the order and the repetitions of what it keeps. */
  lemma {:induction false} ValidRulesConcat(a: seq<Rule>, b: seq<Rule>)
    ensures ValidRules(a + b) == ValidRules(a) + ValidRules(b)
  {
    if b == [] {
      assert a + b == a;
    } else {
      assert (a + b)[..|a + b| - 1] == a + b[..|b| - 1];
      ValidRulesConcat(a, b[..|b| - 1]);
    }
  }

  lemma DenyRulesAreValid(countries: seq<string>)
    requires forall i :: 0 <= i < |countries| ==> CleanItem(countries[i])
    ensures forall r :: r in DenyRules(countries) ==> IsValidRule(r)
  {
    forall i | 0 <= i < |countries| ensures IsValidRule(DenyRules(countries)[i]) {
      assert CleanItem(countries[i]);
    }
  }

  /** Whatever an annotation says, every rule that reaches the blueprint is valid. */
  lemma RulesAreValid(a: Annotations, decoded: Decoded, cfg: Config)
    ensures forall r :: r in RulesOf(a, decoded, cfg) ==> IsValidRule(r)
  {
    if decoded.rules.Some? {
      ValidRulesFilter(decoded.rules.value);
    }
    CsvItemsAreClean(cfg.denyCountries);
    DenyRulesAreValid(CsvItems(cfg.denyCountries));
  }

  // ----- headers, maintenance, target extras, auth -----

  function HeadersOf(a: Annotations, decoded: Decoded): seq<Header> {
    if TextOf(Lookup(a, AtHeaders)) != "" && decoded.headers.Some? then decoded.headers.value else []
  }

  function MaintenanceOf(a: Annotations): Option<Maintenance> {
    if IsTruthy(TextOf(Lookup(a, AtMaintenanceEnabled))) then
      Some(Maintenance(
             true,
             TextOf(Lookup(a, AtMaintenanceType)),
             TextOf(Lookup(a, AtMaintenanceTitle)),
             TextOf(Lookup(a, AtMaintenanceMessage)),
             TextOf(Lookup(a, AtMaintenanceEstimatedTime))))
    else None
  }

  function Trimmed(a: Annotations, name: AnnotationName): string {
    TrimSpace(TextOf(Lookup(a, name)))
  }

  function TextOverride(v: string, base: string): string {
    if v != "" then v else base
  }

  predicate IsPathMatch(v: string) {
    v == "prefix" || v == "exact" || v == "regex"
  }

  predicate IsRewriteMatch(v: string) {
    v == "exact" || v == "prefix" || v == "regex" || v == "stripPrefix"
  }

  function NumberOverride(v: string, limit: int, base: int): int {
    var parsed := Atoi(v);
    if parsed.Some? && 1 <= parsed.value <= limit then parsed.value else base
  }

  function PathExtras(base: Target, a: Annotations): Target {
    base.(
      path := TextOverride(Trimmed(a, AtTargetPath), base.path),
      pathMatch := var v := Trimmed(a, AtTargetPathMatch); if IsPathMatch(v) then v else base.pathMatch,
      rewritePath := TextOverride(Trimmed(a, AtTargetRewritePath), base.rewritePath),
      rewriteMatch := var v := Trimmed(a, AtTargetRewriteMatch); if IsRewriteMatch(v) then v else base.rewriteMatch)
  }

  function NumberExtras(base: Target, a: Annotations): Target {
    base.(
      priority := NumberOverride(Trimmed(a, AtTargetPriority), 1000, base.priority),
      internalPort := NumberOverride(Trimmed(a, AtTargetInternalPort), 65535, base.internalPort))
  }

  /** A number annotation is taken at its value when it is in range and ignored otherwise. */
  lemma NumberAnnotationTaken(n: int, limit: int, base: int)
    requires MIN_INT <= n <= MAX_INT
    ensures NumberOverride(Itoa(n), limit, base) == if 1 <= n <= limit then n else base
  {
    AtoiUndoesItoa(n);
  }

  /** The extras, field by field: each depends on its own annotation and on the same field of the base. */
  function TargetExtras(base: Target, a: Annotations, decoded: Decoded): Target {
    NumberExtras(PathExtras(base, a), a).(
      healthCheck := if TextOf(Lookup(a, AtTargetHealthcheck)) != "" && decoded.healthCheck.Some?
                     then decoded.healthCheck else base.healthCheck,
      enabled := var v := Trimmed(a, AtTargetEnabled); if v != "" then Some(IsTruthy(v)) else base.enabled)
  }

  method BuildPathExtras(base: Target, a: Annotations) returns (t: Target)
    ensures t == PathExtras(base, a)
  {
    t := base;
    var v := Trimmed(a, AtTargetPath);
    if v != "" {
      t := t.(path := v);
    }
    v := Trimmed(a, AtTargetPathMatch);
    if IsPathMatch(v) {
      t := t.(pathMatch := v);
    }
    v := Trimmed(a, AtTargetRewritePath);
    if v != "" {
      t := t.(rewritePath := v);
    }
    v := Trimmed(a, AtTargetRewriteMatch);
    if IsRewriteMatch(v) {
      t := t.(rewriteMatch := v);
    }
  }

  method BuildNumberExtras(base: Target, a: Annotations) returns (t: Target)
    ensures t == NumberExtras(base, a)
  {
    t := base;
    var v := Trimmed(a, AtTargetPriority);
    var parsed := Atoi(v);
    if v != "" && parsed.Some? && parsed.value >= 1 && parsed.value <= 1000 {
      t := t.(priority := parsed.value);
    }
    v := Trimmed(a, AtTargetInternalPort);
    parsed := Atoi(v);
    if v != "" && parsed.Some? && parsed.value >= 1 && parsed.value <= 65535 {
      t := t.(internalPort := parsed.value);
    }
  }

  method BuildTargetExtras(base: Target, a: Annotations, decoded: Decoded) returns (t: Target)
    ensures t == TargetExtras(base, a, decoded)
  {
    t := BuildPathExtras(base, a);
    t := BuildNumberExtras(t, a);
    if TextOf(Lookup(a, AtTargetHealthcheck)) != "" && decoded.healthCheck.Some? {
      t := t.(healthCheck := decoded.healthCheck);
    }
    var v := Trimmed(a, AtTargetEnabled);
    if v != "" {
      t := t.(enabled := Some(IsTruthy(v)));
    }
  }

  function SecretText(secret: SecretData, key: SecretKey): string {
    if secret.Some? then TextOf(Lookup(secret.value, key)) else ""
  }

  function SecretPincode(secret: SecretData): int {
    var parsed := Atoi(SecretText(secret, Pincode));
    if parsed.Some? then parsed.value else 0
  }

  function SecretBasicAuth(secret: SecretData): Option<BasicAuth> {
    var user, password := SecretText(secret, BasicAuthUser), SecretText(secret, BasicAuthPassword);
    if user == "" && password == "" then None else Some(BasicAuth(user, password))
  }

  /** An annotation that is present wins over the cluster-wide default, even when it is empty. */
  function ListSetting(a: Annotations, name: AnnotationName, default: string): seq<string> {
    var v := Lookup(a, name);
    CsvItems(if v.Some? then v.value else default)
  }

  function IdpSetting(a: Annotations, cfg: Config): int {
    var parsed := Atoi(TextOf(Lookup(a, AtAuthSsoIdp)));
    if parsed.Some? && parsed.value > 0 then parsed.value else cfg.authSsoIdp
  }

  const NO_AUTH := Auth(0, "", None, false, [], [], [], 0)

  /** The auth block before the check for an empty one. */
  function AuthSettings(a: Annotations, secret: SecretData, cfg: Config): Auth {
    var sso := IsTruthy(TextOf(Lookup(a, AtAuthSso)));
    Auth(
      SecretPincode(secret),
      SecretText(secret, Password),
      SecretBasicAuth(secret),
      sso,
      if sso then ListSetting(a, AtAuthSsoRoles, cfg.authSsoRoles) else [],
      if sso then ListSetting(a, AtAuthSsoUsers, cfg.authSsoUsers) else [],
      ListSetting(a, AtAuthWhitelistUsers, cfg.authWhitelistUsers),
      if sso then IdpSetting(a, cfg) else 0)
  }

  /** An auth block is published exactly when something in it is set. */
  function AuthOf(a: Annotations, secret: SecretData, cfg: Config): Option<Auth> {
    var auth := AuthSettings(a, secret, cfg);
    if auth == NO_AUTH then None else Some(auth)
  }

  method BuildSso(a: Annotations, cfg: Config) returns (roles: seq<string>, users: seq<string>, idp: int)
    ensures roles == ListSetting(a, AtAuthSsoRoles, cfg.authSsoRoles)
    ensures users == ListSetting(a, AtAuthSsoUsers, cfg.authSsoUsers)
    ensures idp == IdpSetting(a, cfg)
  {
    var rolesRaw := cfg.authSsoRoles;
    var v := Lookup(a, AtAuthSsoRoles);
    if v.Some? {
      rolesRaw := v.value;
    }
    roles := SplitCsv(rolesRaw);

    var usersRaw := cfg.authSsoUsers;
    v := Lookup(a, AtAuthSsoUsers);
    if v.Some? {
      usersRaw := v.value;
    }
    users := SplitCsv(usersRaw);

    idp := cfg.authSsoIdp;
    v := Lookup(a, AtAuthSsoIdp);
    if v.Some? {
      var parsed := Atoi(v.value);
      if parsed.Some? && parsed.value > 0 {
        idp := parsed.value;
      }
    }
  }

  method ReadSecret(secret: SecretData) returns (pincode: int, password: string, basicAuth: Option<BasicAuth>)
    ensures pincode == SecretPincode(secret)
    ensures password == SecretText(secret, Password)
    ensures basicAuth == SecretBasicAuth(secret)
  {
    pincode, password, basicAuth := 0, "", None;
    if secret.Some? {
      var v := Lookup(secret.value, Pincode);
      if v.Some? && v.value != "" {
        var parsed := Atoi(v.value);
        if parsed.Some? {
          pincode := parsed.value;
        }
      }
      v := Lookup(secret.value, Password);
      if v.Some? {
        password := v.value;
      }
      var baUser := TextOf(Lookup(secret.value, BasicAuthUser));
      var baPass := TextOf(Lookup(secret.value, BasicAuthPassword));
      if baUser != "" || baPass != "" {
        basicAuth := Some(BasicAuth(baUser, baPass));
      }
    }
  }

  method BuildAuth(a: Annotations, secret: SecretData, cfg: Config) returns (auth: Option<Auth>)
    ensures auth == AuthOf(a, secret, cfg)
  {
    var ssoEnabled := false;
    var v := Lookup(a, AtAuthSso);
    if v.Some? && IsTruthy(v.value) {
      ssoEnabled := true;
    }

    var ssoRoles, ssoUsers, idp := [], [], 0;
    if ssoEnabled {
      ssoRoles, ssoUsers, idp := BuildSso(a, cfg);
    }

    var whitelistRaw := cfg.authWhitelistUsers;
    v := Lookup(a, AtAuthWhitelistUsers);
    if v.Some? {
      whitelistRaw := v.value;
    }
    var whitelistUsers := SplitCsv(whitelistRaw);

    var pincode, password, basicAuth := ReadSecret(secret);

    if !ssoEnabled && |whitelistUsers| == 0 && pincode == 0 && password == "" && basicAuth == None {
      return None;
    }
    return Some(Auth(pincode, password, basicAuth, ssoEnabled, ssoRoles, ssoUsers, whitelistUsers, idp));
  }

  // ----- resources -----

  /** The HTTP entry of one HTTPRoute hostname. */
  function RouteResource(routeName: string, hostname: string, a: Annotations, decoded: Decoded,
                         secret: SecretData, cfg: Config): Resource {
    var ssl, enabled := Lookup(a, AtSsl), Lookup(a, AtEnabled);
    Resource(
      TextOverride(TextOf(Lookup(a, AtName)), routeName),
      "http",
      if enabled.Some? then Some(IsTruthy(enabled.value)) else None,
      if ssl.Some? then IsTruthy(ssl.value) else cfg.ssl,
      hostname,
      TextOf(Lookup(a, AtHostHeader)),
      TextOverride(Trimmed(a, AtTlsServerName), hostname),
      0,
      HeadersOf(a, decoded),
      AuthOf(a, secret, cfg),
      MaintenanceOf(a),
      RulesOf(a, decoded, cfg),
      [TargetExtras(BareTarget(cfg.siteId, cfg.targetHostname, cfg.targetVerb, cfg.targetPort), a, decoded)])
  }

  function BareTarget(site: string, hostname: string, verb: string, port: int): Target {
    Target(site, hostname, None, verb, port, 0, "", "", "", "", 0, None)
  }

  method BuildResource(routeName: string, hostname: string, a: Annotations, decoded: Decoded,
                       secret: SecretData, cfg: Config)
    returns (r: Resource)
    ensures r == RouteResource(routeName, hostname, a, decoded, secret, cfg)
  {
    var name, ssl := routeName, cfg.ssl;
    var v := Lookup(a, AtName);
    if v.Some? && v.value != "" {
      name := v.value;
    }
    v := Lookup(a, AtSsl);
    if v.Some? {
      ssl := IsTruthy(v.value);
    }
    var enabled := None;
    v := Lookup(a, AtEnabled);
    if v.Some? {
      enabled := Some(IsTruthy(v.value));
    }
    var tlsServerName := hostname;
    var t := Trimmed(a, AtTlsServerName);
    if t != "" {
      tlsServerName := t;
    }
    var auth := BuildAuth(a, secret, cfg);
    var rules := BuildRules(a, decoded, cfg);
    var bare := BareTarget(cfg.siteId, cfg.targetHostname, cfg.targetVerb, cfg.targetPort);
    var target := BuildTargetExtras(bare, a, decoded);
    r := Resource(
      name, "http", enabled, ssl, hostname, TextOf(Lookup(a, AtHostHeader)), tlsServerName, 0,
      HeadersOf(a, decoded), auth, MaintenanceOf(a), rules, [target]);
  }

  /** Everything that is known about the port of a Service that is to be exposed. */
  datatype ServicePort = ServicePort(
    name: string, protocol: string, proxyPort: int, targetPort: int, targetHostname: string,
    fullDomain: string, tlsServerName: string, verb: string, ssl: bool, hostHeader: string,
    headers: seq<Header>, maintenance: Option<Maintenance>, auth: Option<Auth>, rules: seq<Rule>,
    extras: Target)

  function ServiceResource(sp: ServicePort, cfg: Config): Resource {
    if sp.fullDomain != "" then
      Resource(
        sp.name, "http", None, sp.ssl, sp.fullDomain, sp.hostHeader, TextOverride(sp.tlsServerName, sp.fullDomain), 0,
        sp.headers, sp.auth, sp.maintenance, sp.rules,
        [Target(cfg.siteId, sp.targetHostname, sp.extras.enabled, sp.verb, sp.targetPort, sp.extras.internalPort,
                sp.extras.path, sp.extras.pathMatch, sp.extras.rewritePath, sp.extras.rewriteMatch,
                sp.extras.priority, sp.extras.healthCheck)])
    else
      Resource(
        sp.name, sp.protocol, None, false, "", "", "", sp.proxyPort, [], None, None, [],
        [BareTarget(cfg.siteId, sp.targetHostname, "", sp.targetPort)])
  }
}
