/** What a user's settings do to what is published: each annotation, default and secret key changes
    its own field to the value it was given, and nothing else (internal/blueprint/blueprint.go). */
module AnnotationEffects {
  import opened Collections
  import opened Text
  import opened Blueprint

  /** The annotation is there and says yes. */
  predicate On(a: Annotations, name: AnnotationName) {
    name in a && (a[name] == "true" || a[name] == "1")
  }

  /** The annotation's text, empty where it is absent. */
  function Given(a: Annotations, name: AnnotationName): string {
    if name in a then a[name] else ""
  }

  ghost predicate Clean(xs: seq<string>) {
    forall i :: 0 <= i < |xs| ==> CleanItem(xs[i])
  }

  // ----- authentication -----

  /** A missing block is one in which nothing is set. */
  function Opened(auth: Option<Auth>): Auth {
    if auth.Some? then auth.value
    else Auth(pincode := 0, password := "", basicAuth := None, ssoEnabled := false, ssoRoles := [], ssoUsers := [],
              whitelistUsers := [], autoLoginIdp := 0)
  }

  predicate IsAuthAnnotation(name: AnnotationName) {
    name.AtAuthSso? || name.AtAuthSsoRoles? || name.AtAuthSsoUsers? || name.AtAuthSsoIdp? || name.AtAuthWhitelistUsers?
  }

  lemma OpenedIsSettings(a: Annotations, secret: SecretData, cfg: Config)
    ensures Opened(AuthOf(a, secret, cfg)) == AuthSettings(a, secret, cfg)
  {
  }

  /** A block is published exactly when something in it is set, and SSO is what its annotation says. */
  lemma AuthBlock(a: Annotations, secret: SecretData, cfg: Config)
    ensures AuthOf(a, secret, cfg) == None <==> Opened(AuthOf(a, secret, cfg)) == Opened(None)
    ensures var auth := Opened(AuthOf(a, secret, cfg));
      && (auth.ssoEnabled <==> On(a, AtAuthSso))
      && (!On(a, AtAuthSso) ==> auth.ssoRoles == [] && auth.ssoUsers == [] && auth.autoLoginIdp == 0)
  {
  }

  /** The same text under this annotation. */
  predicate Alike(a: Annotations, a': Annotations, name: AnnotationName) {
    Lookup(a', name) == Lookup(a, name)
  }

  lemma UpdateLeaves(a: Annotations, a': Annotations, name: AnnotationName, v: string)
    requires a' == a[name := v]
    ensures forall n: AnnotationName :: n != name ==> Alike(a, a', n)
    ensures Lookup(a', name) == Some(v)
  {
  }

  lemma ListGiven(a: Annotations, name: AnnotationName, default: string, xs: seq<string>)
    requires Clean(xs)
    ensures Lookup(a, name) == Some(Join(xs)) ==> ListSetting(a, name, default) == xs
    ensures name !in a ==> ListSetting(a, name, Join(xs)) == xs
  {
    CsvRoundTrip(xs);
  }

  // What becomes of the block when the inputs of all fields but one are as before.

  lemma RolesFollow(a: Annotations, a': Annotations, secret: SecretData, cfg: Config, cfg': Config)
    requires On(a, AtAuthSso) && Alike(a, a', AtAuthSso) && Alike(a, a', AtAuthWhitelistUsers)
    requires Alike(a, a', AtAuthSsoUsers) && Alike(a, a', AtAuthSsoIdp)
    requires cfg' == cfg.(authSsoRoles := cfg'.authSsoRoles)
    ensures Opened(AuthOf(a', secret, cfg')) == Opened(AuthOf(a, secret, cfg)).(
      ssoRoles := ListSetting(a', AtAuthSsoRoles, cfg'.authSsoRoles))
  {
    OpenedIsSettings(a, secret, cfg);
    OpenedIsSettings(a', secret, cfg');
  }

  lemma UsersFollow(a: Annotations, a': Annotations, secret: SecretData, cfg: Config, cfg': Config)
    requires On(a, AtAuthSso) && Alike(a, a', AtAuthSso) && Alike(a, a', AtAuthWhitelistUsers)
    requires Alike(a, a', AtAuthSsoRoles) && Alike(a, a', AtAuthSsoIdp)
    requires cfg' == cfg.(authSsoUsers := cfg'.authSsoUsers)
    ensures Opened(AuthOf(a', secret, cfg')) == Opened(AuthOf(a, secret, cfg)).(
      ssoUsers := ListSetting(a', AtAuthSsoUsers, cfg'.authSsoUsers))
  {
    OpenedIsSettings(a, secret, cfg);
    OpenedIsSettings(a', secret, cfg');
  }

  lemma IdpFollows(a: Annotations, a': Annotations, secret: SecretData, cfg: Config, cfg': Config)
    requires On(a, AtAuthSso) && Alike(a, a', AtAuthSso) && Alike(a, a', AtAuthWhitelistUsers)
    requires Alike(a, a', AtAuthSsoRoles) && Alike(a, a', AtAuthSsoUsers)
    requires cfg' == cfg.(authSsoIdp := cfg'.authSsoIdp)
    ensures Opened(AuthOf(a', secret, cfg')) == Opened(AuthOf(a, secret, cfg)).(autoLoginIdp := IdpSetting(a', cfg'))
  {
    OpenedIsSettings(a, secret, cfg);
    OpenedIsSettings(a', secret, cfg');
  }

  lemma WhitelistFollows(a: Annotations, a': Annotations, secret: SecretData, cfg: Config, cfg': Config)
    requires Alike(a, a', AtAuthSso) && Alike(a, a', AtAuthSsoRoles) && Alike(a, a', AtAuthSsoUsers)
    requires Alike(a, a', AtAuthSsoIdp)
    requires cfg' == cfg.(authWhitelistUsers := cfg'.authWhitelistUsers)
    ensures Opened(AuthOf(a', secret, cfg')) == Opened(AuthOf(a, secret, cfg)).(
      whitelistUsers := ListSetting(a', AtAuthWhitelistUsers, cfg'.authWhitelistUsers))
  {
    OpenedIsSettings(a, secret, cfg);
    OpenedIsSettings(a', secret, cfg');
  }

  lemma NothingFollows(a: Annotations, a': Annotations, secret: SecretData, cfg: Config, cfg': Config)
    requires Alike(a, a', AtAuthSso) && Alike(a, a', AtAuthWhitelistUsers)
    requires AtAuthWhitelistUsers !in a ==> cfg'.authWhitelistUsers == cfg.authWhitelistUsers
    requires On(a, AtAuthSso) ==>
      Alike(a, a', AtAuthSsoRoles) && Alike(a, a', AtAuthSsoUsers) && Alike(a, a', AtAuthSsoIdp)
    requires On(a, AtAuthSso) && AtAuthSsoRoles !in a ==> cfg'.authSsoRoles == cfg.authSsoRoles
    requires On(a, AtAuthSso) && AtAuthSsoUsers !in a ==> cfg'.authSsoUsers == cfg.authSsoUsers
    requires On(a, AtAuthSso) ==> cfg'.authSsoIdp == cfg.authSsoIdp
    ensures AuthOf(a', secret, cfg') == AuthOf(a, secret, cfg)
  {
    ListAlike(a, a', AtAuthWhitelistUsers, cfg.authWhitelistUsers, cfg'.authWhitelistUsers);
    if On(a, AtAuthSso) {
      ListAlike(a, a', AtAuthSsoRoles, cfg.authSsoRoles, cfg'.authSsoRoles);
      ListAlike(a, a', AtAuthSsoUsers, cfg.authSsoUsers, cfg'.authSsoUsers);
      IdpAlike(a, a', cfg, cfg');
    }
    SettingsAlike(a, a', secret, cfg, cfg');
  }

  lemma ListAlike(a: Annotations, a': Annotations, name: AnnotationName, default: string, default': string)
    requires Alike(a, a', name) && (name !in a ==> default' == default)
    ensures ListSetting(a', name, default') == ListSetting(a, name, default)
  {
  }

  lemma IdpAlike(a: Annotations, a': Annotations, cfg: Config, cfg': Config)
    requires Alike(a, a', AtAuthSsoIdp) && cfg'.authSsoIdp == cfg.authSsoIdp
    ensures IdpSetting(a', cfg') == IdpSetting(a, cfg)
  {
  }

  lemma SettingsAlike(a: Annotations, a': Annotations, secret: SecretData, cfg: Config, cfg': Config)
    requires Alike(a, a', AtAuthSso)
    requires ListSetting(a', AtAuthWhitelistUsers, cfg'.authWhitelistUsers)
          == ListSetting(a, AtAuthWhitelistUsers, cfg.authWhitelistUsers)
    requires On(a, AtAuthSso) ==>
      && ListSetting(a', AtAuthSsoRoles, cfg'.authSsoRoles) == ListSetting(a, AtAuthSsoRoles, cfg.authSsoRoles)
      && ListSetting(a', AtAuthSsoUsers, cfg'.authSsoUsers) == ListSetting(a, AtAuthSsoUsers, cfg.authSsoUsers)
      && IdpSetting(a', cfg') == IdpSetting(a, cfg)
    ensures AuthSettings(a', secret, cfg') == AuthSettings(a, secret, cfg)
  {
  }

  /** With SSO on, the roles are those the annotation lists, and it changes the roles alone. */
  lemma RolesAnnotation(a: Annotations, a': Annotations, secret: SecretData, cfg: Config, roles: seq<string>)
    requires Clean(roles) && On(a, AtAuthSso) && a' == a[AtAuthSsoRoles := Join(roles)]
    ensures Opened(AuthOf(a', secret, cfg)) == Opened(AuthOf(a, secret, cfg)).(ssoRoles := roles)
  {
    UpdateLeaves(a, a', AtAuthSsoRoles, Join(roles));
    ListGiven(a', AtAuthSsoRoles, cfg.authSsoRoles, roles);
    RolesFollow(a, a', secret, cfg, cfg);
  }

  lemma UsersAnnotation(a: Annotations, a': Annotations, secret: SecretData, cfg: Config, users: seq<string>)
    requires Clean(users) && On(a, AtAuthSso) && a' == a[AtAuthSsoUsers := Join(users)]
    ensures Opened(AuthOf(a', secret, cfg)) == Opened(AuthOf(a, secret, cfg)).(ssoUsers := users)
  {
    UpdateLeaves(a, a', AtAuthSsoUsers, Join(users));
    ListGiven(a', AtAuthSsoUsers, cfg.authSsoUsers, users);
    UsersFollow(a, a', secret, cfg, cfg);
  }

  /** A positive number is taken as the identity provider; any other text leaves the default. */
  lemma IdpAnnotation(a: Annotations, a': Annotations, secret: SecretData, cfg: Config, v: string, n: int)
    requires On(a, AtAuthSso) && a' == a[AtAuthSsoIdp := v]
    requires (MIN_INT <= n <= MAX_INT && v == Itoa(n)) || (Atoi(v) == None && n == 0)
    ensures Opened(AuthOf(a', secret, cfg))
         == Opened(AuthOf(a, secret, cfg)).(autoLoginIdp := if n > 0 then n else cfg.authSsoIdp)
  {
    UpdateLeaves(a, a', AtAuthSsoIdp, v);
    if v == Itoa(n) {
      AtoiUndoesItoa(n);
    }
    IdpFollows(a, a', secret, cfg, cfg);
  }

  /** The whitelist counts with SSO on or off. */
  lemma WhitelistAnnotation(a: Annotations, a': Annotations, secret: SecretData, cfg: Config, users: seq<string>)
    requires Clean(users) && a' == a[AtAuthWhitelistUsers := Join(users)]
    ensures Opened(AuthOf(a', secret, cfg)) == Opened(AuthOf(a, secret, cfg)).(whitelistUsers := users)
  {
    UpdateLeaves(a, a', AtAuthWhitelistUsers, Join(users));
    ListGiven(a', AtAuthWhitelistUsers, cfg.authWhitelistUsers, users);
    WhitelistFollows(a, a', secret, cfg, cfg);
  }

  /** Each default counts for its own field where there is no annotation, ... */
  lemma ListDefaultsCount(a: Annotations, secret: SecretData, cfg: Config, roles: seq<string>, users: seq<string>)
    requires Clean(roles) && Clean(users) && On(a, AtAuthSso)
    ensures AtAuthSsoRoles !in a ==>
      Opened(AuthOf(a, secret, cfg.(authSsoRoles := Join(roles)))) == Opened(AuthOf(a, secret, cfg)).(ssoRoles := roles)
    ensures AtAuthSsoUsers !in a ==>
      Opened(AuthOf(a, secret, cfg.(authSsoUsers := Join(users)))) == Opened(AuthOf(a, secret, cfg)).(ssoUsers := users)
  {
    ListGiven(a, AtAuthSsoRoles, "", roles);
    ListGiven(a, AtAuthSsoUsers, "", users);
    RolesFollow(a, a, secret, cfg, cfg.(authSsoRoles := Join(roles)));
    UsersFollow(a, a, secret, cfg, cfg.(authSsoUsers := Join(users)));
  }

  lemma IdpDefaultCounts(a: Annotations, secret: SecretData, cfg: Config, n: int)
    requires On(a, AtAuthSso) && AtAuthSsoIdp !in a
    ensures Opened(AuthOf(a, secret, cfg.(authSsoIdp := n))) == Opened(AuthOf(a, secret, cfg)).(autoLoginIdp := n)
  {
    IdpFollows(a, a, secret, cfg, cfg.(authSsoIdp := n));
    assert IdpSetting(a, cfg.(authSsoIdp := n)) == n;
  }

  lemma WhitelistDefaultCounts(a: Annotations, secret: SecretData, cfg: Config, users: seq<string>)
    requires Clean(users) && AtAuthWhitelistUsers !in a
    ensures Opened(AuthOf(a, secret, cfg.(authWhitelistUsers := Join(users))))
         == Opened(AuthOf(a, secret, cfg)).(whitelistUsers := users)
  {
    ListGiven(a, AtAuthWhitelistUsers, "", users);
    WhitelistFollows(a, a, secret, cfg, cfg.(authWhitelistUsers := Join(users)));
  }

  /** ... and an annotation, even an empty one, overrides the default of its list. */
  lemma DefaultsOverridden(a: Annotations, secret: SecretData, cfg: Config, v: string)
    ensures AtAuthSsoRoles in a ==> AuthOf(a, secret, cfg.(authSsoRoles := v)) == AuthOf(a, secret, cfg)
    ensures AtAuthSsoUsers in a ==> AuthOf(a, secret, cfg.(authSsoUsers := v)) == AuthOf(a, secret, cfg)
    ensures AtAuthWhitelistUsers in a ==> AuthOf(a, secret, cfg.(authWhitelistUsers := v)) == AuthOf(a, secret, cfg)
  {
    if AtAuthSsoRoles in a {
      NothingFollows(a, a, secret, cfg, cfg.(authSsoRoles := v));
    }
    if AtAuthSsoUsers in a {
      NothingFollows(a, a, secret, cfg, cfg.(authSsoUsers := v));
    }
    if AtAuthWhitelistUsers in a {
      NothingFollows(a, a, secret, cfg, cfg.(authWhitelistUsers := v));
    }
  }

  /** With SSO off, what is said of roles, users and identity provider has no effect, and annotations
      that are not about authentication never have one. */
  lemma AuthIgnores(a: Annotations, a': Annotations, secret: SecretData, cfg: Config, cfg': Config,
                    name: AnnotationName, v: string)
    requires a' == a[name := v]
    requires !IsAuthAnnotation(name)
          || (!On(a, AtAuthSso) && (name.AtAuthSsoRoles? || name.AtAuthSsoUsers? || name.AtAuthSsoIdp?))
    requires if On(a, AtAuthSso) then cfg' == cfg else cfg'.authWhitelistUsers == cfg.authWhitelistUsers
    ensures AuthOf(a', secret, cfg') == AuthOf(a, secret, cfg)
  {
    UpdateLeaves(a, a', name, v);
    NothingFollows(a, a', secret, cfg, cfg');
  }

  lemma SecretFollows(a: Annotations, secret: SecretData, secret': SecretData, cfg: Config)
    ensures AuthSettings(a, secret', cfg)
         == AuthSettings(a, secret, cfg).(
              pincode := SecretPincode(secret'), password := SecretText(secret', Password),
              basicAuth := SecretBasicAuth(secret'))
  {
  }

  lemma SecretFields(m: map<SecretKey, string>, n: int, v: string, user: string)
    requires MIN_INT <= n <= MAX_INT
    ensures SecretPincode(Some(m[Pincode := Itoa(n)])) == n
    ensures Atoi(v) == None ==> SecretPincode(Some(m[Pincode := v])) == 0
    ensures SecretText(Some(m[Password := v]), Password) == v
    ensures SecretBasicAuth(Some(m[BasicAuthUser := user][BasicAuthPassword := v]))
         == if user == "" && v == "" then None else Some(BasicAuth(user := user, password := v))
  {
    AtoiUndoesItoa(n);
  }

  lemma SecretLeaves(m: map<SecretKey, string>, n: string, v: string, user: string)
    ensures var s, s' := Some(m), Some(m[Pincode := n]);
      SecretText(s', Password) == SecretText(s, Password) && SecretBasicAuth(s') == SecretBasicAuth(s)
    ensures var s, s' := Some(m), Some(m[Password := v]);
      SecretPincode(s') == SecretPincode(s) && SecretBasicAuth(s') == SecretBasicAuth(s)
    ensures var s, s' := Some(m), Some(m[BasicAuthUser := user][BasicAuthPassword := v]);
      SecretPincode(s') == SecretPincode(s) && SecretText(s', Password) == SecretText(s, Password)
  {
  }

  /** Each key of the Secret sets its own field. */
  lemma SecretPincodeKey(a: Annotations, m: map<SecretKey, string>, cfg: Config, n: int)
    requires MIN_INT <= n <= MAX_INT
    ensures Opened(AuthOf(a, Some(m[Pincode := Itoa(n)]), cfg)) == Opened(AuthOf(a, Some(m), cfg)).(pincode := n)
  {
    SecretFields(m, n, "", "");
    SecretLeaves(m, Itoa(n), "", "");
    SecretSettings(a, Some(m), Some(m[Pincode := Itoa(n)]), cfg);
  }

  /** A pincode that is not a number counts as none. */
  lemma SecretPincodeIgnored(a: Annotations, m: map<SecretKey, string>, cfg: Config, v: string)
    requires Atoi(v) == None
    ensures Opened(AuthOf(a, Some(m[Pincode := v]), cfg)) == Opened(AuthOf(a, Some(m), cfg)).(pincode := 0)
  {
    SecretFields(m, 0, v, "");
    SecretLeaves(m, v, "", "");
    SecretSettings(a, Some(m), Some(m[Pincode := v]), cfg);
  }

  lemma SecretPasswordKey(a: Annotations, m: map<SecretKey, string>, cfg: Config, v: string)
    ensures Opened(AuthOf(a, Some(m[Password := v]), cfg)) == Opened(AuthOf(a, Some(m), cfg)).(password := v)
  {
    SecretFields(m, 0, v, "");
    SecretLeaves(m, "", v, "");
    SecretSettings(a, Some(m), Some(m[Password := v]), cfg);
  }

  /** Basic authentication needs a user or a password. */
  lemma SecretBasicAuthKeys(a: Annotations, m: map<SecretKey, string>, cfg: Config, user: string, v: string)
    ensures Opened(AuthOf(a, Some(m[BasicAuthUser := user][BasicAuthPassword := v]), cfg))
         == Opened(AuthOf(a, Some(m), cfg)).(
              basicAuth := if user == "" && v == "" then None else Some(BasicAuth(user := user, password := v)))
  {
    SecretFields(m, 0, v, user);
    SecretLeaves(m, "", v, user);
    SecretSettings(a, Some(m), Some(m[BasicAuthUser := user][BasicAuthPassword := v]), cfg);
  }

  lemma SecretSettings(a: Annotations, secret: SecretData, secret': SecretData, cfg: Config)
    ensures Opened(AuthOf(a, secret', cfg))
         == Opened(AuthOf(a, secret, cfg)).(
              pincode := SecretPincode(secret'), password := SecretText(secret', Password),
              basicAuth := SecretBasicAuth(secret'))
    ensures var auth := Opened(AuthOf(a, secret, cfg));
      && auth.pincode == SecretPincode(secret) && auth.password == SecretText(secret, Password)
      && auth.basicAuth == SecretBasicAuth(secret)
  {
    OpenedIsSettings(a, secret, cfg);
    OpenedIsSettings(a, secret', cfg);
    SecretFollows(a, secret, secret', cfg);
  }

  lemma NoSecret(a: Annotations, cfg: Config, secret: SecretData)
    requires secret == None || secret == Some(map[])
    ensures var auth := Opened(AuthOf(a, secret, cfg));
      auth.pincode == 0 && auth.password == "" && auth.basicAuth == None
  {
    SecretSettings(a, secret, secret, cfg);
    assert Atoi("").None?;
  }

  // ----- maintenance, headers, rules -----

  lemma MaintenanceAnnotations(a: Annotations)
    ensures MaintenanceOf(a) == if !On(a, AtMaintenanceEnabled) then None else Some(Maintenance(
      enabled := true, estimatedTime := Given(a, AtMaintenanceEstimatedTime), kind := Given(a, AtMaintenanceType),
      message := Given(a, AtMaintenanceMessage), title := Given(a, AtMaintenanceTitle)))
  {
  }

  lemma HeadersAnnotation(a: Annotations, decoded: Decoded, v: string, headers: seq<Header>)
    ensures v != "" ==> HeadersOf(a[AtHeaders := v], decoded.(headers := Some(headers))) == headers
    ensures HeadersOf(a, decoded.(headers := None)) == []
    ensures Given(a, AtHeaders) == "" ==> HeadersOf(a, decoded) == []
  {
  }

  /** One rule against each country. */
  function Against(countries: seq<string>): (rules: seq<Rule>)
    ensures |rules| == |countries|
  {
    seq(|countries|, i requires 0 <= i < |countries| =>
      Rule(action := "deny", matches := "country", priority := 0, value := countries[i]))
  }

  /** The valid rules of a readable annotation come first, in their order, and one rule against each
      configured country follows. */
  lemma RulesInOrder(a: Annotations, decoded: Decoded, cfg: Config, countries: seq<string>)
    requires Clean(countries) && cfg.denyCountries == Join(countries)
    ensures RulesOf(a, decoded, cfg)
         == (if Given(a, AtRules) != "" && decoded.rules.Some? then ValidRules(decoded.rules.value) else [])
            + Against(countries)
  {
    CsvRoundTrip(countries);
    DenyRulesAre(countries);
  }

  lemma DenyRulesAre(countries: seq<string>)
    ensures DenyRules(countries) == Against(countries)
  {
  }

  // ----- the target -----

  predicate IsTargetAnnotation(name: AnnotationName) {
    || name.AtTargetPath? || name.AtTargetPathMatch? || name.AtTargetRewritePath? || name.AtTargetRewriteMatch?
    || name.AtTargetPriority? || name.AtTargetInternalPort? || name.AtTargetHealthcheck? || name.AtTargetEnabled?
  }

  /** An object without target annotations leaves the target as it is. */
  lemma NoExtras(base: Target, a: Annotations, decoded: Decoded)
    requires forall name :: name in a ==> !IsTargetAnnotation(name)
    ensures TargetExtras(base, a, decoded) == base
  {
    assert TrimSpace("") == "" && Atoi("").None?;
    assert Trimmed(a, AtTargetPath) == Trimmed(a, AtTargetPathMatch) == Trimmed(a, AtTargetEnabled) == "";
  }

  /** No other annotation changes it. */
  lemma ExtrasIgnore(base: Target, a: Annotations, a': Annotations, decoded: Decoded, name: AnnotationName, v: string)
    requires !IsTargetAnnotation(name) && a' == a[name := v]
    ensures TargetExtras(base, a', decoded) == TargetExtras(base, a, decoded)
  {
    UpdateLeaves(a, a', name, v);
    ExtrasAlike(base, a, a', decoded);
  }

  lemma ExtrasAlike(base: Target, a: Annotations, a': Annotations, decoded: Decoded)
    requires Alike(a, a', AtTargetPath) && Alike(a, a', AtTargetPathMatch) && Alike(a, a', AtTargetRewritePath)
    requires Alike(a, a', AtTargetRewriteMatch) && Alike(a, a', AtTargetPriority) && Alike(a, a', AtTargetInternalPort)
    requires Alike(a, a', AtTargetHealthcheck) && Alike(a, a', AtTargetEnabled)
    ensures TargetExtras(base, a', decoded) == TargetExtras(base, a, decoded)
  {
  }

  // Each target annotation sets its own field; what it says counts when it is known and in range,
  // and otherwise the target keeps what it has.

  lemma TargetPath(base: Target, a: Annotations, a': Annotations, decoded: Decoded, v: string)
    requires TrimSpace(v) == v != "" && a' == a[AtTargetPath := v]
    ensures TargetExtras(base, a', decoded) == TargetExtras(base, a, decoded).(path := v)
  {
    UpdateLeaves(a, a', AtTargetPath, v);
  }

  lemma TargetRewritePath(base: Target, a: Annotations, a': Annotations, decoded: Decoded, v: string)
    requires TrimSpace(v) == v != "" && a' == a[AtTargetRewritePath := v]
    ensures TargetExtras(base, a', decoded) == TargetExtras(base, a, decoded).(rewritePath := v)
  {
    UpdateLeaves(a, a', AtTargetRewritePath, v);
  }

  lemma TargetPathMatch(base: Target, a: Annotations, a': Annotations, decoded: Decoded, v: string)
    requires TrimSpace(v) == v && a' == a[AtTargetPathMatch := v]
    ensures TargetExtras(base, a', decoded)
         == TargetExtras(base, a, decoded).(
              pathMatch := if v == "prefix" || v == "exact" || v == "regex" then v else base.pathMatch)
  {
    UpdateLeaves(a, a', AtTargetPathMatch, v);
  }

  lemma TargetRewriteMatch(base: Target, a: Annotations, a': Annotations, decoded: Decoded, v: string)
    requires TrimSpace(v) == v && a' == a[AtTargetRewriteMatch := v]
    ensures TargetExtras(base, a', decoded)
         == TargetExtras(base, a, decoded).(
              rewriteMatch := if v == "exact" || v == "prefix" || v == "regex" || v == "stripPrefix" then v
                              else base.rewriteMatch)
  {
    UpdateLeaves(a, a', AtTargetRewriteMatch, v);
  }

  lemma TargetPriority(base: Target, a: Annotations, a': Annotations, decoded: Decoded, n: int)
    requires MIN_INT <= n <= MAX_INT && a' == a[AtTargetPriority := Itoa(n)]
    ensures TargetExtras(base, a', decoded)
         == TargetExtras(base, a, decoded).(priority := if 1 <= n <= 1000 then n else base.priority)
  {
    UpdateLeaves(a, a', AtTargetPriority, Itoa(n));
    ItoaIsTrimmed(n);
    AtoiUndoesItoa(n);
  }

  lemma TargetInternalPort(base: Target, a: Annotations, a': Annotations, decoded: Decoded, n: int)
    requires MIN_INT <= n <= MAX_INT && a' == a[AtTargetInternalPort := Itoa(n)]
    ensures TargetExtras(base, a', decoded)
         == TargetExtras(base, a, decoded).(internalPort := if 1 <= n <= 65535 then n else base.internalPort)
  {
    UpdateLeaves(a, a', AtTargetInternalPort, Itoa(n));
    ItoaIsTrimmed(n);
    AtoiUndoesItoa(n);
  }

  lemma TargetEnabled(base: Target, a: Annotations, a': Annotations, decoded: Decoded, v: string)
    requires TrimSpace(v) == v != "" && a' == a[AtTargetEnabled := v]
    ensures TargetExtras(base, a', decoded)
         == TargetExtras(base, a, decoded).(enabled := Some(v == "true" || v == "1"))
  {
    UpdateLeaves(a, a', AtTargetEnabled, v);
  }

  lemma TargetHealthcheck(base: Target, a: Annotations, a': Annotations, decoded: Decoded, v: string)
    requires v != "" && a' == a[AtTargetHealthcheck := v]
    ensures TargetExtras(base, a', decoded)
         == TargetExtras(base, a, decoded).(
              healthCheck := if decoded.healthCheck.Some? then decoded.healthCheck else base.healthCheck)
  {
    UpdateLeaves(a, a', AtTargetHealthcheck, v);
  }

  // ----- the entry of a hostname -----

  /** Where each field of an HTTP entry comes from. */
  lemma HttpFields(routeName: string, hostname: string, a: Annotations, decoded: Decoded,
                   secret: SecretData, cfg: Config)
    ensures var r := RouteResource(routeName, hostname, a, decoded, secret, cfg);
      && r.protocol == "http" && r.fullDomain == hostname && r.proxyPort == 0
      && r.name == (if Given(a, AtName) != "" then a[AtName] else routeName)
      && r.enabled == (if AtEnabled in a then Some(On(a, AtEnabled)) else None)
      && r.ssl == (if AtSsl in a then On(a, AtSsl) else cfg.ssl)
      && r.hostHeader == Given(a, AtHostHeader)
      && r.tlsServerName == (var v := TrimSpace(Given(a, AtTlsServerName)); if v != "" then v else hostname)
      && r.headers == HeadersOf(a, decoded) && r.rules == RulesOf(a, decoded, cfg)
      && r.auth == AuthOf(a, secret, cfg) && r.maintenance == MaintenanceOf(a)
      && r.targets == [TargetExtras(
           Target(site := cfg.siteId, hostname := cfg.targetHostname, port := cfg.targetPort, verb := cfg.targetVerb,
                  enabled := None, internalPort := 0, path := "", pathMatch := "", rewritePath := "",
                  rewriteMatch := "", priority := 0, healthCheck := None), a, decoded)]
  {
  }
}
