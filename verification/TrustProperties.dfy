// What holds of every graph that `build` makes: referential integrity, exact size, sound
// conditional-access marks, and the posture cache.

module TrustProperties {
  import opened Wrappers
  import opened Text
  import opened TrustGraph

  /** Both endpoints are among the domains, and exactly the federation edges are ephemeral. */
  predicate WellFormed(e: Edge, ids: set<string>) {
    e.source in ids && e.target in ids && (e.ephemeral <==> e.credentialType == OidcFederation)
  }

  /** An edge marked gated names what gates it and carries neither of the two "anyone" findings. */
  predicate GatedSoundly(e: Edge) {
    e.access.present ==>
      e.access.factors != {} && WIF_NO_ATTRIBUTE_CONDITION !in e.findings && CF_ACCESS_POLICY_ALLOW_ALL !in e.findings
  }

  predicate AllWellFormed(edges: seq<Edge>, ids: set<string>) {
    forall e | e in edges :: WellFormed(e, ids)
  }

  predicate AllGatedSoundly(edges: seq<Edge>) {
    forall e | e in edges :: GatedSoundly(e)
  }

  lemma WellFormedAppend(a: seq<Edge>, i: set<string>, b: seq<Edge>, j: set<string>)
    requires AllWellFormed(a, i) && AllWellFormed(b, j)
    ensures AllWellFormed(a + b, i + j)
  {
  }

  lemma {:induction false} GithubIsSound(secrets: seq<GithubSecret>)
    ensures AllWellFormed(GithubEdges(secrets), SecretIds(secrets)) && AllGatedSoundly(GithubEdges(secrets))
  {
    if secrets != [] {
      GithubIsSound(secrets[..|secrets| - 1]);
    }
  }

  lemma {:induction false} KeysAreSound(keys: seq<SaKey>)
    ensures AllWellFormed(KeyEdges(keys), KeyIds(keys)) && AllGatedSoundly(KeyEdges(keys))
  {
    if keys != [] {
      KeysAreSound(keys[..|keys| - 1]);
    }
  }

  lemma {:induction false} ProvidersAreWellFormed(ps: seq<GcpProvider>, accounts: seq<ServiceAccount>, h: Heuristics)
    ensures AllWellFormed(AllProviderEdges(ps, accounts, h), ProviderIds(ps, h))
  {
    if ps != [] {
      ProvidersAreWellFormed(ps[..|ps| - 1], accounts, h);
    }
  }

  lemma {:induction false} ScopingsAreSound(idp: CfIdp, apps: seq<CfApp>, cache: map<string, Posture>)
    requires forall a | a in apps :: CacheKey(a) in cache
    ensures AllWellFormed(ScopingEdges(idp, apps, cache), {IdpDomain(idp).id} + ScopedIds(idp, apps))
    ensures AllGatedSoundly(ScopingEdges(idp, apps, cache))
  {
    if apps != [] {
      ScopingsAreSound(idp, apps[..|apps| - 1], cache);
    }
  }

  lemma {:induction false} IdpsAreSound(idps: seq<CfIdp>, apps: seq<CfApp>, cache: map<string, Posture>)
    requires forall a | a in apps :: CacheKey(a) in cache
    ensures AllWellFormed(AllIdpEdges(idps, apps, cache), IdpIds(idps, apps))
    ensures AllGatedSoundly(AllIdpEdges(idps, apps, cache))
  {
    if idps != [] {
      IdpsAreSound(idps[..|idps| - 1], apps, cache);
      ScopingsAreSound(idps[|idps| - 1], apps, cache);
    }
  }

  lemma {:induction false} SessionsAreSound(apps: seq<CfApp>, cache: map<string, Posture>)
    requires forall a | a in apps :: CacheKey(a) in cache
    ensures AllWellFormed(SessionEdges(apps, cache), AppIds(apps)) && AllGatedSoundly(SessionEdges(apps, cache))
  {
    if apps != [] {
      SessionsAreSound(apps[..|apps| - 1], cache);
    }
  }

  lemma {:induction false} TokensAreSound(ts: seq<CfToken>)
    ensures AllWellFormed(TokenEdges(ts), TokenIds(ts)) && AllGatedSoundly(TokenEdges(ts))
  {
    if ts != [] {
      TokensAreSound(ts[..|ts| - 1]);
    }
  }

  lemma GcpIsWellFormed(s: Scan, h: Heuristics)
    ensures AllWellFormed(GcpEdges(s, h), GcpIds(s, h))
  {
    ProvidersAreWellFormed(s.providers, s.accounts, h);
    KeysAreSound(s.keys);
    WellFormedAppend(AllProviderEdges(s.providers, s.accounts, h), ProviderIds(s.providers, h),
                     KeyEdges(s.keys), KeyIds(s.keys));
  }

  lemma CloudflareIsSound(s: Scan)
    ensures AllWellFormed(CloudflareEdges(s), CloudflareIds(s)) && AllGatedSoundly(CloudflareEdges(s))
  {
    var cache := Cache(s.apps, s.policies);
    var idps, sessions, tokens := AllIdpEdges(s.idps, s.apps, cache), SessionEdges(s.apps, cache), TokenEdges(s.tokens);
    IdpsAreSound(s.idps, s.apps, cache);
    SessionsAreSound(s.apps, cache);
    TokensAreSound(s.tokens);
    WellFormedAppend(idps, IdpIds(s.idps, s.apps), sessions, AppIds(s.apps));
    WellFormedAppend(idps + sessions, IdpIds(s.idps, s.apps) + AppIds(s.apps), tokens, TokenIds(s.tokens));
  }

  /** Referential integrity of the merged graph, for every scan. */
  lemma GraphIsWellFormed(s: Scan, h: Heuristics)
    ensures AllWellFormed(AllEdges(s, h), AllDomainIds(s, h))
  {
    GithubIsSound(s.secrets);
    GcpIsWellFormed(s, h);
    CloudflareIsSound(s);
    WellFormedAppend(GithubEdges(s.secrets), GithubIds(s), GcpEdges(s, h), GcpIds(s, h));
    WellFormedAppend(GithubEdges(s.secrets) + GcpEdges(s, h), GithubIds(s) + GcpIds(s, h),
                     CloudflareEdges(s), CloudflareIds(s));
  }

  // ---------- Conditional access ----------

  /** `parseWifProvider`: a blank condition is no condition. */
  function NormalizedCondition(raw: Option<string>): (r: Option<string>)
    ensures r.None? <==> raw.None? || Trim(raw.value) == ""
    ensures r.Some? ==> r == raw && r != Some("")
  {
    if raw.Some? && raw.value != "" && Trim(raw.value) != "" then raw else None
  }

  /** A provider's edges are soundly marked exactly when its condition is not the empty string. */
  lemma ProviderGatingExactly(p: GcpProvider, accounts: seq<ServiceAccount>, h: Heuristics)
    ensures AllGatedSoundly(ProviderEdges(p, accounts, h)) <==> p.attributeCondition != Some("")
  {
    var edges := ProviderEdges(p, accounts, h);
    var e := edges[0];
    assert e in edges;
    assert forall x | x in edges :: x.access == ProviderAccess(p) && x.findings == ProviderFindings(p, h);
    if p.attributeCondition == Some("") {
      assert !GatedSoundly(e);
    }
  }

  lemma {:induction false} ProvidersAreGatedSoundly(ps: seq<GcpProvider>, accounts: seq<ServiceAccount>, h: Heuristics)
    requires forall i | 0 <= i < |ps| :: ps[i].attributeCondition != Some("")
    ensures AllGatedSoundly(AllProviderEdges(ps, accounts, h))
  {
    if ps != [] {
      ProvidersAreGatedSoundly(ps[..|ps| - 1], accounts, h);
      ProviderGatingExactly(ps[|ps| - 1], accounts, h);
    }
  }

  /** With normalized providers, every edge of the graph is soundly marked. */
  lemma GraphIsGatedSoundly(s: Scan, h: Heuristics)
    requires forall p | p in s.providers :: p.attributeCondition != Some("")
    ensures AllGatedSoundly(AllEdges(s, h))
  {
    GithubIsSound(s.secrets);
    ProvidersAreGatedSoundly(s.providers, s.accounts, h);
    KeysAreSound(s.keys);
    CloudflareIsSound(s);
  }

  // ---------- What a posture says about the policies ----------

  predicate IsOf(p: CfPolicy, app: CfApp) {
    p.accountId == app.accountId && p.appId == app.appId
  }

  /** The policy lets anyone in: it bypasses authentication, or allows everyone. */
  predicate Opens(p: CfPolicy) {
    p.decision == "bypass" || (p.decision == "allow" && p.allowsEveryone)
  }

  lemma {:induction false} AppPoliciesExactly(app: CfApp, policies: seq<CfPolicy>)
    ensures forall p :: p in AppPolicies(app.accountId, app.appId, policies) <==> p in policies && IsOf(p, app)
  {
    if policies != [] {
      AppPoliciesExactly(app, policies[..|policies| - 1]);
      assert policies == policies[..|policies| - 1] + [policies[|policies| - 1]];
    }
  }

  predicate HasPolicy(policies: seq<CfPolicy>, a: CfApp) {
    exists p | p in policies :: IsOf(p, a)
  }

  predicate IsOpen(policies: seq<CfPolicy>, a: CfApp) {
    exists p | p in policies :: IsOf(p, a) && Opens(p)
  }

  /** Some allow policy of the application asks for the factor. */
  predicate Asks(policies: seq<CfPolicy>, a: CfApp, f: string) {
    exists p | p in policies :: IsOf(p, a) && p.decision == "allow" && f in p.factors
  }

  /** An application is open exactly if a policy of its own opens it; its factors are what its allow policies ask. */
  lemma PostureExactly(a: CfApp, policies: seq<CfPolicy>)
    ensures var posture := ComputeAppPosture(a, policies);
            && (posture.wideOpen <==> IsOpen(policies, a))
            && (forall f :: f in posture.factors <==> Asks(policies, a, f))
            && (posture.policies != [] <==> HasPolicy(policies, a))
  {
    AppPoliciesExactly(a, policies);
    var own := AppPolicies(a.accountId, a.appId, policies);
    assert own != [] ==> own[0] in own;
  }

  // ---------- Who is trusted ----------

  /** Absent and empty count as false. */
  lemma TruthyExactly(s: Option<string>)
    ensures Truthy(s) <==> s !in {None, Some("")}
  {
  }

  /**
   * A provider is attributed to an organisation exactly if it trusts GitHub Actions and its condition
   * names just that one owner; every other provider that trusts GitHub Actions, to all of it.
   */
  lemma SourceNamesTheTrusted(p: GcpProvider, h: Heuristics, owner: string)
    ensures ProviderSource(p, h).id == "github:org/" + owner <==>
            p.issuerUri == Some("https://token.actions.githubusercontent.com")
            && p.attributeCondition !in {None, Some("")} && h.repoOwners(p.attributeCondition.value) == [owner]
    ensures ProviderSource(p, h).id == "github:actions" <==>
            p.issuerUri == Some("https://token.actions.githubusercontent.com")
            && (p.attributeCondition in {None, Some("")} || |h.repoOwners(p.attributeCondition.value)| != 1)
    ensures p.issuerUri.Some? && p.issuerUri.value != "" && !TrustsGithub(p) ==>
              ProviderSource(p, h).id == "external:" + h.urlHost(p.issuerUri.value)
    ensures p.issuerUri in {None, Some("")} ==>
              ProviderSource(p, h).id ==
              if p.awsAccountId in {None, Some("")} then "external:unknown" else "external:aws-" + p.awsAccountId.value
  {
    var id := ProviderSource(p, h).id;
    var issuer := "https://token.actions.githubusercontent.com";
    assert issuer != "" && (TrustsGithub(p) <==> p.issuerUri == Some(issuer));
    TruthyExactly(p.attributeCondition);
    TruthyExactly(p.issuerUri);
    TruthyExactly(p.awsAccountId);
    if TrustsGithub(p) {
      if |Owners(p, h)| == 1 {
        assert id == "github:org/" + Owners(p, h)[0] && Owners(p, h) == [Owners(p, h)[0]];
        assert id[11..] == Owners(p, h)[0] && ("github:org/" + owner)[11..] == owner;
        assert id[7] == 'o';
      } else {
        assert ("github:org/" + owner)[7] == 'o' && id[7] == 'a';
      }
    } else {
      assert id[0] == 'e' && ("github:org/" + owner)[0] == 'g' && "github:actions"[0] == 'g';
    }
  }

  /** The member names the pool as a whole path segment. */
  ghost predicate NamesPool(member: string, poolId: string) {
    var path := "/workloadIdentityPools/" + poolId;
    exists i | 0 <= i <= |member| ::
      OccursAt(member, i, path) && (i + |path| == |member| || member[i + |path|] == '/')
  }

  lemma PoolIsAWholeSegment(member: string, poolId: string)
    ensures ReferencesPool(member, poolId) <==> NamesPool(member, poolId)
  {
    var path := "/workloadIdentityPools/" + poolId;
    if i :| 0 <= i <= |member| && OccursAt(member, i, path + "/") {
      assert member[i..i + |path| + 1][..|path|] == member[i..i + |path|] && (path + "/")[|path|] == '/';
      assert OccursAt(member, i, path) && member[i + |path|] == '/';
    }
    if i :| 0 <= i <= |member| && OccursAt(member, i, path) && i + |path| < |member| && member[i + |path|] == '/' {
      assert member[i..i + |path| + 1] == member[i..i + |path|] + ['/'];
      assert OccursAt(member, i, path + "/");
    }
  }

  /**
   * An account is bound to a provider exactly if it is of the same project and some member names the
   * provider's pool; a pool whose id merely begins alike is not meant.
   */
  lemma BoundExactly(p: GcpProvider, a: ServiceAccount)
    ensures IsBound(p, a) <==> a.project == p.project && exists m | m in a.members :: NamesPool(m, p.poolId)
  {
    forall m
      ensures ReferencesPool(m, p.poolId) <==> NamesPool(m, p.poolId)
    {
      PoolIsAWholeSegment(m, p.poolId);
    }
  }

  // ---------- Which way trust runs ----------

  predicate Links(e: Edge, source: string, target: string, credential: CredentialType) {
    e.source == source && e.target == target && e.credentialType == credential
  }

  /** A cloud-looking secret lets its organisation into somewhere unknown. */
  predicate FromSecret(secrets: seq<GithubSecret>, e: Edge) {
    exists x | x in secrets ::
      x.looksLikeCloudCredential && Links(e, "github:org/" + x.org, "external:unknown", GithubSecretType)
  }

  /** A provider lets its source into its project. */
  predicate FromProvider(ps: seq<GcpProvider>, h: Heuristics, e: Edge) {
    exists p | p in ps :: Links(e, ProviderSource(p, h).id, "gcp:project/" + p.project, OidcFederation)
  }

  /** A user-managed key lets its unknown holder into its project. */
  predicate FromKey(keys: seq<SaKey>, e: Edge) {
    exists k | k in keys ::
      k.keyType == "USER_MANAGED" && Links(e, "external:unknown", "gcp:project/" + k.project, SaKeyType)
  }

  /** An identity provider lets its users into its account, and into the applications that name it. */
  predicate FromIdp(idps: seq<CfIdp>, apps: seq<CfApp>, e: Edge) {
    exists i | i in idps ::
      || Links(e, "external:cf-idp-" + i.idpId, "cloudflare:account/" + i.accountId, OidcFederation)
      || exists a | a in apps ::
           a.accountId == i.accountId && i.idpId in a.allowedIdps
           && Links(e, "external:cf-idp-" + i.idpId, "cloudflare:app/" + a.accountId + "/" + a.appId, OidcFederation)
  }

  /** An account lets its users into each of its applications. */
  predicate FromApp(apps: seq<CfApp>, e: Edge) {
    exists a | a in apps ::
      Links(e, "cloudflare:account/" + a.accountId, "cloudflare:app/" + a.accountId + "/" + a.appId, OidcFederation)
  }

  /** A service token lets its unknown holder into its account. */
  predicate FromToken(ts: seq<CfToken>, e: Edge) {
    exists t | t in ts :: Links(e, "external:unknown", "cloudflare:account/" + t.accountId, CfServiceTokenType)
  }

  lemma {:induction false} SecretsLink(secrets: seq<GithubSecret>)
    ensures forall e | e in GithubEdges(secrets) :: FromSecret(secrets, e)
  {
    if secrets != [] {
      SecretsLink(secrets[..|secrets| - 1]);
      assert secrets[|secrets| - 1] in secrets;
    }
  }

  lemma {:induction false} ProvidersLink(ps: seq<GcpProvider>, accounts: seq<ServiceAccount>, h: Heuristics)
    ensures forall e | e in AllProviderEdges(ps, accounts, h) :: FromProvider(ps, h, e)
  {
    if ps != [] {
      ProvidersLink(ps[..|ps| - 1], accounts, h);
      assert ps[|ps| - 1] in ps;
    }
  }

  lemma {:induction false} KeysLink(keys: seq<SaKey>)
    ensures forall e | e in KeyEdges(keys) :: FromKey(keys, e)
  {
    if keys != [] {
      KeysLink(keys[..|keys| - 1]);
      assert keys[|keys| - 1] in keys;
    }
  }

  lemma {:induction false} ScopingsLink(i: CfIdp, apps: seq<CfApp>, cache: map<string, Posture>)
    requires forall a | a in apps :: CacheKey(a) in cache
    ensures forall e | e in ScopingEdges(i, apps, cache) :: FromIdp([i], apps, e)
  {
    assert i in [i];
    if apps != [] {
      var front, a := apps[..|apps| - 1], apps[|apps| - 1];
      ScopingsLink(i, front, cache);
      assert a in apps && forall b | b in front :: b in apps;
      assert App(a).id == "cloudflare:app/" + a.accountId + "/" + a.appId;
    }
  }

  lemma {:induction false} IdpsLink(idps: seq<CfIdp>, apps: seq<CfApp>, cache: map<string, Posture>)
    requires forall a | a in apps :: CacheKey(a) in cache
    ensures forall e | e in AllIdpEdges(idps, apps, cache) :: FromIdp(idps, apps, e)
  {
    if idps != [] {
      var front, i := idps[..|idps| - 1], idps[|idps| - 1];
      IdpsLink(front, apps, cache);
      ScopingsLink(i, apps, cache);
      assert i in idps && forall j | j in front :: j in idps;
    }
  }

  lemma {:induction false} SessionsLink(apps: seq<CfApp>, cache: map<string, Posture>)
    requires forall a | a in apps :: CacheKey(a) in cache
    ensures forall e | e in SessionEdges(apps, cache) :: FromApp(apps, e)
  {
    if apps != [] {
      SessionsLink(apps[..|apps| - 1], cache);
      assert apps[|apps| - 1] in apps;
    }
  }

  lemma {:induction false} TokensLink(ts: seq<CfToken>)
    ensures forall e | e in TokenEdges(ts) :: FromToken(ts, e)
  {
    if ts != [] {
      TokensLink(ts[..|ts| - 1]);
      assert ts[|ts| - 1] in ts;
    }
  }

  /** Every edge of every graph runs from whoever a resource of the scan lets in to what it lets them into. */
  lemma EdgesRunTheRightWay(s: Scan, h: Heuristics)
    ensures forall e | e in AllEdges(s, h) ::
              || FromSecret(s.secrets, e) || FromProvider(s.providers, h, e) || FromKey(s.keys, e)
              || FromIdp(s.idps, s.apps, e) || FromApp(s.apps, e) || FromToken(s.tokens, e)
  {
    var cache := Cache(s.apps, s.policies);
    SecretsLink(s.secrets);
    ProvidersLink(s.providers, s.accounts, h);
    KeysLink(s.keys);
    IdpsLink(s.idps, s.apps, cache);
    SessionsLink(s.apps, cache);
    TokensLink(s.tokens);
  }

  // ---------- The posture cache ----------

  /** The cache holds the posture of the last application with the key. */
  lemma {:induction false} CacheHoldsSome(apps: seq<CfApp>, policies: seq<CfPolicy>, key: string)
    requires key in Cache(apps, policies)
    ensures exists a | a in apps :: CacheKey(a) == key && Cache(apps, policies)[key] == ComputeAppPosture(a, policies)
  {
    var a := apps[|apps| - 1];
    assert apps == apps[..|apps| - 1] + [a];
    if CacheKey(a) != key {
      CacheHoldsSome(apps[..|apps| - 1], policies, key);
    }
  }

  ghost predicate SharedKeysAgree(apps: seq<CfApp>, policies: seq<CfPolicy>) {
    forall a, b | a in apps && b in apps && CacheKey(a) == CacheKey(b) ::
      ComputeAppPosture(a, policies) == ComputeAppPosture(b, policies)
  }

  /**
   * Each lookup equals the direct computation exactly when applications that share a key share
   * their posture. Nothing else can go wrong with the cache.
   */
  lemma {:induction false} CacheAgreesExactly(apps: seq<CfApp>, policies: seq<CfPolicy>)
    ensures (forall a | a in apps :: Cache(apps, policies)[CacheKey(a)] == ComputeAppPosture(a, policies)) <==>
            SharedKeysAgree(apps, policies)
  {
    forall a | a in apps && (forall b | b in apps && CacheKey(a) == CacheKey(b) ::
                               ComputeAppPosture(a, policies) == ComputeAppPosture(b, policies))
      ensures Cache(apps, policies)[CacheKey(a)] == ComputeAppPosture(a, policies)
    {
      CacheHoldsSome(apps, policies, CacheKey(a));
    }
  }

  /** The last application with the key of `a`: the one whose posture is used for `a`. */
  function StandIn(apps: seq<CfApp>, a: CfApp): (b: CfApp)
    ensures a in apps ==> b in apps && CacheKey(b) == CacheKey(a)
  {
    if apps == [] then a
    else
      var last := apps[|apps| - 1];
      assert apps == apps[..|apps| - 1] + [last];
      if CacheKey(last) == CacheKey(a) then last else StandIn(apps[..|apps| - 1], a)
  }

  lemma {:induction false} CacheHoldsStandIn(apps: seq<CfApp>, policies: seq<CfPolicy>, a: CfApp)
    requires a in apps
    ensures CacheKey(a) in Cache(apps, policies)
    ensures Cache(apps, policies)[CacheKey(a)] == ComputeAppPosture(StandIn(apps, a), policies)
  {
    var front, last := apps[..|apps| - 1], apps[|apps| - 1];
    assert apps == front + [last];
    if CacheKey(last) != CacheKey(a) {
      CacheHoldsStandIn(front, policies, a);
    }
  }

  predicate SlashFree(s: string) {
    '/' !in s
  }

  function FirstSlash(s: string): nat {
    if s == "" || s[0] == '/' then 0 else 1 + FirstSlash(s[1..])
  }

  lemma {:induction false} FirstSlashOfKey(head: string, rest: string)
    requires SlashFree(head)
    ensures FirstSlash(head + "/" + rest) == |head|
  {
    if head != "" {
      assert (head + "/" + rest)[1..] == head[1..] + "/" + rest;
      FirstSlashOfKey(head[1..], rest);
    }
  }

  lemma KeysOfSlashFreeAccounts(a: CfApp, b: CfApp)
    requires SlashFree(a.accountId) && SlashFree(b.accountId) && CacheKey(a) == CacheKey(b)
    ensures a.accountId == b.accountId && a.appId == b.appId
  {
    var key, m := CacheKey(a), |a.accountId|;
    FirstSlashOfKey(a.accountId, a.appId);
    FirstSlashOfKey(b.accountId, b.appId);
    assert a.accountId == key[..m] && b.accountId == CacheKey(b)[..m];
    assert a.appId == key[m + 1..] && b.appId == CacheKey(b)[m + 1..];
  }

  /** With slash-free account ids, applications are different domains unless account and application are the same. */
  lemma AppDomainsAreApart(a: CfApp, b: CfApp)
    requires SlashFree(a.accountId) && SlashFree(b.accountId)
    ensures App(a).id == App(b).id <==> a.accountId == b.accountId && a.appId == b.appId
  {
    var n := |"cloudflare:app/"|;
    if App(a).id == App(b).id {
      assert App(a).id[n..] == CacheKey(a) && App(b).id[n..] == CacheKey(b);
      KeysOfSlashFreeAccounts(a, b);
    }
  }

  /** Slash-free account ids are enough. */
  lemma CacheAgreesForSlashFreeIds(apps: seq<CfApp>, policies: seq<CfPolicy>)
    requires forall a | a in apps :: SlashFree(a.accountId)
    ensures forall a | a in apps :: Cache(apps, policies)[CacheKey(a)] == ComputeAppPosture(a, policies)
  {
    forall a, b | a in apps && b in apps && CacheKey(a) == CacheKey(b)
      ensures ComputeAppPosture(a, policies) == ComputeAppPosture(b, policies)
    {
      KeysOfSlashFreeAccounts(a, b);
    }
    CacheAgreesExactly(apps, policies);
  }

  /** Without that, a bypassed application can be given another one's clean posture. */
  lemma CacheCanMixApplications()
    ensures var a, b := CfApp("x/y", "z", "one", []), CfApp("x", "y/z", "two", []);
            var policies := [CfPolicy("x/y", "z", "bypass", false, [])];
            && ComputeAppPosture(a, policies).wideOpen
            && !Cache([a, b], policies)[CacheKey(a)].wideOpen
  {
    var a, b := CfApp("x/y", "z", "one", []), CfApp("x", "y/z", "two", []);
    var p := CfPolicy("x/y", "z", "bypass", false, []);
    assert CacheKey(a) == "x/y/z" == CacheKey(b);
    assert [p][..0] == [];
    assert AppPolicies("x/y", "z", [p]) == [p];
    assert p in AppPolicies("x/y", "z", [p]);
    assert AppPolicies("x", "y/z", [p]) == [];
    assert Cache([a, b], [p])[CacheKey(b)] == ComputeAppPosture(b, [p]);
  }

  // ---------- Size ----------

  function CloudSecrets(secrets: seq<GithubSecret>): nat {
    if secrets == [] then 0
    else CloudSecrets(secrets[..|secrets| - 1]) + (if secrets[|secrets| - 1].looksLikeCloudCredential then 1 else 0)
  }

  function Max(a: nat, b: nat): nat {
    if a > b then a else b
  }

  function BoundCount(p: GcpProvider, accounts: seq<ServiceAccount>): nat {
    if accounts == [] then 0
    else BoundCount(p, accounts[..|accounts| - 1]) + (if IsBound(p, accounts[|accounts| - 1]) then 1 else 0)
  }

  function ProviderTargetCount(ps: seq<GcpProvider>, accounts: seq<ServiceAccount>): nat {
    if ps == [] then 0
    else ProviderTargetCount(ps[..|ps| - 1], accounts) + Max(1, BoundCount(ps[|ps| - 1], accounts))
  }

  function UserManagedKeys(keys: seq<SaKey>): nat {
    if keys == [] then 0
    else UserManagedKeys(keys[..|keys| - 1]) + (if UserManaged(keys[|keys| - 1]) then 1 else 0)
  }

  function ScopingCount(idp: CfIdp, apps: seq<CfApp>): nat {
    if apps == [] then 0
    else ScopingCount(idp, apps[..|apps| - 1]) + (if Scopes(apps[|apps| - 1], idp) then 1 else 0)
  }

  function AllScopings(idps: seq<CfIdp>, apps: seq<CfApp>): nat {
    if idps == [] then 0 else AllScopings(idps[..|idps| - 1], apps) + ScopingCount(idps[|idps| - 1], apps)
  }

  lemma {:induction false} CloudSecretsCounted(secrets: seq<GithubSecret>)
    ensures |GithubEdges(secrets)| == CloudSecrets(secrets)
  {
    if secrets != [] {
      CloudSecretsCounted(secrets[..|secrets| - 1]);
    }
  }

  lemma {:induction false} BoundCounted(p: GcpProvider, accounts: seq<ServiceAccount>)
    ensures |BoundAccounts(p, accounts)| == BoundCount(p, accounts)
  {
    if accounts != [] {
      BoundCounted(p, accounts[..|accounts| - 1]);
    }
  }

  lemma ProviderCounted(p: GcpProvider, accounts: seq<ServiceAccount>, h: Heuristics)
    ensures |ProviderEdges(p, accounts, h)| == Max(1, BoundCount(p, accounts))
  {
    BoundCounted(p, accounts);
  }

  lemma {:induction false} ProvidersCounted(ps: seq<GcpProvider>, accounts: seq<ServiceAccount>, h: Heuristics)
    ensures |AllProviderEdges(ps, accounts, h)| == ProviderTargetCount(ps, accounts)
  {
    if ps != [] {
      ProvidersCounted(ps[..|ps| - 1], accounts, h);
      ProviderCounted(ps[|ps| - 1], accounts, h);
    }
  }

  lemma {:induction false} KeysCounted(keys: seq<SaKey>)
    ensures |KeyEdges(keys)| == UserManagedKeys(keys)
  {
    if keys != [] {
      KeysCounted(keys[..|keys| - 1]);
    }
  }

  lemma {:induction false} ScopingsCounted(idp: CfIdp, apps: seq<CfApp>, cache: map<string, Posture>)
    requires forall a | a in apps :: CacheKey(a) in cache
    ensures |ScopingEdges(idp, apps, cache)| == ScopingCount(idp, apps)
  {
    if apps != [] {
      ScopingsCounted(idp, apps[..|apps| - 1], cache);
    }
  }

  lemma {:induction false} IdpsCounted(idps: seq<CfIdp>, apps: seq<CfApp>, cache: map<string, Posture>)
    requires forall a | a in apps :: CacheKey(a) in cache
    ensures |AllIdpEdges(idps, apps, cache)| == |idps| + AllScopings(idps, apps)
  {
    if idps != [] {
      IdpsCounted(idps[..|idps| - 1], apps, cache);
      ScopingsCounted(idps[|idps| - 1], apps, cache);
    }
  }

  lemma {:induction false} OneEach(apps: seq<CfApp>, cache: map<string, Posture>, ts: seq<CfToken>)
    requires forall a | a in apps :: CacheKey(a) in cache
    ensures |SessionEdges(apps, cache)| == |apps| && |TokenEdges(ts)| == |ts|
    decreases |apps| + |ts|
  {
    if apps != [] {
      OneEach(apps[..|apps| - 1], cache, ts);
    } else if ts != [] {
      OneEach(apps, cache, ts[..|ts| - 1]);
    }
  }

  /** The exact number of edges, for every scan. */
  lemma GraphSize(s: Scan, h: Heuristics)
    ensures |AllEdges(s, h)| ==
            CloudSecrets(s.secrets) + ProviderTargetCount(s.providers, s.accounts) + UserManagedKeys(s.keys)
            + |s.idps| + AllScopings(s.idps, s.apps) + |s.apps| + |s.tokens|
  {
    var cache := Cache(s.apps, s.policies);
    CloudSecretsCounted(s.secrets);
    ProvidersCounted(s.providers, s.accounts, h);
    KeysCounted(s.keys);
    IdpsCounted(s.idps, s.apps, cache);
    OneEach(s.apps, cache, s.tokens);
  }
}
