// The scorecard read off the scan: how many edges each scanned resource gives, with which findings, and
// how many of them are ephemeral or conditioned.

module ScanSheet {
  import opened Wrappers
  import opened Tallies
  import opened TrustGraph
  import opened TrustProperties
  import opened Scorecard

  datatype Sheet = Sheet(edges: nat, critical: nat, high: nat, medium: nat, low: nat, ephemeral: nat, gated: nat)

  const BLANK := Sheet(0, 0, 0, 0, 0, 0, 0)

  function Plus(a: Sheet, b: Sheet): Sheet {
    Sheet(a.edges + b.edges, a.critical + b.critical, a.high + b.high, a.medium + b.medium, a.low + b.low,
          a.ephemeral + b.ephemeral, a.gated + b.gated)
  }

  function Times(n: nat, a: Sheet): Sheet {
    if n == 0 then BLANK else Plus(Times(n - 1, a), a)
  }

  function Sum<T>(xs: seq<T>, sheet: T -> Sheet): Sheet {
    if xs == [] then BLANK else Plus(Sum(xs[..|xs| - 1], sheet), sheet(xs[|xs| - 1]))
  }

  function One(b: bool): nat {
    if b then 1 else 0
  }

  // ---------- What each resource counts for ----------

  function OfSecret(): GithubSecret -> Sheet {
    (x: GithubSecret) => if x.looksLikeCloudCredential then BLANK.(edges := 1, high := 1) else BLANK
  }

  predicate NoCondition(p: GcpProvider) {
    p.attributeCondition == None || p.attributeCondition == Some("")
  }

  /** GitHub Actions is trusted and no owner is pinned. */
  predicate Unpinned(p: GcpProvider, h: Heuristics) {
    p.issuerUri == Some("https://token.actions.githubusercontent.com")
    && (NoCondition(p) || h.repoOwners(p.attributeCondition.value) == [])
  }

  /** For each bound account, or once if there is none. */
  function OfProvider(accounts: seq<ServiceAccount>, h: Heuristics): GcpProvider -> Sheet {
    (p: GcpProvider) =>
      Times(Max(1, BoundCount(p, accounts)),
            Sheet(1, One(NoCondition(p)), One(Unpinned(p, h)), 0, 0, 1, One(p.attributeCondition.Some?)))
  }

  function OfKey(): SaKey -> Sheet {
    (k: SaKey) => if k.keyType == "USER_MANAGED" then BLANK.(edges := 1, high := 1) else BLANK
  }

  predicate AsksSomething(policies: seq<CfPolicy>, a: CfApp) {
    exists p | p in policies :: IsOf(p, a) && p.decision == "allow" && p.factors != []
  }

  /** The application asks for something, and no policy lets anyone in. */
  predicate IsGated(policies: seq<CfPolicy>, a: CfApp) {
    !IsOpen(policies, a) && AsksSomething(policies, a)
  }

  /** Closed, with policies, but neither a posture check nor a second factor. */
  predicate IsSoft(policies: seq<CfPolicy>, a: CfApp) {
    !IsOpen(policies, a) && HasPolicy(policies, a) && !Asks(policies, a, "device-posture") && !Asks(policies, a, "mfa")
  }

  /** An application is judged by the last one with its cache key. */
  function OfApp(apps: seq<CfApp>, policies: seq<CfPolicy>): CfApp -> Sheet {
    (a: CfApp) =>
      var b := StandIn(apps, a);
      Sheet(1, 0, One(IsOpen(policies, b)), One(IsSoft(policies, b)), 0, 1, One(IsGated(policies, b)))
  }

  /** Any account at the provider can sign in. */
  predicate IsPublic(i: CfIdp) {
    || i.idpType == "google" || i.idpType == "github" || i.idpType == "facebook"
    || i.idpType == "linkedin" || i.idpType == "yandex" || i.idpType == "onetimepin"
  }

  /** The account has applications, and each admits other identity providers only. */
  predicate IsUnused(i: CfIdp, apps: seq<CfApp>) {
    && (exists a | a in apps :: a.accountId == i.accountId)
    && forall a | a in apps && a.accountId == i.accountId :: a.allowedIdps != [] && i.idpId !in a.allowedIdps
  }

  /** One edge for each application that admits the provider by name. */
  function OfScoping(i: CfIdp, apps: seq<CfApp>, policies: seq<CfPolicy>): CfApp -> Sheet {
    (a: CfApp) =>
      if a.accountId == i.accountId && i.idpId in a.allowedIdps
      then BLANK.(edges := 1, ephemeral := 1, gated := One(IsGated(policies, StandIn(apps, a)))) else BLANK
  }

  function OfIdp(apps: seq<CfApp>, policies: seq<CfPolicy>): CfIdp -> Sheet {
    (i: CfIdp) =>
      Plus(Sheet(1, 0, 0, One(IsPublic(i)), One(IsUnused(i, apps)), 1, 0), Sum(apps, OfScoping(i, apps, policies)))
  }

  function OfToken(): CfToken -> Sheet {
    (t: CfToken) => BLANK.(edges := 1, medium := One(t.durationDays.None? || t.durationDays.value > 365))
  }

  function OfScan(s: Scan, h: Heuristics): Sheet {
    Plus(Plus(Sum(s.secrets, OfSecret()), Plus(Sum(s.providers, OfProvider(s.accounts, h)), Sum(s.keys, OfKey()))),
         Plus(Plus(Sum(s.idps, OfIdp(s.apps, s.policies)), Sum(s.apps, OfApp(s.apps, s.policies))),
              Sum(s.tokens, OfToken())))
  }

  // ---------- What the graph counts ----------

  function OfFindings(e: Edge, s: Severity): nat {
    Occurrences(SeveritiesOf(e.findings), s)
  }

  function OfEdge(): Edge -> Sheet {
    (e: Edge) => Sheet(1, OfFindings(e, Critical), OfFindings(e, High), OfFindings(e, Medium), OfFindings(e, Low),
                       One(e.ephemeral), One(e.access.present))
  }

  function OfEdges(edges: seq<Edge>): Sheet {
    Sum(edges, OfEdge())
  }

  lemma PlusIsAssociative(a: Sheet, b: Sheet, c: Sheet)
    ensures Plus(Plus(a, b), c) == Plus(a, Plus(b, c)) && Plus(a, BLANK) == a
  {
  }

  lemma SumOfNone<T>(sheet: T -> Sheet)
    ensures Sum([], sheet) == BLANK
  {
  }

  lemma SumOfMore<T>(xs: seq<T>, x: T, sheet: T -> Sheet)
    ensures Sum(xs + [x], sheet) == Plus(Sum(xs, sheet), sheet(x))
  {
    assert (xs + [x])[..|xs|] == xs;
  }

  lemma SplitLast<T>(a: seq<T>, b: seq<T>)
    requires b != []
    ensures b == b[..|b| - 1] + [b[|b| - 1]] && a + b == a + b[..|b| - 1] + [b[|b| - 1]]
  {
  }

  lemma {:induction false} SumAppend<T>(a: seq<T>, b: seq<T>, sheet: T -> Sheet)
    ensures Sum(a + b, sheet) == Plus(Sum(a, sheet), Sum(b, sheet))
  {
    if b == [] {
      assert a + b == a;
      SumOfNone(sheet);
      PlusIsAssociative(Sum(a, sheet), BLANK, BLANK);
    } else {
      var front, x := b[..|b| - 1], b[|b| - 1];
      SumAppend(a, front, sheet);
      SplitLast(a, b);
      SumOfMore(front, x, sheet);
      SumOfMore(a + front, x, sheet);
      PlusIsAssociative(Sum(a, sheet), Sum(front, sheet), sheet(x));
    }
  }

  lemma OneMore(a: seq<Edge>, b: seq<Edge>)
    ensures OfEdges(a + b) == Plus(OfEdges(a), OfEdges(b))
  {
    SumAppend(a, b, OfEdge());
  }

  lemma OnlyEdge(e: Edge)
    ensures OfEdges([e]) == OfEdge()(e)
  {
    SumOfMore([], e, OfEdge());
    SumOfNone(OfEdge());
    assert [] + [e] == [e];
  }

  /** A finding is counted under its severity. */
  lemma OneFinding(f: Code, s: Severity)
    ensures Occurrences(SeveritiesOf([f]), s) == One(SeverityOf(f) == s)
  {
    assert SeveritiesOf([f]) == [SeverityOf(f)];
  }

  lemma TwoFindings(f: Code, g: Code, s: Severity)
    ensures Occurrences(SeveritiesOf([f, g]), s) == One(SeverityOf(f) == s) + One(SeverityOf(g) == s)
  {
    assert SeveritiesOf([f, g]) == [SeverityOf(f), SeverityOf(g)];
  }

  /** Edges that carry one finding. */
  lemma OneFindingCounts(e: Edge, f: Code)
    requires e.findings == [f]
    ensures OfEdges([e]) == Sheet(1, One(SeverityOf(f) == Critical), One(SeverityOf(f) == High),
                                  One(SeverityOf(f) == Medium), One(SeverityOf(f) == Low),
                                  One(e.ephemeral), One(e.access.present))
  {
    OnlyEdge(e);
    OneFinding(f, Critical);
    OneFinding(f, High);
    OneFinding(f, Medium);
    OneFinding(f, Low);
  }

  lemma NoFindingCounts(e: Edge)
    requires e.findings == []
    ensures OfEdges([e]) == BLANK.(edges := 1, ephemeral := One(e.ephemeral), gated := One(e.access.present))
  {
    OnlyEdge(e);
    assert SeveritiesOf([]) == [];
  }

  lemma SecretCounts(x: GithubSecret)
    ensures OfEdges(SecretEdges(x)) == OfSecret()(x)
  {
    if x.looksLikeCloudCredential {
      OneFindingCounts(SecretEdges(x)[0], GITHUB_STATIC_CLOUD_CREDENTIAL);
      assert SecretEdges(x) == [SecretEdges(x)[0]];
    }
  }

  lemma {:induction false} SecretsCount(secrets: seq<GithubSecret>)
    ensures OfEdges(GithubEdges(secrets)) == Sum(secrets, OfSecret())
  {
    if secrets != [] {
      var front, x := secrets[..|secrets| - 1], secrets[|secrets| - 1];
      SecretsCount(front);
      SecretCounts(x);
      OneMore(GithubEdges(front), SecretEdges(x));
    }
  }

  lemma KeyCounts(k: SaKey)
    ensures OfEdges(KeyEdge(k)) == OfKey()(k)
  {
    if UserManaged(k) {
      OneFindingCounts(KeyEdge(k)[0], GCP_USER_MANAGED_SA_KEY);
      assert KeyEdge(k) == [KeyEdge(k)[0]];
    }
  }

  lemma {:induction false} KeysCount(keys: seq<SaKey>)
    ensures OfEdges(KeyEdges(keys)) == Sum(keys, OfKey())
  {
    if keys != [] {
      var front, k := keys[..|keys| - 1], keys[|keys| - 1];
      KeysCount(front);
      KeyCounts(k);
      OneMore(KeyEdges(front), KeyEdge(k));
    }
  }

  lemma TokenCounts(t: CfToken)
    ensures OfEdges([TokenEdge(t)]) == OfToken()(t)
  {
    if TokenEdge(t).findings == [] {
      NoFindingCounts(TokenEdge(t));
    } else {
      OneFindingCounts(TokenEdge(t), CF_SERVICE_TOKEN_NO_EXPIRY);
    }
  }

  lemma {:induction false} TokensCount(ts: seq<CfToken>)
    ensures OfEdges(TokenEdges(ts)) == Sum(ts, OfToken())
  {
    if ts != [] {
      var front, t := ts[..|ts| - 1], ts[|ts| - 1];
      TokensCount(front);
      TokenCounts(t);
      OneMore(TokenEdges(front), [TokenEdge(t)]);
    }
  }

  /** Edges that carry two findings. */
  lemma TwoFindingsCount(e: Edge, f: Code, g: Code)
    requires e.findings == [f, g]
    ensures OfEdges([e]) == Sheet(1, One(SeverityOf(f) == Critical) + One(SeverityOf(g) == Critical),
                                  One(SeverityOf(f) == High) + One(SeverityOf(g) == High),
                                  One(SeverityOf(f) == Medium) + One(SeverityOf(g) == Medium),
                                  One(SeverityOf(f) == Low) + One(SeverityOf(g) == Low),
                                  One(e.ephemeral), One(e.access.present))
  {
    OnlyEdge(e);
    TwoFindings(f, g, Critical);
    TwoFindings(f, g, High);
    TwoFindings(f, g, Medium);
    TwoFindings(f, g, Low);
  }

  lemma ProviderEdgeCounts(p: GcpProvider, h: Heuristics, text: string)
    ensures OfEdges([ProviderEdge(p, h, text)]) ==
            Sheet(1, One(NoCondition(p)), One(Unpinned(p, h)), 0, 0, 1, One(p.attributeCondition.Some?))
  {
    var e := ProviderEdge(p, h, text);
    assert Truthy(p.attributeCondition) <==> !NoCondition(p);
    assert Unpinned(p, h) <==> TrustsGithub(p) && Owners(p, h) == [];
    if NoCondition(p) {
      if Unpinned(p, h) {
        TwoFindingsCount(e, WIF_NO_ATTRIBUTE_CONDITION, WIF_GITHUB_NO_ORG_PIN);
      } else {
        OneFindingCounts(e, WIF_NO_ATTRIBUTE_CONDITION);
      }
    } else if Unpinned(p, h) {
      OneFindingCounts(e, WIF_GITHUB_NO_ORG_PIN);
    } else {
      NoFindingCounts(e);
    }
  }

  lemma {:induction false} AlikeCount(edges: seq<Edge>, one: Sheet)
    requires forall e | e in edges :: OfEdges([e]) == one
    ensures OfEdges(edges) == Times(|edges|, one)
  {
    if edges != [] {
      var front, e := edges[..|edges| - 1], edges[|edges| - 1];
      AlikeCount(front, one);
      OneMore(front, [e]);
      assert edges == front + [e];
    }
  }

  lemma ProviderCounts(p: GcpProvider, accounts: seq<ServiceAccount>, h: Heuristics)
    ensures OfEdges(ProviderEdges(p, accounts, h)) == OfProvider(accounts, h)(p)
  {
    var edges := ProviderEdges(p, accounts, h);
    var one := Sheet(1, One(NoCondition(p)), One(Unpinned(p, h)), 0, 0, 1, One(p.attributeCondition.Some?));
    ProviderCounted(p, accounts, h);
    forall e | e in edges
      ensures OfEdges([e]) == one
    {
      var text :| e == ProviderEdge(p, h, text);
      ProviderEdgeCounts(p, h, text);
    }
    AlikeCount(edges, one);
  }

  lemma {:induction false} ProvidersCount(ps: seq<GcpProvider>, accounts: seq<ServiceAccount>, h: Heuristics)
    ensures OfEdges(AllProviderEdges(ps, accounts, h)) == Sum(ps, OfProvider(accounts, h))
  {
    if ps != [] {
      var front, p := ps[..|ps| - 1], ps[|ps| - 1];
      ProvidersCount(front, accounts, h);
      ProviderCounts(p, accounts, h);
      OneMore(AllProviderEdges(front, accounts, h), ProviderEdges(p, accounts, h));
    }
  }

  lemma GatedExactly(b: CfApp, policies: seq<CfPolicy>)
    ensures AppAccess(ComputeAppPosture(b, policies)).present <==> IsGated(policies, b)
  {
    var posture := ComputeAppPosture(b, policies);
    PostureExactly(b, policies);
    if p :| p in policies && IsOf(p, b) && p.decision == "allow" && p.factors != [] {
      assert p.factors[0] in posture.factors;
    }
    if f :| f in posture.factors {
      assert AsksSomething(policies, b);
    }
  }

  lemma StrongExactly(b: CfApp, policies: seq<CfPolicy>)
    ensures (exists f | f in ComputeAppPosture(b, policies).factors :: StrongFactor(f)) <==>
            Asks(policies, b, "device-posture") || Asks(policies, b, "mfa")
  {
    var factors := ComputeAppPosture(b, policies).factors;
    PostureExactly(b, policies);
    assert forall f :: f in factors <==> Asks(policies, b, f);
    assert StrongFactor("device-posture") && StrongFactor("mfa");
  }

  function FindingsOf(open: bool, soft: bool): seq<Code> {
    if open then [CF_ACCESS_POLICY_ALLOW_ALL] else if soft then [CF_ACCESS_NO_POSTURE] else []
  }

  lemma FindingsExactly(b: CfApp, policies: seq<CfPolicy>)
    ensures AppFindings(ComputeAppPosture(b, policies)) == FindingsOf(IsOpen(policies, b), IsSoft(policies, b))
  {
    PostureExactly(b, policies);
    StrongExactly(b, policies);
  }

  /** What the cached posture of an application says, in terms of the policies. */
  lemma CachedPosture(apps: seq<CfApp>, policies: seq<CfPolicy>, a: CfApp)
    requires a in apps
    ensures CacheKey(a) in Cache(apps, policies)
    ensures var posture, b := Cache(apps, policies)[CacheKey(a)], StandIn(apps, a);
            && AppAccess(posture).present == IsGated(policies, b)
            && AppFindings(posture) == FindingsOf(IsOpen(policies, b), IsSoft(policies, b))
  {
    CacheHoldsStandIn(apps, policies, a);
    GatedExactly(StandIn(apps, a), policies);
    FindingsExactly(StandIn(apps, a), policies);
  }

  lemma AppEdgeCounts(e: Edge, open: bool, soft: bool, gated: bool)
    requires e.findings == FindingsOf(open, soft) && (open ==> !soft) && e.ephemeral && e.access.present == gated
    ensures OfEdges([e]) == Sheet(1, 0, One(open), One(soft), 0, 1, One(gated))
  {
    if open {
      OneFindingCounts(e, CF_ACCESS_POLICY_ALLOW_ALL);
    } else if soft {
      OneFindingCounts(e, CF_ACCESS_NO_POSTURE);
    } else {
      NoFindingCounts(e);
    }
  }

  lemma ScopingCounts(i: CfIdp, apps: seq<CfApp>, policies: seq<CfPolicy>, a: CfApp)
    requires a in apps
    ensures CacheKey(a) in Cache(apps, policies)
    ensures OfEdges(ScopingEdge(i, a, Cache(apps, policies)[CacheKey(a)])) == OfScoping(i, apps, policies)(a)
  {
    CachedPosture(apps, policies, a);
    var edges := ScopingEdge(i, a, Cache(apps, policies)[CacheKey(a)]);
    if Scopes(a, i) {
      AppEdgeCounts(edges[0], false, false, IsGated(policies, StandIn(apps, a)));
      assert edges == [edges[0]];
    }
  }

  lemma {:induction false} ScopingsCount(i: CfIdp, some: seq<CfApp>, apps: seq<CfApp>, policies: seq<CfPolicy>)
    requires forall a | a in some :: a in apps
    ensures (forall a | a in some :: CacheKey(a) in Cache(apps, policies))
    ensures OfEdges(ScopingEdges(i, some, Cache(apps, policies))) == Sum(some, OfScoping(i, apps, policies))
  {
    if some != [] {
      var cache := Cache(apps, policies);
      var front, a := some[..|some| - 1], some[|some| - 1];
      ScopingsCount(i, front, apps, policies);
      ScopingCounts(i, apps, policies, a);
      OneMore(ScopingEdges(i, front, cache), ScopingEdge(i, a, cache[CacheKey(a)]));
    }
  }

  lemma {:induction false} AccountAppsExactly(apps: seq<CfApp>, accountId: string)
    ensures forall a :: a in AccountApps(apps, accountId) <==> a in apps && a.accountId == accountId
  {
    if apps != [] {
      AccountAppsExactly(apps[..|apps| - 1], accountId);
      assert apps == apps[..|apps| - 1] + [apps[|apps| - 1]];
    }
  }

  lemma IdpFindings(i: CfIdp, apps: seq<CfApp>)
    ensures EvaluateIdp(i, AccountApps(apps, i.accountId)) ==
            (if IsPublic(i) then [CF_IDP_OPEN_USER_POOL] else [])
            + (if IsUnused(i, apps) then [CF_IDP_UNREFERENCED] else [])
  {
    var own := AccountApps(apps, i.accountId);
    AccountAppsExactly(apps, i.accountId);
    assert own != [] ==> own[0] in own;
  }

  lemma OwnEdgeCounts(i: CfIdp, apps: seq<CfApp>, e: Edge)
    requires e.findings == EvaluateIdp(i, AccountApps(apps, i.accountId)) && e.ephemeral && !e.access.present
    ensures OfEdges([e]) == Sheet(1, 0, 0, One(IsPublic(i)), One(IsUnused(i, apps)), 1, 0)
  {
    IdpFindings(i, apps);
    if IsPublic(i) {
      if IsUnused(i, apps) {
        TwoFindingsCount(e, CF_IDP_OPEN_USER_POOL, CF_IDP_UNREFERENCED);
      } else {
        OneFindingCounts(e, CF_IDP_OPEN_USER_POOL);
      }
    } else if IsUnused(i, apps) {
      OneFindingCounts(e, CF_IDP_UNREFERENCED);
    } else {
      NoFindingCounts(e);
    }
  }

  lemma IdpCounts(i: CfIdp, apps: seq<CfApp>, policies: seq<CfPolicy>)
    ensures (forall a | a in apps :: CacheKey(a) in Cache(apps, policies))
    ensures OfEdges(IdpEdges(i, apps, Cache(apps, policies))) == OfIdp(apps, policies)(i)
  {
    var cache := Cache(apps, policies);
    var own := IdpEdges(i, apps, cache)[0];
    ScopingsCount(i, apps, apps, policies);
    OwnEdgeCounts(i, apps, own);
    OneMore([own], ScopingEdges(i, apps, cache));
    assert IdpEdges(i, apps, cache) == [own] + ScopingEdges(i, apps, cache);
  }

  lemma {:induction false} IdpsCount(idps: seq<CfIdp>, apps: seq<CfApp>, policies: seq<CfPolicy>)
    ensures OfEdges(AllIdpEdges(idps, apps, Cache(apps, policies))) == Sum(idps, OfIdp(apps, policies))
  {
    if idps != [] {
      var cache := Cache(apps, policies);
      var front, i := idps[..|idps| - 1], idps[|idps| - 1];
      IdpsCount(front, apps, policies);
      IdpCounts(i, apps, policies);
      OneMore(AllIdpEdges(front, apps, cache), IdpEdges(i, apps, cache));
    }
  }

  lemma SessionCounts(a: CfApp, apps: seq<CfApp>, policies: seq<CfPolicy>)
    requires a in apps
    ensures CacheKey(a) in Cache(apps, policies)
    ensures OfEdges([SessionEdge(a, Cache(apps, policies)[CacheKey(a)])]) == OfApp(apps, policies)(a)
  {
    CachedPosture(apps, policies, a);
    var b := StandIn(apps, a);
    AppEdgeCounts(SessionEdge(a, Cache(apps, policies)[CacheKey(a)]),
                  IsOpen(policies, b), IsSoft(policies, b), IsGated(policies, b));
  }

  lemma {:induction false} SessionsCount(some: seq<CfApp>, apps: seq<CfApp>, policies: seq<CfPolicy>)
    requires forall a | a in some :: a in apps
    ensures (forall a | a in some :: CacheKey(a) in Cache(apps, policies))
    ensures OfEdges(SessionEdges(some, Cache(apps, policies))) == Sum(some, OfApp(apps, policies))
  {
    if some != [] {
      var cache := Cache(apps, policies);
      var front, a := some[..|some| - 1], some[|some| - 1];
      SessionsCount(front, apps, policies);
      SessionCounts(a, apps, policies);
      OneMore(SessionEdges(front, cache), [SessionEdge(a, cache[CacheKey(a)])]);
    }
  }

  /** The graph's edges count exactly what the scan's resources do. */
  lemma GraphCounts(s: Scan, h: Heuristics)
    ensures OfEdges(AllEdges(s, h)) == OfScan(s, h)
  {
    var cache := Cache(s.apps, s.policies);
    var idps, sessions, tokens := AllIdpEdges(s.idps, s.apps, cache), SessionEdges(s.apps, cache), TokenEdges(s.tokens);
    SecretsCount(s.secrets);
    ProvidersCount(s.providers, s.accounts, h);
    KeysCount(s.keys);
    IdpsCount(s.idps, s.apps, s.policies);
    SessionsCount(s.apps, s.apps, s.policies);
    TokensCount(s.tokens);
    OneMore(AllProviderEdges(s.providers, s.accounts, h), KeyEdges(s.keys));
    OneMore(idps, sessions);
    OneMore(idps + sessions, tokens);
    OneMore(GithubEdges(s.secrets), GcpEdges(s, h));
    OneMore(GithubEdges(s.secrets) + GcpEdges(s, h), CloudflareEdges(s));
  }

  lemma {:induction false} SheetIsCounted(edges: seq<Edge>)
    ensures var sheet, all := OfEdges(edges), Severities(edges);
            && sheet.edges == |edges| && sheet.ephemeral == EphemeralEdges(edges) && sheet.gated == GatedEdges(edges)
            && sheet.critical == Occurrences(all, Critical) && sheet.high == Occurrences(all, High)
            && sheet.medium == Occurrences(all, Medium) && sheet.low == Occurrences(all, Low)
  {
    if edges != [] {
      var front, e := edges[..|edges| - 1], edges[|edges| - 1];
      SheetIsCounted(front);
      assert multiset(Severities(edges)) == multiset(Severities(front)) + multiset(SeveritiesOf(e.findings));
    }
  }

  /** A rounded percentage is within half a point of the truth; of nothing, all is covered. */
  predicate Rounds(pct: nat, n: nat, total: nat) {
    if total == 0 then pct == 100 else 0 - total <= 2 * (pct * total - 100 * n) <= total
  }

  /** The scorecard says what the edges count. */
  lemma InventoryIsCounted(domains: seq<Domain>, edges: seq<Edge>)
    ensures var inv, sheet := InventoryOf(domains, edges), OfEdges(edges);
            && inv.edgeCount == sheet.edges
            && inv.ephemeralEdgeCount == sheet.ephemeral && inv.conditionalAccessEdgeCount == sheet.gated
            && Rounds(inv.ephemeralPct, sheet.ephemeral, sheet.edges)
            && Rounds(inv.conditionalAccessPct, sheet.gated, sheet.edges)
  {
    SheetIsCounted(edges);
    CountsAreBounded(edges);
    PctBound(EphemeralEdges(edges), |edges|);
    PctBound(GatedEdges(edges), |edges|);
  }

  lemma FindingsAreCounted(edges: seq<Edge>)
    ensures var counts, sheet := Tally(Severities(edges)), OfEdges(edges);
            && TallyOf(counts, Critical) == sheet.critical && TallyOf(counts, High) == sheet.high
            && TallyOf(counts, Medium) == sheet.medium && TallyOf(counts, Low) == sheet.low
  {
    SheetIsCounted(edges);
    TallySpec(Severities(edges));
  }

  /**
   * The scorecard of the graph of any scan, read off the scan: its edges, its findings of each severity,
   * and its ephemeral and conditioned edges are those that the resources count for, and its percentages
   * are these numbers' rounded.
   */
  lemma ScorecardOfScan(s: Scan, h: Heuristics, domains: seq<Domain>)
    ensures var inv, sheet := InventoryOf(domains, AllEdges(s, h)), OfScan(s, h);
            && inv.domainCount == |domains| && inv.edgeCount == sheet.edges
            && TallyOf(inv.findingsBySeverity, Critical) == sheet.critical
            && TallyOf(inv.findingsBySeverity, High) == sheet.high
            && TallyOf(inv.findingsBySeverity, Medium) == sheet.medium
            && TallyOf(inv.findingsBySeverity, Low) == sheet.low
            && inv.ephemeralEdgeCount == sheet.ephemeral && inv.conditionalAccessEdgeCount == sheet.gated
            && Rounds(inv.ephemeralPct, sheet.ephemeral, sheet.edges)
            && Rounds(inv.conditionalAccessPct, sheet.gated, sheet.edges)
  {
    GraphCounts(s, h);
    InventoryIsCounted(domains, AllEdges(s, h));
    FindingsAreCounted(AllEdges(s, h));
  }
}
