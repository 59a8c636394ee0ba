// What a passing gate says about the scan itself: the three derivations, the posture cache, the
// tallies and the default thresholds together.

module PostureGate {
  import opened Wrappers
  import opened TrustGraph
  import opened TrustProperties
  import opened Scorecard
  import opened ScanSheet

  lemma OneSevere(e: Edge)
    ensures NoneSevere([e]) <==> forall f | f in e.findings :: !Severe(f)
  {
    assert e in [e];
  }

  // ---------- What each kind of resource contributes ----------

  lemma {:induction false} SevereSecrets(secrets: seq<GithubSecret>)
    ensures NoneSevere(GithubEdges(secrets)) <==> forall x | x in secrets :: !x.looksLikeCloudCredential
  {
    if secrets != [] {
      var front, x := secrets[..|secrets| - 1], secrets[|secrets| - 1];
      assert secrets == front + [x];
      SevereSecrets(front);
      if x.looksLikeCloudCredential {
        OneSevere(SecretEdges(x)[0]);
        assert GITHUB_STATIC_CLOUD_CREDENTIAL in SecretEdges(x)[0].findings;
      }
    }
  }

  /** The provider has a condition and, if it trusts GitHub Actions, the condition pins an owner. */
  predicate Conditioned(p: GcpProvider, h: Heuristics) {
    && p.attributeCondition !in {None, Some("")}
    && (p.issuerUri == Some("https://token.actions.githubusercontent.com") ==>
          h.repoOwners(p.attributeCondition.value) != [])
  }

  lemma SevereFindings(p: GcpProvider, h: Heuristics)
    ensures (forall f | f in ProviderFindings(p, h) :: !Severe(f)) <==> Conditioned(p, h)
  {
    var fs := ProviderFindings(p, h);
    TruthyExactly(p.attributeCondition);
    if !Truthy(p.attributeCondition) {
      assert WIF_NO_ATTRIBUTE_CONDITION in fs && Severe(WIF_NO_ATTRIBUTE_CONDITION);
    }
    if TrustsGithub(p) && Owners(p, h) == [] {
      assert WIF_GITHUB_NO_ORG_PIN in fs && Severe(WIF_GITHUB_NO_ORG_PIN);
    }
  }

  /** Bound or not, a provider has an edge, and all its edges carry its findings. */
  lemma SevereProvider(p: GcpProvider, accounts: seq<ServiceAccount>, h: Heuristics)
    ensures NoneSevere(ProviderEdges(p, accounts, h)) <==> Conditioned(p, h)
  {
    var edges := ProviderEdges(p, accounts, h);
    SevereFindings(p, h);
    assert edges[0] in edges && forall e | e in edges :: e.findings == ProviderFindings(p, h);
    if NoneSevere(edges) {
      assert forall f | f in edges[0].findings :: !Severe(f);
    }
  }

  lemma {:induction false} SevereProviders(ps: seq<GcpProvider>, accounts: seq<ServiceAccount>, h: Heuristics)
    ensures NoneSevere(AllProviderEdges(ps, accounts, h)) <==> forall p | p in ps :: Conditioned(p, h)
  {
    if ps != [] {
      var front, p := ps[..|ps| - 1], ps[|ps| - 1];
      assert ps == front + [p];
      SevereProviders(front, accounts, h);
      SevereProvider(p, accounts, h);
    }
  }

  lemma {:induction false} SevereKeys(keys: seq<SaKey>)
    ensures NoneSevere(KeyEdges(keys)) <==> forall k | k in keys :: !UserManaged(k)
  {
    if keys != [] {
      var front, k := keys[..|keys| - 1], keys[|keys| - 1];
      assert keys == front + [k];
      SevereKeys(front);
      if UserManaged(k) {
        OneSevere(KeyEdge(k)[0]);
        assert GCP_USER_MANAGED_SA_KEY in KeyEdge(k)[0].findings;
      }
    }
  }

  lemma {:induction false} ScopingsAreMild(idp: CfIdp, apps: seq<CfApp>, cache: map<string, Posture>)
    requires forall a | a in apps :: CacheKey(a) in cache
    ensures NoneSevere(ScopingEdges(idp, apps, cache))
  {
    if apps != [] {
      ScopingsAreMild(idp, apps[..|apps| - 1], cache);
    }
  }

  lemma {:induction false} IdpsAreMild(idps: seq<CfIdp>, apps: seq<CfApp>, cache: map<string, Posture>)
    requires forall a | a in apps :: CacheKey(a) in cache
    ensures NoneSevere(AllIdpEdges(idps, apps, cache))
  {
    if idps != [] {
      IdpsAreMild(idps[..|idps| - 1], apps, cache);
      ScopingsAreMild(idps[|idps| - 1], apps, cache);
    }
  }

  lemma {:induction false} TokensAreMild(ts: seq<CfToken>)
    ensures NoneSevere(TokenEdges(ts))
  {
    if ts != [] {
      TokensAreMild(ts[..|ts| - 1]);
    }
  }

  lemma {:induction false} SevereSessions(apps: seq<CfApp>, cache: map<string, Posture>)
    requires forall a | a in apps :: CacheKey(a) in cache
    ensures NoneSevere(SessionEdges(apps, cache)) <==> forall a | a in apps :: !cache[CacheKey(a)].wideOpen
  {
    if apps != [] {
      var front, a := apps[..|apps| - 1], apps[|apps| - 1];
      assert apps == front + [a];
      SevereSessions(front, cache);
      var e := SessionEdge(a, cache[CacheKey(a)]);
      OneSevere(e);
      assert cache[CacheKey(a)].wideOpen ==> CF_ACCESS_POLICY_ALLOW_ALL in e.findings;
    }
  }

  // ---------- The whole graph ----------

  /** Every application is closed, each judged by the policies of the application given for it. */
  ghost predicate AllClosed(s: Scan, judged: CfApp -> CfApp) {
    forall a | a in s.apps :: !IsOpen(s.policies, judged(a))
  }

  /** The scan holds nothing that the catalogue rates critical or high. */
  ghost predicate CleanBy(s: Scan, h: Heuristics, judged: CfApp -> CfApp) {
    && (forall x | x in s.secrets :: !x.looksLikeCloudCredential)
    && (forall p | p in s.providers :: Conditioned(p, h))
    && (forall k | k in s.keys :: k.keyType != "USER_MANAGED")
    && AllClosed(s, judged)
  }

  /** Each application is judged by its own policies. */
  function Itself(): CfApp -> CfApp {
    (a: CfApp) => a
  }

  /** Judged as the derivation does: by the policies of the last application with its key. */
  function Cached(s: Scan): CfApp -> CfApp {
    (a: CfApp) => StandIn(s.apps, a)
  }

  lemma SevereSessionsOfScan(s: Scan)
    ensures NoneSevere(SessionEdges(s.apps, Cache(s.apps, s.policies))) <==> AllClosed(s, Cached(s))
  {
    var cache := Cache(s.apps, s.policies);
    SevereSessions(s.apps, cache);
    forall a | a in s.apps
      ensures CacheKey(a) in cache && (cache[CacheKey(a)].wideOpen <==> IsOpen(s.policies, Cached(s)(a)))
    {
      CacheHoldsStandIn(s.apps, s.policies, a);
      PostureExactly(Cached(s)(a), s.policies);
    }
  }

  lemma CloudflareIsCleanExactly(s: Scan)
    ensures NoneSevere(CloudflareEdges(s)) <==> AllClosed(s, Cached(s))
  {
    var cache := Cache(s.apps, s.policies);
    var idps, sessions, tokens := AllIdpEdges(s.idps, s.apps, cache), SessionEdges(s.apps, cache), TokenEdges(s.tokens);
    IdpsAreMild(s.idps, s.apps, cache);
    SevereSessionsOfScan(s);
    TokensAreMild(s.tokens);
  }

  lemma GraphIsCleanExactly(s: Scan, h: Heuristics)
    ensures NoneSevere(AllEdges(s, h)) <==> CleanBy(s, h, Cached(s))
  {
    SevereSecrets(s.secrets);
    SevereProviders(s.providers, s.accounts, h);
    SevereKeys(s.keys);
    CloudflareIsCleanExactly(s);
  }

  /** The cache cannot make an application look open when none is, and judges rightly when shared keys agree. */
  lemma CacheErrsOneWay(s: Scan)
    ensures AllClosed(s, Itself()) ==> AllClosed(s, Cached(s))
    ensures SharedKeysAgree(s.apps, s.policies) ==> (AllClosed(s, Itself()) <==> AllClosed(s, Cached(s)))
  {
    assert forall a | a in s.apps :: Cached(s)(a) in s.apps && CacheKey(Cached(s)(a)) == CacheKey(a);
    if AllClosed(s, Itself()) {
      assert forall b | b in s.apps :: !IsOpen(s.policies, Itself()(b));
    }
    if SharedKeysAgree(s.apps, s.policies) && AllClosed(s, Cached(s)) {
      forall a | a in s.apps
        ensures !IsOpen(s.policies, Itself()(a))
      {
        assert !IsOpen(s.policies, Cached(s)(a));
        PostureExactly(a, s.policies);
        PostureExactly(Cached(s)(a), s.policies);
      }
    }
  }

  lemma MediumOfScan(s: Scan, h: Heuristics)
    ensures |Group(Severities(AllEdges(s, h)), Medium)| == OfScan(s, h).medium
  {
    GraphCounts(s, h);
    FindingsAreCounted(AllEdges(s, h));
    CountIsGroup(Severities(AllEdges(s, h)), Medium);
  }

  lemma CleanByEither(s: Scan, h: Heuristics)
    ensures CleanBy(s, h, Itself()) ==> CleanBy(s, h, Cached(s))
    ensures SharedKeysAgree(s.apps, s.policies) ==> (CleanBy(s, h, Itself()) <==> CleanBy(s, h, Cached(s)))
  {
    CacheErrsOneWay(s);
  }

  lemma PassesExactly(s: Scan, h: Heuristics, domains: seq<Domain>)
    ensures Passes(InventoryOf(domains, AllEdges(s, h)), DEFAULTS) <==>
            NoneSevere(AllEdges(s, h)) && OfScan(s, h).medium <= 9007199254740991
  {
    BareRunPassesExactly(domains, AllEdges(s, h));
    MediumOfScan(s, h);
  }

  /**
   * From scan to verdict: the gate with its default thresholds passes the graph built from a scan
   * exactly when the scan holds no cloud-looking secret, no provider without a condition or, for
   * GitHub Actions, without a pinned owner, no user-managed key and no application with a policy that
   * bypasses or allows everyone, where an application is judged by the policies of the last one with
   * its cache key; and the medium findings are within bounds. Judging each by its own policies comes
   * to the same when applications that share a key share their posture; without that it can only be
   * stricter.
   */
  lemma BareGateMeans(s: Scan, h: Heuristics, domains: seq<Domain>)
    ensures Passes(InventoryOf(domains, AllEdges(s, h)), DEFAULTS) <==>
            CleanBy(s, h, Cached(s)) && OfScan(s, h).medium <= 9007199254740991
    ensures CleanBy(s, h, Itself()) ==> CleanBy(s, h, Cached(s))
    ensures SharedKeysAgree(s.apps, s.policies) ==> (CleanBy(s, h, Itself()) <==> CleanBy(s, h, Cached(s)))
  {
    PassesExactly(s, h, domains);
    GraphIsCleanExactly(s, h);
    CleanByEither(s, h);
  }
}
