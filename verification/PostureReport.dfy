// The sentence of a report without findings, "every trust edge is ephemeral and conditioned".

module PostureReport {
  import opened TrustGraph
  import opened Scorecard
  import opened TrustProperties

  predicate NoFindings(edges: seq<Edge>) {
    forall e | e in edges :: e.findings == []
  }

  /** What the sentence says. */
  predicate AllConditioned(edges: seq<Edge>) {
    forall e | e in edges :: e.ephemeral && e.access.present
  }

  lemma {:induction false} FindingsAreSeverities(edges: seq<Edge>)
    ensures Severities(edges) == [] <==> NoFindings(edges)
  {
    if edges != [] {
      var front, last := edges[..|edges| - 1], edges[|edges| - 1];
      assert edges == front + [last];
      FindingsAreSeverities(front);
    }
  }

  lemma {:induction false} SecretsHaveFindings(secrets: seq<GithubSecret>)
    ensures NoFindings(GithubEdges(secrets)) ==> GithubEdges(secrets) == []
  {
    if secrets != [] {
      var x := secrets[|secrets| - 1];
      SecretsHaveFindings(secrets[..|secrets| - 1]);
      assert x.looksLikeCloudCredential ==> SecretEdges(x)[0] in GithubEdges(secrets);
    }
  }

  lemma {:induction false} KeysHaveFindings(keys: seq<SaKey>)
    ensures NoFindings(KeyEdges(keys)) ==> KeyEdges(keys) == []
  {
    if keys != [] {
      var k := keys[|keys| - 1];
      KeysHaveFindings(keys[..|keys| - 1]);
      assert UserManaged(k) ==> KeyEdge(k)[0] in KeyEdges(keys);
    }
  }

  /** A provider without findings has a condition, and that marks all its edges. */
  lemma {:induction false} ProvidersAreConditioned(ps: seq<GcpProvider>, accounts: seq<ServiceAccount>, h: Heuristics)
    ensures NoFindings(AllProviderEdges(ps, accounts, h)) ==> AllConditioned(AllProviderEdges(ps, accounts, h))
  {
    if ps != [] {
      ProvidersAreConditioned(ps[..|ps| - 1], accounts, h);
    }
  }

  /** An identity provider's own edge is never conditioned. */
  lemma {:induction false} IdpsAreUnconditioned(idps: seq<CfIdp>, apps: seq<CfApp>, cache: map<string, Posture>)
    requires forall a | a in apps :: CacheKey(a) in cache
    ensures AllConditioned(AllIdpEdges(idps, apps, cache)) <==> idps == []
  {
    if idps != [] {
      var last := idps[|idps| - 1];
      var own := IdpEdges(last, apps, cache)[0];
      assert own in AllIdpEdges(idps, apps, cache) && !own.access.present;
    }
  }

  /** Factors come from policies. */
  predicate FromPolicies(posture: Posture) {
    posture.policies == [] ==> posture.factors == {}
  }

  lemma {:induction false} CacheIsFromPolicies(apps: seq<CfApp>, policies: seq<CfPolicy>)
    ensures forall key | key in Cache(apps, policies) :: FromPolicies(Cache(apps, policies)[key])
  {
    if apps != [] {
      CacheIsFromPolicies(apps[..|apps| - 1], policies);
      assert FromPolicies(ComputeAppPosture(apps[|apps| - 1], policies));
    }
  }

  lemma SessionIsConditioned(posture: Posture)
    requires FromPolicies(posture) && AppFindings(posture) == []
    ensures AppAccess(posture).present <==> posture.policies != []
  {
  }

  /** Without findings, an application's edge is conditioned exactly when it has a policy. */
  lemma {:induction false} SessionsAreConditioned(apps: seq<CfApp>, cache: map<string, Posture>)
    requires forall a | a in apps :: CacheKey(a) in cache && FromPolicies(cache[CacheKey(a)])
    requires NoFindings(SessionEdges(apps, cache))
    ensures AllConditioned(SessionEdges(apps, cache)) <==> forall a | a in apps :: cache[CacheKey(a)].policies != []
  {
    if apps != [] {
      var front, a := apps[..|apps| - 1], apps[|apps| - 1];
      var e := SessionEdge(a, cache[CacheKey(a)]);
      assert apps == front + [a];
      assert SessionEdges(apps, cache) == SessionEdges(front, cache) + [e];
      assert e in SessionEdges(apps, cache);
      SessionsAreConditioned(front, cache);
      SessionIsConditioned(cache[CacheKey(a)]);
    }
  }

  lemma {:induction false} TokensAreNotEphemeral(ts: seq<CfToken>)
    ensures AllConditioned(TokenEdges(ts)) <==> ts == []
  {
    if ts != [] {
      assert TokenEdge(ts[|ts| - 1]) in TokenEdges(ts);
    }
  }

  lemma Parts(a: seq<Edge>, b: seq<Edge>, c: seq<Edge>)
    ensures NoFindings(a + b + c) <==> NoFindings(a) && NoFindings(b) && NoFindings(c)
    ensures AllConditioned(a + b + c) <==> AllConditioned(a) && AllConditioned(b) && AllConditioned(c)
  {
    assert forall e :: e in a + b + c <==> e in a || e in b || e in c;
  }

  lemma CloudflareSentence(s: Scan)
    requires NoFindings(CloudflareEdges(s))
    ensures AllConditioned(CloudflareEdges(s)) <==>
            s.idps == [] && s.tokens == [] && forall a | a in s.apps :: HasPolicy(s.policies, StandIn(s.apps, a))
  {
    var cache := Cache(s.apps, s.policies);
    var idps, sessions, tokens := AllIdpEdges(s.idps, s.apps, cache), SessionEdges(s.apps, cache), TokenEdges(s.tokens);
    assert CloudflareEdges(s) == idps + sessions + tokens;
    Parts(idps, sessions, tokens);
    CacheIsFromPolicies(s.apps, s.policies);
    IdpsAreUnconditioned(s.idps, s.apps, cache);
    SessionsAreConditioned(s.apps, cache);
    TokensAreNotEphemeral(s.tokens);
    forall a | a in s.apps
      ensures cache[CacheKey(a)].policies != [] <==> HasPolicy(s.policies, StandIn(s.apps, a))
    {
      CacheHoldsStandIn(s.apps, s.policies, a);
      PostureExactly(StandIn(s.apps, a), s.policies);
    }
  }

  /**
   * In a report without findings the sentence is true exactly when the scan has no identity provider,
   * no service token, and every application has a policy by the cache.
   */
  lemma SentenceHoldsExactly(s: Scan, h: Heuristics)
    requires Severities(AllEdges(s, h)) == []
    ensures AllConditioned(AllEdges(s, h)) <==>
            s.idps == [] && s.tokens == [] && forall a | a in s.apps :: HasPolicy(s.policies, StandIn(s.apps, a))
  {
    var providers, keys := AllProviderEdges(s.providers, s.accounts, h), KeyEdges(s.keys);
    FindingsAreSeverities(AllEdges(s, h));
    Parts(GithubEdges(s.secrets), GcpEdges(s, h), CloudflareEdges(s));
    Parts(providers, keys, []);
    assert providers + keys + [] == GcpEdges(s, h);
    SecretsHaveFindings(s.secrets);
    KeysHaveFindings(s.keys);
    ProvidersAreConditioned(s.providers, s.accounts, h);
    CloudflareSentence(s);
  }

  /** One identity provider that needs a company account, and nothing else: no findings, and the sentence is false. */
  lemma SentenceCanBeFalse(h: Heuristics)
    ensures var s := Scan([], [], [], [], [], [], [], [], [CfIdp("a", "i", "okta")], []);
            Severities(AllEdges(s, h)) == [] && !AllConditioned(AllEdges(s, h))
  {
    var idp := CfIdp("a", "i", "okta");
    var s := Scan([], [], [], [], [], [], [], [], [idp], []);
    assert [idp][..0] == [];
    assert AllIdpEdges([idp], [], map[]) == IdpEdges(idp, [], map[]);
    assert AllEdges(s, h) == IdpEdges(idp, [], map[]);
    assert "okta" !in {"google", "github", "facebook", "linkedin", "yandex", "onetimepin"};
    var e := IdpEdges(idp, [], map[])[0];
    assert IdpEdges(idp, [], map[]) == [e] && e.findings == [] && !e.access.present;
    FindingsAreSeverities(AllEdges(s, h));
    assert e in AllEdges(s, h);
  }
}
