// The trust graph: each provider's scan becomes a slice of domains and edges, and the slices are
// merged. Domains are kept by id; edges are kept in order and never merged.

module TrustGraph {
  import opened Wrappers
  import opened Text

  datatype Severity = Critical | High | Medium | Low | Info

  datatype Code =
    | GITHUB_STATIC_CLOUD_CREDENTIAL | WIF_NO_ATTRIBUTE_CONDITION | WIF_GITHUB_NO_ORG_PIN
    | GCP_USER_MANAGED_SA_KEY | CF_ACCESS_POLICY_ALLOW_ALL | CF_ACCESS_NO_POSTURE
    | CF_IDP_OPEN_USER_POOL | CF_IDP_UNREFERENCED | CF_SERVICE_TOKEN_NO_EXPIRY

  function SeverityOf(code: Code): Severity {
    match code
    case WIF_NO_ATTRIBUTE_CONDITION => Critical
    case GITHUB_STATIC_CLOUD_CREDENTIAL => High
    case WIF_GITHUB_NO_ORG_PIN => High
    case GCP_USER_MANAGED_SA_KEY => High
    case CF_ACCESS_POLICY_ALLOW_ALL => High
    case CF_ACCESS_NO_POSTURE => Medium
    case CF_IDP_OPEN_USER_POOL => Medium
    case CF_SERVICE_TOKEN_NO_EXPIRY => Medium
    case CF_IDP_UNREFERENCED => Low
  }

  datatype CredentialType = GithubSecretType | OidcFederation | SaKeyType | CfServiceTokenType

  datatype Domain = Domain(id: string, platform: string, kind: string)

  /** `factors` is the distinct list as a set. */
  datatype Access = Access(present: bool, factors: set<string>)

  datatype Edge = Edge(
    source: string, target: string, targetLabel: string, credentialType: CredentialType, ephemeral: bool,
    access: Access, findings: seq<Code>)

  const NO_ACCESS := Access(false, {})

  // ---------- Scanned resources ----------

  datatype GithubSecret = GithubSecret(org: string, kind: string, name: string, looksLikeCloudCredential: bool)

  datatype GcpProvider = GcpProvider(
    project: string, poolId: string, providerId: string,
    issuerUri: Option<string>, awsAccountId: Option<string>, attributeCondition: Option<string>)

  datatype ServiceAccount = ServiceAccount(project: string, email: string, members: seq<string>)

  datatype SaKey = SaKey(project: string, email: string, keyId: string, keyType: string)

  datatype CfApp = CfApp(accountId: string, appId: string, name: string, allowedIdps: seq<string>)

  datatype CfPolicy = CfPolicy(
    accountId: string, appId: string, decision: string, allowsEveryone: bool, factors: seq<string>)

  datatype CfIdp = CfIdp(accountId: string, idpId: string, idpType: string)

  datatype CfToken = CfToken(accountId: string, name: string, durationDays: Option<int>)

  /** Everything the `build` method is given, after validation. */
  datatype Scan = Scan(
    subjectOrgs: seq<string>, secrets: seq<GithubSecret>,
    poolProjects: seq<string>, providers: seq<GcpProvider>, accounts: seq<ServiceAccount>, keys: seq<SaKey>,
    apps: seq<CfApp>, policies: seq<CfPolicy>, idps: seq<CfIdp>, tokens: seq<CfToken>)

  // ---------- Domain ids ----------

  const EXTERNAL_UNKNOWN := "external:unknown"

  const GITHUB_ACTIONS := "github:actions"

  const GITHUB_ACTIONS_ISSUER := "https://token.actions.githubusercontent.com"

  /** The domain is kept under its own id, which begins with its platform. */
  predicate KeptRight(id: string, d: Domain) {
    d.id == id && d.platform + ":" <= id
  }

  function Org(org: string): (d: Domain)
    ensures KeptRight(d.id, d)
  {
    Domain("github:org/" + org, "github", "org")
  }

  function Project(project: string): (d: Domain)
    ensures KeptRight(d.id, d)
  {
    Domain("gcp:project/" + project, "gcp", "project")
  }

  function Account(id: string): (d: Domain)
    ensures KeptRight(d.id, d)
  {
    Domain("cloudflare:account/" + id, "cloudflare", "account")
  }

  function App(app: CfApp): (d: Domain)
    ensures KeptRight(d.id, d)
  {
    Domain("cloudflare:app/" + app.accountId + "/" + app.appId, "cloudflare", "app")
  }

  function IdpDomain(idp: CfIdp): (d: Domain)
    ensures KeptRight(d.id, d)
  {
    Domain("external:cf-idp-" + idp.idpId, "external", "idp")
  }

  function Unknown(): (d: Domain)
    ensures KeptRight(d.id, d)
  {
    Domain(EXTERNAL_UNKNOWN, "external", "external")
  }

  type Domains = m: map<string, Domain> | forall id | id in m :: KeptRight(id, m[id])

  /** `ensureDomain`: the first domain with an id stays. */
  function Ensured(domains: Domains, d: Domain): (r: Domains)
    requires KeptRight(d.id, d)
    ensures r.Keys == domains.Keys + {d.id}
  {
    if d.id in domains then domains else domains[d.id := d]
  }

  datatype Slice = Slice(domains: Domains, edges: seq<Edge>)

  const EMPTY := Slice(map[], [])

  /** A slice grown by some domains and edges. */
  predicate Grown(slice: Slice, start: Slice, ids: set<string>, edges: seq<Edge>) {
    slice.edges == start.edges + edges && slice.domains.Keys == start.domains.Keys + ids
  }

  lemma GrownTwice(start: Slice, ids: set<string>, edges: seq<Edge>,
                   middle: Slice, ids': set<string>, edges': seq<Edge>, end: Slice)
    requires Grown(middle, start, ids, edges) && Grown(end, middle, ids', edges')
    ensures Grown(end, start, ids + ids', edges + edges')
  {
  }

  // ---------- GitHub ----------

  function SecretEdges(s: GithubSecret): seq<Edge> {
    if !s.looksLikeCloudCredential then []
    else [Edge(Org(s.org).id, EXTERNAL_UNKNOWN, s.kind + " \"" + s.name + "\"", GithubSecretType, false, NO_ACCESS,
               [GITHUB_STATIC_CLOUD_CREDENTIAL])]
  }

  function GithubEdges(secrets: seq<GithubSecret>): seq<Edge> {
    if secrets == [] then [] else GithubEdges(secrets[..|secrets| - 1]) + SecretEdges(secrets[|secrets| - 1])
  }

  function OrgIds(orgs: seq<string>): set<string> {
    if orgs == [] then {} else OrgIds(orgs[..|orgs| - 1]) + {Org(orgs[|orgs| - 1]).id}
  }

  function SecretIdSet(s: GithubSecret): set<string> {
    {Org(s.org).id} + (if s.looksLikeCloudCredential then {EXTERNAL_UNKNOWN} else {})
  }

  function SecretIds(secrets: seq<GithubSecret>): set<string> {
    if secrets == [] then {} else SecretIds(secrets[..|secrets| - 1]) + SecretIdSet(secrets[|secrets| - 1])
  }

  method AddOrgs(subjectOrgs: seq<string>) returns (domains: Domains)
    ensures domains.Keys == OrgIds(subjectOrgs)
  {
    domains := map[];
    for i := 0 to |subjectOrgs|
      invariant domains.Keys == OrgIds(subjectOrgs[..i])
    {
      assert subjectOrgs[..i + 1][..i] == subjectOrgs[..i];
      domains := Ensured(domains, Org(subjectOrgs[i]));
    }
    assert subjectOrgs[..|subjectOrgs|] == subjectOrgs;
  }

  /** A secret makes sure of its organisation; one that looks like a cloud credential adds an edge. */
  method AddSecret(start: Slice, s: GithubSecret) returns (slice: Slice)
    ensures Grown(slice, start, SecretIdSet(s), SecretEdges(s))
  {
    var domains, edges := Ensured(start.domains, Org(s.org)), start.edges;
    if s.looksLikeCloudCredential {
      domains := Ensured(domains, Unknown());
      edges := edges + [Edge(Org(s.org).id, EXTERNAL_UNKNOWN, s.kind + " \"" + s.name + "\"", GithubSecretType, false,
                             NO_ACCESS, [GITHUB_STATIC_CLOUD_CREDENTIAL])];
    }
    slice := Slice(domains, edges);
  }

  lemma SecretsUpTo(secrets: seq<GithubSecret>, i: nat)
    requires i < |secrets|
    ensures GithubEdges(secrets[..i + 1]) == GithubEdges(secrets[..i]) + SecretEdges(secrets[i])
    ensures SecretIds(secrets[..i + 1]) == SecretIds(secrets[..i]) + SecretIdSet(secrets[i])
  {
    assert secrets[..i + 1][..i] == secrets[..i];
  }

  method DeriveGithubSlice(subjectOrgs: seq<string>, secrets: seq<GithubSecret>) returns (slice: Slice)
    ensures slice.edges == GithubEdges(secrets)
    ensures slice.domains.Keys == OrgIds(subjectOrgs) + SecretIds(secrets)
  {
    var domains := AddOrgs(subjectOrgs);
    var start := Slice(domains, []);
    slice := start;
    for i := 0 to |secrets|
      invariant Grown(slice, start, SecretIds(secrets[..i]), GithubEdges(secrets[..i]))
    {
      SecretsUpTo(secrets, i);
      var next := AddSecret(slice, secrets[i]);
      GrownTwice(start, SecretIds(secrets[..i]), GithubEdges(secrets[..i]), slice,
                 SecretIdSet(secrets[i]), SecretEdges(secrets[i]), next);
      slice := next;
    }
    assert secrets[..|secrets|] == secrets && [] + GithubEdges(secrets) == GithubEdges(secrets);
  }

  // ---------- GCP ----------

  /** The two text heuristics of the source, left uninterpreted. */
  datatype Heuristics = Heuristics(repoOwners: string -> seq<string>, urlHost: string -> string)

  predicate Truthy(s: Option<string>) {
    s.Some? && s.value != ""
  }

  function Owners(p: GcpProvider, h: Heuristics): seq<string> {
    if Truthy(p.attributeCondition) then h.repoOwners(p.attributeCondition.value) else []
  }

  predicate TrustsGithub(p: GcpProvider) {
    p.issuerUri == Some(GITHUB_ACTIONS_ISSUER)
  }

  function ProviderSource(p: GcpProvider, h: Heuristics): (d: Domain)
    ensures KeptRight(d.id, d)
  {
    if TrustsGithub(p) then
      if |Owners(p, h)| == 1 then Org(Owners(p, h)[0]) else Domain(GITHUB_ACTIONS, "github", "idp")
    else if Truthy(p.issuerUri) then Domain("external:" + h.urlHost(p.issuerUri.value), "external", "idp")
    else if Truthy(p.awsAccountId) then Domain("external:aws-" + p.awsAccountId.value, "external", "account")
    else Unknown()
  }

  function ProviderFindings(p: GcpProvider, h: Heuristics): seq<Code> {
    (if !Truthy(p.attributeCondition) then [WIF_NO_ATTRIBUTE_CONDITION] else [])
    + (if TrustsGithub(p) && Owners(p, h) == [] then [WIF_GITHUB_NO_ORG_PIN] else [])
  }

  function ProviderAccess(p: GcpProvider): Access {
    Access(p.attributeCondition.Some?, if Truthy(p.attributeCondition) then {"attribute-condition"} else {})
  }

  const POOLS := "/workloadIdentityPools/"

  predicate ReferencesPool(member: string, poolId: string) {
    || Contains(member, POOLS + poolId + "/")
    || OccursAt(member, |member| - |POOLS + poolId|, POOLS + poolId)
  }

  predicate IsBound(p: GcpProvider, a: ServiceAccount) {
    a.project == p.project && exists m | m in a.members :: ReferencesPool(m, p.poolId)
  }

  function BoundAccounts(p: GcpProvider, accounts: seq<ServiceAccount>): seq<ServiceAccount> {
    if accounts == [] then []
    else
      BoundAccounts(p, accounts[..|accounts| - 1])
      + (if IsBound(p, accounts[|accounts| - 1]) then [accounts[|accounts| - 1]] else [])
  }

  function ProviderEdge(p: GcpProvider, h: Heuristics, text: string): Edge {
    Edge(ProviderSource(p, h).id, Project(p.project).id, text, OidcFederation, true, ProviderAccess(p),
         ProviderFindings(p, h))
  }

  function AccountLabel(a: ServiceAccount): string {
    "service account " + a.email
  }

  function AccountEdges(p: GcpProvider, h: Heuristics, bound: seq<ServiceAccount>): seq<Edge> {
    seq(|bound|, i requires 0 <= i < |bound| => ProviderEdge(p, h, AccountLabel(bound[i])))
  }

  function ProviderEdges(p: GcpProvider, accounts: seq<ServiceAccount>, h: Heuristics): seq<Edge> {
    var bound := BoundAccounts(p, accounts);
    if bound != [] then AccountEdges(p, h, bound)
    else [ProviderEdge(p, h, "pool " + p.poolId + " (no service account bound)")]
  }

  function AllProviderEdges(ps: seq<GcpProvider>, accounts: seq<ServiceAccount>, h: Heuristics): seq<Edge> {
    if ps == [] then []
    else AllProviderEdges(ps[..|ps| - 1], accounts, h) + ProviderEdges(ps[|ps| - 1], accounts, h)
  }

  predicate UserManaged(k: SaKey) {
    k.keyType == "USER_MANAGED"
  }

  function KeyEdge(k: SaKey): seq<Edge> {
    if UserManaged(k) then
      [Edge(EXTERNAL_UNKNOWN, Project(k.project).id, "service account " + k.email, SaKeyType, false, NO_ACCESS,
            [GCP_USER_MANAGED_SA_KEY])]
    else []
  }

  function KeyEdges(keys: seq<SaKey>): seq<Edge> {
    if keys == [] then [] else KeyEdges(keys[..|keys| - 1]) + KeyEdge(keys[|keys| - 1])
  }

  function ProjectIds(projects: seq<string>): set<string> {
    if projects == [] then {} else ProjectIds(projects[..|projects| - 1]) + {Project(projects[|projects| - 1]).id}
  }

  function AccountIds(accounts: seq<ServiceAccount>): set<string> {
    if accounts == [] then {}
    else AccountIds(accounts[..|accounts| - 1]) + {Project(accounts[|accounts| - 1].project).id}
  }

  function ProviderIdPair(p: GcpProvider, h: Heuristics): set<string> {
    {Project(p.project).id, ProviderSource(p, h).id}
  }

  function ProviderIds(ps: seq<GcpProvider>, h: Heuristics): set<string> {
    if ps == [] then {}
    else
      var p := ps[|ps| - 1];
      ProviderIds(ps[..|ps| - 1], h) + ProviderIdPair(p, h)
  }

  function KeyIdPair(k: SaKey): set<string> {
    if UserManaged(k) then {Project(k.project).id, EXTERNAL_UNKNOWN} else {}
  }

  function KeyIds(keys: seq<SaKey>): set<string> {
    if keys == [] then {} else KeyIds(keys[..|keys| - 1]) + KeyIdPair(keys[|keys| - 1])
  }

  /** The two loops that only make sure of project domains. */
  method AddProjects(poolProjects: seq<string>, accounts: seq<ServiceAccount>) returns (domains: Domains)
    ensures domains.Keys == ProjectIds(poolProjects) + AccountIds(accounts)
  {
    domains := map[];
    for i := 0 to |poolProjects|
      invariant domains.Keys == ProjectIds(poolProjects[..i])
    {
      assert poolProjects[..i + 1][..i] == poolProjects[..i];
      domains := Ensured(domains, Project(poolProjects[i]));
    }
    assert poolProjects[..|poolProjects|] == poolProjects;
    for i := 0 to |accounts|
      invariant domains.Keys == ProjectIds(poolProjects) + AccountIds(accounts[..i])
    {
      assert accounts[..i + 1][..i] == accounts[..i];
      domains := Ensured(domains, Project(accounts[i].project));
    }
    assert accounts[..|accounts|] == accounts;
  }

  lemma ProvidersUpTo(ps: seq<GcpProvider>, i: nat, accounts: seq<ServiceAccount>, h: Heuristics)
    requires i < |ps|
    ensures AllProviderEdges(ps[..i + 1], accounts, h) ==
            AllProviderEdges(ps[..i], accounts, h) + ProviderEdges(ps[i], accounts, h)
    ensures ProviderIds(ps[..i + 1], h) == ProviderIds(ps[..i], h) + ProviderIdPair(ps[i], h)
  {
    assert ps[..i + 1][..i] == ps[..i];
  }

  /** One provider's targets: its bound accounts, or its pool when nothing is bound. */
  method ProviderTargets(p: GcpProvider, accounts: seq<ServiceAccount>, h: Heuristics) returns (edges: seq<Edge>)
    ensures edges == ProviderEdges(p, accounts, h)
  {
    edges := [];
    for i := 0 to |accounts|
      invariant edges == AccountEdges(p, h, BoundAccounts(p, accounts[..i]))
    {
      assert accounts[..i + 1][..i] == accounts[..i];
      if IsBound(p, accounts[i]) {
        edges := edges + [ProviderEdge(p, h, AccountLabel(accounts[i]))];
      }
    }
    assert accounts[..|accounts|] == accounts;
    if edges == [] {
      edges := [ProviderEdge(p, h, "pool " + p.poolId + " (no service account bound)")];
    }
  }

  /** One provider: its two domains and an edge per target. */
  method AddProvider(start: Slice, p: GcpProvider, accounts: seq<ServiceAccount>, h: Heuristics) returns (slice: Slice)
    ensures Grown(slice, start, ProviderIdPair(p, h), ProviderEdges(p, accounts, h))
  {
    var domains := Ensured(Ensured(start.domains, Project(p.project)), ProviderSource(p, h));
    var targets := ProviderTargets(p, accounts, h);
    slice := Slice(domains, start.edges + targets);
  }

  /** The loop over the workload-identity providers. */
  method AddProviders(start: Slice, providers: seq<GcpProvider>, accounts: seq<ServiceAccount>, h: Heuristics)
    returns (slice: Slice)
    ensures Grown(slice, start, ProviderIds(providers, h), AllProviderEdges(providers, accounts, h))
  {
    slice := start;
    for i := 0 to |providers|
      invariant Grown(slice, start, ProviderIds(providers[..i], h), AllProviderEdges(providers[..i], accounts, h))
    {
      ProvidersUpTo(providers, i, accounts, h);
      var next := AddProvider(slice, providers[i], accounts, h);
      GrownTwice(start, ProviderIds(providers[..i], h), AllProviderEdges(providers[..i], accounts, h), slice,
                 ProviderIdPair(providers[i], h), ProviderEdges(providers[i], accounts, h), next);
      slice := next;
    }
    assert providers[..|providers|] == providers;
  }

  lemma KeysUpTo(keys: seq<SaKey>, i: nat)
    requires i < |keys|
    ensures KeyEdges(keys[..i + 1]) == KeyEdges(keys[..i]) + KeyEdge(keys[i])
    ensures KeyIds(keys[..i + 1]) == KeyIds(keys[..i]) + KeyIdPair(keys[i])
  {
    assert keys[..i + 1][..i] == keys[..i];
  }

  /** A key that Google manages adds nothing. */
  method AddKey(start: Slice, k: SaKey) returns (slice: Slice)
    ensures Grown(slice, start, KeyIdPair(k), KeyEdge(k))
  {
    slice := start;
    if UserManaged(k) {
      var domains := Ensured(Ensured(start.domains, Project(k.project)), Unknown());
      slice := Slice(domains, start.edges + KeyEdge(k));
    }
  }

  /** The loop over the service-account keys. */
  method AddKeys(start: Slice, keys: seq<SaKey>) returns (slice: Slice)
    ensures Grown(slice, start, KeyIds(keys), KeyEdges(keys))
  {
    slice := start;
    for i := 0 to |keys|
      invariant Grown(slice, start, KeyIds(keys[..i]), KeyEdges(keys[..i]))
    {
      KeysUpTo(keys, i);
      var next := AddKey(slice, keys[i]);
      GrownTwice(start, KeyIds(keys[..i]), KeyEdges(keys[..i]), slice, KeyIdPair(keys[i]), KeyEdge(keys[i]), next);
      slice := next;
    }
    assert keys[..|keys|] == keys;
  }

  method DeriveGcpSlice(poolProjects: seq<string>, providers: seq<GcpProvider>, accounts: seq<ServiceAccount>,
                        keys: seq<SaKey>, h: Heuristics)
    returns (slice: Slice)
    ensures slice.edges == AllProviderEdges(providers, accounts, h) + KeyEdges(keys)
    ensures slice.domains.Keys ==
            ProjectIds(poolProjects) + AccountIds(accounts) + ProviderIds(providers, h) + KeyIds(keys)
  {
    var domains := AddProjects(poolProjects, accounts);
    var start := Slice(domains, []);
    var middle := AddProviders(start, providers, accounts, h);
    slice := AddKeys(middle, keys);
    GrownTwice(start, ProviderIds(providers, h), AllProviderEdges(providers, accounts, h), middle,
               KeyIds(keys), KeyEdges(keys), slice);
    var edges := AllProviderEdges(providers, accounts, h) + KeyEdges(keys);
    assert start.edges + edges == edges;
  }

  // ---------- Cloudflare ----------

  datatype Posture = Posture(policies: seq<CfPolicy>, factors: set<string>, wideOpen: bool)

  function AppPolicies(accountId: string, appId: string, policies: seq<CfPolicy>): seq<CfPolicy> {
    if policies == [] then []
    else
      var p := policies[|policies| - 1];
      AppPolicies(accountId, appId, policies[..|policies| - 1])
      + (if p.accountId == accountId && p.appId == appId then [p] else [])
  }

  function ComputeAppPosture(app: CfApp, policies: seq<CfPolicy>): Posture {
    var own := AppPolicies(app.accountId, app.appId, policies);
    Posture(own,
            set p, f | p in own && p.decision == "allow" && f in p.factors :: f,
            exists p | p in own :: (p.decision == "allow" && p.allowsEveryone) || p.decision == "bypass")
  }

  function AppAccess(posture: Posture): Access {
    Access(!posture.wideOpen && posture.factors != {}, posture.factors)
  }

  function CacheKey(app: CfApp): string {
    app.accountId + "/" + app.appId
  }

  /** The posture cache after the first loop: the last application with a key wins. */
  function Cache(apps: seq<CfApp>, policies: seq<CfPolicy>): (m: map<string, Posture>)
    ensures m.Keys == set a | a in apps :: CacheKey(a)
  {
    if apps == [] then map[]
    else
      var a := apps[|apps| - 1];
      assert apps == apps[..|apps| - 1] + [a];
      Cache(apps[..|apps| - 1], policies)[CacheKey(a) := ComputeAppPosture(a, policies)]
  }

  predicate OpenUserPool(idpType: string) {
    idpType in {"google", "github", "facebook", "linkedin", "yandex", "onetimepin"}
  }

  function AccountApps(apps: seq<CfApp>, accountId: string): seq<CfApp> {
    if apps == [] then []
    else
      AccountApps(apps[..|apps| - 1], accountId)
      + (if apps[|apps| - 1].accountId == accountId then [apps[|apps| - 1]] else [])
  }

  function EvaluateIdp(idp: CfIdp, accountApps: seq<CfApp>): seq<Code> {
    (if OpenUserPool(idp.idpType) then [CF_IDP_OPEN_USER_POOL] else [])
    + (if accountApps != [] && !(exists a | a in accountApps :: a.allowedIdps == [] || idp.idpId in a.allowedIdps)
       then [CF_IDP_UNREFERENCED] else [])
  }

  predicate Scopes(app: CfApp, idp: CfIdp) {
    app.accountId == idp.accountId && idp.idpId in app.allowedIdps
  }

  function AppLabel(app: CfApp): string {
    "Access app " + app.name
  }

  function ScopingEdge(i: CfIdp, a: CfApp, posture: Posture): seq<Edge> {
    if Scopes(a, i) then [Edge(IdpDomain(i).id, App(a).id, AppLabel(a), OidcFederation, true, AppAccess(posture), [])]
    else []
  }

  function ScopingEdges(idp: CfIdp, apps: seq<CfApp>, cache: map<string, Posture>): seq<Edge>
    requires forall a | a in apps :: CacheKey(a) in cache
  {
    if apps == [] then []
    else
      var a := apps[|apps| - 1];
      ScopingEdges(idp, apps[..|apps| - 1], cache) + ScopingEdge(idp, a, cache[CacheKey(a)])
  }

  function IdpEdges(idp: CfIdp, apps: seq<CfApp>, cache: map<string, Posture>): seq<Edge>
    requires forall a | a in apps :: CacheKey(a) in cache
  {
    [Edge(IdpDomain(idp).id, Account(idp.accountId).id, "Cloudflare account " + idp.accountId, OidcFederation, true,
          NO_ACCESS, EvaluateIdp(idp, AccountApps(apps, idp.accountId)))]
    + ScopingEdges(idp, apps, cache)
  }

  function AllIdpEdges(idps: seq<CfIdp>, apps: seq<CfApp>, cache: map<string, Posture>): seq<Edge>
    requires forall a | a in apps :: CacheKey(a) in cache
  {
    if idps == [] then []
    else AllIdpEdges(idps[..|idps| - 1], apps, cache) + IdpEdges(idps[|idps| - 1], apps, cache)
  }

  predicate StrongFactor(f: string) {
    f == "device-posture" || f == "mfa"
  }

  function AppFindings(posture: Posture): seq<Code> {
    if posture.wideOpen then [CF_ACCESS_POLICY_ALLOW_ALL]
    else if posture.policies != [] && !(exists f | f in posture.factors :: StrongFactor(f)) then [CF_ACCESS_NO_POSTURE]
    else []
  }

  function SessionEdge(app: CfApp, posture: Posture): Edge {
    Edge(Account(app.accountId).id, App(app).id, AppLabel(app), OidcFederation, true,
         AppAccess(posture), AppFindings(posture))
  }

  function SessionEdges(apps: seq<CfApp>, cache: map<string, Posture>): seq<Edge>
    requires forall a | a in apps :: CacheKey(a) in cache
  {
    if apps == [] then []
    else
      var a := apps[|apps| - 1];
      SessionEdges(apps[..|apps| - 1], cache) + [SessionEdge(a, cache[CacheKey(a)])]
  }

  const LONG_TOKEN_DAYS := 365

  function TokenEdge(t: CfToken): Edge {
    Edge(EXTERNAL_UNKNOWN, Account(t.accountId).id, "Cloudflare account " + t.accountId, CfServiceTokenType, false,
         NO_ACCESS,
         if t.durationDays.None? || t.durationDays.value > LONG_TOKEN_DAYS then [CF_SERVICE_TOKEN_NO_EXPIRY] else [])
  }

  function TokenEdges(ts: seq<CfToken>): seq<Edge> {
    if ts == [] then [] else TokenEdges(ts[..|ts| - 1]) + [TokenEdge(ts[|ts| - 1])]
  }

  function ScopedId(idp: CfIdp, a: CfApp): set<string> {
    if Scopes(a, idp) then {App(a).id} else {}
  }

  function ScopedIds(idp: CfIdp, apps: seq<CfApp>): set<string> {
    if apps == [] then {} else ScopedIds(idp, apps[..|apps| - 1]) + ScopedId(idp, apps[|apps| - 1])
  }

  function IdpIdPair(i: CfIdp): set<string> {
    {Account(i.accountId).id, IdpDomain(i).id}
  }

  function IdpIds(idps: seq<CfIdp>, apps: seq<CfApp>): set<string> {
    if idps == [] then {}
    else
      var i := idps[|idps| - 1];
      IdpIds(idps[..|idps| - 1], apps) + (IdpIdPair(i) + ScopedIds(i, apps))
  }

  function AppIdPair(a: CfApp): set<string> {
    {Account(a.accountId).id, App(a).id}
  }

  function AppIds(apps: seq<CfApp>): set<string> {
    if apps == [] then {} else AppIds(apps[..|apps| - 1]) + AppIdPair(apps[|apps| - 1])
  }

  function TokenIdPair(t: CfToken): set<string> {
    {Account(t.accountId).id, EXTERNAL_UNKNOWN}
  }

  function TokenIds(ts: seq<CfToken>): set<string> {
    if ts == [] then {} else TokenIds(ts[..|ts| - 1]) + TokenIdPair(ts[|ts| - 1])
  }

  method BuildCache(apps: seq<CfApp>, policies: seq<CfPolicy>) returns (postureByApp: map<string, Posture>)
    ensures postureByApp == Cache(apps, policies)
  {
    postureByApp := map[];
    for i := 0 to |apps|
      invariant postureByApp == Cache(apps[..i], policies)
    {
      assert apps[..i + 1][..i] == apps[..i];
      postureByApp := postureByApp[CacheKey(apps[i]) := ComputeAppPosture(apps[i], policies)];
    }
    assert apps[..|apps|] == apps;
  }

  lemma ThreeParts(first: Slice, ids: set<string>, edges: seq<Edge>,
                   second: Slice, ids': set<string>, edges': seq<Edge>,
                   third: Slice, ids'': set<string>, edges'': seq<Edge>)
    requires Grown(first, EMPTY, ids, edges) && Grown(second, first, ids', edges')
    requires Grown(third, second, ids'', edges'')
    ensures third.edges == edges + edges' + edges'' && third.domains.Keys == ids + ids' + ids''
  {
  }

  lemma IdpsUpTo(idps: seq<CfIdp>, i: nat, apps: seq<CfApp>, cache: map<string, Posture>)
    requires i < |idps| && forall a | a in apps :: CacheKey(a) in cache
    ensures AllIdpEdges(idps[..i + 1], apps, cache) ==
            AllIdpEdges(idps[..i], apps, cache) + IdpEdges(idps[i], apps, cache)
    ensures IdpIds(idps[..i + 1], apps) == IdpIds(idps[..i], apps) + (IdpIdPair(idps[i]) + ScopedIds(idps[i], apps))
  {
    assert idps[..i + 1][..i] == idps[..i];
  }

  lemma ScopingsUpTo(idp: CfIdp, apps: seq<CfApp>, i: nat, cache: map<string, Posture>)
    requires i < |apps| && forall a | a in apps :: CacheKey(a) in cache
    ensures ScopingEdges(idp, apps[..i + 1], cache) ==
            ScopingEdges(idp, apps[..i], cache) + ScopingEdge(idp, apps[i], cache[CacheKey(apps[i])])
    ensures ScopedIds(idp, apps[..i + 1]) == ScopedIds(idp, apps[..i]) + ScopedId(idp, apps[i])
  {
    assert apps[..i + 1][..i] == apps[..i];
  }

  /** An application that names the provider is made sure of, and gets an edge from it. */
  method AddScoping(start: Slice, idp: CfIdp, a: CfApp, posture: Posture) returns (slice: Slice)
    ensures Grown(slice, start, ScopedId(idp, a), ScopingEdge(idp, a, posture))
  {
    slice := start;
    if a.accountId == idp.accountId && idp.idpId in a.allowedIdps {
      var edge := Edge(IdpDomain(idp).id, App(a).id, AppLabel(a), OidcFederation, true, AppAccess(posture), []);
      slice := Slice(Ensured(start.domains, App(a)), start.edges + [edge]);
    }
  }

  /** The inner loop over one identity provider's applications. */
  method AddScopings(start: Slice, idp: CfIdp, apps: seq<CfApp>, cache: map<string, Posture>) returns (slice: Slice)
    requires forall a | a in apps :: CacheKey(a) in cache
    ensures Grown(slice, start, ScopedIds(idp, apps), ScopingEdges(idp, apps, cache))
  {
    slice := start;
    for i := 0 to |apps|
      invariant Grown(slice, start, ScopedIds(idp, apps[..i]), ScopingEdges(idp, apps[..i], cache))
    {
      ScopingsUpTo(idp, apps, i, cache);
      var posture := cache[CacheKey(apps[i])];
      var next := AddScoping(slice, idp, apps[i], posture);
      GrownTwice(start, ScopedIds(idp, apps[..i]), ScopingEdges(idp, apps[..i], cache), slice,
                 ScopedId(idp, apps[i]), ScopingEdge(idp, apps[i], posture), next);
      slice := next;
    }
    assert apps[..|apps|] == apps;
  }

  /** One identity provider: its own edge and one per application that admits it. */
  method AddIdp(start: Slice, idp: CfIdp, apps: seq<CfApp>, postureByApp: map<string, Posture>) returns (slice: Slice)
    requires forall a | a in apps :: CacheKey(a) in postureByApp
    ensures Grown(slice, start, IdpIdPair(idp) + ScopedIds(idp, apps), IdpEdges(idp, apps, postureByApp))
  {
    var domains := Ensured(Ensured(start.domains, Account(idp.accountId)), IdpDomain(idp));
    var own := Edge(IdpDomain(idp).id, Account(idp.accountId).id, "Cloudflare account " + idp.accountId, OidcFederation,
                    true, NO_ACCESS, EvaluateIdp(idp, AccountApps(apps, idp.accountId)));
    var middle := Slice(domains, start.edges + [own]);
    slice := AddScopings(middle, idp, apps, postureByApp);
    GrownTwice(start, IdpIdPair(idp), [own], middle,
               ScopedIds(idp, apps), ScopingEdges(idp, apps, postureByApp), slice);
  }

  /** The loop over the identity providers. */
  method AddIdps(idps: seq<CfIdp>, apps: seq<CfApp>, postureByApp: map<string, Posture>) returns (slice: Slice)
    requires forall a | a in apps :: CacheKey(a) in postureByApp
    ensures Grown(slice, EMPTY, IdpIds(idps, apps), AllIdpEdges(idps, apps, postureByApp))
  {
    slice := EMPTY;
    for i := 0 to |idps|
      invariant Grown(slice, EMPTY, IdpIds(idps[..i], apps), AllIdpEdges(idps[..i], apps, postureByApp))
    {
      IdpsUpTo(idps, i, apps, postureByApp);
      var next := AddIdp(slice, idps[i], apps, postureByApp);
      GrownTwice(EMPTY, IdpIds(idps[..i], apps), AllIdpEdges(idps[..i], apps, postureByApp), slice,
                 IdpIdPair(idps[i]) + ScopedIds(idps[i], apps), IdpEdges(idps[i], apps, postureByApp), next);
      slice := next;
    }
    assert idps[..|idps|] == idps;
  }

  lemma AppsUpTo(apps: seq<CfApp>, i: nat, cache: map<string, Posture>)
    requires i < |apps| && forall a | a in apps :: CacheKey(a) in cache
    ensures SessionEdges(apps[..i + 1], cache) ==
            SessionEdges(apps[..i], cache) + [SessionEdge(apps[i], cache[CacheKey(apps[i])])]
    ensures AppIds(apps[..i + 1]) == AppIds(apps[..i]) + AppIdPair(apps[i])
  {
    assert apps[..i + 1][..i] == apps[..i];
  }

  method AddSession(start: Slice, a: CfApp, posture: Posture) returns (slice: Slice)
    ensures Grown(slice, start, AppIdPair(a), [SessionEdge(a, posture)])
  {
    var domains := Ensured(Ensured(start.domains, Account(a.accountId)), App(a));
    slice := Slice(domains, start.edges + [SessionEdge(a, posture)]);
  }

  /** The loop over the applications. */
  method AddSessions(start: Slice, apps: seq<CfApp>, postureByApp: map<string, Posture>) returns (slice: Slice)
    requires forall a | a in apps :: CacheKey(a) in postureByApp
    ensures Grown(slice, start, AppIds(apps), SessionEdges(apps, postureByApp))
  {
    slice := start;
    for i := 0 to |apps|
      invariant Grown(slice, start, AppIds(apps[..i]), SessionEdges(apps[..i], postureByApp))
    {
      AppsUpTo(apps, i, postureByApp);
      var posture := postureByApp[CacheKey(apps[i])];
      var next := AddSession(slice, apps[i], posture);
      GrownTwice(start, AppIds(apps[..i]), SessionEdges(apps[..i], postureByApp), slice,
                 AppIdPair(apps[i]), [SessionEdge(apps[i], posture)], next);
      slice := next;
    }
    assert apps[..|apps|] == apps;
  }

  lemma TokensUpTo(tokens: seq<CfToken>, i: nat)
    requires i < |tokens|
    ensures TokenEdges(tokens[..i + 1]) == TokenEdges(tokens[..i]) + [TokenEdge(tokens[i])]
    ensures TokenIds(tokens[..i + 1]) == TokenIds(tokens[..i]) + TokenIdPair(tokens[i])
  {
    assert tokens[..i + 1][..i] == tokens[..i];
  }

  method AddToken(start: Slice, t: CfToken) returns (slice: Slice)
    ensures Grown(slice, start, TokenIdPair(t), [TokenEdge(t)])
  {
    var domains := Ensured(Ensured(start.domains, Account(t.accountId)), Unknown());
    slice := Slice(domains, start.edges + [TokenEdge(t)]);
  }

  /** The loop over the service tokens. */
  method AddTokens(start: Slice, tokens: seq<CfToken>) returns (slice: Slice)
    ensures Grown(slice, start, TokenIds(tokens), TokenEdges(tokens))
  {
    slice := start;
    for i := 0 to |tokens|
      invariant Grown(slice, start, TokenIds(tokens[..i]), TokenEdges(tokens[..i]))
    {
      TokensUpTo(tokens, i);
      var next := AddToken(slice, tokens[i]);
      GrownTwice(start, TokenIds(tokens[..i]), TokenEdges(tokens[..i]), slice,
                 TokenIdPair(tokens[i]), [TokenEdge(tokens[i])], next);
      slice := next;
    }
    assert tokens[..|tokens|] == tokens;
  }

  method DeriveCloudflareSlice(apps: seq<CfApp>, policies: seq<CfPolicy>, idps: seq<CfIdp>, tokens: seq<CfToken>)
    returns (slice: Slice)
    ensures var cache := Cache(apps, policies);
            slice.edges == AllIdpEdges(idps, apps, cache) + SessionEdges(apps, cache) + TokenEdges(tokens)
    ensures slice.domains.Keys == IdpIds(idps, apps) + AppIds(apps) + TokenIds(tokens)
  {
    var postureByApp := BuildCache(apps, policies);
    var first := AddIdps(idps, apps, postureByApp);
    var second := AddSessions(first, apps, postureByApp);
    slice := AddTokens(second, tokens);
    ThreeParts(first, IdpIds(idps, apps), AllIdpEdges(idps, apps, postureByApp),
               second, AppIds(apps), SessionEdges(apps, postureByApp), slice, TokenIds(tokens), TokenEdges(tokens));
  }

  // ---------- The merged graph ----------

  function GcpEdges(s: Scan, h: Heuristics): seq<Edge> {
    AllProviderEdges(s.providers, s.accounts, h) + KeyEdges(s.keys)
  }

  function CloudflareEdges(s: Scan): seq<Edge> {
    var cache := Cache(s.apps, s.policies);
    AllIdpEdges(s.idps, s.apps, cache) + SessionEdges(s.apps, cache) + TokenEdges(s.tokens)
  }

  /** The edges of the whole graph, in the order they are written. */
  function AllEdges(s: Scan, h: Heuristics): seq<Edge> {
    GithubEdges(s.secrets) + GcpEdges(s, h) + CloudflareEdges(s)
  }

  function GithubIds(s: Scan): set<string> {
    OrgIds(s.subjectOrgs) + SecretIds(s.secrets)
  }

  function GcpIds(s: Scan, h: Heuristics): set<string> {
    ProjectIds(s.poolProjects) + AccountIds(s.accounts) + ProviderIds(s.providers, h) + KeyIds(s.keys)
  }

  function CloudflareIds(s: Scan): set<string> {
    IdpIds(s.idps, s.apps) + AppIds(s.apps) + TokenIds(s.tokens)
  }

  /** The ids of the domains that the scan gives rise to. */
  function AllDomainIds(s: Scan, h: Heuristics): set<string> {
    GithubIds(s) + GcpIds(s, h) + CloudflareIds(s)
  }

  function MergedDomains(slices: seq<Slice>): Domains {
    if slices == [] then map[] else MergedDomains(slices[..|slices| - 1]) + slices[|slices| - 1].domains
  }

  function MergedEdges(slices: seq<Slice>): seq<Edge> {
    if slices == [] then [] else MergedEdges(slices[..|slices| - 1]) + slices[|slices| - 1].edges
  }

  method Merge(slices: seq<Slice>) returns (graph: Slice)
    ensures graph == Slice(MergedDomains(slices), MergedEdges(slices))
  {
    var domains: Domains := map[];
    var edges: seq<Edge> := [];
    for i := 0 to |slices|
      invariant domains == MergedDomains(slices[..i]) && edges == MergedEdges(slices[..i])
    {
      assert slices[..i + 1][..i] == slices[..i];
      domains := domains + slices[i].domains;
      edges := edges + slices[i].edges;
    }
    assert slices[..|slices|] == slices;
    graph := Slice(domains, edges);
  }

  lemma MergeOfThree(a: Slice, b: Slice, c: Slice)
    ensures MergedEdges([a, b, c]) == a.edges + b.edges + c.edges
    ensures MergedDomains([a, b, c]).Keys == a.domains.Keys + b.domains.Keys + c.domains.Keys
  {
    var abc := [a, b, c];
    assert abc[..2] == [a, b] && [a, b][..1] == [a] && [a][..0] == [];
    assert MergedEdges([a]) == a.edges && MergedDomains([a]) == a.domains;
  }

  /** `build`: later slices overwrite domains of the same id; edges are appended. */
  method Build(s: Scan, h: Heuristics) returns (graph: Slice)
    ensures graph.edges == AllEdges(s, h)
    ensures graph.domains.Keys == AllDomainIds(s, h)
    ensures forall id | id in graph.domains :: graph.domains[id].id == id && graph.domains[id].platform + ":" <= id
  {
    var github := DeriveGithubSlice(s.subjectOrgs, s.secrets);
    var gcp := DeriveGcpSlice(s.poolProjects, s.providers, s.accounts, s.keys, h);
    var cloudflare := DeriveCloudflareSlice(s.apps, s.policies, s.idps, s.tokens);
    graph := Merge([github, gcp, cloudflare]);
    MergeOfThree(github, gcp, cloudflare);
  }
}
