// The scorecard: tallies over the graph, rounded coverage, the findings report grouped by
// severity, and the threshold gate.

module Scorecard {
  import opened Records
  import opened Tallies
  import opened TrustGraph

  datatype Inventory = Inventory(
    domainCount: nat, edgeCount: nat,
    byCredentialType: map<CredentialType, nat>, byPlatform: map<string, nat>,
    ephemeralEdgeCount: nat, ephemeralPct: nat,
    conditionalAccessEdgeCount: nat, conditionalAccessPct: nat,
    findingsBySeverity: map<Severity, nat>)

  // ---------- What the numbers mean ----------

  function Platforms(domains: seq<Domain>): seq<string> {
    seq(|domains|, i requires 0 <= i < |domains| => domains[i].platform)
  }

  function Types(edges: seq<Edge>): seq<CredentialType> {
    seq(|edges|, i requires 0 <= i < |edges| => edges[i].credentialType)
  }

  function SeveritiesOf(codes: seq<Code>): seq<Severity> {
    seq(|codes|, i requires 0 <= i < |codes| => SeverityOf(codes[i]))
  }

  /** Every finding of every edge, in order, by severity. */
  function Severities(edges: seq<Edge>): seq<Severity> {
    if edges == [] then [] else Severities(edges[..|edges| - 1]) + SeveritiesOf(edges[|edges| - 1].findings)
  }

  function EphemeralEdges(edges: seq<Edge>): nat {
    if edges == [] then 0
    else EphemeralEdges(edges[..|edges| - 1]) + (if edges[|edges| - 1].ephemeral then 1 else 0)
  }

  function GatedEdges(edges: seq<Edge>): nat {
    if edges == [] then 0
    else GatedEdges(edges[..|edges| - 1]) + (if edges[|edges| - 1].access.present then 1 else 0)
  }

  /** `Math.round(100 * n / total)`, half up; an empty graph counts as fully covered. */
  function Pct(n: nat, total: nat): nat {
    if total == 0 then 100 else (200 * n + total) / (2 * total)
  }

  /** What the scorecard of a graph says. */
  function InventoryOf(domains: seq<Domain>, edges: seq<Edge>): Inventory {
    Inventory(|domains|, |edges|, Tally(Types(edges)), Tally(Platforms(domains)),
              EphemeralEdges(edges), Pct(EphemeralEdges(edges), |edges|),
              GatedEdges(edges), Pct(GatedEdges(edges), |edges|), Tally(Severities(edges)))
  }

  lemma OneMoreFinding(before: seq<Severity>, findings: seq<Code>, j: nat)
    requires j < |findings|
    ensures Tally(before + SeveritiesOf(findings[..j + 1])) ==
            Bumped(Tally(before + SeveritiesOf(findings[..j])), SeverityOf(findings[j]))
  {
    var now := before + SeveritiesOf(findings[..j + 1]);
    assert now[..|now| - 1] == before + SeveritiesOf(findings[..j]);
  }

  /** The inner loop over one edge's findings. */
  method BumpAll(counts: map<Severity, nat>, ghost before: seq<Severity>, findings: seq<Code>)
    returns (r: map<Severity, nat>)
    requires counts == Tally(before)
    ensures r == Tally(before + SeveritiesOf(findings))
  {
    r := counts;
    assert before + SeveritiesOf([]) == before;
    for j := 0 to |findings|
      invariant r == Tally(before + SeveritiesOf(findings[..j]))
    {
      OneMoreFinding(before, findings, j);
      r := Bumped(r, SeverityOf(findings[j]));
    }
    assert findings[..|findings|] == findings;
  }

  /** `computeInventory`: one loop over the domains, one over the edges and their findings. */
  method ComputeInventory(domains: seq<Domain>, edges: seq<Edge>) returns (inv: Inventory)
    ensures inv == InventoryOf(domains, edges)
  {
    var byPlatform := CountUp(Platforms(domains));
    var byCredentialType: map<CredentialType, nat> := map[];
    var findingsBySeverity: map<Severity, nat> := map[];
    var ephemeral, gated := 0, 0;
    for i := 0 to |edges|
      invariant byCredentialType == Tally(Types(edges[..i]))
      invariant findingsBySeverity == Tally(Severities(edges[..i]))
      invariant ephemeral == EphemeralEdges(edges[..i]) && gated == GatedEdges(edges[..i])
    {
      var edge := edges[i];
      assert edges[..i + 1][..i] == edges[..i];
      assert Types(edges[..i + 1])[..i] == Types(edges[..i]);
      byCredentialType := Bumped(byCredentialType, edge.credentialType);
      ephemeral := if edge.ephemeral then ephemeral + 1 else ephemeral;
      gated := if edge.access.present then gated + 1 else gated;
      findingsBySeverity := BumpAll(findingsBySeverity, Severities(edges[..i]), edge.findings);
    }
    assert edges[..|edges|] == edges;
    inv := Inventory(|domains|, |edges|, byCredentialType, byPlatform,
                     ephemeral, Pct(ephemeral, |edges|), gated, Pct(gated, |edges|), findingsBySeverity);
  }

  /** The report's group of one severity: `findings.filter(...)`. */
  function Group(severities: seq<Severity>, s: Severity): seq<Severity> {
    if severities == [] then []
    else
      Group(severities[..|severities| - 1], s)
      + (if severities[|severities| - 1] == s then [severities[|severities| - 1]] else [])
  }

  lemma {:induction false} GroupSize(severities: seq<Severity>, s: Severity)
    ensures |Group(severities, s)| == Occurrences(severities, s)
  {
    if severities != [] {
      var front, last := severities[..|severities| - 1], severities[|severities| - 1];
      assert severities == front + [last];
      GroupSize(front, s);
    }
  }

  function TallyOf<K>(counts: map<K, nat>, k: K): nat {
    if k in counts then counts[k] else 0
  }

  lemma {:induction false} GroupsCoverAll(severities: seq<Severity>)
    ensures |severities| ==
            |Group(severities, Critical)| + |Group(severities, High)| + |Group(severities, Medium)|
            + |Group(severities, Low)| + |Group(severities, Info)|
  {
    if severities != [] {
      GroupsCoverAll(severities[..|severities| - 1]);
    }
  }

  /** The tallies add up to the edges, the domains and the findings, and each report group has its tallied size. */
  lemma ScorecardAgrees(domains: seq<Domain>, edges: seq<Edge>)
    ensures Total(Tally(Types(edges))) == |edges|
    ensures Total(Tally(Platforms(domains))) == |domains|
    ensures Total(Tally(Severities(edges))) == |Severities(edges)|
    ensures forall s: Severity :: |Group(Severities(edges), s)| == TallyOf(Tally(Severities(edges)), s)
    ensures |Severities(edges)| ==
            |Group(Severities(edges), Critical)| + |Group(Severities(edges), High)| + |Group(Severities(edges), Medium)|
            + |Group(Severities(edges), Low)| + |Group(Severities(edges), Info)|
  {
    TallySpec(Types(edges));
    TallySpec(Platforms(domains));
    TallySpec(Severities(edges));
    forall s: Severity
      ensures |Group(Severities(edges), s)| == TallyOf(Tally(Severities(edges)), s)
    {
      GroupSize(Severities(edges), s);
    }
    GroupsCoverAll(Severities(edges));
  }

  function IsOfType(c: CredentialType): Edge -> bool {
    (e: Edge) => e.credentialType == c
  }

  function IsOfPlatform(platform: string): Domain -> bool {
    (d: Domain) => d.platform == platform
  }

  lemma {:induction false} TypesAreCounted(edges: seq<Edge>, c: CredentialType)
    ensures Occurrences(Types(edges), c) == |Where(edges, IsOfType(c))|
  {
    if edges != [] {
      assert Types(edges) == [edges[0].credentialType] + Types(edges[1..]);
      TypesAreCounted(edges[1..], c);
    }
  }

  lemma {:induction false} PlatformsAreCounted(domains: seq<Domain>, platform: string)
    ensures Occurrences(Platforms(domains), platform) == |Where(domains, IsOfPlatform(platform))|
  {
    if domains != [] {
      assert Platforms(domains) == [domains[0].platform] + Platforms(domains[1..]);
      PlatformsAreCounted(domains[1..], platform);
    }
  }

  /** The tallies say how many edges have each credential type, and how many domains each platform. */
  lemma TalliesExactly(domains: seq<Domain>, edges: seq<Edge>, c: CredentialType, platform: string)
    ensures var inv := InventoryOf(domains, edges);
            && TallyOf(inv.byCredentialType, c) == |Where(edges, IsOfType(c))|
            && TallyOf(inv.byPlatform, platform) == |Where(domains, IsOfPlatform(platform))|
  {
    TallySpec(Types(edges));
    TallySpec(Platforms(domains));
    TypesAreCounted(edges, c);
    PlatformsAreCounted(domains, platform);
  }

  // ---------- Rounding ----------

  lemma MulMono(a: int, b: int, c: int)
    requires a <= b && c >= 0
    ensures a * c <= b * c
  {
  }

  /** Euclidean division by a positive number, as a comparison. */
  lemma QuotientAtLeast(a: int, b: int, k: int)
    requires b > 0
    ensures a / b >= k <==> k * b <= a
    ensures (a / b) * b <= a < (a / b) * b + b
  {
    var q := a / b;
    if q >= k {
      MulMono(k, q, b);
    } else {
      MulMono(q + 1, k, b);
    }
  }

  /** The rounded figure is within half a point of the true coverage and stays between 0 and 100. */
  lemma PctBound(n: nat, total: nat)
    requires n <= total
    ensures 0 <= Pct(n, total) <= 100
    ensures 0 - total <= 2 * (Pct(n, total) * total - 100 * n) <= total
  {
    if total > 0 {
      QuotientAtLeast(200 * n + total, 2 * total, 101);
      assert Pct(n, total) * (2 * total) == 2 * (Pct(n, total) * total);
    }
  }

  lemma {:induction false} CountsAreBounded(edges: seq<Edge>)
    ensures EphemeralEdges(edges) <= |edges| && GatedEdges(edges) <= |edges|
  {
    if edges != [] {
      CountsAreBounded(edges[..|edges| - 1]);
    }
  }

  // ---------- The gate ----------

  datatype Thresholds = Thresholds(
    maxCritical: nat, maxHigh: nat, maxMedium: nat, minEphemeralPct: real, minConditionalAccessPct: real)

  datatype Violation = TooManyCritical | TooManyHigh | TooManyMedium | TooFewEphemeral | TooFewGated

  /** The thresholds of a run without arguments. */
  const DEFAULTS := Thresholds(0, 0, 9007199254740991, 0.0, 0.0)

  predicate Passes(inv: Inventory, t: Thresholds) {
    && TallyOf(inv.findingsBySeverity, Critical) <= t.maxCritical
    && TallyOf(inv.findingsBySeverity, High) <= t.maxHigh
    && TallyOf(inv.findingsBySeverity, Medium) <= t.maxMedium
    && inv.ephemeralPct as real >= t.minEphemeralPct
    && inv.conditionalAccessPct as real >= t.minConditionalAccessPct
  }

  method AssertPosture(inv: Inventory, t: Thresholds) returns (violations: seq<Violation>)
    ensures violations == [] <==> Passes(inv, t)
    ensures TooManyCritical in violations <==> TallyOf(inv.findingsBySeverity, Critical) > t.maxCritical
    ensures TooManyHigh in violations <==> TallyOf(inv.findingsBySeverity, High) > t.maxHigh
    ensures TooManyMedium in violations <==> TallyOf(inv.findingsBySeverity, Medium) > t.maxMedium
    ensures TooFewEphemeral in violations <==> inv.ephemeralPct as real < t.minEphemeralPct
    ensures TooFewGated in violations <==> inv.conditionalAccessPct as real < t.minConditionalAccessPct
  {
    violations := [];
    if TallyOf(inv.findingsBySeverity, Critical) > t.maxCritical {
      violations := violations + [TooManyCritical];
    }
    if TallyOf(inv.findingsBySeverity, High) > t.maxHigh {
      violations := violations + [TooManyHigh];
    }
    if TallyOf(inv.findingsBySeverity, Medium) > t.maxMedium {
      violations := violations + [TooManyMedium];
    }
    if inv.ephemeralPct as real < t.minEphemeralPct {
      violations := violations + [TooFewEphemeral];
    }
    if inv.conditionalAccessPct as real < t.minConditionalAccessPct {
      violations := violations + [TooFewGated];
    }
  }

  lemma CodesOfSeverity(codes: seq<Code>, s: Severity)
    ensures s in SeveritiesOf(codes) <==> exists f | f in codes :: SeverityOf(f) == s
  {
    forall i | 0 <= i < |codes|
      ensures SeveritiesOf(codes)[i] == SeverityOf(codes[i])
    {
    }
    if f :| f in codes && SeverityOf(f) == s {
      var i :| 0 <= i < |codes| && codes[i] == f;
      assert SeveritiesOf(codes)[i] == s;
    }
  }

  lemma {:induction false} SeveritiesAreOfFindings(edges: seq<Edge>, s: Severity)
    ensures s in Severities(edges) <==> exists e, f | e in edges && f in e.findings :: SeverityOf(f) == s
  {
    if edges != [] {
      var front, last := edges[..|edges| - 1], edges[|edges| - 1];
      assert edges == front + [last];
      SeveritiesAreOfFindings(front, s);
      CodesOfSeverity(last.findings, s);
    }
  }

  predicate Severe(code: Code) {
    SeverityOf(code) == Critical || SeverityOf(code) == High
  }

  predicate NoneSevere(edges: seq<Edge>) {
    forall e, f | e in edges && f in e.findings :: !Severe(f)
  }

  lemma NoneSevereExactly(edges: seq<Edge>)
    ensures NoneSevere(edges) <==> Critical !in Severities(edges) && High !in Severities(edges)
  {
    SeveritiesAreOfFindings(edges, Critical);
    SeveritiesAreOfFindings(edges, High);
    if s: Severity :| (s == Critical || s == High) && s in Severities(edges) {
      var e, f :| e in edges && f in e.findings && SeverityOf(f) == s;
      assert Severe(f);
    } else {
      forall e, f | e in edges && f in e.findings
        ensures !Severe(f)
      {
        SeveritiesAreOfFindings(edges, SeverityOf(f));
      }
    }
  }

  lemma CountIsGroup(all: seq<Severity>, s: Severity)
    ensures TallyOf(Tally(all), s) == |Group(all, s)|
    ensures s in all <==> TallyOf(Tally(all), s) > 0
  {
    TallySpec(all);
    GroupSize(all, s);
    assert s in all <==> Occurrences(all, s) > 0;
  }

  /**
   * A run without arguments does not always pass: it passes exactly when no edge carries a critical
   * or high finding (and there are not more than 2^53 - 1 medium ones).
   */
  lemma BareRunPassesExactly(domains: seq<Domain>, edges: seq<Edge>)
    ensures Passes(InventoryOf(domains, edges), DEFAULTS) <==>
            NoneSevere(edges) && |Group(Severities(edges), Medium)| <= DEFAULTS.maxMedium
  {
    var all := Severities(edges);
    NoneSevereExactly(edges);
    CountIsGroup(all, Critical);
    CountIsGroup(all, High);
    CountIsGroup(all, Medium);
  }

  /** True coverage in percent. */
  function Coverage(n: nat, total: nat): real {
    if total == 0 then 100.0 else 100.0 * n as real / total as real
  }

  /** The least whole number not below `x`. */
  function Ceiling(x: real): (c: int)
    ensures (c - 1) as real < x <= c as real
  {
    if x.Floor as real == x then x.Floor else x.Floor + 1
  }

  /**
   * A floor is met by the rounded figure exactly when true coverage is at least half a point below the
   * floor rounded up.
   */
  lemma FloorMeans(n: nat, total: nat, floor: real)
    requires n <= total && 0.0 <= floor <= 100.0
    ensures Pct(n, total) as real >= floor <==> total == 0 || 2 * Ceiling(floor) * total <= 200 * n + total
  {
    var c := Ceiling(floor);
    assert Pct(n, total) as real >= floor <==> Pct(n, total) >= c;
    if total > 0 {
      QuotientAtLeast(200 * n + total, 2 * total, c);
      assert c * (2 * total) == 2 * c * total;
    }
  }

  lemma DivideBoth(x: real, e: real, y: real)
    requires e > 0.0 && x * e <= y
    ensures x <= y / e
  {
    var q := y / e;
    assert q * e == y;
    assert (x - q) * e <= 0.0;
  }

  /** Whatever the floor, passing it guarantees true coverage of at least the floor less half a point. */
  lemma PassingMeansCovered(n: nat, total: nat, floor: real)
    requires n <= total && Pct(n, total) as real >= floor && floor <= 100.0
    ensures Coverage(n, total) >= floor - 0.5
  {
    if total > 0 {
      PctBound(n, total);
      var q, e := Pct(n, total), total as real;
      assert 2 * (q * total) - 200 * n <= total;
      assert 2.0 * (q as real * e) - 200.0 * n as real <= e;
      assert (q as real - 0.5) * e <= 100.0 * n as real;
      DivideBoth((q as real) - 0.5, e, 100.0 * n as real);
    }
  }

  /** The half point is real: two edges of three ephemeral pass a floor of 67 percent. */
  lemma FloorCanBeMissed()
    ensures Pct(2, 3) >= 67 && Coverage(2, 3) < 67.0
  {
  }
}
