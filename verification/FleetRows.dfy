// Rows of the fleet report: one row per guest and hypervisor, the richest one, and the totals.

module FleetRows {
  import opened Wrappers
  import opened Records

  datatype Row = Row(
    hypervisor: string, name: string, state: string, vcpus: Option<int>, memoryMib: Option<int>,
    ips: seq<string>, macs: seq<string>)

  function Richness(r: Row): nat {
    (if r.vcpus.Some? then 1 else 0) + (if r.memoryMib.Some? then 1 else 0)
    + (if r.ips != [] then 1 else 0) + (if r.macs != [] then 1 else 0)
  }

  datatype Field = Vcpus | Memory | Ips | Macs

  predicate Knows(r: Row, f: Field) {
    match f
    case Vcpus => r.vcpus != None
    case Memory => r.memoryMib != None
    case Ips => |r.ips| > 0
    case Macs => |r.macs| > 0
  }

  function KnownTo(r: Row): Field -> bool {
    (f: Field) => Knows(r, f)
  }

  /** Richness is how many of the four fields are known. */
  lemma RichnessCounts(r: Row)
    ensures Richness(r) == |Where([Vcpus, Memory, Ips, Macs], KnownTo(r))|
  {
    var p := KnownTo(r);
    assert [Vcpus, Memory, Ips, Macs][1..] == [Memory, Ips, Macs] && [Memory, Ips, Macs][1..] == [Ips, Macs];
    assert [Ips, Macs][1..] == [Macs] && [Macs][1..] == [];
    assert |Where([Macs], p)| == if Knows(r, Macs) then 1 else 0;
    assert |Where([Ips, Macs], p)| == (if Knows(r, Ips) then 1 else 0) + |Where([Macs], p)|;
    assert |Where([Memory, Ips, Macs], p)| == (if Knows(r, Memory) then 1 else 0) + |Where([Ips, Macs], p)|;
  }

  predicate Named(r: Row) {
    r.name != "unknown" && r.name != ""
  }

  function Key(r: Row): string {
    r.hypervisor + "::" + r.name
  }

  /** JavaScript's Map as far as it is used here: keys in insertion order, and a value for each. */
  datatype Best = Best(keys: seq<string>, rows: map<string, Row>)

  /** Setting a key keeps its place if it has one. */
  function Put(b: Best, r: Row): Best {
    Best(if Key(r) in b.rows then b.keys else b.keys + [Key(r)], b.rows[Key(r) := r])
  }

  function Absorb(b: Best, r: Row): Best {
    if !Named(r) || (Key(r) in b.rows && Richness(r) <= Richness(b.rows[Key(r)])) then b else Put(b, r)
  }

  function BestOf(rows: seq<Row>): Best {
    if rows == [] then Best([], map[]) else Absorb(BestOf(rows[..|rows| - 1]), rows[|rows| - 1])
  }

  function Unnamed(rows: seq<Row>): seq<Row> {
    if rows == [] then []
    else Unnamed(rows[..|rows| - 1]) + (if Named(rows[|rows| - 1]) then [] else [rows[|rows| - 1]])
  }

  ghost predicate Sound(b: Best) {
    (forall k :: k in b.keys <==> k in b.rows) && forall i, j | 0 <= i < j < |b.keys| :: b.keys[i] != b.keys[j]
  }

  function Values(b: Best): (r: seq<Row>)
    requires forall k | k in b.keys :: k in b.rows
    ensures |r| == |b.keys| && forall i | 0 <= i < |r| :: r[i] == b.rows[b.keys[i]]
  {
    seq(|b.keys|, i requires 0 <= i < |b.keys| => assert b.keys[i] in b.keys; b.rows[b.keys[i]])
  }

  lemma {:induction false} BestIsSound(rows: seq<Row>)
    ensures Sound(BestOf(rows))
  {
    if rows != [] {
      BestIsSound(rows[..|rows| - 1]);
    }
  }

  function Deduped(rows: seq<Row>): seq<Row> {
    BestIsSound(rows);
    Values(BestOf(rows)) + Unnamed(rows)
  }

  method DedupeRows(rows: seq<Row>) returns (out: seq<Row>)
    ensures out == Deduped(rows)
  {
    var best := Best([], map[]);
    var passthrough: seq<Row> := [];
    for i := 0 to |rows|
      invariant best == BestOf(rows[..i]) && passthrough == Unnamed(rows[..i])
    {
      var r := rows[i];
      assert rows[..i + 1][..i] == rows[..i];
      if !Named(r) {
        passthrough := passthrough + [r];
      } else if Key(r) !in best.rows || Richness(r) > Richness(best.rows[Key(r)]) {
        best := Put(best, r);
      }
    }
    assert rows[..|rows|] == rows;
    BestIsSound(rows);
    out := Values(best) + passthrough;
  }

  // ---------- A stable argmax ----------

  /** Row `i` is the earliest of the richest rows with its key. */
  ghost predicate EarliestRichest(rows: seq<Row>, i: nat) {
    && i < |rows| && Named(rows[i])
    && (forall j | 0 <= j < i && Named(rows[j]) && Key(rows[j]) == Key(rows[i]) ::
          Richness(rows[j]) < Richness(rows[i]))
    && (forall j | i < j < |rows| && Named(rows[j]) && Key(rows[j]) == Key(rows[i]) ::
          Richness(rows[j]) <= Richness(rows[i]))
  }

  /** The keys in the order in which they are first seen. */
  function FirstSeen(rows: seq<Row>): seq<string> {
    if rows == [] then []
    else
      var before, r := FirstSeen(rows[..|rows| - 1]), rows[|rows| - 1];
      if Named(r) && Key(r) !in before then before + [Key(r)] else before
  }

  lemma {:induction false} KeysInFirstSeenOrder(rows: seq<Row>)
    ensures BestOf(rows).keys == FirstSeen(rows)
  {
    if rows != [] {
      KeysInFirstSeenOrder(rows[..|rows| - 1]);
      BestIsSound(rows[..|rows| - 1]);
    }
  }

  /** Every named row's key is kept. */
  lemma {:induction false} KeyIsHeld(rows: seq<Row>, j: nat)
    requires j < |rows| && Named(rows[j])
    ensures Key(rows[j]) in BestOf(rows).rows
  {
    if j < |rows| - 1 {
      KeyIsHeld(rows[..|rows| - 1], j);
    }
  }

  /** The row kept for a key is the earliest of its richest rows. */
  lemma {:induction false} KeptIsEarliestRichest(rows: seq<Row>, k: string) returns (i: nat)
    requires k in BestOf(rows).rows
    ensures EarliestRichest(rows, i) && Key(rows[i]) == k && BestOf(rows).rows[k] == rows[i]
  {
    var n := |rows| - 1;
    var front, r := rows[..n], rows[n];
    if Named(r) && Key(r) == k && (k !in BestOf(front).rows || Richness(r) > Richness(BestOf(front).rows[k])) {
      i := n;
      forall j | 0 <= j < n && Named(rows[j]) && Key(rows[j]) == k
        ensures Richness(rows[j]) < Richness(r)
      {
        KeyIsHeld(front, j);
        var m := KeptIsEarliestRichest(front, k);
        assert front[j] == rows[j];
      }
    } else {
      i := KeptIsEarliestRichest(front, k);
      assert forall j | 0 <= j < n :: front[j] == rows[j];
    }
  }

  lemma {:induction false} UnnamedAreKept(rows: seq<Row>)
    ensures forall i | 0 <= i < |rows| && !Named(rows[i]) :: rows[i] in Unnamed(rows)
  {
    if rows != [] {
      UnnamedAreKept(rows[..|rows| - 1]);
    }
  }

  /**
   * What deduplication keeps, all at once: one row per key in first-seen order, each the earliest
   * of the richest with its key, then every unnamed row.
   */
  lemma DedupedIsStableArgmax(rows: seq<Row>)
    ensures var out := Deduped(rows);
            && |out| == |FirstSeen(rows)| + |Unnamed(rows)|
            && out[|FirstSeen(rows)|..] == Unnamed(rows)
            && (forall i | 0 <= i < |rows| && rows[i].name !in {"", "unknown"} :: Key(rows[i]) in FirstSeen(rows))
            && (forall i | 0 <= i < |rows| && rows[i].name in {"", "unknown"} :: rows[i] in Unnamed(rows))
            && (forall p | 0 <= p < |FirstSeen(rows)| ::
                  Key(out[p]) == FirstSeen(rows)[p] && exists i: nat :: EarliestRichest(rows, i) && out[p] == rows[i])
  {
    var b, out := BestOf(rows), Deduped(rows);
    BestIsSound(rows);
    KeysInFirstSeenOrder(rows);
    forall i | 0 <= i < |rows| && Named(rows[i])
      ensures Key(rows[i]) in FirstSeen(rows)
    {
      KeyIsHeld(rows, i);
    }
    UnnamedAreKept(rows);
    forall p | 0 <= p < |FirstSeen(rows)|
      ensures Key(out[p]) == FirstSeen(rows)[p] && exists i: nat :: EarliestRichest(rows, i) && out[p] == rows[i]
    {
      assert b.keys[p] in b.keys;
      var i := KeptIsEarliestRichest(rows, b.keys[p]);
      assert out[p] == Values(b)[p];
    }
  }

  // ---------- Idempotence ----------

  function Keys(rows: seq<Row>): seq<string> {
    seq(|rows|, i requires 0 <= i < |rows| => Key(rows[i]))
  }

  /** The table holds these very rows, in their order, and no others. */
  ghost predicate Holds(b: Best, rows: seq<Row>) {
    && b.keys == Keys(rows)
    && (forall k | k in b.rows :: k in b.keys)
    && forall i | 0 <= i < |rows| :: Key(rows[i]) in b.rows && b.rows[Key(rows[i])] == rows[i]
  }

  lemma PutFresh(b: Best, front: seq<Row>, r: Row)
    requires Holds(b, front) && forall i | 0 <= i < |front| :: Key(front[i]) != Key(r)
    ensures Key(r) !in b.rows && Holds(Put(b, r), front + [r])
  {
    assert Keys(front + [r]) == Keys(front) + [Key(r)];
  }

  /** Distinct named rows come through unchanged. */
  lemma {:induction false} DistinctRowsStay(rows: seq<Row>)
    requires forall i | 0 <= i < |rows| :: Named(rows[i])
    requires forall i, j | 0 <= i < j < |rows| :: Key(rows[i]) != Key(rows[j])
    ensures Holds(BestOf(rows), rows)
  {
    if rows != [] {
      var n := |rows| - 1;
      DistinctRowsStay(rows[..n]);
      PutFresh(BestOf(rows[..n]), rows[..n], rows[n]);
      assert rows == rows[..n] + [rows[n]];
    }
  }

  lemma {:induction false} NoneUnnamed(rows: seq<Row>)
    requires forall i | 0 <= i < |rows| :: Named(rows[i])
    ensures Unnamed(rows) == []
  {
    if rows != [] {
      NoneUnnamed(rows[..|rows| - 1]);
    }
  }

  lemma OneMoreUnnamed(rows: seq<Row>, r: Row)
    requires !Named(r)
    ensures BestOf(rows + [r]) == BestOf(rows) && Unnamed(rows + [r]) == Unnamed(rows) + [r]
  {
    assert (rows + [r])[..|rows|] == rows;
  }

  lemma {:induction false} UnnamedTail(rows: seq<Row>, tail: seq<Row>)
    requires forall i | 0 <= i < |tail| :: !Named(tail[i])
    ensures BestOf(rows + tail) == BestOf(rows) && Unnamed(rows + tail) == Unnamed(rows) + tail
  {
    if tail == [] {
      assert rows + tail == rows;
    } else {
      var n := |tail| - 1;
      UnnamedTail(rows, tail[..n]);
      OneMoreUnnamed(rows + tail[..n], tail[n]);
      assert rows + tail == rows + tail[..n] + [tail[n]];
      assert Unnamed(rows) + tail == Unnamed(rows) + tail[..n] + [tail[n]];
    }
  }

  lemma {:induction false} UnnamedAreUnnamed(rows: seq<Row>)
    ensures forall i | 0 <= i < |Unnamed(rows)| :: !Named(Unnamed(rows)[i])
  {
    if rows != [] {
      UnnamedAreUnnamed(rows[..|rows| - 1]);
    }
  }

  /** The rows kept are named and have the kept keys. */
  lemma ValuesOfBest(rows: seq<Row>)
    ensures Sound(BestOf(rows))
    ensures var kept := Values(BestOf(rows));
            Keys(kept) == BestOf(rows).keys && forall i | 0 <= i < |kept| :: Named(kept[i])
  {
    var b := BestOf(rows);
    BestIsSound(rows);
    forall i | 0 <= i < |b.keys|
      ensures Named(Values(b)[i]) && Key(Values(b)[i]) == b.keys[i]
    {
      assert b.keys[i] in b.keys;
      var m := KeptIsEarliestRichest(rows, b.keys[i]);
    }
  }

  lemma DistinctRowsAreTheirBest(rows: seq<Row>)
    requires forall i | 0 <= i < |rows| :: Named(rows[i])
    requires forall i, j | 0 <= i < j < |rows| :: Key(rows[i]) != Key(rows[j])
    ensures Sound(BestOf(rows)) && Values(BestOf(rows)) == rows
  {
    BestIsSound(rows);
    DistinctRowsStay(rows);
  }

  lemma DedupeIsIdempotent(rows: seq<Row>)
    ensures Deduped(Deduped(rows)) == Deduped(rows)
  {
    var b := BestOf(rows);
    ValuesOfBest(rows);
    var kept, rest := Values(b), Unnamed(rows);
    assert forall i, j | 0 <= i < j < |kept| :: Keys(kept)[i] != Keys(kept)[j];
    DistinctRowsAreTheirBest(kept);
    NoneUnnamed(kept);
    UnnamedAreUnnamed(rows);
    UnnamedTail(kept, rest);
    assert [] + rest == rest;
  }

  /** For the three hypervisor labels, one key means one hypervisor and one name. */
  lemma KeyIdentifiesGuest(a: Row, b: Row)
    requires a.hypervisor in {"talos", "proxmox", "truenas"} && b.hypervisor in {"talos", "proxmox", "truenas"}
    requires Key(a) == Key(b)
    ensures a.hypervisor == b.hypervisor && a.name == b.name
  {
    assert Key(a)[0] == a.hypervisor[0] && Key(b)[0] == b.hypervisor[0];
    assert Key(a)[1] == a.hypervisor[1] && Key(b)[1] == b.hypervisor[1];
    var n := |a.hypervisor|;
    assert a.hypervisor == b.hypervisor;
    assert a.name == Key(a)[n + 2..] && b.name == Key(b)[n + 2..];
  }

  // ---------- Totals ----------

  datatype Sums = Sums(count: nat, vcpus: int, memoryMib: int)

  function Value(x: Option<int>): int {
    if x.Some? then x.value else 0
  }

  function Plus(a: Sums, r: Row): Sums {
    Sums(a.count + 1, a.vcpus + Value(r.vcpus), a.memoryMib + Value(r.memoryMib))
  }

  /** The sums over the rows of one hypervisor, directly. */
  function SumsOf(rows: seq<Row>, hypervisor: string): Sums {
    if rows == [] then Sums(0, 0, 0)
    else
      var before, r := SumsOf(rows[..|rows| - 1], hypervisor), rows[|rows| - 1];
      if r.hypervisor != hypervisor then before
      else Sums(1 + before.count,
                match r.vcpus { case Some(n) => before.vcpus + n case None => before.vcpus },
                match r.memoryMib { case Some(n) => before.memoryMib + n case None => before.memoryMib })
  }

  /** The totals loop of `renderFleet`, over the rows in any display order. */
  method TotalsByHypervisor(rows: seq<Row>) returns (totals: map<string, Sums>)
    ensures forall h :: h in totals <==> exists r | r in rows :: r.hypervisor == h
    ensures forall h | h in totals :: totals[h] == SumsOf(rows, h)
  {
    totals := map[];
    for i := 0 to |rows|
      invariant forall h :: h in totals <==> exists r | r in rows[..i] :: r.hypervisor == h
      invariant forall h :: SumsOf(rows[..i], h) == if h in totals then totals[h] else Sums(0, 0, 0)
    {
      var r := rows[i];
      assert rows[..i + 1][..i] == rows[..i] && rows[..i + 1] == rows[..i] + [r];
      var agg := if r.hypervisor in totals then totals[r.hypervisor] else Sums(0, 0, 0);
      totals := totals[r.hypervisor := Plus(agg, r)];
    }
    assert rows[..|rows|] == rows;
  }

  lemma {:induction false} SumsWithout(rows: seq<Row>, k: nat, h: string)
    requires k < |rows|
    ensures var rest := SumsOf(rows[..k] + rows[k + 1..], h);
            SumsOf(rows, h) == if rows[k].hypervisor == h then Plus(rest, rows[k]) else rest
  {
    var n := |rows| - 1;
    if k == n {
      assert rows[..k] + rows[k + 1..] == rows[..n];
    } else {
      var without := rows[..k] + rows[k + 1..];
      assert without[..|without| - 1] == rows[..n][..k] + rows[..n][k + 1..];
      SumsWithout(rows[..n], k, h);
    }
  }

  /** The last row is somewhere among the sorted ones; without it, both are still alike. */
  lemma LastIsAmong(rows: seq<Row>, sorted: seq<Row>) returns (k: nat)
    requires multiset(sorted) == multiset(rows) && rows != []
    ensures k < |sorted| && sorted[k] == rows[|rows| - 1]
    ensures multiset(sorted[..k] + sorted[k + 1..]) == multiset(rows[..|rows| - 1])
  {
    var r := rows[|rows| - 1];
    assert r in multiset(sorted);
    k :| 0 <= k < |sorted| && sorted[k] == r;
    var rest := sorted[..k] + sorted[k + 1..];
    assert sorted == sorted[..k] + [r] + sorted[k + 1..];
    assert rows == rows[..|rows| - 1] + [r];
    assert multiset(rest) == multiset(sorted) - multiset{r};
    assert multiset(rows[..|rows| - 1]) == multiset(rows) - multiset{r};
  }

  /** Display order does not matter: the totals of the sorted rows are those of the deduplicated ones. */
  lemma {:induction false} TotalsIgnoreOrder(rows: seq<Row>, sorted: seq<Row>, h: string)
    requires multiset(sorted) == multiset(rows)
    ensures SumsOf(sorted, h) == SumsOf(rows, h)
    decreases |rows|
  {
    assert |multiset(sorted)| == |multiset(rows)|;
    if rows != [] {
      var k := LastIsAmong(rows, sorted);
      TotalsIgnoreOrder(rows[..|rows| - 1], sorted[..k] + sorted[k + 1..], h);
      SumsWithout(sorted, k, h);
    }
  }
}
