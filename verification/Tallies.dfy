// Counting keys into a map, and what such a map adds up to.

module Tallies {
  function Bumped<K(==)>(counts: map<K, nat>, key: K): map<K, nat> {
    counts[key := (if key in counts then counts[key] else 0) + 1]
  }

  /** Keys counted with multiplicity, as `counts[k] = (counts[k] ?? 0) + 1` does. */
  function Tally<K(==)>(keys: seq<K>): map<K, nat> {
    if keys == [] then map[] else Bumped(Tally(keys[..|keys| - 1]), keys[|keys| - 1])
  }

  method CountUp<K(==)>(keys: seq<K>) returns (counts: map<K, nat>)
    ensures counts == Tally(keys)
  {
    counts := map[];
    for i := 0 to |keys|
      invariant counts == Tally(keys[..i])
    {
      assert keys[..i + 1][..i] == keys[..i];
      counts := Bumped(counts, keys[i]);
    }
    assert keys[..|keys|] == keys;
  }

  /** The sum of a map's values. */
  ghost function Total<K(!new)>(counts: map<K, nat>): nat {
    if counts.Keys == {} then 0
    else
      var k :| k in counts;
      counts[k] + Total(counts - {k})
  }

  lemma {:induction false} TotalWithout<K(!new)>(counts: map<K, nat>, k: K)
    requires k in counts
    ensures Total(counts) == counts[k] + Total(counts - {k})
    decreases |counts|
  {
    var j :| j in counts && Total(counts) == counts[j] + Total(counts - {j});
    if j != k {
      assert |counts - {j}| < |counts| by {
        assert (counts - {j}).Keys == counts.Keys - {j};
        assert |(counts - {j}).Keys| == |counts.Keys| - 1;
      }
      assert |counts - {k}| < |counts| by {
        assert (counts - {k}).Keys == counts.Keys - {k};
        assert |(counts - {k}).Keys| == |counts.Keys| - 1;
      }
      TotalWithout(counts - {j}, k);
      TotalWithout(counts - {k}, j);
      assert counts - {j} - {k} == counts - {k} - {j};
    }
  }

  lemma TotalBumped<K(!new)>(counts: map<K, nat>, key: K)
    ensures Total(Bumped(counts, key)) == Total(counts) + 1
  {
    var b := Bumped(counts, key);
    TotalWithout(b, key);
    if key in counts {
      TotalWithout(counts, key);
      assert b - {key} == counts - {key};
    } else {
      assert b - {key} == counts;
    }
  }

  function Occurrences<K(==)>(keys: seq<K>, key: K): nat {
    multiset(keys)[key]
  }

  /** A tally holds exactly the keys that occur, each with its number of occurrences, and adds up to all of them. */
  lemma {:induction false} TallySpec<K(!new)>(keys: seq<K>)
    ensures Total(Tally(keys)) == |keys|
    ensures forall k :: k in Tally(keys) <==> k in keys
    ensures forall k | k in Tally(keys) :: Tally(keys)[k] == Occurrences(keys, k)
  {
    if keys != [] {
      var front, last := keys[..|keys| - 1], keys[|keys| - 1];
      assert keys == front + [last];
      TallySpec(front);
      TotalBumped(Tally(front), last);
      assert multiset(keys) == multiset(front) + multiset{last};
      assert last in front || Occurrences(front, last) == 0;
    }
  }
}
