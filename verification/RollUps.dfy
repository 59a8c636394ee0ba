// Counting into a plain JavaScript object, `o[k] = (o[k] ?? 0) + 1`: a key that the object inherits
// from its prototype is read before it is ever set.

module RollUps {
  import opened Tallies

  /** What an own property holds: a count, or the text that adding 1 to an inherited value gives. */
  datatype Slot = Count(n: nat) | Text(s: string)

  type RollUp = map<string, Slot>

  const PROTO := "__proto__"

  /** The names that every plain object inherits. */
  const INHERITED: set<string> := {
    "constructor", "__defineGetter__", "__defineSetter__", "hasOwnProperty", "__lookupGetter__", "__lookupSetter__",
    "isPrototypeOf", "propertyIsEnumerable", "toString", "valueOf", "toLocaleString", PROTO}

  predicate Inherited(key: string) {
    key in INHERITED
  }

  function InheritedText(key: string): string {
    "function " + (if key == "constructor" then "Object" else key) + "() { [native code] }"
  }

  /** Setting `__proto__` to anything but an object changes nothing. */
  function Bump(o: RollUp, key: string): RollUp {
    if key in o then o[key := if o[key].Count? then Count(o[key].n + 1) else Text(o[key].s + "1")]
    else if key == PROTO then o
    else if Inherited(key) then o[key := Text(InheritedText(key) + "1")]
    else o[key := Count(1)]
  }

  function Rolled(keys: seq<string>): RollUp {
    if keys == [] then map[] else Bump(Rolled(keys[..|keys| - 1]), keys[|keys| - 1])
  }

  method RollUpAll(keys: seq<string>) returns (o: RollUp)
    ensures o == Rolled(keys)
  {
    o := map[];
    for i := 0 to |keys|
      invariant o == Rolled(keys[..i])
    {
      assert keys[..i + 1][..i] == keys[..i];
      o := Bump(o, keys[i]);
    }
    assert keys[..|keys|] == keys;
  }

  function Counts(o: RollUp): map<string, nat> {
    map k | k in o && o[k].Count? :: o[k].n
  }

  /** Every entry is a count, and they add up to `n`. */
  ghost predicate AddsUp(o: RollUp, n: nat) {
    (forall k | k in o :: o[k].Count?) && Total(Counts(o)) == n
  }

  function Ordinary(keys: seq<string>): (r: seq<string>)
    ensures |r| <= |keys|
  {
    if keys == [] then []
    else
      var last := keys[|keys| - 1];
      Ordinary(keys[..|keys| - 1]) + (if Inherited(last) then [] else [last])
  }

  /** The own properties are counts, but for the inherited names. */
  ghost predicate Sorted(o: RollUp) {
    forall k | k in o :: o[k].Text? <==> Inherited(k)
  }

  lemma BumpCounts(o: RollUp, key: string)
    requires Sorted(o)
    ensures Counts(Bump(o, key)) == if Inherited(key) then Counts(o) else Bumped(Counts(o), key)
  {
    assert forall k | k in Bump(o, key) && k != key :: k in o && Bump(o, key)[k] == o[k];
  }

  lemma BumpSorts(o: RollUp, key: string)
    requires Sorted(o)
    ensures Sorted(Bump(o, key))
    ensures forall k :: k in Bump(o, key) <==> k in o || (k == key && k != PROTO)
  {
  }

  lemma OrdinaryTally(keys: seq<string>)
    requires keys != []
    ensures var front, last := keys[..|keys| - 1], keys[|keys| - 1];
            Tally(Ordinary(keys)) ==
            if Inherited(last) then Tally(Ordinary(front)) else Bumped(Tally(Ordinary(front)), last)
  {
    var front, last, all := Ordinary(keys[..|keys| - 1]), keys[|keys| - 1], Ordinary(keys);
    if Inherited(last) {
      assert all == front;
    } else {
      assert all[..|all| - 1] == front && all[|all| - 1] == last;
    }
  }

  /** A roll-up counts the ordinary keys as a tally does, and holds text for the inherited names it met. */
  lemma {:induction false} RolledSpec(keys: seq<string>)
    ensures Counts(Rolled(keys)) == Tally(Ordinary(keys)) && Sorted(Rolled(keys))
    ensures forall k :: k in Rolled(keys) <==> k in keys && k != PROTO
  {
    if keys != [] {
      var front, last := keys[..|keys| - 1], keys[|keys| - 1];
      RolledSpec(front);
      BumpSorts(Rolled(front), last);
      BumpCounts(Rolled(front), last);
      OrdinaryTally(keys);
      assert keys == front + [last];
    }
  }

  /** The count held under a key; none is nothing. */
  function Tallied(o: RollUp, key: string): nat {
    if key in o && o[key].Count? then o[key].n else 0
  }

  lemma {:induction false} OrdinaryKeeps(keys: seq<string>, key: string)
    requires !Inherited(key)
    ensures Occurrences(Ordinary(keys), key) == Occurrences(keys, key)
  {
    if keys != [] {
      var front, last := keys[..|keys| - 1], keys[|keys| - 1];
      assert keys == front + [last];
      OrdinaryKeeps(front, key);
    }
  }

  /** A key that no object inherits is held with the number of its occurrences. */
  lemma RolledKey(keys: seq<string>, key: string)
    requires !Inherited(key)
    ensures Tallied(Rolled(keys), key) == Occurrences(keys, key)
  {
    var o := Rolled(keys);
    RolledSpec(keys);
    TallySpec(Ordinary(keys));
    OrdinaryKeeps(keys, key);
    assert key in Counts(o) <==> key in o && o[key].Count?;
  }

  lemma {:induction false} OrdinaryIsAll(keys: seq<string>)
    ensures |Ordinary(keys)| == |keys| <==> forall k | k in keys :: !Inherited(k)
  {
    if keys != [] {
      var front, last := keys[..|keys| - 1], keys[|keys| - 1];
      assert keys == front + [last];
      OrdinaryIsAll(front);
    }
  }

  /** A roll-up accounts for every key exactly when no key is an inherited name. */
  lemma AddsUpExactly(keys: seq<string>)
    ensures AddsUp(Rolled(keys), |keys|) <==> forall k | k in keys :: !Inherited(k)
  {
    RolledSpec(keys);
    TallySpec(Ordinary(keys));
    OrdinaryIsAll(keys);
    assert Inherited(PROTO);
    if forall k | k in keys :: !Inherited(k) {
      assert forall k | k in Rolled(keys) :: k in keys;
    }
  }
}
