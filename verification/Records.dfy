// Lists of records searched and filtered by a condition, as the host and the client both do.

module Records {
  import opened Wrappers

  /** The first record that meets the condition. */
  function First<T>(xs: seq<T>, p: T -> bool): Option<T> {
    if xs == [] then None else if p(xs[0]) then Some(xs[0]) else First(xs[1..], p)
  }

  /** The records that meet the condition, in order. */
  function Where<T>(xs: seq<T>, p: T -> bool): seq<T> {
    if xs == [] then [] else if p(xs[0]) then [xs[0]] + Where(xs[1..], p) else Where(xs[1..], p)
  }

  /** A left-to-right search that stops at the first match. */
  method FindFirst<T>(xs: seq<T>, p: T -> bool) returns (r: Option<T>)
    ensures r == First(xs, p)
  {
    for i := 0 to |xs|
      invariant First(xs, p) == First(xs[i..], p)
    {
      if p(xs[i]) {
        return Some(xs[i]);
      }
      assert xs[i..][1..] == xs[i + 1..];
    }
    r := None;
  }

  lemma {:induction false} FirstIsHeld<T>(xs: seq<T>, p: T -> bool)
    ensures First(xs, p).Some? <==> exists x | x in xs :: p(x)
    ensures First(xs, p).Some? ==> First(xs, p).value in xs && p(First(xs, p).value)
  {
    if xs != [] {
      FirstIsHeld(xs[1..], p);
      assert xs == [xs[0]] + xs[1..];
    }
  }

  lemma {:induction false} FirstAppend<T>(xs: seq<T>, x: T, p: T -> bool)
    ensures First(xs + [x], p) ==
            if First(xs, p).Some? then First(xs, p) else if p(x) then Some(x) else None
  {
    if xs == [] {
      assert [x][1..] == [];
    } else {
      assert (xs + [x])[1..] == xs[1..] + [x];
      FirstAppend(xs[1..], x, p);
    }
  }

  /** Filtering on one side and searching on the other is searching for both conditions. */
  lemma {:induction false} FirstOfWhere<T>(xs: seq<T>, p: T -> bool, q: T -> bool, both: T -> bool)
    requires forall x | x in xs :: both(x) <==> p(x) && q(x)
    ensures First(Where(xs, p), q) == First(xs, both)
  {
    if xs != [] {
      assert xs == [xs[0]] + xs[1..];
      FirstOfWhere(xs[1..], p, q, both);
    }
  }

  lemma {:induction false} WhereIsHeld<T>(xs: seq<T>, p: T -> bool)
    ensures forall x :: x in Where(xs, p) <==> x in xs && p(x)
  {
    if xs != [] {
      WhereIsHeld(xs[1..], p);
      assert xs == [xs[0]] + xs[1..];
    }
  }

  lemma {:induction false} WhereAppend<T>(xs: seq<T>, ys: seq<T>, p: T -> bool)
    ensures Where(xs + ys, p) == Where(xs, p) + Where(ys, p)
  {
    if xs == [] {
      assert xs + ys == ys;
    } else {
      assert (xs + ys)[1..] == xs[1..] + ys;
      WhereAppend(xs[1..], ys, p);
    }
  }

  lemma {:induction false} WhereAll<T>(xs: seq<T>, p: T -> bool)
    requires forall x | x in xs :: p(x)
    ensures Where(xs, p) == xs
  {
    if xs != [] {
      WhereAll(xs[1..], p);
    }
  }

  lemma {:induction false} WhereNone<T>(xs: seq<T>, p: T -> bool)
    requires forall x | x in xs :: !p(x)
    ensures Where(xs, p) == []
  {
    if xs != [] {
      WhereNone(xs[1..], p);
    }
  }

  /** A filter that another one makes pointless. */
  lemma {:induction false} WhereWithin<T>(xs: seq<T>, p: T -> bool, q: T -> bool)
    requires forall x | x in xs && q(x) :: p(x)
    ensures Where(Where(xs, p), q) == Where(xs, q)
  {
    if xs != [] {
      assert xs == [xs[0]] + xs[1..];
      WhereWithin(xs[1..], p, q);
      if p(xs[0]) {
        assert Where(xs, p)[1..] == Where(xs[1..], p);
      }
    }
  }
}
