// `parseDdBytes`: the byte figures in what `dd` writes to stderr, found by the pattern
// (\d+)\s+bytes\b.

module DdOutput {
  import opened Wrappers
  import opened Text

  function SkipDigits(t: string, j: nat): (k: nat)
    requires j <= |t|
    ensures j <= k <= |t|
    decreases |t| - j
  {
    if j < |t| && IsDigit(t[j]) then SkipDigits(t, j + 1) else j
  }

  predicate BytesAt(t: string, m: nat) {
    && m + 5 <= |t|
    && t[m] == 'b' && t[m + 1] == 'y' && t[m + 2] == 't' && t[m + 3] == 'e' && t[m + 4] == 's'
    && (m + 5 == |t| || !IsWord(t[m + 5]))
  }

  /** A match starting at `i` is given by where its digits end and where it ends. */
  datatype Match = Match(digits: nat, end: nat)

  function MatchAt(t: string, i: nat): (r: Option<Match>)
    ensures r.Some? ==> i < r.value.digits < r.value.end <= |t|
  {
    if i >= |t| || !IsDigit(t[i]) then None
    else
      var k := SkipDigits(t, i);
      var m := SkipSpaces(t, k);
      if m > k && BytesAt(t, m) then Some(Match(k, m + 5)) else None
  }

  /** The pattern, as it is written. */
  predicate Matches(t: string, i: nat, m: Match) {
    && i < m.digits && m.digits + 5 < m.end <= |t|
    && (forall x | i <= x < m.digits :: IsDigit(t[x]))
    && (forall x | m.digits <= x < m.end - 5 :: IsSpace(t[x]))
    && t[m.end - 5..m.end] == "bytes" && (m.end == |t| || !IsWord(t[m.end]))
  }

  function FigureAt(t: string, i: nat): seq<nat> {
    var m := MatchAt(t, i);
    if m.Some? then [DecimalValue(t[i..m.value.digits])] else []
  }

  function NextScan(t: string, i: nat): (j: nat)
    requires i < |t|
    ensures i < j <= |t|
  {
    var m := MatchAt(t, i);
    if m.Some? then m.value.end else i + 1
  }

  /** Every figure found scanning from `i`, each search resuming after the last match. */
  function FiguresFrom(t: string, i: nat): seq<nat>
    decreases |t| - i
  {
    if i >= |t| then [] else FigureAt(t, i) + FiguresFrom(t, NextScan(t, i))
  }

  function Figures(t: string): seq<nat> {
    FiguresFrom(t, 0)
  }

  /** The largest figure, if there is one. */
  method ParseDdBytes(stderr: string) returns (r: Option<nat>)
    ensures r.None? <==> Figures(stderr) == []
    ensures r.Some? ==> r.value in Figures(stderr) && forall f | f in Figures(stderr) :: f <= r.value
  {
    var figures := Figures(stderr);
    if figures == [] {
      return None;
    }
    var best := figures[0];
    for i := 1 to |figures|
      invariant best in figures && forall j | 0 <= j < i :: figures[j] <= best
    {
      if figures[i] > best {
        best := figures[i];
      }
    }
    r := Some(best);
  }

  // ---------- What dd prints is read ----------

  const SUFFIX := " bytes"

  lemma {:induction false} DigitsOnly(t: string, j: nat)
    requires j <= |t|
    ensures var k := SkipDigits(t, j);
            (forall i | j <= i < k :: IsDigit(t[i])) && (k < |t| ==> !IsDigit(t[k]))
    decreases |t| - j
  {
    if j < |t| && IsDigit(t[j]) {
      DigitsOnly(t, j + 1);
    }
  }

  lemma {:induction false} SkipDigitsTo(t: string, j: nat, k: nat)
    requires j <= k <= |t| && (forall i | j <= i < k :: IsDigit(t[i])) && (k < |t| ==> !IsDigit(t[k]))
    ensures SkipDigits(t, j) == k
    decreases k - j
  {
    if j < k {
      SkipDigitsTo(t, j + 1, k);
    }
  }

  lemma {:induction false} SkipSpacesTo(t: string, j: nat, k: nat)
    requires j <= k <= |t| && (forall i | j <= i < k :: IsSpace(t[i])) && (k < |t| ==> !IsSpace(t[k]))
    ensures SkipSpaces(t, j) == k
    decreases k - j
  {
    if j < k {
      SkipSpacesTo(t, j + 1, k);
    }
  }

  lemma BytesAreWritten(t: string, m: nat)
    ensures BytesAt(t, m) <==>
            m + 5 <= |t| && t[m..m + 5] == "bytes" && (m + 5 == |t| || !IsWord(t[m + 5]))
  {
    if m + 5 <= |t| && t[m..m + 5] == "bytes" {
      assert t[m] == "bytes"[0] && t[m + 1] == "bytes"[1] && t[m + 2] == "bytes"[2];
      assert t[m + 3] == "bytes"[3] && t[m + 4] == "bytes"[4];
    }
  }

  lemma {:induction false} SpacesOnly(t: string, j: nat)
    requires j <= |t|
    ensures forall i | j <= i < SkipSpaces(t, j) :: IsSpace(t[i])
    decreases |t| - j
  {
    if j < |t| && IsSpace(t[j]) {
      SpacesOnly(t, j + 1);
    }
  }

  /** The reader's search finds at `i` exactly what the pattern matches there. */
  lemma MatchIsThePattern(t: string, i: nat, m: Match)
    ensures MatchAt(t, i) == Some(m) <==> Matches(t, i, m)
  {
    if Matches(t, i, m) {
      var b := m.end - 5;
      BytesAreWritten(t, b);
      SkipDigitsTo(t, i, m.digits);
      SkipSpacesTo(t, m.digits, b);
    }
    if MatchAt(t, i) == Some(m) {
      DigitsOnly(t, i);
      SpacesOnly(t, m.digits);
      BytesAreWritten(t, m.end - 5);
    }
  }

  /** The printed figure matches where it stands. */
  lemma FigureMatches(t: string, b: nat, k: nat)
    requires b < k && k + 6 <= |t| && (forall i | b <= i < k :: IsDigit(t[i]))
    requires t[k] == ' ' && BytesAt(t, k + 1)
    ensures MatchAt(t, b) == Some(Match(k, k + 6))
  {
    SkipDigitsTo(t, b, k);
    SkipSpacesTo(t, k, k + 1);
  }

  /** No match that starts before the figure reaches into it. */
  lemma MatchStaysBefore(t: string, i: nat, b: nat)
    requires i < b < |t| && IsDigit(t[b]) && !IsDigit(t[b - 1])
    ensures MatchAt(t, i).Some? ==> MatchAt(t, i).value.end <= b
  {
    if MatchAt(t, i).Some? {
      var k := SkipDigits(t, i);
      var m := SkipSpaces(t, k);
      DigitsOnly(t, i);
      SpacesOnly(t, k);
      assert k <= b;
      assert m <= b;
      assert m + 5 <= b by {
        assert t[m] == 'b' && t[m + 1] == 'y' && t[m + 2] == 't' && t[m + 3] == 'e' && t[m + 4] == 's';
      }
    }
  }

  lemma {:induction false} ScanComesTo(t: string, i: nat, b: nat)
    requires i <= b < |t| && IsDigit(t[b]) && (b > 0 ==> !IsDigit(t[b - 1]))
    ensures forall f | f in FiguresFrom(t, b) :: f in FiguresFrom(t, i)
    decreases b - i
  {
    if i < b {
      MatchStaysBefore(t, i, b);
      ScanComesTo(t, NextScan(t, i), b);
    }
  }

  /** Where the digits of a printed figure stand, and what follows them. */
  lemma FigureText(before: string, digits: string, after: string)
    requires forall c | c in digits :: IsDigit(c)
    requires after == "" || !IsWord(after[0])
    ensures var t, b, k := before + digits + SUFFIX + after, |before|, |before| + |digits|;
            && k + 6 <= |t| && t[b..k] == digits && t[k] == ' ' && BytesAt(t, k + 1)
            && (forall i | b <= i < k :: IsDigit(t[i])) && (b > 0 ==> t[b - 1] == before[b - 1])
  {
    var t, b, k := before + digits + SUFFIX + after, |before|, |before| + |digits|;
    assert forall i | 0 <= i < 6 :: t[k + i] == SUFFIX[i];
    assert forall i | b <= i < k :: t[i] == digits[i - b] && digits[i - b] in digits;
  }

  /** The digits match where they stand, with the rest behind. */
  lemma PrintedMatch(gap: string, digits: string, rest: string)
    requires digits != "" && forall c | c in digits :: IsDigit(c)
    requires rest == "" || !IsWord(rest[0])
    ensures var t, b, k := gap + digits + SUFFIX + rest, |gap|, |gap| + |digits|;
            && k + 6 <= |t| && MatchAt(t, b) == Some(Match(k, k + 6)) && t[b..k] == digits && t[k + 6..] == rest
            && IsDigit(t[b]) && (b > 0 ==> t[b - 1] == gap[b - 1])
  {
    var t, b, k := gap + digits + SUFFIX + rest, |gap|, |gap| + |digits|;
    FigureText(gap, digits, rest);
    FigureMatches(t, b, k);
  }

  lemma FigureIsFound(t: string, b: nat, k: nat, n: nat)
    requires b < k && k + 6 <= |t| && MatchAt(t, b) == Some(Match(k, k + 6)) && DecimalValue(t[b..k]) == n
    requires IsDigit(t[b]) && (b > 0 ==> !IsDigit(t[b - 1]))
    ensures n in Figures(t)
  {
    assert FigureAt(t, b) == [n];
    assert n in FiguresFrom(t, b);
    ScanComesTo(t, 0, b);
  }

  lemma NumeralIsFound(before: string, digits: string, after: string)
    requires digits != "" && forall c | c in digits :: IsDigit(c)
    requires (before == "" || !IsDigit(before[|before| - 1])) && (after == "" || !IsWord(after[0]))
    ensures DecimalValue(digits) in Figures(before + digits + SUFFIX + after)
  {
    var t, b := before + digits + SUFFIX + after, |before|;
    PrintedMatch(before, digits, after);
    FigureIsFound(t, b, b + |digits|, DecimalValue(digits));
  }

  /**
   * Wherever a count is printed as dd prints it, it is among the figures read. (In direct mode one
   * stderr carries both the reader's and the writer's output, and either count can be the largest.)
   */
  lemma PrintedFigureIsRead(before: string, n: nat, after: string)
    requires before == "" || !IsDigit(before[|before| - 1])
    requires after == "" || !IsWord(after[0])
    ensures n in Figures(before + Digits(n) + SUFFIX + after)
  {
    NumeralIsFound(before, Digits(n), after);
    DigitsHaveTheirValue(n);
  }

  // ---------- A text of printed counts holds no other figure ----------

  predicate FigureFree(text: string) {
    forall i | 0 <= i < |text| :: MatchAt(text, i).None?
  }

  /** A match within the gap is a match of the gap alone. */
  lemma MatchWithinGap(gap: string, rest: string, i: nat)
    requires i < |gap| && MatchAt(gap + rest, i).Some? && MatchAt(gap + rest, i).value.end <= |gap|
    ensures MatchAt(gap, i).Some?
  {
    var t := gap + rest;
    var k := SkipDigits(t, i);
    var m := SkipSpaces(t, k);
    DigitsOnly(t, i);
    SpacesOnly(t, k);
    assert forall x | 0 <= x < |gap| :: gap[x] == t[x];
    SkipDigitsTo(gap, i, k);
    SkipSpacesTo(gap, k, m);
  }

  /** Before a printed figure nothing matches if nothing matches in the gap itself. */
  lemma NothingInGap(gap: string, rest: string, i: nat)
    requires FigureFree(gap) && (gap == "" || !IsDigit(gap[|gap| - 1])) && rest != "" && IsDigit(rest[0])
    requires i < |gap|
    ensures MatchAt(gap + rest, i).None?
  {
    if MatchAt(gap + rest, i).Some? {
      MatchStaysBefore(gap + rest, i, |gap|);
      MatchWithinGap(gap, rest, i);
      assert false;
    }
  }

  lemma {:induction false} GapIsSkipped(t: string, i: nat, b: nat)
    requires i <= b <= |t| && forall j | i <= j < b :: MatchAt(t, j).None?
    ensures FiguresFrom(t, i) == FiguresFrom(t, b)
    decreases b - i
  {
    if i < b {
      GapIsSkipped(t, i + 1, b);
    }
  }

  lemma {:induction false} SpacesEnd(t: string, j: nat)
    requires j <= |t|
    ensures SkipSpaces(t, j) < |t| ==> !IsSpace(t[SkipSpaces(t, j)])
    decreases |t| - j
  {
    if j < |t| && IsSpace(t[j]) {
      SpacesEnd(t, j + 1);
    }
  }

  /** The pattern looks only ahead, so it matches in a suffix what it matches in the text. */
  lemma MatchInSuffix(t: string, p: nat, a: nat, i: nat)
    requires a == p + i && a < |t|
    ensures MatchAt(t, a) == (var m := MatchAt(t[p..], i);
                              if m.Some? then Some(Match(p + m.value.digits, p + m.value.end)) else None)
  {
    var u := t[p..];
    if IsDigit(t[a]) {
      var k := SkipDigits(u, i);
      DigitsOnly(u, i);
      SkipDigitsTo(t, a, p + k);
      var m := SkipSpaces(u, k);
      SpacesOnly(u, k);
      SpacesEnd(u, k);
      SkipSpacesTo(t, p + k, p + m);
    }
  }

  lemma StepInSuffix(t: string, p: nat, a: nat, i: nat)
    requires a == p + i && a < |t|
    ensures FigureAt(t, a) == FigureAt(t[p..], i) && NextScan(t, a) == p + NextScan(t[p..], i)
  {
    MatchInSuffix(t, p, a, i);
    var m := MatchAt(t[p..], i);
    if m.Some? {
      assert t[a..p + m.value.digits] == t[p..][i..m.value.digits];
    }
  }

  lemma {:induction false} FiguresInSuffix(t: string, p: nat, a: nat, i: nat)
    requires a == p + i && a <= |t|
    ensures FiguresFrom(t, a) == FiguresFrom(t[p..], i)
    decreases |t| - a
  {
    if a < |t| {
      StepInSuffix(t, p, a, i);
      FiguresInSuffix(t, p, NextScan(t, a), NextScan(t[p..], i));
    }
  }

  lemma GapThenDigits(gap: string, digits: string, rest: string)
    requires FigureFree(gap) && (gap == "" || !IsDigit(gap[|gap| - 1]))
    requires digits != "" && forall c | c in digits :: IsDigit(c)
    ensures forall i | 0 <= i < |gap| :: MatchAt(gap + digits + SUFFIX + rest, i).None?
  {
    var tail := digits + SUFFIX + rest;
    assert gap + digits + SUFFIX + rest == gap + tail;
    assert tail[0] == digits[0] && digits[0] in digits;
    forall i | 0 <= i < |gap|
      ensures MatchAt(gap + tail, i).None?
    {
      NothingInGap(gap, tail, i);
    }
  }

  lemma FigureReadBefore(t: string, b: nat, e: nat, n: nat)
    requires b < e <= |t| && FigureAt(t, b) == [n] && NextScan(t, b) == e
    requires forall i | 0 <= i < b :: MatchAt(t, i).None?
    ensures Figures(t) == [n] + Figures(t[e..])
  {
    GapIsSkipped(t, 0, b);
    FiguresInSuffix(t, e, e, 0);
  }

  lemma NumeralIsRead(gap: string, digits: string, rest: string)
    requires FigureFree(gap) && (gap == "" || !IsDigit(gap[|gap| - 1])) && (rest == "" || !IsWord(rest[0]))
    requires digits != "" && forall c | c in digits :: IsDigit(c)
    ensures Figures(gap + digits + SUFFIX + rest) == [DecimalValue(digits)] + Figures(rest)
  {
    var t, b, k := gap + digits + SUFFIX + rest, |gap|, |gap| + |digits|;
    GapThenDigits(gap, digits, rest);
    PrintedMatch(gap, digits, rest);
    FigureReadBefore(t, b, k + 6, DecimalValue(digits));
  }

  /** A printed count behind a gap is read, and the reading goes on behind it. */
  lemma CountIsRead(gap: string, n: nat, rest: string)
    requires FigureFree(gap) && (gap == "" || !IsDigit(gap[|gap| - 1])) && (rest == "" || !IsWord(rest[0]))
    ensures Figures(gap + Digits(n) + SUFFIX + rest) == [n] + Figures(rest)
  {
    NumeralIsRead(gap, Digits(n), rest);
    DigitsHaveTheirValue(n);
  }

  /** A count as it is printed, behind whatever stands between it and the one before. */
  datatype Counted = Counted(gap: string, n: nat)

  function PrintCounts(cs: seq<Counted>, tail: string): string {
    if cs == [] then tail else cs[0].gap + Digits(cs[0].n) + SUFFIX + PrintCounts(cs[1..], tail)
  }

  function CountsOf(cs: seq<Counted>): seq<nat> {
    if cs == [] then [] else [cs[0].n] + CountsOf(cs[1..])
  }

  /** What may stand between printed counts: no figure of its own, and nothing that runs into its neighbours. */
  predicate GoodGap(gap: string, first: bool) {
    && FigureFree(gap) && (gap == "" || !IsDigit(gap[|gap| - 1]))
    && (first || (gap != "" && !IsWord(gap[0])))
  }

  predicate GoodTail(tail: string, first: bool) {
    FigureFree(tail) && (first || tail == "" || !IsWord(tail[0]))
  }

  predicate WellSpaced(cs: seq<Counted>, tail: string, first: bool) {
    if cs == [] then GoodTail(tail, first) else GoodGap(cs[0].gap, first) && WellSpaced(cs[1..], tail, false)
  }

  /** A text that prints just these counts has just these figures, in order. */
  lemma {:induction false} FiguresAreTheCounts(cs: seq<Counted>, tail: string, first: bool)
    requires WellSpaced(cs, tail, first)
    ensures Figures(PrintCounts(cs, tail)) == CountsOf(cs)
  {
    if cs == [] {
      GapIsSkipped(tail, 0, |tail|);
    } else {
      var rest := PrintCounts(cs[1..], tail);
      assert rest == "" || !IsWord(rest[0]) by {
        assert cs[1..] != [] ==> rest[0] == cs[1..][0].gap[0];
      }
      CountIsRead(cs[0].gap, cs[0].n, rest);
      FiguresAreTheCounts(cs[1..], tail, false);
    }
  }
}
