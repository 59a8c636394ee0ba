// Option and Result values and the few string operations that several models share.

module Wrappers {
  datatype Option<+T> = None | Some(value: T)

  datatype Result<+T> = Ok(value: T) | Err(error: string)
}

module Text {
  /** White space as JavaScript's `trim` removes it. */
  predicate IsSpace(c: char) {
    var n := c as int;
    || 9 <= n <= 13 || n == 32 || n == 0xA0 || n == 0x1680 || 0x2000 <= n <= 0x200A
    || n == 0x2028 || n == 0x2029 || n == 0x202F || n == 0x205F || n == 0x3000 || n == 0xFEFF
  }

  function TrimStart(s: string): string {
    if s != "" && IsSpace(s[0]) then TrimStart(s[1..]) else s
  }

  function TrimEnd(s: string): string {
    if s != "" && IsSpace(s[|s| - 1]) then TrimEnd(s[..|s| - 1]) else s
  }

  function Trim(s: string): string {
    TrimEnd(TrimStart(s))
  }

  predicate OccursAt(s: string, i: int, part: string) {
    0 <= i <= |s| - |part| && s[i..i + |part|] == part
  }

  predicate Contains(s: string, part: string) {
    exists i | 0 <= i <= |s| :: OccursAt(s, i, part)
  }

  /** ASCII case folding, which is all that MAC addresses, host names and record types need. */
  function LowerChar(c: char): char {
    if 'A' <= c <= 'Z' then c + ('a' - 'A') else c
  }

  function UpperChar(c: char): char {
    if 'a' <= c <= 'z' then c - ('a' - 'A') else c
  }

  function Lower(s: string): string {
    seq(|s|, i requires 0 <= i < |s| => LowerChar(s[i]))
  }

  function Upper(s: string): string {
    seq(|s|, i requires 0 <= i < |s| => UpperChar(s[i]))
  }

  /** The same character, or an ASCII letter and its other case. */
  predicate SameLetter(a: char, b: char) {
    || a == b
    || ('a' <= a <= 'z' && b as int == a as int - 32)
    || ('A' <= a <= 'Z' && b as int == a as int + 32)
  }

  lemma LettersFold(a: char, b: char)
    ensures LowerChar(a) == LowerChar(b) <==> SameLetter(a, b)
    ensures UpperChar(a) == UpperChar(b) <==> SameLetter(a, b)
  {
  }

  predicate UpToCase(a: string, b: string) {
    |a| == |b| && forall i | 0 <= i < |a| :: SameLetter(a[i], b[i])
  }

  /** Folding either way identifies exactly the strings that differ in case only. */
  lemma FoldingIsUpToCase(a: string, b: string)
    ensures Lower(a) == Lower(b) <==> UpToCase(a, b)
    ensures Upper(a) == Upper(b) <==> UpToCase(a, b)
  {
    if |a| == |b| {
      forall i | 0 <= i < |a|
        ensures Lower(a)[i] == Lower(b)[i] <==> SameLetter(a[i], b[i])
        ensures Upper(a)[i] == Upper(b)[i] <==> SameLetter(a[i], b[i])
      {
        LettersFold(a[i], b[i]);
      }
    }
  }

  /** A string that `trim` leaves alone: its first and last characters are not white space. */
  predicate Tight(s: string) {
    s != "" ==> !IsSpace(s[0]) && !IsSpace(s[|s| - 1])
  }

  lemma {:induction false} TrimEndKeepsHead(s: string)
    requires s != "" ==> !IsSpace(s[0])
    ensures Tight(TrimEnd(s))
    ensures s != "" ==> TrimEnd(s) != "" && TrimEnd(s)[0] == s[0]
  {
    if s != "" && IsSpace(s[|s| - 1]) {
      TrimEndKeepsHead(s[..|s| - 1]);
    }
  }

  lemma {:induction false} TrimStartHead(s: string)
    ensures var t := TrimStart(s); t != "" ==> !IsSpace(t[0])
  {
    if s != "" && IsSpace(s[0]) {
      TrimStartHead(s[1..]);
    }
  }

  lemma TrimIsTight(s: string)
    ensures Tight(Trim(s))
  {
    TrimStartHead(s);
    TrimEndKeepsHead(TrimStart(s));
  }

  predicate AllSpace(s: string) {
    forall i | 0 <= i < |s| :: IsSpace(s[i])
  }

  lemma {:induction false} TrimStartOfPadded(lead: string, text: string)
    requires AllSpace(lead) && (text != "" ==> !IsSpace(text[0]))
    ensures TrimStart(lead + text) == text
  {
    if lead == "" {
      assert lead + text == text;
    } else {
      assert (lead + text)[1..] == lead[1..] + text;
      TrimStartOfPadded(lead[1..], text);
    }
  }

  lemma {:induction false} TrimEndOfPadded(text: string, tail: string)
    requires AllSpace(tail) && (text != "" ==> !IsSpace(text[|text| - 1]))
    ensures TrimEnd(text + tail) == text
  {
    if tail == "" {
      assert text + tail == text;
    } else {
      assert (text + tail)[..|text + tail| - 1] == text + tail[..|tail| - 1];
      TrimEndOfPadded(text, tail[..|tail| - 1]);
    }
  }

  lemma {:induction false} TrimStartCuts(s: string) returns (lead: string)
    ensures AllSpace(lead) && s == lead + TrimStart(s)
  {
    lead := "";
    if s != "" && IsSpace(s[0]) {
      var rest := TrimStartCuts(s[1..]);
      lead := [s[0]] + rest;
    }
  }

  lemma {:induction false} TrimEndCuts(s: string) returns (tail: string)
    ensures AllSpace(tail) && s == TrimEnd(s) + tail
  {
    tail := "";
    if s != "" && IsSpace(s[|s| - 1]) {
      var rest := TrimEndCuts(s[..|s| - 1]);
      tail := rest + [s[|s| - 1]];
    }
  }

  /** `core` is what is left of `s` without the white space around it. */
  ghost predicate IsCore(s: string, core: string) {
    Tight(core) && exists lead, tail :: AllSpace(lead) && AllSpace(tail) && s == lead + core + tail
  }

  lemma TrimExactly(s: string, core: string)
    ensures Trim(s) == core <==> IsCore(s, core)
  {
    TrimIsTight(s);
    var lead := TrimStartCuts(s);
    var tail := TrimEndCuts(TrimStart(s));
    assert s == lead + Trim(s) + tail;
    if IsCore(s, core) {
      var before, after :| AllSpace(before) && AllSpace(after) && s == before + core + after;
      if core == "" {
        TrimStartOfPadded(s, "");
        assert s + "" == s;
      } else {
        TrimStartOfPadded(before, core + after);
        assert before + (core + after) == s;
        TrimEndOfPadded(core, after);
      }
    }
  }

  predicate IsDigit(c: char) {
    '0' <= c <= '9'
  }

  /** Decimal digits, as template strings print a non-negative integer. */
  function Digits(n: nat): (s: string)
    ensures s != "" && forall c | c in s :: IsDigit(c)
  {
    var d := [(n % 10) as char + '0'];
    if n < 10 then d else Digits(n / 10) + d
  }

  function DigitValue(c: char): nat {
    if IsDigit(c) then c as nat - '0' as nat else 0
  }

  /** What a decimal number is worth. */
  function DecimalValue(s: string): nat {
    if s == "" then 0 else 10 * DecimalValue(s[..|s| - 1]) + DigitValue(s[|s| - 1])
  }

  lemma {:induction false} DigitsHaveTheirValue(n: nat)
    ensures DecimalValue(Digits(n)) == n
  {
    var d := [(n % 10) as char + '0'];
    if n < 10 {
      assert d[..0] == "";
    } else {
      DigitsHaveTheirValue(n / 10);
      assert (Digits(n / 10) + d)[..|Digits(n / 10) + d| - 1] == Digits(n / 10);
    }
  }

  /** The characters between which regular expressions see no word boundary. */
  predicate IsWord(c: char) {
    'a' <= c <= 'z' || 'A' <= c <= 'Z' || IsDigit(c) || c == '_'
  }

  function SkipSpaces(t: string, j: nat): (k: nat)
    requires j <= |t|
    ensures j <= k <= |t|
    decreases |t| - j
  {
    if j < |t| && IsSpace(t[j]) then SkipSpaces(t, j + 1) else j
  }

  /** Skipping stops at `k` exactly when all up to `k` is white space and the next character, if any, is not. */
  lemma {:induction false} SkipSpacesExactly(t: string, j: nat, k: nat)
    requires j <= k <= |t|
    ensures SkipSpaces(t, j) == k <==> AllSpace(t[j..k]) && (k < |t| ==> !IsSpace(t[k]))
    decreases |t| - j
  {
    if j < |t| && IsSpace(t[j]) {
      if j < k {
        SkipSpacesExactly(t, j + 1, k);
        assert t[j..k] == [t[j]] + t[j + 1..k];
      }
    } else if j < k {
      assert t[j..k][0] == t[j];
    }
  }
}
