// The log reader of `aer observe`: chunks are buffered up to the last finished stanza, and every
// `line: "..."` field of Rust's pretty-debug output is found, unquoted and unescaped.

module AerLog {
  import opened Wrappers
  import opened Text

  // ---------- Unescaping ----------

  /** The character that a known escape stands for. */
  function Unquoted(next: char): Option<char> {
    match next
    case 'n' => Some('\n')
    case 't' => Some('\t')
    case 'r' => Some('\r')
    case '0' => Some('\0')
    case '\\' => Some('\\')
    case '"' => Some('"')
    case '\'' => Some('\'')
    case _ => None
  }

  /** An unknown escape is kept as it is. */
  function UnescapePair(next: char): string {
    var c := Unquoted(next);
    if c.Some? then [c.value] else ['\\', next]
  }

  function Unescaped(s: string): string {
    if s == "" then ""
    else if s[0] != '\\' then [s[0]] + Unescaped(s[1..])
    else if |s| == 1 then "\\"
    else UnescapePair(s[1]) + Unescaped(s[2..])
  }

  /** What the scanner emits at `i`, and where it goes on. */
  function PieceAt(s: string, i: nat): string
    requires i < |s|
  {
    if s[i] == '\\' && i + 1 < |s| then UnescapePair(s[i + 1]) else [s[i]]
  }

  function NextAt(s: string, i: nat): (j: nat)
    requires i < |s|
    ensures i < j <= |s|
  {
    if s[i] == '\\' && i + 1 < |s| then i + 2 else i + 1
  }

  lemma UnescapedAt(s: string, i: nat)
    requires i < |s|
    ensures Unescaped(s[i..]) == PieceAt(s, i) + Unescaped(s[NextAt(s, i)..])
  {
    assert s[i..][0] == s[i];
    assert s[i..][1..] == s[i + 1..];
    if s[i] == '\\' {
      if i + 1 < |s| {
        assert s[i..][2..] == s[i + 2..];
      } else {
        assert s[i + 1..] == "";
      }
    }
  }

  method Unescape(s: string) returns (out: string)
    ensures out == Unescaped(s)
  {
    out := "";
    var i := 0;
    assert s[0..] == s;
    while i < |s|
      invariant 0 <= i <= |s|
      invariant out + Unescaped(s[i..]) == Unescaped(s)
    {
      UnescapedAt(s, i);
      if s[i] == '\\' && i + 1 < |s| {
        out := out + UnescapePair(s[i + 1]);
        i := i + 2;
      } else {
        out := out + [s[i]];
        i := i + 1;
      }
    }
  }

  // ---------- What Rust's Debug prints between the quotes ----------

  /** A character as it is, or a backslash with the character after it. */
  datatype Piece = Bare(c: char) | Escaped(c: char)

  function PrintPiece(p: Piece): string {
    match p
    case Bare(c) => [c]
    case Escaped(c) => ['\\', c]
  }

  function PrintPieces(ps: seq<Piece>): string {
    if ps == [] then "" else PrintPiece(ps[0]) + PrintPieces(ps[1..])
  }

  /** What a piece is to be read as: seven escapes stand for a character, every other one for itself. */
  function Meaning(p: Piece): string {
    if p == Escaped('n') then "\n"
    else if p == Escaped('t') then "\t"
    else if p == Escaped('r') then "\r"
    else if p == Escaped('0') then "\0"
    else if p.Bare? || p.c in "\\\"'" then [p.c]
    else PrintPiece(p)
  }

  function MeaningAll(ps: seq<Piece>): string {
    if ps == [] then "" else Meaning(ps[0]) + MeaningAll(ps[1..])
  }

  lemma UnescapePiece(p: Piece, rest: string)
    requires p != Bare('\\')
    ensures Unescaped(PrintPiece(p) + rest) == Meaning(p) + Unescaped(rest)
  {
    var text := PrintPiece(p) + rest;
    assert p.Bare? ==> text[1..] == rest;
    assert p.Escaped? ==> text[2..] == rest;
  }

  /** No data is lost: an escape that is not known is kept as it was printed. */
  lemma UnknownEscapeIsKept(c: char, rest: string)
    requires c !in "ntr0\\\"'"
    ensures Unescaped(['\\', c] + rest) == ['\\', c] + Unescaped(rest)
  {
    assert 'n' == "ntr0\\\"'"[0] && 't' == "ntr0\\\"'"[1] && 'r' == "ntr0\\\"'"[2] && '0' == "ntr0\\\"'"[3];
    assert '\\' == "ntr0\\\"'"[4] && '"' == "ntr0\\\"'"[5] && '\'' == "ntr0\\\"'"[6];
    UnescapePiece(Escaped(c), rest);
  }

  lemma {:induction false} UnescapedIsMeaning(ps: seq<Piece>)
    requires Bare('\\') !in ps
    ensures Unescaped(PrintPieces(ps)) == MeaningAll(ps)
  {
    if ps != [] {
      UnescapePiece(ps[0], PrintPieces(ps[1..]));
      UnescapedIsMeaning(ps[1..]);
    }
  }

  /** How Debug prints a character that needs one of the six short escapes or none. */
  function PieceFor(c: char): Piece {
    match c
    case '\n' => Escaped('n')
    case '\t' => Escaped('t')
    case '\r' => Escaped('r')
    case '\0' => Escaped('0')
    case '\\' => Escaped(c)
    case '"' => Escaped(c)
    case _ => Bare(c)
  }

  function PiecesFor(s: string): seq<Piece> {
    if s == "" then [] else [PieceFor(s[0])] + PiecesFor(s[1..])
  }

  lemma PieceMeansItsChar(c: char)
    ensures Meaning(PieceFor(c)) == [c] && PieceFor(c) != Bare('\n')
    ensures if PieceFor(c).Bare? then c != '"' && c != '\\' && PieceFor(c).c == c else !IsLineEnd(PieceFor(c).c)
  {
    assert "\\\"'"[0] == '\\' && "\\\"'"[1] == '"';
  }

  predicate IsLineEnd(c: char) {
    c == '\n' || c == '\r' || c as int == 0x2028 || c as int == 0x2029
  }

  /** Contents of a literal as the pattern allows them: [^"\\] or \\. again and again. */
  predicate Quotable(ps: seq<Piece>) {
    forall p | p in ps :: if p.Bare? then p.c != '"' && p.c != '\\' else !IsLineEnd(p.c)
  }

  lemma {:induction false} PiecesMeanTheirText(s: string)
    ensures MeaningAll(PiecesFor(s)) == s && Quotable(PiecesFor(s)) && Bare('\n') !in PiecesFor(s)
  {
    if s != "" {
      PieceMeansItsChar(s[0]);
      PiecesMeanTheirText(s[1..]);
      assert PiecesFor(s)[1..] == PiecesFor(s[1..]);
    }
  }

  lemma UnescapeUndoesEscape(s: string)
    ensures Unescaped(PrintPieces(PiecesFor(s))) == s
  {
    PiecesMeanTheirText(s);
    UnescapedIsMeaning(PiecesFor(s));
  }

  // ---------- The pattern \bline:\s*"((?:[^"\\]|\\.)*)" ----------

  /** The length of `line:`. */
  const KEY := 5

  predicate KeyAt(t: string, i: nat) {
    && i + KEY <= |t|
    && t[i] == 'l' && t[i + 1] == 'i' && t[i + 2] == 'n' && t[i + 3] == 'e' && t[i + 4] == ':'
    && (i == 0 || !IsWord(t[i - 1]))
  }

  /** Just past the closing quote of a literal whose contents start at `k`. */
  function LiteralEnd(t: string, k: nat): (e: Option<nat>)
    ensures e.Some? ==> k < e.value <= |t|
    decreases |t| - k
  {
    if k >= |t| then None
    else if t[k] == '"' then Some(k + 1)
    else if t[k] != '\\' then LiteralEnd(t, k + 1)
    else if k + 1 < |t| && !IsLineEnd(t[k + 1]) then LiteralEnd(t, k + 2)
    else None
  }

  /** A match is given by where its literal's contents start and where the match ends. */
  datatype Span = Span(open: nat, end: nat)

  function MatchAt(t: string, i: nat): (m: Option<Span>)
    ensures m.Some? ==> i + KEY < m.value.open < m.value.end <= |t|
  {
    if !KeyAt(t, i) then None
    else
      var k := SkipSpaces(t, i + KEY);
      if k < |t| && t[k] == '"' then
        var e := LiteralEnd(t, k + 1);
        if e.Some? then Some(Span(k + 1, e.value)) else None
      else None
  }

  function Body(t: string, m: Span): string
    requires m.open < m.end <= |t|
  {
    t[m.open..m.end - 1]
  }

  /** The pattern, as it is written. */
  ghost predicate Matches(t: string, i: nat, m: Span) {
    && i + KEY < m.open < m.end <= |t|
    && t[i..i + KEY] == "line:" && (i == 0 || !IsWord(t[i - 1]))
    && AllSpace(t[i + KEY..m.open - 1]) && t[m.open - 1] == '"' && t[m.end - 1] == '"'
    && exists ps :: Quotable(ps) && Body(t, m) == PrintPieces(ps)
  }

  lemma {:induction false} LiteralHasPieces(t: string, k: nat) returns (ps: seq<Piece>)
    requires LiteralEnd(t, k).Some?
    ensures var e := LiteralEnd(t, k).value; Quotable(ps) && t[k..e - 1] == PrintPieces(ps) && t[e - 1] == '"'
    decreases |t| - k
  {
    var e := LiteralEnd(t, k).value;
    if t[k] == '"' {
      ps := [];
    } else if t[k] != '\\' {
      var rest := LiteralHasPieces(t, k + 1);
      ps := [Bare(t[k])] + rest;
      assert t[k..e - 1] == [t[k]] + t[k + 1..e - 1];
    } else {
      var rest := LiteralHasPieces(t, k + 2);
      ps := [Escaped(t[k + 1])] + rest;
      assert t[k..e - 1] == ['\\', t[k + 1]] + t[k + 2..e - 1];
    }
  }

  lemma {:induction false} PrintedLiteralEnds(before: string, ps: seq<Piece>, after: string)
    requires Quotable(ps)
    ensures LiteralEnd(before + PrintPieces(ps) + "\"" + after, |before|) == Some(|before + PrintPieces(ps)| + 1)
    decreases |ps|
  {
    var t := before + PrintPieces(ps) + "\"" + after;
    if ps != [] {
      var p := PrintPiece(ps[0]);
      assert ps[0] in ps;
      assert t == (before + p) + PrintPieces(ps[1..]) + "\"" + after;
      PrintedLiteralEnds(before + p, ps[1..], after);
      assert t[|before|] == p[0];
      assert |p| == 2 ==> t[|before| + 1] == p[1];
    }
  }

  lemma KeyIsWritten(t: string, i: nat)
    ensures KeyAt(t, i) <==> i + KEY <= |t| && t[i..i + KEY] == "line:" && (i == 0 || !IsWord(t[i - 1]))
  {
    if i + KEY <= |t| && t[i..i + KEY] == "line:" {
      assert t[i] == "line:"[0] && t[i + 1] == "line:"[1] && t[i + 2] == "line:"[2];
      assert t[i + 3] == "line:"[3] && t[i + 4] == "line:"[4];
    }
  }

  lemma CutInFour(t: string, m: Span)
    requires m.open < m.end <= |t| && t[m.end - 1] == '"'
    ensures t == t[..m.open] + Body(t, m) + "\"" + t[m.end..]
  {
    assert t[..m.open] + Body(t, m) == t[..m.end - 1];
    assert t[..m.end - 1] + "\"" == t[..m.end];
  }

  lemma LiteralIsWritten(t: string, m: Span, ps: seq<Piece>)
    requires m.open < m.end <= |t| && Quotable(ps) && Body(t, m) == PrintPieces(ps) && t[m.end - 1] == '"'
    ensures LiteralEnd(t, m.open) == Some(m.end)
  {
    CutInFour(t, m);
    PrintedLiteralEnds(t[..m.open], ps, t[m.end..]);
  }

  lemma MatchedIsWritten(t: string, i: nat, m: Span)
    requires Matches(t, i, m)
    ensures MatchAt(t, i) == Some(m)
  {
    var ps :| Quotable(ps) && Body(t, m) == PrintPieces(ps);
    LiteralIsWritten(t, m, ps);
    KeyIsWritten(t, i);
    SkipSpacesExactly(t, i + KEY, m.open - 1);
  }

  /** The reader's search finds at `i` exactly what the pattern matches there. */
  lemma MatchIsThePattern(t: string, i: nat, m: Span)
    ensures MatchAt(t, i) == Some(m) <==> Matches(t, i, m)
  {
    if Matches(t, i, m) {
      MatchedIsWritten(t, i, m);
    }
    if MatchAt(t, i) == Some(m) {
      KeyIsWritten(t, i);
      SkipSpacesExactly(t, i + KEY, m.open - 1);
      var ps := LiteralHasPieces(t, m.open);
    }
  }

  function FoundAt(t: string, i: nat): seq<string> {
    var m := MatchAt(t, i);
    if m.Some? then [Body(t, m.value)] else []
  }

  function NextScan(t: string, i: nat): (j: nat)
    requires i < |t|
    ensures i < j <= |t|
  {
    var m := MatchAt(t, i);
    if m.Some? then m.value.end else i + 1
  }

  /** The literals of every match found scanning from `i`, each search resuming after the last match. */
  function BodiesFrom(t: string, i: nat): seq<string>
    decreases |t| - i
  {
    if i >= |t| then [] else FoundAt(t, i) + BodiesFrom(t, NextScan(t, i))
  }

  function UnescapedAll(bodies: seq<string>): seq<string> {
    seq(|bodies|, i requires 0 <= i < |bodies| => Unescaped(bodies[i]))
  }

  function Lines(t: string): seq<string> {
    UnescapedAll(BodiesFrom(t, 0))
  }

  lemma UnescapedApart(bodies: seq<string>, more: seq<string>)
    ensures UnescapedAll(bodies + more) == UnescapedAll(bodies) + UnescapedAll(more)
  {
  }

  /** `lines` has been read, and the scan stands at `i`. */
  ghost predicate Reading(lines: seq<string>, t: string, i: nat) {
    lines + UnescapedAll(BodiesFrom(t, i)) == Lines(t)
  }

  lemma Reassociate(a: seq<string>, b: seq<string>, c: seq<string>)
    ensures a + (b + c) == (a + b) + c
  {
  }

  /** Reading goes on behind what is found at `i`. */
  lemma ReadingGoesOn(lines: seq<string>, t: string, i: nat)
    requires i < |t| && Reading(lines, t, i)
    ensures Reading(lines + UnescapedAll(FoundAt(t, i)), t, NextScan(t, i))
  {
    var found, rest := FoundAt(t, i), BodiesFrom(t, NextScan(t, i));
    UnescapedApart(found, rest);
    Reassociate(lines, UnescapedAll(found), UnescapedAll(rest));
  }

  lemma StepWithMatch(lines: seq<string>, t: string, i: nat, m: Span)
    requires i < |t| && Reading(lines, t, i) && MatchAt(t, i) == Some(m)
    ensures Reading(lines + [Unescaped(Body(t, m))], t, m.end)
  {
    ReadingGoesOn(lines, t, i);
    assert UnescapedAll(FoundAt(t, i)) == [Unescaped(Body(t, m))];
  }

  lemma StepWithoutMatch(lines: seq<string>, t: string, i: nat)
    requires i < |t| && Reading(lines, t, i) && MatchAt(t, i) == None
    ensures Reading(lines, t, i + 1)
  {
    ReadingGoesOn(lines, t, i);
    assert lines + UnescapedAll(FoundAt(t, i)) == lines;
  }

  method ExtractLogLines(text: string) returns (lines: seq<string>)
    ensures lines == Lines(text)
  {
    lines := [];
    var i := 0;
    while i < |text|
      invariant 0 <= i <= |text|
      invariant Reading(lines, text, i)
    {
      var m := MatchAt(text, i);
      if m.Some? {
        StepWithMatch(lines, text, i, m.value);
        var line := Unescape(Body(text, m.value));
        lines := lines + [line];
        i := m.value.end;
      } else {
        StepWithoutMatch(lines, text, i);
        i := i + 1;
      }
    }
  }

  // ---------- Chunking ----------

  /** A closing brace alone on its line ends at `p`. */
  predicate StanzaEnds(t: string, p: nat) {
    3 <= p <= |t| && t[p - 3] == '\n' && t[p - 2] == '}' && t[p - 1] == '\n'
  }

  /** The largest position up to `p` at which a stanza ends, or 0. */
  function LastStanzaEndUpTo(t: string, p: nat): (cut: nat)
    requires p <= |t|
    ensures cut <= p
    ensures cut > 0 ==> StanzaEnds(t, cut)
    ensures forall q | cut < q <= p :: !StanzaEnds(t, q)
  {
    if p == 0 || StanzaEnds(t, p) then p else LastStanzaEndUpTo(t, p - 1)
  }

  function LastStanzaEnd(t: string): nat {
    LastStanzaEndUpTo(t, |t|)
  }

  function Joined(chunks: seq<string>): string {
    if chunks == [] then "" else chunks[0] + Joined(chunks[1..])
  }

  /** The scan of `t` from `i` stops at `p` on its way: no match that it finds straddles `p`. */
  predicate ScanReaches(t: string, i: nat, p: nat)
    decreases |t| - i
  {
    if i >= p then i == p
    else i < |t| && ScanReaches(t, NextScan(t, i), p)
  }

  /** Every end of a stanza lies between matches. */
  ghost predicate StanzasAreWhole(t: string) {
    forall p: nat | StanzaEnds(t, p) :: ScanReaches(t, 0, p)
  }

  lemma {:induction false} LiteralEndInPrefix(t: string, p: nat, k: nat)
    requires p <= |t|
    ensures LiteralEnd(t[..p], k).Some? ==> LiteralEnd(t, k) == LiteralEnd(t[..p], k)
    ensures LiteralEnd(t, k).Some? && LiteralEnd(t, k).value <= p ==> LiteralEnd(t[..p], k) == LiteralEnd(t, k)
    decreases p - k
  {
    if k < p {
      if t[k] != '"' && t[k] != '\\' {
        LiteralEndInPrefix(t, p, k + 1);
      } else if t[k] == '\\' && k + 1 < p {
        LiteralEndInPrefix(t, p, k + 2);
      }
    }
  }

  lemma {:induction false} SkipSpacesInPrefix(t: string, p: nat, j: nat)
    requires j <= p <= |t|
    ensures SkipSpaces(t[..p], j) < p ==> SkipSpaces(t, j) == SkipSpaces(t[..p], j)
    ensures SkipSpaces(t, j) < p ==> SkipSpaces(t[..p], j) == SkipSpaces(t, j)
    decreases p - j
  {
    if j < p && IsSpace(t[j]) {
      SkipSpacesInPrefix(t, p, j + 1);
    }
  }

  /** Cutting the text at `p` keeps exactly the matches that end by `p`. */
  lemma MatchInPrefix(t: string, p: nat, i: nat)
    requires i < p <= |t|
    ensures MatchAt(t[..p], i) == if MatchAt(t, i).Some? && MatchAt(t, i).value.end <= p then MatchAt(t, i) else None
  {
    if i + KEY <= p {
      SkipSpacesInPrefix(t, p, i + KEY);
      LiteralEndInPrefix(t, p, SkipSpaces(t, i + KEY) + 1);
      LiteralEndInPrefix(t, p, SkipSpaces(t[..p], i + KEY) + 1);
    }
  }

  lemma {:induction false} LiteralEndInSuffix(t: string, p: nat, k: nat)
    requires p <= |t|
    ensures LiteralEnd(t, p + k) ==
            (var e := LiteralEnd(t[p..], k); if e.Some? then Some(p + e.value) else None)
    decreases |t| - k
  {
    if p + k < |t| {
      LiteralEndInSuffix(t, p, k + 1);
      LiteralEndInSuffix(t, p, k + 2);
    }
  }

  lemma {:induction false} SkipSpacesInSuffix(t: string, p: nat, j: nat)
    requires p + j <= |t|
    ensures SkipSpaces(t, p + j) == p + SkipSpaces(t[p..], j)
    decreases |t| - j
  {
    if p + j < |t| && IsSpace(t[p + j]) {
      SkipSpacesInSuffix(t, p, j + 1);
    }
  }

  predicate Shifted(m: Option<Span>, p: nat, of: Option<Span>) {
    m == if of.Some? then Some(Span(p + of.value.open, p + of.value.end)) else None
  }

  lemma MatchInSuffix(t: string, p: nat, a: nat, i: nat)
    requires a == p + i && a < |t| && (p == 0 || !IsWord(t[p - 1]))
    ensures Shifted(MatchAt(t, a), p, MatchAt(t[p..], i))
  {
    if p + i + KEY <= |t| {
      SkipSpacesInSuffix(t, p, i + KEY);
      LiteralEndInSuffix(t, p, SkipSpaces(t[p..], i + KEY) + 1);
    }
  }

  lemma BodyInSuffix(t: string, p: nat, m: Span)
    requires p <= |t| && m.open < m.end <= |t| - p
    ensures Body(t, Span(p + m.open, p + m.end)) == Body(t[p..], m)
  {
    assert t[p + m.open..p + m.end - 1] == t[p..][m.open..m.end - 1];
  }

  /** The scan takes the same step in a suffix of the text, if the suffix does not begin inside a word. */
  lemma StepInSuffix(t: string, p: nat, a: nat, i: nat)
    requires a == p + i && a < |t| && (p == 0 || !IsWord(t[p - 1]))
    ensures FoundAt(t, a) == FoundAt(t[p..], i)
    ensures NextScan(t, a) == p + NextScan(t[p..], i)
  {
    MatchInSuffix(t, p, a, i);
    var m := MatchAt(t[p..], i);
    if m.Some? {
      BodyInSuffix(t, p, m.value);
    }
  }

  /** A step that ends by `p` is the same in the text cut at `p`. */
  lemma StepInPrefix(t: string, i: nat, p: nat)
    requires i < p <= |t| && NextScan(t, i) <= p
    ensures FoundAt(t[..p], i) == FoundAt(t, i) && NextScan(t[..p], i) == NextScan(t, i)
  {
    MatchInPrefix(t, p, i);
    var m := MatchAt(t, i);
    if m.Some? {
      assert Body(t[..p], m.value) == Body(t, m.value);
    }
  }

  /** From `a` the scan of the text reads what it reads from `i`, the same place, in the suffix. */
  lemma {:induction false} BodiesInSuffix(t: string, p: nat, a: nat, i: nat)
    requires a == p + i && a <= |t| && (p == 0 || p == |t| || !IsWord(t[p - 1]))
    ensures BodiesFrom(t, a) == BodiesFrom(t[p..], i)
    decreases |t| - a
  {
    if a < |t| {
      StepInSuffix(t, p, a, i);
      BodiesInSuffix(t, p, NextScan(t, a), NextScan(t[p..], i));
    }
  }

  /** Where the scan passes `p`, the literals before and after `p` can be read separately. */
  lemma {:induction false} BodiesSplit(t: string, i: nat, p: nat)
    requires i <= p <= |t| && ScanReaches(t, i, p) && (p == 0 || !IsWord(t[p - 1]))
    ensures BodiesFrom(t, i) == BodiesFrom(t[..p], i) + BodiesFrom(t[p..], 0)
    decreases p - i
  {
    if i == p {
      BodiesInSuffix(t, p, p, 0);
    } else {
      StepInPrefix(t, i, p);
      BodiesSplit(t, NextScan(t, i), p);
    }
  }

  lemma {:induction false} ReachesInPrefix(t: string, i: nat, p: nat, q: nat)
    requires i <= p <= q <= |t| && ScanReaches(t, i, p)
    ensures ScanReaches(t[..q], i, p)
    decreases p - i
  {
    if i < p {
      StepInPrefix(t, i, q);
      ReachesInPrefix(t, NextScan(t, i), p, q);
    }
  }

  /** Text already cut off, at a stanza's end, can be read apart from the text after it. */
  lemma CutIsSafe(done: string, part: string, rest: string)
    requires StanzasAreWhole(done + part + rest)
    requires done != "" ==> StanzaEnds(done, |done|)
    ensures Lines(done + part) == Lines(done) + Lines(part)
  {
    var t, q, r := done + part + rest, |done|, |done + part|;
    assert t[..r] == done + part && t[..r][..q] == done && t[..r][q..] == part;
    if q > 0 {
      assert StanzaEnds(t, q);
    }
    ReachesInPrefix(t, 0, q, r);
    BodiesSplit(t[..r], 0, q);
    UnescapedApart(BodiesFrom(done, 0), BodiesFrom(part, 0));
  }

  lemma CutText(done: string, buffer: string, cut: nat, later: string)
    requires cut <= |buffer|
    ensures done + buffer[..cut] + (buffer[cut..] + later) == done + buffer + later
    ensures done + buffer[..cut] + buffer[cut..] + later == done + buffer + later
  {
    assert buffer[..cut] + buffer[cut..] == buffer;
  }

  /** One cut of the buffer: the part before it is read apart, and the text as a whole is unchanged. */
  lemma BufferIsCut(done: string, buffer: string, cut: nat, later: string)
    requires StanzasAreWhole(done + buffer + later)
    requires done != "" ==> StanzaEnds(done, |done|)
    requires StanzaEnds(buffer, cut)
    ensures Lines(done + buffer[..cut]) == Lines(done) + Lines(buffer[..cut])
    ensures StanzaEnds(done + buffer[..cut], |done + buffer[..cut]|)
    ensures done + buffer[..cut] + buffer[cut..] + later == done + buffer + later
  {
    CutText(done, buffer, cut, later);
    CutIsSafe(done, buffer[..cut], buffer[cut..] + later);
  }

  lemma FlushIsSafe(done: string, buffer: string)
    requires StanzasAreWhole(done + buffer + "")
    requires done != "" ==> StanzaEnds(done, |done|)
    ensures Lines(done + buffer + "") == Lines(done) + Lines(buffer)
  {
    CutIsSafe(done, buffer, "");
    assert done + buffer + "" == done + buffer;
  }

  // ---------- Promptness ----------

  /** A stanza is finished where its closing brace, alone on its line, ends. */
  predicate Finished(t: string, p: int) {
    3 <= p <= |t| && t[p - 3..p] == "\n}\n"
  }

  /** The first `count` lines are out, and with them every line of a stanza that `text` finishes. */
  ghost predicate IsOut(text: string, lines: seq<string>, count: nat) {
    count <= |lines| && forall p: nat | Finished(text, p) :: Lines(text[..p]) <= lines[..count]
  }

  lemma FinishedEnds(t: string, p: nat)
    ensures Finished(t, p) <==> StanzaEnds(t, p)
  {
    assert p >= 3 && p <= |t| ==> |t[p - 3..p]| == 3;
    assert "\n}\n"[0] == '\n' && "\n}\n"[1] == '}' && "\n}\n"[2] == '\n';
  }

  /** What precedes the end of a stanza is read first. */
  lemma EarlierLinesFirst(text: string, rest: string, p: nat, q: nat)
    requires StanzasAreWhole(text + rest) && StanzaEnds(text, p) && p <= q <= |text|
    ensures Lines(text[..p]) <= Lines(text[..q])
  {
    var part := text[p..q];
    assert text[..p] + part == text[..q];
    assert text[..p] + part + (text[q..] + rest) == text + rest;
    CutIsSafe(text[..p], part, text[q..] + rest);
  }

  /** The scan runs through a stretch without a match. */
  lemma {:induction false} NothingFound(t: string, i: nat, p: nat)
    requires i <= p <= |t| && forall j | i <= j < p :: MatchAt(t, j).None?
    ensures BodiesFrom(t, i) == BodiesFrom(t, p)
    ensures forall q | i <= q <= p :: ScanReaches(t, i, q)
    ensures forall q | p <= q :: ScanReaches(t, p, q) ==> ScanReaches(t, i, q)
    decreases p - i
  {
    if i < p {
      NothingFound(t, i + 1, p);
    }
  }

  lemma ClosingHasNoLine()
    ensures Lines("}\n") == []
  {
    NothingFound("}\n", 0, 2);
  }

  /** With nothing finished left in the buffer, all that is finished has been read. */
  lemma DoneIsOut(done: string, buffer: string, rest: string)
    requires StanzasAreWhole(done + buffer + rest) && (done != "" ==> StanzaEnds(done, |done|))
    requires forall q: nat :: !StanzaEnds(buffer, q)
    ensures IsOut(done + buffer, Lines(done), |Lines(done)|)
  {
    var text := done + buffer;
    forall p: nat | Finished(text, p)
      ensures Lines(text[..p]) <= Lines(done)
    {
      FinishedEnds(text, p);
      assert text[..|done|] == done;
      if p <= |done| {
        EarlierLinesFirst(text, rest, p, |done|);
      } else {
        assert p - |done| >= 3 ==> StanzaEnds(buffer, p - |done|);
        assert text[p - 2] == '}' && (done != "" ==> text[|done| - 1] == '\n');
        assert p == |done| + 2 && text[..p] == done + "}\n";
        assert done + "}\n" + (text[p..] + rest) == text + rest;
        CutIsSafe(done, "}\n", text[p..] + rest);
        ClosingHasNoLine();
      }
    }
  }

  lemma NothingFinishedAfter(buffer: string, cut: nat)
    requires cut == LastStanzaEnd(buffer)
    ensures forall q: nat :: !StanzaEnds(buffer[cut..], q)
  {
    forall q: nat
      ensures !StanzaEnds(buffer[cut..], q)
    {
      assert StanzaEnds(buffer[cut..], q) ==> StanzaEnds(buffer, cut + q);
    }
  }

  /** The text read so far and the text kept: the first is cut at a stanza's end, the second finishes none. */
  ghost predicate WellCut(done: string, buffer: string) {
    (done != "" ==> StanzaEnds(done, |done|)) && forall q: nat :: !StanzaEnds(buffer, q)
  }

  lemma CutApart(done: string, kept: string, cut: nat)
    requires cut <= |kept|
    ensures done + kept[..cut] + kept[cut..] == done + kept
  {
  }

  lemma CutIsWell(done: string, kept: string, cut: nat, later: string)
    requires StanzasAreWhole(done + kept + later) && (done != "" ==> StanzaEnds(done, |done|))
    requires cut == LastStanzaEnd(kept) && cut > 0
    ensures WellCut(done + kept[..cut], kept[cut..])
    ensures done + kept[..cut] + kept[cut..] == done + kept
    ensures Lines(done + kept[..cut]) == Lines(done) + Lines(kept[..cut])
  {
    NothingFinishedAfter(kept, cut);
    BufferIsCut(done, kept, cut, later);
    CutApart(done, kept, cut);
  }

  /** Of a text whose lines up to `done` are out, `found` come next, up to `read`, and `kept` is left. */
  ghost predicate Taken(done: string, text: string, read: string, found: seq<string>, kept: string) {
    && read + kept == done + text && WellCut(read, kept)
    && Lines(read) == Lines(done) + found
    && IsOut(done + text, Lines(read), |Lines(read)|)
  }

  /** One chunk: its finished stanzas are read together with what was kept, and the rest is kept. */
  method TakeChunk(ghost done: string, buffer: string, chunk: string, ghost later: string)
    returns (found: seq<string>, kept: string)
    requires WellCut(done, buffer) && StanzasAreWhole(done + (buffer + chunk) + later)
    ensures exists read :: Taken(done, buffer + chunk, read, found, kept)
  {
    found, kept := [], buffer + chunk;
    ghost var read := done;
    var cut := LastStanzaEnd(kept);
    if cut != 0 {
      CutIsWell(done, kept, cut, later);
      found := ExtractLogLines(kept[..cut]);
      read := done + kept[..cut];
      kept := kept[cut..];
    } else {
      NothingFinishedAfter(kept, 0);
      assert kept[0..] == kept;
    }
    DoneIsOut(read, kept, later);
    assert Taken(done, buffer + chunk, read, found, kept);
  }

  lemma OutStaysOut(text: string, lines: seq<string>, more: seq<string>, count: nat)
    requires IsOut(text, lines, count)
    ensures IsOut(text, lines + more, count)
  {
    assert (lines + more)[..count] == lines[..count];
  }

  lemma {:induction false} JoinedOneMore(chunks: seq<string>, chunk: string)
    ensures Joined(chunks + [chunk]) == Joined(chunks) + chunk
  {
    if chunks == [] {
      assert [chunk][1..] == [];
    } else {
      assert (chunks + [chunk])[1..] == chunks[1..] + [chunk];
      JoinedOneMore(chunks[1..], chunk);
    }
  }

  lemma ChunkMoves(done: string, buffer: string, chunk: string, later: string)
    ensures done + buffer + chunk == done + (buffer + chunk)
    ensures done + buffer + (chunk + later) == done + (buffer + chunk) + later
  {
  }

  /** After `n` chunks, the text read and the text kept are what has come. */
  ghost predicate Come(done: string, buffer: string, chunks: seq<string>, n: nat)
    requires n <= |chunks|
  {
    done + buffer == Joined(chunks[..n]) && done + buffer + Joined(chunks[n..]) == Joined(chunks)
  }

  lemma NothingHasCome(chunks: seq<string>)
    ensures Come("", "", chunks, 0)
  {
    assert chunks[0..] == chunks && "" + "" + Joined(chunks) == Joined(chunks);
  }

  lemma OneMoreHasCome(done: string, buffer: string, chunks: seq<string>, n: nat)
    requires n < |chunks| && Come(done, buffer, chunks, n)
    ensures done + (buffer + chunks[n]) == Joined(chunks[..n + 1])
    ensures done + (buffer + chunks[n]) + Joined(chunks[n + 1..]) == Joined(chunks)
  {
    var chunk, later := chunks[n], chunks[n + 1..];
    assert chunks[n..][0] == chunk && chunks[n..][1..] == later;
    assert Joined(chunks[n..]) == chunk + Joined(later);
    assert chunks[..n + 1] == chunks[..n] + [chunk];
    JoinedOneMore(chunks[..n], chunk);
    ChunkMoves(done, buffer, chunk, Joined(later));
  }

  lemma AllHasCome(done: string, buffer: string, chunks: seq<string>)
    requires Come(done, buffer, chunks, |chunks|)
    ensures done + buffer + "" == Joined(chunks)
  {
    assert Joined(chunks[|chunks|..]) == "";
  }

  /** What was delivered in time stays so when more lines follow. */
  ghost predicate AllOut(chunks: seq<string>, lines: seq<string>, delivered: seq<nat>) {
    |delivered| <= |chunks| && forall m | 0 <= m < |delivered| :: IsOut(Joined(chunks[..m + 1]), lines, delivered[m])
  }

  lemma AllStayOut(chunks: seq<string>, lines: seq<string>, delivered: seq<nat>, more: seq<string>)
    requires AllOut(chunks, lines, delivered)
    ensures AllOut(chunks, lines + more, delivered)
  {
    forall m | 0 <= m < |delivered|
      ensures IsOut(Joined(chunks[..m + 1]), lines + more, delivered[m])
    {
      OutStaysOut(Joined(chunks[..m + 1]), lines, more, delivered[m]);
    }
  }

  lemma OneMoreIsOut(chunks: seq<string>, lines: seq<string>, delivered: seq<nat>, found: seq<string>)
    requires AllOut(chunks, lines, delivered) && |delivered| < |chunks|
    requires IsOut(Joined(chunks[..|delivered| + 1]), lines + found, |lines + found|)
    ensures AllOut(chunks, lines + found, delivered + [|lines + found|])
  {
    AllStayOut(chunks, lines, delivered, found);
  }

  /** The reader after `n` chunks. */
  ghost predicate HasRead(chunks: seq<string>, n: nat, done: string, buffer: string, lines: seq<string>,
                          delivered: seq<nat>)
    requires n <= |chunks|
  {
    && Come(done, buffer, chunks, n) && WellCut(done, buffer)
    && lines == Lines(done) && |delivered| == n && AllOut(chunks, lines, delivered)
  }

  ghost predicate InStep(chunks: seq<string>, n: nat, buffer: string, lines: seq<string>, delivered: seq<nat>)
    requires n <= |chunks|
  {
    exists done :: HasRead(chunks, n, done, buffer, lines, delivered)
  }

  /** One round of the loop. */
  method ReadChunk(chunks: seq<string>, n: nat, buffer: string, lines: seq<string>, delivered: seq<nat>)
    returns (found: seq<string>, kept: string)
    requires n < |chunks| && StanzasAreWhole(Joined(chunks)) && InStep(chunks, n, buffer, lines, delivered)
    ensures InStep(chunks, n + 1, kept, lines + found, delivered + [|lines + found|])
  {
    ghost var done :| HasRead(chunks, n, done, buffer, lines, delivered);
    OneMoreHasCome(done, buffer, chunks, n);
    found, kept := TakeChunk(done, buffer, chunks[n], Joined(chunks[n + 1..]));
    ghost var read :| Taken(done, buffer + chunks[n], read, found, kept);
    OneMoreIsOut(chunks, lines, delivered, found);
    assert HasRead(chunks, n + 1, read, kept, lines + found, delivered + [|lines + found|]);
  }

  lemma NothingIsRead(chunks: seq<string>)
    ensures InStep(chunks, 0, "", [], [])
  {
    NothingHasCome(chunks);
    assert HasRead(chunks, 0, "", "", [], []);
  }

  /** The flush at the end reads what was kept. */
  lemma FlushReads(chunks: seq<string>, buffer: string, lines: seq<string>, delivered: seq<nat>)
    requires StanzasAreWhole(Joined(chunks)) && InStep(chunks, |chunks|, buffer, lines, delivered)
    ensures lines + Lines(buffer) == Lines(Joined(chunks))
    ensures |delivered| == |chunks| && AllOut(chunks, lines + Lines(buffer), delivered)
  {
    var done :| HasRead(chunks, |chunks|, done, buffer, lines, delivered);
    AllHasCome(done, buffer, chunks);
    FlushIsSafe(done, buffer);
    AllStayOut(chunks, lines, delivered, Lines(buffer));
  }

  /**
   * `observe` until the stream ends: buffer, cut after the last finished stanza, flush at the end.
   * `delivered[n]` lines are out once chunk `n` has come.
   */
  method Observe(chunks: seq<string>) returns (lines: seq<string>, delivered: seq<nat>)
    requires StanzasAreWhole(Joined(chunks))
    ensures lines == Lines(Joined(chunks))
    ensures |delivered| == |chunks| && AllOut(chunks, lines, delivered)
  {
    lines, delivered := [], [];
    var buffer := "";
    NothingIsRead(chunks);
    for n := 0 to |chunks|
      invariant InStep(chunks, n, buffer, lines, delivered)
    {
      var found, kept := ReadChunk(chunks, n, buffer, lines, delivered);
      lines, delivered := lines + found, delivered + [|lines + found|];
      buffer := kept;
    }
    FlushReads(chunks, buffer, lines, delivered);
    var rest := ExtractLogLines(buffer);
    lines := lines + rest;
  }

  // ---------- What aer prints ----------

  /** A stretch of output around one log line: other fields before it, the rest of the stanza after it. */
  datatype Stanza = Stanza(before: string, line: seq<Piece>, after: string)

  const OPENING := "line: \""

  function Quoted(line: seq<Piece>): string {
    OPENING + PrintPieces(line) + "\""
  }

  function Print(s: Stanza): string {
    s.before + Quoted(s.line) + s.after
  }

  function PrintAll(stanzas: seq<Stanza>): string {
    if stanzas == [] then "" else Print(stanzas[0]) + PrintAll(stanzas[1..])
  }

  ghost predicate KeyFree(text: string) {
    forall i | 0 <= i < |text| :: !KeyAt(text, i)
  }

  /**
   * The line is quoted without a raw line feed, no other field of the stanza contains `line:` at a word
   * boundary, and the field name does not continue a word.
   */
  ghost predicate Printed(s: Stanza) {
    && Quotable(s.line) && Bare('\n') !in s.line
    && (forall i | 0 <= i < |s.before| :: !KeyAt(s.before + "line:", i))
    && (s.before == "" || !IsWord(s.before[|s.before| - 1]))
    && KeyFree(s.after)
  }

  /** The stanza's output ends with its closing brace at column 0. */
  ghost predicate WellPrinted(s: Stanza) {
    Printed(s) && StanzaEnds(s.after, |s.after|)
  }

  /**
   * How a stream ends after its last finished stanza: with output that holds no whole line, or in a
   * stanza after its line.
   */
  datatype Ending = Plain(text: string) | CutShort(stanza: Stanza)

  function PrintEnding(e: Ending): string {
    match e
    case Plain(text) => text
    case CutShort(s) => Print(s)
  }

  function EndingLines(e: Ending): seq<string> {
    match e
    case Plain(_) => []
    case CutShort(s) => [MeaningAll(s.line)]
  }

  ghost predicate GoodEnding(e: Ending) {
    match e
    case Plain(text) => forall i | 0 <= i < |text| :: MatchAt(text, i).None?
    case CutShort(s) => Printed(s)
  }

  lemma {:induction false} PiecesHaveNoNewline(ps: seq<Piece>)
    requires Quotable(ps) && Bare('\n') !in ps
    ensures '\n' !in PrintPieces(ps)
  {
    if ps != [] {
      assert ps[0] in ps;
      PiecesHaveNoNewline(ps[1..]);
    }
  }

  lemma QuotedText(before: string, line: seq<Piece>, after: string)
    ensures before + Quoted(line) + after == (before + OPENING) + PrintPieces(line) + "\"" + after
    ensures |Quoted(line)| == 8 + |PrintPieces(line)|
  {
  }

  lemma BodyOfQuoted(before: string, line: seq<Piece>, after: string)
    requires Quotable(line)
    ensures var t, m := before + Quoted(line) + after, Span(|before| + 7, |before + Quoted(line)|);
            m.open < m.end <= |t| && Body(t, m) == PrintPieces(line) && LiteralEnd(t, m.open) == Some(m.end)
  {
    QuotedText(before, line, after);
    PrintedLiteralEnds(before + OPENING, line, after);
    var head, tail := before + OPENING, "\"" + after;
    assert head + PrintPieces(line) + "\"" + after == head + PrintPieces(line) + tail;
  }

  lemma KeyOfQuoted(before: string, line: seq<Piece>, after: string)
    requires before == "" || !IsWord(before[|before| - 1])
    ensures var t, b := before + Quoted(line) + after, |before|;
            b + 7 <= |t| && KeyAt(t, b) && SkipSpaces(t, b + KEY) == b + 6 && t[b + 6] == '"'
  {
    var t, b := before + Quoted(line) + after, |before|;
    assert forall k | 0 <= k < 7 :: t[b + k] == Quoted(line)[k] == OPENING[k];
    assert t[b + 5] == ' ' && t[b + 6] == '"';
    assert SkipSpaces(t, b + 5) == SkipSpaces(t, b + 6) == b + 6;
  }

  /** Where a printed literal stands, the pattern matches exactly it. */
  lemma MatchOfQuoted(before: string, line: seq<Piece>, after: string)
    requires Quotable(line) && (before == "" || !IsWord(before[|before| - 1]))
    ensures var t := before + Quoted(line) + after;
            && MatchAt(t, |before|) == Some(Span(|before| + 7, |before + Quoted(line)|))
            && Body(t, MatchAt(t, |before|).value) == PrintPieces(line)
  {
    KeyOfQuoted(before, line, after);
    BodyOfQuoted(before, line, after);
  }

  lemma LiteralHasNoNewline(before: string, line: seq<Piece>, after: string)
    requires Quotable(line) && Bare('\n') !in line
    ensures var t := before + Quoted(line) + after;
            forall j | |before| <= j < |before + Quoted(line)| :: t[j] != '\n'
  {
    PiecesHaveNoNewline(line);
    assert '\n' !in Quoted(line);
    var t := before + Quoted(line) + after;
    assert forall j | |before| <= j < |before + Quoted(line)| :: t[j] == Quoted(line)[j - |before|];
  }

  lemma NoKeyBefore(s: Stanza, rest: string)
    requires Printed(s)
    ensures forall i | 0 <= i < |s.before| :: !KeyAt(Print(s) + rest, i)
  {
    var t := Print(s) + rest;
    assert t[..|s.before| + KEY] == s.before + "line:";
    forall i | 0 <= i < |s.before|
      ensures !KeyAt(t, i)
    {
      assert !KeyAt(s.before + "line:", i);
      assert KeyAt(t, i) && i + KEY <= |s.before| + KEY ==> KeyAt(t[..|s.before| + KEY], i);
    }
  }

  lemma NoKeyAfter(s: Stanza, rest: string)
    requires Printed(s) && (rest == "" || StanzaEnds(s.after, |s.after|))
    ensures forall i | |s.before + Quoted(s.line)| <= i < |Print(s)| :: !KeyAt(Print(s) + rest, i)
  {
    var t, e, n := Print(s) + rest, |s.before + Quoted(s.line)|, |Print(s)|;
    assert t[e..n] == s.after;
    assert rest != "" ==> t[n - 1] == '\n';
    forall i | e <= i < n
      ensures !KeyAt(t, i)
    {
      if KeyAt(t, i) {
        assert i + KEY <= n;
        assert KeyAt(t[e..n], i - e);
        assert false;
      }
    }
  }

  /** A stanza at the front: its one line is found and the scan reaches every cut in it. */
  lemma PrintedStanza(s: Stanza, rest: string)
    requires Printed(s) && (rest == "" || StanzaEnds(s.after, |s.after|))
    ensures var t := Print(s) + rest;
            && BodiesFrom(t, 0) == [PrintPieces(s.line)] + BodiesFrom(t, |Print(s)|)
            && (forall p: nat | StanzaEnds(t, p) && p <= |Print(s)| :: ScanReaches(t, 0, p))
            && (forall p: nat | ScanReaches(t, |Print(s)|, p) && |Print(s)| <= p :: ScanReaches(t, 0, p))
  {
    var t := Print(s) + rest;
    var b, e, n := |s.before|, |s.before + Quoted(s.line)|, |Print(s)|;
    assert t == s.before + Quoted(s.line) + (s.after + rest);
    NoKeyBefore(s, rest);
    NoKeyAfter(s, rest);
    MatchOfQuoted(s.before, s.line, s.after + rest);
    LiteralHasNoNewline(s.before, s.line, s.after + rest);
    NothingFound(t, 0, b);
    NothingFound(t, e, n);
    forall p: nat | p >= e && ScanReaches(t, e, p)
      ensures ScanReaches(t, 0, p)
    {
      assert ScanReaches(t, b, p);
    }
    forall p: nat | StanzaEnds(t, p) && p <= n
      ensures ScanReaches(t, 0, p)
    {
      assert p <= b || p - 1 >= e;
    }
  }

  function OriginalLines(stanzas: seq<Stanza>): seq<string> {
    if stanzas == [] then [] else [MeaningAll(stanzas[0].line)] + OriginalLines(stanzas[1..])
  }

  lemma {:induction false} ReachesInSuffix(t: string, p: nat, i: nat, q: nat)
    requires p + i <= |t| && i <= q && (p == 0 || !IsWord(t[p - 1])) && ScanReaches(t[p..], i, q)
    ensures ScanReaches(t, p + i, p + q)
    decreases |t| - i
  {
    if i < q {
      StepInSuffix(t, p, p + i, i);
      ReachesInSuffix(t, p, NextScan(t[p..], i), q);
    }
  }

  /** The scan of a stream whose tail is whole reaches every cut beyond the first stanza. */
  lemma CutsBeyond(t: string, n: nat, p: nat)
    requires 0 < n < p <= |t| && StanzaEnds(t, n) && StanzaEnds(t, p) && StanzasAreWhole(t[n..])
    ensures ScanReaches(t, n, p)
  {
    if p < n + 3 {
      NothingFound(t, n, p);
    } else {
      assert StanzaEnds(t[n..], p - n);
      ReachesInSuffix(t, n, 0, p - n);
    }
  }

  lemma FrontLine(line: seq<Piece>, bodies: seq<string>)
    requires Quotable(line)
    ensures UnescapedAll([PrintPieces(line)] + bodies) == [MeaningAll(line)] + UnescapedAll(bodies)
  {
    UnescapedIsMeaning(line);
  }

  lemma LineInFront(s: Stanza, rest: string)
    requires WellPrinted(s)
    ensures Lines(Print(s) + rest) == [MeaningAll(s.line)] + Lines(rest)
  {
    var t, n := Print(s) + rest, |Print(s)|;
    PrintedStanza(s, rest);
    assert t[n..] == rest && t[n - 1] == s.after[|s.after| - 1];
    BodiesInSuffix(t, n, n, 0);
    FrontLine(s.line, BodiesFrom(rest, 0));
  }

  /** One stanza in front of a whole text leaves it whole, and adds its line. */
  lemma OneMoreStanza(s: Stanza, rest: string)
    requires WellPrinted(s) && StanzasAreWhole(rest)
    ensures Lines(Print(s) + rest) == [MeaningAll(s.line)] + Lines(rest)
    ensures StanzasAreWhole(Print(s) + rest)
  {
    var t, n := Print(s) + rest, |Print(s)|;
    LineInFront(s, rest);
    PrintedStanza(s, rest);
    assert t[n..] == rest;
    forall p: nat | StanzaEnds(t, p)
      ensures ScanReaches(t, 0, p)
    {
      if p > n {
        CutsBeyond(t, n, p);
      }
    }
  }

  /** Text without a match gives nothing; a stanza that the stream's end cut short still gives its line. */
  lemma EndingIsWhole(ending: Ending)
    requires GoodEnding(ending)
    ensures Lines(PrintEnding(ending)) == EndingLines(ending) && StanzasAreWhole(PrintEnding(ending))
  {
    match ending
    case Plain(text) => NothingFound(text, 0, |text|);
    case CutShort(s) =>
      PrintedStanza(s, "");
      assert Print(s) + "" == Print(s);
      assert BodiesFrom(Print(s), |Print(s)|) == [];
      FrontLine(s.line, []);
      assert [PrintPieces(s.line)] + [] == [PrintPieces(s.line)];
  }

  lemma FirstStanza(stanzas: seq<Stanza>, end: string)
    requires stanzas != []
    ensures PrintAll(stanzas) + end == Print(stanzas[0]) + (PrintAll(stanzas[1..]) + end)
  {
  }

  /**
   * For every stream of well printed stanzas, however it ends: the whole text parses to the printed
   * lines in order, and no cut falls inside a match, so `Observe` yields the same lines for every
   * chunking. The line of a stanza cut short by the end is the one that the final flush reads.
   */
  lemma {:induction false} PrintedStreamIsWhole(stanzas: seq<Stanza>, ending: Ending)
    requires (forall s | s in stanzas :: WellPrinted(s)) && GoodEnding(ending)
    ensures Lines(PrintAll(stanzas) + PrintEnding(ending)) == OriginalLines(stanzas) + EndingLines(ending)
    ensures StanzasAreWhole(PrintAll(stanzas) + PrintEnding(ending))
  {
    var end := PrintEnding(ending);
    if stanzas == [] {
      EndingIsWhole(ending);
      assert PrintAll(stanzas) + end == end;
    } else {
      PrintedStreamIsWhole(stanzas[1..], ending);
      OneMoreStanza(stanzas[0], PrintAll(stanzas[1..]) + end);
      Reassociate([MeaningAll(stanzas[0].line)], OriginalLines(stanzas[1..]), EndingLines(ending));
      FirstStanza(stanzas, end);
    }
  }

  lemma FinishedBehind(front: string, back: string)
    requires Finished(back, |back|)
    ensures Finished(front + back, |front + back|)
  {
    var text := front + back;
    assert text[|text| - 3..|text|] == back[|back| - 3..|back|];
  }

  /** Printed stanzas end where they are finished. */
  lemma {:induction false} PrintedAreFinished(stanzas: seq<Stanza>)
    requires stanzas != [] && forall s | s in stanzas :: WellPrinted(s)
    ensures Finished(PrintAll(stanzas), |PrintAll(stanzas)|)
  {
    var s, rest := stanzas[0], PrintAll(stanzas[1..]);
    assert WellPrinted(s);
    if |stanzas| > 1 {
      PrintedAreFinished(stanzas[1..]);
      FinishedBehind(Print(s), rest);
    } else {
      FinishedEnds(s.after, |s.after|);
      FinishedBehind(s.before + Quoted(s.line), s.after);
      assert Print(s) + "" == Print(s);
    }
  }

  lemma {:induction false} OneLineEach(stanzas: seq<Stanza>)
    ensures |OriginalLines(stanzas)| == |stanzas|
  {
    if stanzas != [] {
      OneLineEach(stanzas[1..]);
    }
  }

  /** The text so far holds the first `k` stanzas whole. */
  lemma FirstStanzasAreOut(stanzas: seq<Stanza>, k: nat, text: string, lines: seq<string>, count: nat)
    requires (forall s | s in stanzas :: WellPrinted(s)) && k <= |stanzas|
    requires PrintAll(stanzas[..k]) <= text && IsOut(text, lines, count)
    ensures k <= count
  {
    var first := stanzas[..k];
    if k > 0 {
      assert forall s | s in first :: s in stanzas;
      PrintedAreFinished(first);
      var p := |PrintAll(first)|;
      assert text[..p] == PrintAll(first) && text[p - 3..p] == PrintAll(first)[p - 3..p];
      assert Finished(text, p);
      PrintedStreamIsWhole(first, Plain(""));
      assert PrintAll(first) + "" == PrintAll(first) && OriginalLines(first) + [] == OriginalLines(first);
      OneLineEach(first);
    }
  }

  /**
   * The printed lines come out of `Observe` whatever the chunks were, each as soon as the chunk that
   * finishes its stanza has come.
   */
  method ObservePrinted(stanzas: seq<Stanza>, ending: Ending, chunks: seq<string>)
    returns (lines: seq<string>, delivered: seq<nat>)
    requires (forall s | s in stanzas :: WellPrinted(s)) && GoodEnding(ending)
    requires Joined(chunks) == PrintAll(stanzas) + PrintEnding(ending)
    ensures lines == OriginalLines(stanzas) + EndingLines(ending)
    ensures |delivered| == |chunks|
    ensures forall n, k | 0 <= n < |chunks| && 0 <= k <= |stanzas|
                          && PrintAll(stanzas[..k]) <= Joined(chunks[..n + 1]) :: k <= delivered[n]
  {
    PrintedStreamIsWhole(stanzas, ending);
    lines, delivered := Observe(chunks);
    forall n, k | 0 <= n < |chunks| && 0 <= k <= |stanzas| && PrintAll(stanzas[..k]) <= Joined(chunks[..n + 1])
      ensures k <= delivered[n]
    {
      FirstStanzasAreOut(stanzas, k, Joined(chunks[..n + 1]), lines, delivered[n]);
    }
  }
}
