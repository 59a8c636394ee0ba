// `parseZoneadmListLine`: splitting the colon-separated, backslash-escaped lines of `zoneadm list -cp`.

module ZoneList {
  /** The fields of `line`, the first of which is already read as far as `current`. */
  function FieldsFrom(line: string, current: string): seq<string>
    decreases |line|
  {
    if line == "" then [current]
    else if line[0] == '\\' && |line| > 1 then FieldsFrom(line[2..], current + [line[1]])
    else if line[0] == ':' then [current] + FieldsFrom(line[1..], "")
    else FieldsFrom(line[1..], current + [line[0]])
  }

  function Fields(line: string): seq<string> {
    FieldsFrom(line, "")
  }

  method SplitFields(line: string) returns (fields: seq<string>)
    ensures fields == Fields(line)
  {
    fields := [];
    var current := "";
    var i := 0;
    while i < |line|
      invariant 0 <= i <= |line|
      invariant fields + FieldsFrom(line[i..], current) == Fields(line)
    {
      var c := line[i];
      assert line[i..][1..] == line[i + 1..];
      if c == '\\' && i + 1 < |line| {
        assert line[i..][2..] == line[i + 2..];
        current := current + [line[i + 1]];
        i := i + 1;
      } else if c == ':' {
        fields := fields + [current];
        current := "";
      } else {
        current := current + [c];
      }
      i := i + 1;
    }
    fields := fields + [current];
  }

  /** A character of a field as it is printed: bare, or behind a backslash. */
  datatype Mark = Bare(c: char) | Escaped(c: char)

  predicate GoodMarks(marks: seq<Mark>) {
    forall m | m in marks :: m.Bare? ==> m.c != ':' && m.c != '\\'
  }

  function PrintMark(m: Mark): string {
    if m.Bare? then [m.c] else ['\\', m.c]
  }

  function PrintMarks(marks: seq<Mark>): string {
    if marks == [] then "" else PrintMark(marks[0]) + PrintMarks(marks[1..])
  }

  function TextOf(marks: seq<Mark>): string {
    if marks == [] then "" else [marks[0].c] + TextOf(marks[1..])
  }

  function PrintLine(fields: seq<seq<Mark>>): string {
    if fields == [] then ""
    else if |fields| == 1 then PrintMarks(fields[0])
    else PrintMarks(fields[0]) + ":" + PrintLine(fields[1..])
  }

  /** A backslash at the very end has nothing to escape; it stands for itself. */
  function Dangling(dangles: bool): string {
    if dangles then "\\" else ""
  }

  /** The texts of the fields, the last one with the dangling backslash. */
  function Texts(fields: seq<seq<Mark>>, dangles: bool): seq<string>
    requires fields != []
  {
    if |fields| == 1 then [TextOf(fields[0]) + Dangling(dangles)]
    else [TextOf(fields[0])] + Texts(fields[1..], dangles)
  }

  lemma Associate(a: string, b: string, c: string)
    ensures a + b + c == a + (b + c)
  {
  }

  lemma MarkIsRead(m: Mark, tail: string, current: string)
    requires m.Bare? ==> m.c != ':' && m.c != '\\'
    ensures FieldsFrom(PrintMark(m) + tail, current) == FieldsFrom(tail, current + [m.c])
  {
    var line := PrintMark(m) + tail;
    assert m.Escaped? ==> line[2..] == tail;
    assert m.Bare? ==> line[1..] == tail;
  }

  lemma {:induction false} MarksAreRead(marks: seq<Mark>, rest: string, current: string)
    requires GoodMarks(marks)
    ensures FieldsFrom(PrintMarks(marks) + rest, current) == FieldsFrom(rest, current + TextOf(marks))
    decreases |marks|
  {
    if marks == [] {
      assert PrintMarks(marks) + rest == rest && current + TextOf(marks) == current;
    } else {
      assert marks[0] in marks;
      var later := PrintMarks(marks[1..]);
      MarkIsRead(marks[0], later + rest, current);
      MarksAreRead(marks[1..], rest, current + [marks[0].c]);
      Associate(PrintMark(marks[0]), later, rest);
      Associate(current, [marks[0].c], TextOf(marks[1..]));
    }
  }

  lemma DanglingIsRead(dangles: bool, current: string)
    ensures FieldsFrom(Dangling(dangles), current) == [current + Dangling(dangles)]
  {
    assert "\\"[1..] == "" && current + "" == current;
  }

  lemma ColonBehind(a: string, b: string, c: string)
    ensures a + ":" + b + c == a + (":" + (b + c)) && (":" + (b + c))[1..] == b + c
  {
  }

  /** Splitting undoes printing, whichever characters were escaped, and keeps a dangling backslash. */
  lemma {:induction false} SplitReadsMarks(fields: seq<seq<Mark>>, dangles: bool)
    requires fields != [] && forall f | f in fields :: GoodMarks(f)
    ensures Fields(PrintLine(fields) + Dangling(dangles)) == Texts(fields, dangles)
    decreases |fields|
  {
    var first := fields[0];
    assert first in fields && "" + TextOf(first) == TextOf(first);
    if |fields| == 1 {
      MarksAreRead(first, Dangling(dangles), "");
      DanglingIsRead(dangles, TextOf(first));
    } else {
      var later := PrintLine(fields[1..]) + Dangling(dangles);
      MarksAreRead(first, ":" + later, "");
      ColonBehind(PrintMarks(first), PrintLine(fields[1..]), Dangling(dangles));
      SplitReadsMarks(fields[1..], dangles);
    }
  }

  lemma ColonInFront(fields: seq<seq<Mark>>)
    requires fields != [] && forall f | f in fields :: GoodMarks(f)
    ensures (forall f | f in [[]] + fields :: GoodMarks(f)) && PrintLine([[]] + fields) == ":" + PrintLine(fields)
  {
    assert ([[]] + fields)[1..] == fields;
  }

  lemma Regroup(a: string, b: string, c: string)
    ensures (a + b) + ":" + c == a + (b + ":" + c)
  {
  }

  lemma MarkInFront(mark: Mark, fields: seq<seq<Mark>>)
    requires fields != [] && (mark.Bare? ==> mark.c != ':' && mark.c != '\\') && forall f | f in fields :: GoodMarks(f)
    ensures var longer := [[mark] + fields[0]] + fields[1..];
            (forall f | f in longer :: GoodMarks(f)) && PrintLine(longer) == PrintMark(mark) + PrintLine(fields)
  {
    var first := [mark] + fields[0];
    var longer := [first] + fields[1..];
    assert fields[0] in fields && first[1..] == fields[0] && longer[1..] == fields[1..];
    assert PrintMarks(first) == PrintMark(mark) + PrintMarks(fields[0]);
    Regroup(PrintMark(mark), PrintMarks(fields[0]), PrintLine(fields[1..]));
  }

  /** Every line is printed marks: nothing is left undefined. */
  lemma {:induction false} EveryLineIsMarks(line: string) returns (fields: seq<seq<Mark>>, dangles: bool)
    ensures fields != [] && (forall f | f in fields :: GoodMarks(f)) && line == PrintLine(fields) + Dangling(dangles)
    decreases |line|
  {
    if line == "" || line == "\\" {
      fields, dangles := [[]], line == "\\";
    } else if line[0] == ':' {
      var rest, d := EveryLineIsMarks(line[1..]);
      fields, dangles := [[]] + rest, d;
      ColonInFront(rest);
      assert line == ":" + line[1..];
      Associate(":", PrintLine(rest), Dangling(d));
    } else {
      var n := if line[0] == '\\' then 2 else 1;
      var mark := if line[0] == '\\' then Escaped(line[1]) else Bare(line[0]);
      var rest, d := EveryLineIsMarks(line[n..]);
      fields, dangles := [[mark] + rest[0]] + rest[1..], d;
      MarkInFront(mark, rest);
      assert line == PrintMark(mark) + line[n..];
      Associate(PrintMark(mark), PrintLine(rest), Dangling(d));
    }
  }

  /** How zoneadm prints a field: a backslash before each colon and each backslash. */
  function MarksFor(field: string): (marks: seq<Mark>)
    ensures GoodMarks(marks)
  {
    if field == "" then []
    else [if field[0] == ':' || field[0] == '\\' then Escaped(field[0]) else Bare(field[0])] + MarksFor(field[1..])
  }

  function AllMarksFor(fields: seq<string>): seq<seq<Mark>> {
    if fields == [] then [] else [MarksFor(fields[0])] + AllMarksFor(fields[1..])
  }

  lemma {:induction false} TextOfMarks(field: string)
    ensures TextOf(MarksFor(field)) == field
  {
    if field != "" {
      TextOfMarks(field[1..]);
    }
  }

  lemma {:induction false} TextsOfMarks(fields: seq<string>)
    requires fields != []
    ensures AllMarksFor(fields) != [] && Texts(AllMarksFor(fields), false) == fields
    ensures forall f | f in AllMarksFor(fields) :: GoodMarks(f)
  {
    TextOfMarks(fields[0]);
    assert fields[0] + "" == fields[0];
    if |fields| > 1 {
      TextsOfMarks(fields[1..]);
      assert AllMarksFor(fields)[1..] == AllMarksFor(fields[1..]);
    } else {
      assert fields == [fields[0]];
    }
  }

  /** Splitting undoes zoneadm's own printing, whatever colons and backslashes the fields contain. */
  lemma SplitUndoesLine(fields: seq<string>)
    requires fields != []
    ensures Fields(PrintLine(AllMarksFor(fields))) == fields
  {
    TextsOfMarks(fields);
    SplitReadsMarks(AllMarksFor(fields), false);
    assert PrintLine(AllMarksFor(fields)) + "" == PrintLine(AllMarksFor(fields));
  }
}
