// `parseOmnictlJson`: cutting a concatenation of pretty-printed JSON objects into its objects.

module Omnictl {
  import opened Wrappers
  import opened Text

  // ---------- JSON texts, after sections 2 to 7 of RFC 8259 ----------

  datatype StringChar = Plain(c: char) | Escaped(c: char) | Unicode(hex: string)

  datatype Member = Member(
    before: string, key: seq<StringChar>, beforeColon: string, afterColon: string, value: Json, after: string)

  /** `gap` is the white space inside an empty array or object. */
  datatype Json =
    | Atom(text: string)
    | Text(chars: seq<StringChar>)
    | Array(gap: string, items: seq<Item>)
    | Object(gap: string, members: seq<Member>)

  datatype Item = Item(before: string, value: Json, after: string)

  predicate Spaces(s: string) {
    forall i | 0 <= i < |s| :: s[i] == ' ' || s[i] == '\t' || s[i] == '\n' || s[i] == '\r'
  }

  predicate IsHex(c: char) {
    '0' <= c <= '9' || 'a' <= c <= 'f' || 'A' <= c <= 'F'
  }

  predicate GoodChar(c: StringChar) {
    match c
    case Plain(x) => x as int >= 0x20 && x != '"' && x != '\\'
    case Escaped(x) => x in "\"\\/bfnrt"
    case Unicode(hex) => |hex| == 4 && forall i | 0 <= i < |hex| :: IsHex(hex[i])
  }

  predicate GoodString(chars: seq<StringChar>) {
    forall i | 0 <= i < |chars| :: GoodChar(chars[i])
  }

  /** Numbers and the three literal names; all that matters here is what they cannot contain. */
  predicate GoodAtom(s: string) {
    s != "" && forall i | 0 <= i < |s| :: '0' <= s[i] <= '9' || 'a' <= s[i] <= 'z' || s[i] in "-+.E"
  }

  predicate Good(v: Json) {
    match v
    case Atom(text) => GoodAtom(text)
    case Text(chars) => GoodString(chars)
    case Array(gap, items) =>
      Spaces(gap) && forall i | i in items :: Spaces(i.before) && Spaces(i.after) && Good(i.value)
    case Object(gap, members) =>
      Spaces(gap) && forall m | m in members ::
        && Spaces(m.before) && Spaces(m.beforeColon) && Spaces(m.afterColon) && Spaces(m.after)
        && GoodString(m.key) && Good(m.value)
  }

  function PrintChar(c: StringChar): string {
    match c
    case Plain(x) => [x]
    case Escaped(x) => ['\\', x]
    case Unicode(hex) => "\\u" + hex
  }

  function PrintChars(chars: seq<StringChar>): string {
    if chars == [] then "" else PrintChar(chars[0]) + PrintChars(chars[1..])
  }

  function Quote(chars: seq<StringChar>): string {
    "\"" + PrintChars(chars) + "\""
  }

  function Width(v: Json): nat {
    match v
    case Array(_, items) => |items|
    case Object(_, members) => |members|
    case _ => 0
  }

  function PrintMembers(v: Json, members: seq<Member>): string
    requires forall m | m in members :: m.value < v
    decreases v, |members|
  {
    if members == [] then ""
    else
      var m := members[0];
      m.before + Quote(m.key) + m.beforeColon + ":" + m.afterColon + Print(m.value) + m.after
      + (if |members| > 1 then "," else "") + PrintMembers(v, members[1..])
  }

  function Print(v: Json): string
    decreases v, Width(v) + 2
  {
    match v
    case Atom(text) => text
    case Text(chars) => Quote(chars)
    case Array(gap, items) => if items == [] then "[" + gap + "]" else "[" + PrintItems(v, items) + "]"
    case Object(gap, members) => if members == [] then "{" + gap + "}" else "{" + PrintMembers(v, members) + "}"
  }

  function PrintItems(v: Json, items: seq<Item>): string
    requires forall i | i in items :: i.value < v
    decreases v, |items|
  {
    if items == [] then ""
    else
      var i := items[0];
      i.before + Print(i.value) + i.after + (if |items| > 1 then "," else "") + PrintItems(v, items[1..])
  }

  // ---------- The scanner ----------

  /** `current` is the text of the object being read, from its opening brace on. */
  datatype Scan = Scan(depth: int, current: string, inString: bool, escaped: bool, objects: seq<string>)

  const UNBALANCED := "unbalanced braces"

  const START := Scan(0, "", false, false, [])

  /** One character; an error stops the scan. */
  function Feed(s: Scan, ch: char): Result<Scan> {
    var t := if s.depth > 0 then s.(current := s.current + [ch]) else s;
    if s.inString then
      Ok(if s.escaped then t.(escaped := false)
         else if ch == '\\' then t.(escaped := true)
         else if ch == '"' then t.(inString := false)
         else t)
    else if ch == '"' then Ok(t.(inString := true))
    else if ch == '{' then Ok(t.(depth := s.depth + 1, current := if s.depth == 0 then [ch] else t.current))
    else if ch == '}' then
      if s.depth == 1 then Ok(t.(depth := 0, current := "", objects := s.objects + [t.current]))
      else if s.depth <= 0 then Err(UNBALANCED)
      else Ok(t.(depth := s.depth - 1))
    else Ok(t)
  }

  function FeedAll(s: Scan, text: string): Result<Scan>
    decreases |text|
  {
    if text == "" then Ok(s)
    else
      var t := Feed(s, text[0]);
      if t.Err? then t else FeedAll(t.value, text[1..])
  }

  /** The texts of the top-level objects of `text`, in order. */
  function Objects(text: string): Result<seq<string>> {
    var s := FeedAll(START, text);
    if s.Err? then Err(s.error) else if s.value.depth != 0 then Err(UNBALANCED) else Ok(s.value.objects)
  }

  lemma {:induction false} FeedAllAppend(s: Scan, a: string, b: string)
    ensures FeedAll(s, a + b) ==
            (var t := FeedAll(s, a); if t.Err? then t else FeedAll(t.value, b))
    decreases |a|
  {
    if a == "" {
      assert a + b == b;
    } else {
      assert (a + b)[1..] == a[1..] + b;
      var t := Feed(s, a[0]);
      if t.Ok? {
        FeedAllAppend(t.value, a[1..], b);
      }
    }
  }

  /**
   * `parseOmnictlJson` for text that is not one array: the loop over `depth`, `start`, `inString`
   * and `escaped`. `JSON.parse` is applied to each object's text by the caller.
   */
  method SplitObjects(text: string) returns (r: Result<seq<string>>)
    ensures r == Objects(text)
  {
    var objects: seq<string> := [];
    var depth, start := 0, -1;
    var inString, escaped := false, false;
    for i := 0 to |text|
      invariant depth >= 0 && -1 <= start < i + 1
      invariant depth > 0 <==> start >= 0
      invariant depth > 0 ==> start < i
      invariant FeedAll(START, text) ==
                FeedAll(Scan(depth, if depth > 0 then text[start..i] else "", inString, escaped, objects), text[i..])
    {
      var ch := text[i];
      assert text[i..][1..] == text[i + 1..];
      assert text[i..i + 1] == [ch] && (depth > 0 ==> text[start..i] + [ch] == text[start..i + 1]);
      if inString {
        if escaped {
          escaped := false;
        } else if ch == '\\' {
          escaped := true;
        } else if ch == '"' {
          inString := false;
        }
      } else if ch == '"' {
        inString := true;
      } else if ch == '{' {
        if depth == 0 {
          start := i;
        }
        depth := depth + 1;
      } else if ch == '}' {
        depth := depth - 1;
        if depth == 0 && start >= 0 {
          objects := objects + [text[start..i + 1]];
          start := -1;
        } else if depth < 0 {
          return Err(UNBALANCED);
        }
      }
    }
    r := if depth != 0 then Err(UNBALANCED) else Ok(objects);
  }

  /** The whole function: trimming, the empty output, the array form, and parsing each object. */
  method ParseOmnictlJson<T>(stdout: string, parse: string -> Result<T>, parseArray: string -> Result<seq<T>>)
    returns (r: Result<seq<T>>)
    ensures Trim(stdout) == "" ==> r == Ok([])
    ensures Trim(stdout) != "" && Trim(stdout)[0] == '[' ==> r == parseArray(Trim(stdout))
    ensures Trim(stdout) != "" && Trim(stdout)[0] != '[' && Objects(Trim(stdout)).Err? ==> r.Err?
    ensures Trim(stdout) != "" && Trim(stdout)[0] != '[' && Objects(Trim(stdout)).Ok? ==>
              var texts := Objects(Trim(stdout)).value;
              && (r.Ok? <==> forall t | t in texts :: parse(t).Ok?)
              && (r.Ok? ==> |r.value| == |texts| && forall k | 0 <= k < |texts| :: parse(texts[k]) == Ok(r.value[k]))
  {
    var text := Trim(stdout);
    if text == "" {
      return Ok([]);
    }
    if text[0] == '[' {
      return parseArray(text);
    }
    var cut := SplitObjects(text);
    if cut.Err? {
      return Err(cut.error);
    }
    var values: seq<T> := [];
    for k := 0 to |cut.value|
      invariant |values| == k && forall j | 0 <= j < k :: parse(cut.value[j]) == Ok(values[j])
    {
      var v := parse(cut.value[k]);
      if v.Err? {
        return Err(v.error);
      }
      values := values + [v.value];
    }
    r := Ok(values);
  }

  // ---------- Splitting undoes printing ----------

  /** Inside an object, `text` is read through and leaves the scanner where it was. */
  ghost predicate ReadThrough(s: Scan, text: string) {
    FeedAll(s, text) == Ok(s.(current := s.current + text))
  }

  /** A scanner state between tokens inside an object. */
  predicate Inside(s: Scan) {
    s.depth > 0 && !s.inString && !s.escaped
  }

  lemma ReadThroughAppend(s: Scan, a: string, b: string)
    requires ReadThrough(s, a) && ReadThrough(s.(current := s.current + a), b)
    ensures ReadThrough(s, a + b)
  {
    FeedAllAppend(s, a, b);
    assert s.current + a + b == s.current + (a + b);
  }

  /** Text without quotes and braces means nothing to the scanner. */
  lemma {:induction false} PlainIsReadThrough(s: Scan, text: string)
    requires Inside(s) && forall i | 0 <= i < |text| :: text[i] != '"' && text[i] != '{' && text[i] != '}'
    ensures ReadThrough(s, text)
    decreases |text|
  {
    if text == "" {
      assert s.current + text == s.current;
    } else {
      PlainIsReadThrough(s.(current := s.current + [text[0]]), text[1..]);
      assert s.current + [text[0]] + text[1..] == s.current + text;
    }
  }

  lemma FeedOne(s: Scan, a: char)
    ensures FeedAll(s, [a]) == Feed(s, a)
  {
    assert [a][1..] == "";
  }

  lemma FeedTwo(s: Scan, a: char, b: char)
    ensures FeedAll(s, [a, b]) == (var t := Feed(s, a); if t.Err? then t else Feed(t.value, b))
    ensures s.current + [a] + [b] == s.current + [a, b]
  {
    FeedAllAppend(s, [a], [b]);
    FeedOne(s, a);
    var t := Feed(s, a);
    if t.Ok? {
      FeedOne(t.value, b);
    }
    assert [a] + [b] == [a, b];
  }

  lemma {:induction false} HexStaysInString(s: Scan, hex: string)
    requires s.depth > 0 && s.inString && !s.escaped && forall i | 0 <= i < |hex| :: IsHex(hex[i])
    ensures ReadThrough(s, hex)
    decreases |hex|
  {
    if hex == "" {
      assert s.current + hex == s.current;
    } else {
      HexStaysInString(s.(current := s.current + [hex[0]]), hex[1..]);
      assert s.current + [hex[0]] + hex[1..] == s.current + hex;
    }
  }

  lemma CharStaysInString(s: Scan, c: StringChar)
    requires s.depth > 0 && s.inString && !s.escaped && GoodChar(c)
    ensures ReadThrough(s, PrintChar(c))
  {
    match c
    case Plain(x) =>
      FeedOne(s, x);
    case Escaped(x) =>
      FeedTwo(s, '\\', x);
    case Unicode(hex) =>
      FeedTwo(s, '\\', 'u');
      HexStaysInString(s.(current := s.current + "\\u"), hex);
      ReadThroughAppend(s, "\\u", hex);
  }

  lemma {:induction false} CharsStayInString(s: Scan, chars: seq<StringChar>)
    requires s.depth > 0 && s.inString && !s.escaped && GoodString(chars)
    ensures ReadThrough(s, PrintChars(chars))
    decreases |chars|
  {
    if chars == [] {
      assert s.current + "" == s.current;
    } else {
      CharStaysInString(s, chars[0]);
      CharsStayInString(s.(current := s.current + PrintChar(chars[0])), chars[1..]);
      ReadThroughAppend(s, PrintChar(chars[0]), PrintChars(chars[1..]));
    }
  }

  lemma QuoteIsReadThrough(s: Scan, chars: seq<StringChar>)
    requires Inside(s) && GoodString(chars)
    ensures ReadThrough(s, Quote(chars))
  {
    var body := PrintChars(chars);
    var t := s.(current := s.current + "\"", inString := true);
    var u := t.(current := t.current + body);
    FeedOne(s, '"');
    CharsStayInString(t, chars);
    FeedOne(u, '"');
    FeedAllAppend(s, "\"" + body, "\"");
    FeedAllAppend(s, "\"", body);
    assert s.current + "\"" + body + "\"" == s.current + Quote(chars);
  }

  function Comma(more: bool): string {
    if more then "," else ""
  }

  function Inner(v: Json): string
    requires v.Object?
  {
    if v.members == [] then v.gap else PrintMembers(v, v.members)
  }

  lemma {:induction false} ArrayIsReadThrough(s: Scan, v: Json)
    requires Inside(s) && Good(v) && v.Array?
    ensures ReadThrough(s, Print(v))
    decreases v, |v.items| + 1
  {
    var inner := if v.items == [] then v.gap else PrintItems(v, v.items);
    var s1 := s.(current := s.current + "[");
    PlainIsReadThrough(s, "[");
    if v.items == [] {
      PlainIsReadThrough(s1, v.gap);
    } else {
      ItemsAreReadThrough(s1, v, v.items);
    }
    ReadThroughAppend(s, "[", inner);
    PlainIsReadThrough(s.(current := s.current + ("[" + inner)), "]");
    ReadThroughAppend(s, "[" + inner, "]");
    assert Print(v) == "[" + inner + "]";
  }

  lemma {:induction false} MembersAreReadThrough(s: Scan, v: Json, members: seq<Member>)
    requires Inside(s) && v.Object? && Good(v) && forall m | m in members :: m in v.members
    ensures ReadThrough(s, PrintMembers(v, members))
    decreases v, |members|
  {
    if members == [] {
      PlainIsReadThrough(s, "");
    } else {
      var m := members[0];
      var text := m.before;
      PlainIsReadThrough(s, m.before);
      QuoteIsReadThrough(s.(current := s.current + text), m.key);
      ReadThroughAppend(s, text, Quote(m.key));
      text := text + Quote(m.key);
      PlainIsReadThrough(s.(current := s.current + text), m.beforeColon);
      ReadThroughAppend(s, text, m.beforeColon);
      text := text + m.beforeColon;
      PlainIsReadThrough(s.(current := s.current + text), ":");
      ReadThroughAppend(s, text, ":");
      text := text + ":";
      PlainIsReadThrough(s.(current := s.current + text), m.afterColon);
      ReadThroughAppend(s, text, m.afterColon);
      text := text + m.afterColon;
      ValueIsReadThrough(s.(current := s.current + text), m.value);
      ReadThroughAppend(s, text, Print(m.value));
      text := text + Print(m.value);
      PlainIsReadThrough(s.(current := s.current + text), m.after);
      ReadThroughAppend(s, text, m.after);
      text := text + m.after;
      PlainIsReadThrough(s.(current := s.current + text), Comma(|members| > 1));
      ReadThroughAppend(s, text, Comma(|members| > 1));
      text := text + Comma(|members| > 1);
      MembersAreReadThrough(s.(current := s.current + text), v, members[1..]);
      ReadThroughAppend(s, text, PrintMembers(v, members[1..]));
    }
  }

  lemma {:induction false} InnerIsReadThrough(s: Scan, v: Json)
    requires Inside(s) && Good(v) && v.Object?
    ensures ReadThrough(s, Inner(v))
    decreases v, |v.members| + 1
  {
    if v.members == [] {
      PlainIsReadThrough(s, v.gap);
    } else {
      MembersAreReadThrough(s, v, v.members);
    }
  }

  lemma {:induction false} ObjectIsReadThrough(s: Scan, v: Json)
    requires Inside(s) && Good(v) && v.Object?
    ensures ReadThrough(s, Print(v))
    decreases v, |v.members| + 2, 0
  {
    var s1 := s.(depth := s.depth + 1, current := s.current + "{");
    var inner := Inner(v);
    FeedOne(s, '{');
    InnerIsReadThrough(s1, v);
    FeedOne(s1.(current := s1.current + inner), '}');
    FeedAllAppend(s, "{" + inner, "}");
    FeedAllAppend(s, "{", inner);
    assert Print(v) == "{" + inner + "}";
    assert s.current + "{" + inner + "}" == s.current + Print(v);
  }

  lemma {:induction false} ValueIsReadThrough(s: Scan, v: Json)
    requires Inside(s) && Good(v)
    ensures ReadThrough(s, Print(v))
    decreases v, Width(v) + 2
  {
    match v
    case Atom(text) => PlainIsReadThrough(s, text);
    case Text(chars) => QuoteIsReadThrough(s, chars);
    case Array(gap, items) => ArrayIsReadThrough(s, v);
    case Object(gap, members) => ObjectIsReadThrough(s, v);
  }

  lemma {:induction false} ItemsAreReadThrough(s: Scan, v: Json, items: seq<Item>)
    requires Inside(s) && v.Array? && Good(v) && forall i | i in items :: i in v.items
    ensures ReadThrough(s, PrintItems(v, items))
    decreases v, |items|
  {
    if items == [] {
      PlainIsReadThrough(s, "");
    } else {
      var i := items[0];
      var text := i.before;
      PlainIsReadThrough(s, i.before);
      ValueIsReadThrough(s.(current := s.current + text), i.value);
      ReadThroughAppend(s, text, Print(i.value));
      text := text + Print(i.value);
      PlainIsReadThrough(s.(current := s.current + text), i.after);
      ReadThroughAppend(s, text, i.after);
      text := text + i.after;
      PlainIsReadThrough(s.(current := s.current + text), Comma(|items| > 1));
      ReadThroughAppend(s, text, Comma(|items| > 1));
      text := text + Comma(|items| > 1);
      ItemsAreReadThrough(s.(current := s.current + text), v, items[1..]);
      ReadThroughAppend(s, text, PrintItems(v, items[1..]));
    }
  }

  /** A printed object met at depth 0 becomes the next result. */
  lemma ObjectIsCut(objects: seq<string>, v: Json)
    requires v.Object? && Good(v)
    ensures FeedAll(START.(objects := objects), Print(v)) == Ok(START.(objects := objects + [Print(v)]))
  {
    var s := START.(objects := objects);
    var s1 := s.(depth := 1, current := "{");
    var inner := Inner(v);
    FeedOne(s, '{');
    InnerIsReadThrough(s1, v);
    FeedOne(s1.(current := s1.current + inner), '}');
    FeedAllAppend(s, "{" + inner, "}");
    FeedAllAppend(s, "{", inner);
    assert Print(v) == "{" + inner + "}";
  }

  lemma {:induction false} SpacesAreSkipped(objects: seq<string>, gap: string)
    requires Spaces(gap)
    ensures FeedAll(START.(objects := objects), gap) == Ok(START.(objects := objects))
  {
    if gap != "" {
      SpacesAreSkipped(objects, gap[1..]);
    }
  }

  datatype Resource = Resource(value: Json, gap: string)

  /** Each object followed by the white space after it. */
  function PrintResources(rs: seq<Resource>): string {
    if rs == [] then "" else Print(rs[0].value) + rs[0].gap + PrintResources(rs[1..])
  }

  function PrintedTexts(rs: seq<Resource>): seq<string> {
    if rs == [] then [] else [Print(rs[0].value)] + PrintedTexts(rs[1..])
  }

  predicate GoodResources(rs: seq<Resource>) {
    forall r | r in rs :: r.value.Object? && Good(r.value) && Spaces(r.gap)
  }

  lemma ResourceIsCut(objects: seq<string>, r: Resource)
    requires GoodResources([r])
    ensures FeedAll(START.(objects := objects), Print(r.value) + r.gap) ==
            Ok(START.(objects := objects + [Print(r.value)]))
  {
    assert r in [r];
    ObjectIsCut(objects, r.value);
    SpacesAreSkipped(objects + [Print(r.value)], r.gap);
    FeedAllAppend(START.(objects := objects), Print(r.value), r.gap);
  }

  lemma OneMoreText(objects: seq<string>, rs: seq<Resource>)
    requires rs != []
    ensures objects + [Print(rs[0].value)] + PrintedTexts(rs[1..]) == objects + PrintedTexts(rs)
  {
  }

  lemma {:induction false} ResourcesAreCut(objects: seq<string>, rs: seq<Resource>)
    requires GoodResources(rs)
    ensures FeedAll(START.(objects := objects), PrintResources(rs)) == Ok(START.(objects := objects + PrintedTexts(rs)))
    decreases |rs|
  {
    if rs == [] {
      assert objects + [] == objects;
    } else {
      var text := Print(rs[0].value);
      ResourceIsCut(objects, rs[0]);
      ResourcesAreCut(objects + [text], rs[1..]);
      FeedAllAppend(START.(objects := objects), text + rs[0].gap, PrintResources(rs[1..]));
      OneMoreText(objects, rs);
    }
  }

  /** Trailing white space can go when the scan ends between objects. */
  lemma {:induction false} TrailingSpaceIsSkipped(text: string, end: Scan)
    requires FeedAll(START, text) == Ok(end) && end.depth == 0 && !end.inString
    ensures FeedAll(START, TrimEnd(text)) == Ok(end)
  {
    if text != "" && IsSpace(text[|text| - 1]) {
      var rest := text[..|text| - 1];
      assert text == rest + [text[|text| - 1]];
      FeedAllAppend(START, rest, [text[|text| - 1]]);
      FeedOne(FeedAll(START, rest).value, text[|text| - 1]);
      TrailingSpaceIsSkipped(rest, end);
    }
  }

  lemma PrintedStartsWithBrace(rs: seq<Resource>)
    requires GoodResources(rs) && rs != []
    ensures PrintResources(rs) != "" && PrintResources(rs)[0] == '{'
  {
    assert Print(rs[0].value)[0] == '{';
  }

  /** Trimming takes the white space around the printed text, and nothing that matters. */
  lemma TrimmedText(lead: string, text: string)
    requires Spaces(lead) && (text != "" ==> !IsSpace(text[0]))
    ensures Trim(lead + text) == TrimEnd(text)
    ensures (Trim(lead + text) == "" <==> text == "") && (text != "" ==> Trim(lead + text)[0] == text[0])
  {
    TrimStartOfPadded(lead, text);
    TrimEndKeepsHead(text);
  }

  lemma PrintedIsCut(rs: seq<Resource>)
    requires GoodResources(rs)
    ensures Objects(TrimEnd(PrintResources(rs))) == Ok(PrintedTexts(rs))
  {
    ResourcesAreCut([], rs);
    assert [] + PrintedTexts(rs) == PrintedTexts(rs);
    TrailingSpaceIsSkipped(PrintResources(rs), START.(objects := PrintedTexts(rs)));
  }

  /**
   * For every list of objects, printed with any white space anywhere and any braces, quotes and
   * backslashes in their strings, the trimmed output is cut into exactly the printed texts, in
   * order, and is not mistaken for an array.
   */
  lemma SplitUndoesPrint(lead: string, rs: seq<Resource>)
    requires Spaces(lead) && GoodResources(rs)
    ensures var text := Trim(lead + PrintResources(rs));
            Objects(text) == Ok(PrintedTexts(rs)) && (text == "" <==> rs == []) && (text != "" ==> text[0] == '{')
  {
    if rs != [] {
      PrintedStartsWithBrace(rs);
    }
    TrimmedText(lead, PrintResources(rs));
    PrintedIsCut(rs);
  }

  // ---------- Output that is cut off, or has a brace too many ----------

  lemma {:induction false} ObjectsOnlyGrow(s: Scan, text: string)
    ensures FeedAll(s, text).Ok? ==> s.objects <= FeedAll(s, text).value.objects
    decreases |text|
  {
    if text != "" && Feed(s, text[0]).Ok? {
      ObjectsOnlyGrow(Feed(s, text[0]).value, text[1..]);
    }
  }

  /** Inside an object the scan comes back to depth 0 only by cutting off an object. */
  lemma {:induction false} ClosingCuts(s: Scan, text: string)
    requires s.depth > 0 && FeedAll(s, text).Ok? && FeedAll(s, text).value.depth == 0
    ensures var objects := FeedAll(s, text).value.objects;
            |s.objects| < |objects| && |objects[|s.objects|]| <= |s.current| + |text|
    decreases |text|
  {
    var t := Feed(s, text[0]).value;
    ObjectsOnlyGrow(t, text[1..]);
    if t.depth != 0 {
      ClosingCuts(t, text[1..]);
    }
  }

  /** A printed object is not finished before its last brace. */
  lemma ObjectIsNotCutEarly(objects: seq<string>, v: Json, k: nat)
    requires v.Object? && Good(v) && 0 < k < |Print(v)|
    ensures var t := FeedAll(START.(objects := objects), Print(v)[..k]); t.Ok? && t.value.depth != 0
  {
    var s, text := START.(objects := objects), Print(v);
    ObjectIsCut(objects, v);
    assert text == text[..k] + text[k..];
    FeedAllAppend(s, text[..k], text[k..]);
    var t := FeedAll(s, text[..k]).value;
    ObjectsOnlyGrow(t, text[k..]);
    if t.depth == 0 {
      assert text[..k][0] == '{';
      ClosingCuts(Feed(s, '{').value, text[..k][1..]);
    }
  }

  /** Output that breaks off inside an object is refused, however many whole objects precede. */
  lemma CutOffIsRefused(rs: seq<Resource>, v: Json, k: nat)
    requires GoodResources(rs) && v.Object? && Good(v) && 0 < k < |Print(v)|
    ensures Objects(PrintResources(rs) + Print(v)[..k]) == Err(UNBALANCED)
  {
    ResourcesAreCut([], rs);
    FeedAllAppend(START, PrintResources(rs), Print(v)[..k]);
    ObjectIsNotCutEarly([] + PrintedTexts(rs), v, k);
  }

  lemma {:induction false} TrimEndIsPrefix(front: string, text: string) returns (k: nat)
    requires text != "" && !IsSpace(text[0])
    ensures 0 < k <= |text| && TrimEnd(front + text) == front + text[..k]
    decreases |text|
  {
    if IsSpace(text[|text| - 1]) {
      var shorter := text[..|text| - 1];
      assert (front + text)[..|front + text| - 1] == front + shorter;
      k := TrimEndIsPrefix(front, shorter);
    } else {
      k := |text|;
      assert text[..k] == text;
    }
  }

  /** So is it when it is trimmed first, as the caller does. */
  lemma TruncatedIsRefused(lead: string, rs: seq<Resource>, v: Json, k: nat)
    requires Spaces(lead) && GoodResources(rs) && v.Object? && Good(v) && 0 < k < |Print(v)|
    ensures Objects(Trim(lead + (PrintResources(rs) + Print(v)[..k]))) == Err(UNBALANCED)
  {
    var text := PrintResources(rs) + Print(v)[..k];
    assert Print(v)[..k][0] == '{';
    if rs != [] {
      PrintedStartsWithBrace(rs);
    }
    TrimmedText(lead, text);
    var m := TrimEndIsPrefix(PrintResources(rs), Print(v)[..k]);
    assert Print(v)[..k][..m] == Print(v)[..m];
    CutOffIsRefused(rs, v, m);
  }

  /** A closing brace outside every object is refused, whatever follows it. */
  lemma StrayBraceIsRefused(rs: seq<Resource>, rest: string)
    requires GoodResources(rs)
    ensures Objects(PrintResources(rs) + ("}" + rest)) == Err(UNBALANCED)
  {
    ResourcesAreCut([], rs);
    FeedAllAppend(START, PrintResources(rs), "}" + rest);
  }
}
