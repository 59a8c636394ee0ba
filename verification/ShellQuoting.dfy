// The commands of the disk mover and how two POSIX shells, one inside the other, read them.

module ShellQuoting {
  import opened Wrappers
  import opened Text

  // ---------- Reading a command line (sections 2.2 and 2.3 of POSIX.1-2017 XCU) ----------

  datatype Token = Word(text: string) | Pipe

  datatype Mode = Bare | InSingleQuotes | AfterBackslash

  datatype Reader = Reader(mode: Mode, word: Option<string>, tokens: seq<Token>)

  const START := Reader(Bare, None, [])

  /** Unquoted characters with a meaning of their own; a line that contains one is not read here. */
  predicate IsSpecial(c: char) {
    || c == '"' || c == '$' || c == '`' || c == ';' || c == '&' || c == '<' || c == '>' || c == '(' || c == ')'
    || c == '*' || c == '?' || c == '[' || c == ']' || c == '#' || c == '~' || c == '{' || c == '}' || c == '!'
    || c == '\n' || c == '\r' || c == '\0'
  }

  /** Characters that stand for themselves without quoting. */
  predicate IsPlain(c: char) {
    !IsSpecial(c) && c != ' ' && c != '\t' && c != '|' && c != '\'' && c != '\\'
  }

  function Extended(r: Reader, text: string): Reader {
    r.(word := Some((if r.word.Some? then r.word.value else "") + text))
  }

  function Flushed(r: Reader): Reader {
    if r.word.Some? then r.(word := None, tokens := r.tokens + [Word(r.word.value)]) else r
  }

  function Read(r: Reader, c: char): Result<Reader> {
    match r.mode
    case InSingleQuotes => Ok(if c == '\'' then r.(mode := Bare) else Extended(r, [c]))
    case AfterBackslash => Ok(if c == '\n' then r.(mode := Bare) else Extended(r, [c]).(mode := Bare))
    case Bare =>
      if c == ' ' || c == '\t' then Ok(Flushed(r))
      else if c == '|' then Ok(Flushed(r).(tokens := Flushed(r).tokens + [Pipe]))
      else if c == '\'' then Ok(Extended(r, "").(mode := InSingleQuotes))
      else if c == '\\' then Ok(r.(mode := AfterBackslash))
      else if IsSpecial(c) then Err("special character")
      else Ok(Extended(r, [c]))
  }

  function ReadAll(r: Reader, s: string): Result<Reader>
    decreases |s|
  {
    if s == "" then Ok(r)
    else
      var t := Read(r, s[0]);
      if t.Err? then t else ReadAll(t.value, s[1..])
  }

  /** The tokens of a whole command line. */
  function Shell(line: string): Result<seq<Token>> {
    var r := ReadAll(START, line);
    if r.Err? then Err(r.error)
    else if r.value.mode != Bare then Err("unterminated quote")
    else Ok(Flushed(r.value).tokens)
  }

  // ---------- The commands ----------

  function QuotesReplaced(s: string): string {
    if s == "" then ""
    else (if s[0] == '\'' then "'\\''" else [s[0]]) + QuotesReplaced(s[1..])
  }

  function Shq(s: string): string {
    "'" + QuotesReplaced(s) + "'"
  }

  function Join(words: seq<string>): string {
    if words == [] then "" else if |words| == 1 then words[0] else words[0] + " " + Join(words[1..])
  }

  datatype StreamParams = StreamParams(
    srcDevPath: string, dstDevPath: string, blockSize: string, zstdLevel: nat, zstdThreads: nat, sparse: bool)

  datatype InnerSshOpts = InnerSshOpts(
    dstHost: string, dstUser: string, connectTimeoutSec: nat, migrationKeyPath: Option<string>)

  function DdReadCommand(devPath: string, blockSize: string): string {
    Join(["dd", "if=" + Shq(devPath), "bs=" + Shq(blockSize), "status=progress"])
  }

  function DdWriteCommand(devPath: string, blockSize: string, sparse: bool): string {
    Join(["dd", "of=" + Shq(devPath), "bs=" + Shq(blockSize)]
         + (if sparse then ["conv=sparse"] else []) + ["status=progress"])
  }

  function ZstdCompress(threads: nat, level: nat): string {
    Join(["zstd", "-T" + Digits(threads), "-" + Digits(level)])
  }

  function ZstdDecompress(): string {
    Join(["zstd", "-dc"])
  }

  function RelaySrcCommand(p: StreamParams): string {
    DdReadCommand(p.srcDevPath, p.blockSize) + " | " + ZstdCompress(p.zstdThreads, p.zstdLevel)
  }

  function RelayDstCommand(p: StreamParams): string {
    ZstdDecompress() + " | " + DdWriteCommand(p.dstDevPath, p.blockSize, p.sparse)
  }

  predicate HasKey(o: InnerSshOpts) {
    o.migrationKeyPath.Some? && o.migrationKeyPath.value != ""
  }

  function InnerSshFlags(o: InnerSshOpts): seq<string> {
    ["-o", "BatchMode=yes", "-o", "ConnectTimeout=" + Digits(o.connectTimeoutSec),
     "-o", "StrictHostKeyChecking=accept-new"]
    + (if HasKey(o) then ["-i", Shq(o.migrationKeyPath.value)] else [])
  }

  function SshInner(o: InnerSshOpts): string {
    Join(["ssh"] + InnerSshFlags(o) + [o.dstUser + "@" + o.dstHost])
  }

  function DirectSrcCommand(p: StreamParams, o: InnerSshOpts): string {
    RelaySrcCommand(p) + " | " + (SshInner(o) + " " + Shq(RelayDstCommand(p)))
  }

  // ---------- What the commands mean ----------

  function DdReadTokens(dev: string, bs: string): seq<Token> {
    [Word("dd"), Word("if=" + dev), Word("bs=" + bs), Word("status=progress")]
  }

  function DdWriteTokens(dev: string, bs: string, sparse: bool): seq<Token> {
    [Word("dd"), Word("of=" + dev), Word("bs=" + bs)] + (if sparse then [Word("conv=sparse")] else [])
    + [Word("status=progress")]
  }

  function RelaySrcTokens(p: StreamParams): seq<Token> {
    DdReadTokens(p.srcDevPath, p.blockSize) + [Pipe]
    + [Word("zstd"), Word("-T" + Digits(p.zstdThreads)), Word("-" + Digits(p.zstdLevel))]
  }

  function RelayDstTokens(p: StreamParams): seq<Token> {
    [Word("zstd"), Word("-dc")] + [Pipe] + DdWriteTokens(p.dstDevPath, p.blockSize, p.sparse)
  }

  function FlagTokens(o: InnerSshOpts): seq<Token> {
    [Word("-o"), Word("BatchMode=yes"), Word("-o"), Word("ConnectTimeout=" + Digits(o.connectTimeoutSec)),
     Word("-o"), Word("StrictHostKeyChecking=accept-new")]
    + (match o.migrationKeyPath
       case Some(path) => if path == "" then [] else [Word("-i"), Word(path)]
       case None => [])
  }

  function SshTokens(o: InnerSshOpts): seq<Token> {
    [Word("ssh")] + FlagTokens(o) + [Word(o.dstUser + "@" + o.dstHost)]
  }

  // ---------- Proofs: pieces of words, words, and lines ----------

  lemma {:induction false} ReadAllAppend(r: Reader, a: string, b: string)
    ensures ReadAll(r, a + b) == (var t := ReadAll(r, a); if t.Err? then t else ReadAll(t.value, b))
    decreases |a|
  {
    if a == "" {
      assert a + b == b;
    } else {
      assert (a + b)[1..] == a[1..] + b;
      var t := Read(r, a[0]);
      if t.Ok? {
        ReadAllAppend(t.value, a[1..], b);
      }
    }
  }

  /** Reading `text` adds exactly `meaning` to the current word. */
  ghost predicate Piece(text: string, meaning: string) {
    forall r: Reader {:trigger ReadAll(r, text)} | r.mode == Bare :: ReadAll(r, text) == Ok(Extended(r, meaning))
  }

  /** Reading `text` and then a blank, outside a word, yields exactly `tokens`. */
  ghost predicate Renders(text: string, tokens: seq<Token>) {
    forall r: Reader {:trigger ReadAll(r, text + " ")} | r.mode == Bare && r.word.None? ::
      ReadAll(r, text + " ") == Ok(r.(tokens := r.tokens + tokens))
  }

  lemma {:induction false} PlainReads(r: Reader, s: string)
    requires r.mode == Bare && s != "" && forall i | 0 <= i < |s| :: IsPlain(s[i])
    ensures ReadAll(r, s) == Ok(Extended(r, s))
    decreases |s|
  {
    if |s| > 1 {
      PlainReads(Extended(r, [s[0]]), s[1..]);
      assert [s[0]] + s[1..] == s;
      var w := if r.word.Some? then r.word.value else "";
      assert w + [s[0]] + s[1..] == w + s;
    } else {
      assert s == [s[0]];
    }
  }

  lemma PlainIsPiece(s: string)
    requires s != "" && forall i | 0 <= i < |s| :: IsPlain(s[i])
    ensures Piece(s, s)
  {
    forall r: Reader | r.mode == Bare
      ensures ReadAll(r, s) == Ok(Extended(r, s))
    {
      PlainReads(r, s);
    }
  }

  lemma HeadReads(r: Reader, c: char)
    requires r.mode == InSingleQuotes && r.word.Some?
    ensures ReadAll(r, if c == '\'' then "'\\''" else [c]) == Ok(Extended(r, [c]))
  {
    if c == '\'' {
      var r1 := r.(mode := Bare);
      var r2 := r.(mode := AfterBackslash);
      var r3 := Extended(r, "'").(mode := Bare);
      assert "'\\''"[1..] == "\\''" && "\\''"[1..] == "''" && "''"[1..] == "'" && "'"[1..] == "";
      assert Read(r, '\'') == Ok(r1) && Read(r1, '\\') == Ok(r2) && Read(r2, '\'') == Ok(r3);
      assert r3.word.value + "" == r3.word.value;
      assert Read(r3, '\'') == Ok(Extended(r, "'"));
      assert ReadAll(r2, "''") == ReadAll(r3, "'");
      assert ReadAll(r1, "\\''") == ReadAll(r2, "''");
    }
  }

  /** Inside single quotes, a value with its quotes replaced reads as the value. */
  lemma {:induction false} ReplacedReads(r: Reader, s: string)
    requires r.mode == InSingleQuotes && r.word.Some?
    ensures ReadAll(r, QuotesReplaced(s)) == Ok(Extended(r, s))
    decreases |s|
  {
    if s == "" {
      assert r.word.value + "" == r.word.value;
    } else {
      var head := if s[0] == '\'' then "'\\''" else [s[0]];
      HeadReads(r, s[0]);
      ReplacedReads(Extended(r, [s[0]]), s[1..]);
      ReadAllAppend(r, head, QuotesReplaced(s[1..]));
      assert r.word.value + [s[0]] + s[1..] == r.word.value + s;
    }
  }

  /** The quoting lemma: for every string, the quoted form is one word piece meaning that string. */
  lemma ShqIsPiece(s: string)
    ensures Piece(Shq(s), s)
  {
    forall r: Reader | r.mode == Bare
      ensures ReadAll(r, Shq(s)) == Ok(Extended(r, s))
    {
      var w := if r.word.Some? then r.word.value else "";
      var r1 := Extended(r, "").(mode := InSingleQuotes);
      assert w + "" == w;
      ReplacedReads(r1, s);
      ReadAllAppend(r, "'", QuotesReplaced(s));
      ReadAllAppend(r, "'" + QuotesReplaced(s), "'");
    }
  }

  lemma PiecesJoin(a: string, am: string, b: string, bm: string)
    requires Piece(a, am) && Piece(b, bm)
    ensures Piece(a + b, am + bm)
  {
    forall r: Reader | r.mode == Bare
      ensures ReadAll(r, a + b) == Ok(Extended(r, am + bm))
    {
      ReadAllAppend(r, a, b);
      var w := if r.word.Some? then r.word.value else "";
      assert ReadAll(Extended(r, am), b) == Ok(Extended(Extended(r, am), bm));
      assert w + am + bm == w + (am + bm);
    }
  }

  lemma PieceIsWord(text: string, meaning: string)
    requires Piece(text, meaning)
    ensures Renders(text, [Word(meaning)])
  {
    forall r: Reader | r.mode == Bare && r.word.None?
      ensures ReadAll(r, text + " ") == Ok(r.(tokens := r.tokens + [Word(meaning)]))
    {
      ReadAllAppend(r, text, " ");
      assert "" + meaning == meaning;
    }
  }

  lemma PlainIsWord(s: string)
    requires s != "" && forall i | 0 <= i < |s| :: IsPlain(s[i])
    ensures Renders(s, [Word(s)])
  {
    PlainIsPiece(s);
    PieceIsWord(s, s);
  }

  lemma BarIsPipe()
    ensures Renders("|", [Pipe])
  {
    forall r: Reader | r.mode == Bare && r.word.None?
      ensures ReadAll(r, "|" + " ") == Ok(r.(tokens := r.tokens + [Pipe]))
    {
      ReadAllAppend(r, "|", " ");
    }
  }

  lemma RendersJoin(a: string, ta: seq<Token>, b: string, tb: seq<Token>)
    requires Renders(a, ta) && Renders(b, tb)
    ensures Renders(a + " " + b, ta + tb)
  {
    forall r: Reader | r.mode == Bare && r.word.None?
      ensures ReadAll(r, a + " " + b + " ") == Ok(r.(tokens := r.tokens + (ta + tb)))
    {
      ReadAllAppend(r, a + " ", b + " ");
      assert (a + " ") + (b + " ") == a + " " + b + " ";
      assert r.tokens + ta + tb == r.tokens + (ta + tb);
    }
  }

  lemma RendersPipeline(a: string, ta: seq<Token>, b: string, tb: seq<Token>)
    requires Renders(a, ta) && Renders(b, tb)
    ensures Renders(a + " | " + b, ta + [Pipe] + tb)
  {
    BarIsPipe();
    RendersJoin(a, ta, "|", [Pipe]);
    RendersJoin(a + " " + "|", ta + [Pipe], b, tb);
    assert a + " " + "|" + " " + b == a + " | " + b;
  }

  ghost predicate AllRender(words: seq<string>, tokens: seq<Token>) {
    |words| == |tokens| && forall i | 0 <= i < |words| :: Renders(words[i], [tokens[i]])
  }

  lemma {:induction false} JoinRenders(words: seq<string>, tokens: seq<Token>)
    requires words != [] && AllRender(words, tokens)
    ensures Renders(Join(words), tokens)
    decreases |words|
  {
    if |words| == 1 {
      assert tokens == [tokens[0]];
    } else {
      JoinRenders(words[1..], tokens[1..]);
      RendersJoin(words[0], [tokens[0]], Join(words[1..]), tokens[1..]);
      assert [tokens[0]] + tokens[1..] == tokens;
    }
  }

  /** A trailing blank changes nothing, so a rendered line is read as its tokens. */
  lemma RenderedIsRead(text: string, tokens: seq<Token>)
    requires Renders(text, tokens)
    ensures Shell(text) == Ok(tokens)
  {
    ReadAllAppend(START, text, " ");
    assert ReadAll(START, text + " ") == Ok(START.(tokens := [] + tokens));
    assert [] + tokens == tokens;
    var r := ReadAll(START, text);
  }

  lemma {:induction false} DigitsArePlain(n: nat)
    ensures forall i | 0 <= i < |Digits(n)| :: IsPlain(Digits(n)[i])
  {
    assert forall i | 0 <= i < |Digits(n)| :: Digits(n)[i] in Digits(n);
  }

  lemma AssignedIsWord(key: string, value: string)
    requires key != "" && forall i | 0 <= i < |key| :: IsPlain(key[i])
    ensures Renders(key + Shq(value), [Word(key + value)])
  {
    PlainIsPiece(key);
    ShqIsPiece(value);
    PiecesJoin(key, key, Shq(value), value);
    PieceIsWord(key + Shq(value), key + value);
  }

  lemma NumberedIsWord(key: string, n: nat)
    requires key != "" && forall i | 0 <= i < |key| :: IsPlain(key[i])
    ensures Renders(key + Digits(n), [Word(key + Digits(n))])
  {
    DigitsArePlain(n);
    PlainIsWord(key + Digits(n));
  }

  lemma DdWords()
    ensures Renders("dd", [Word("dd")])
    ensures Renders("conv=sparse", [Word("conv=sparse")])
    ensures Renders("status=progress", [Word("status=progress")])
  {
    PlainIsWord("dd");
    PlainIsWord("conv=sparse");
    PlainIsWord("status=progress");
  }

  lemma FlagWords()
    ensures Renders("-o", [Word("-o")])
    ensures Renders("-i", [Word("-i")])
  {
    PlainIsWord("-o");
    PlainIsWord("-i");
  }

  lemma OptionWords()
    ensures Renders("BatchMode=yes", [Word("BatchMode=yes")])
    ensures Renders("StrictHostKeyChecking=accept-new", [Word("StrictHostKeyChecking=accept-new")])
  {
    PlainIsWord("BatchMode=yes");
    PlainIsWord("StrictHostKeyChecking=accept-new");
  }

  lemma SshWords()
    ensures Renders("ssh", [Word("ssh")])
    ensures Renders("-o", [Word("-o")])
    ensures Renders("-i", [Word("-i")])
    ensures Renders("BatchMode=yes", [Word("BatchMode=yes")])
    ensures Renders("StrictHostKeyChecking=accept-new", [Word("StrictHostKeyChecking=accept-new")])
  {
    PlainIsWord("ssh");
    FlagWords();
    OptionWords();
  }

  lemma DdReadRenders(dev: string, bs: string)
    ensures Renders(DdReadCommand(dev, bs), DdReadTokens(dev, bs))
  {
    DdWords();
    AssignedIsWord("if=", dev);
    AssignedIsWord("bs=", bs);
    JoinRenders(["dd", "if=" + Shq(dev), "bs=" + Shq(bs), "status=progress"], DdReadTokens(dev, bs));
  }

  lemma DdWriteRenders(dev: string, bs: string, sparse: bool)
    ensures Renders(DdWriteCommand(dev, bs, sparse), DdWriteTokens(dev, bs, sparse))
  {
    DdWords();
    AssignedIsWord("of=", dev);
    AssignedIsWord("bs=", bs);
    var head := ["dd", "of=" + Shq(dev), "bs=" + Shq(bs)];
    var headTokens := [Word("dd"), Word("of=" + dev), Word("bs=" + bs)];
    var tail, tailTokens := ["status=progress"], [Word("status=progress")];
    assert AllRender(head, headTokens) && AllRender(tail, tailTokens);
    if sparse {
      assert AllRender(["conv=sparse"], [Word("conv=sparse")]);
      JoinRenders(head + ["conv=sparse"] + tail, headTokens + [Word("conv=sparse")] + tailTokens);
    } else {
      JoinRenders(head + tail, headTokens + tailTokens);
      assert head + [] + tail == head + tail && headTokens + [] + tailTokens == headTokens + tailTokens;
    }
  }

  lemma RelaySrcRenders(p: StreamParams)
    ensures Renders(RelaySrcCommand(p), RelaySrcTokens(p))
  {
    DdReadRenders(p.srcDevPath, p.blockSize);
    PlainIsWord("zstd");
    NumberedIsWord("-T", p.zstdThreads);
    NumberedIsWord("-", p.zstdLevel);
    var zstd := [Word("zstd"), Word("-T" + Digits(p.zstdThreads)), Word("-" + Digits(p.zstdLevel))];
    JoinRenders(["zstd", "-T" + Digits(p.zstdThreads), "-" + Digits(p.zstdLevel)], zstd);
    RendersPipeline(DdReadCommand(p.srcDevPath, p.blockSize), DdReadTokens(p.srcDevPath, p.blockSize),
                    ZstdCompress(p.zstdThreads, p.zstdLevel), zstd);
  }

  lemma RelayDstRenders(p: StreamParams)
    ensures Renders(RelayDstCommand(p), RelayDstTokens(p))
  {
    DdWriteRenders(p.dstDevPath, p.blockSize, p.sparse);
    PlainIsWord("zstd");
    PlainIsWord("-dc");
    JoinRenders(["zstd", "-dc"], [Word("zstd"), Word("-dc")]);
    RendersPipeline(ZstdDecompress(), [Word("zstd"), Word("-dc")],
                    DdWriteCommand(p.dstDevPath, p.blockSize, p.sparse),
                    DdWriteTokens(p.dstDevPath, p.blockSize, p.sparse));
  }

  lemma FlagsRender(o: InnerSshOpts)
    ensures AllRender(InnerSshFlags(o), FlagTokens(o))
  {
    SshWords();
    NumberedIsWord("ConnectTimeout=", o.connectTimeoutSec);
    if HasKey(o) {
      ShqIsPiece(o.migrationKeyPath.value);
      PieceIsWord(Shq(o.migrationKeyPath.value), o.migrationKeyPath.value);
    }
  }

  lemma SshRenders(o: InnerSshOpts)
    requires forall i | 0 <= i < |o.dstUser| :: IsPlain(o.dstUser[i])
    requires forall i | 0 <= i < |o.dstHost| :: IsPlain(o.dstHost[i])
    ensures Renders(SshInner(o), SshTokens(o))
  {
    SshWords();
    PlainIsWord(o.dstUser + "@" + o.dstHost);
    var words := InnerSshFlags(o);
    FlagsRender(o);
    var target := o.dstUser + "@" + o.dstHost;
    JoinRenders(["ssh"] + words + [target], SshTokens(o));
  }

  /**
   * Two levels: for every device path, block size and key path, the source host's shell hands the
   * inner ssh the write pipeline as its one last word, and the target host's shell reads that word
   * as the pipeline on exactly the original strings.
   */
  lemma DirectCommandSurvivesTwoShells(p: StreamParams, o: InnerSshOpts)
    requires forall i | 0 <= i < |o.dstUser| :: IsPlain(o.dstUser[i])
    requires forall i | 0 <= i < |o.dstHost| :: IsPlain(o.dstHost[i])
    ensures Shell(DirectSrcCommand(p, o)) ==
            Ok(RelaySrcTokens(p) + [Pipe] + (SshTokens(o) + [Word(RelayDstCommand(p))]))
    ensures Shell(RelayDstCommand(p)) == Ok(RelayDstTokens(p))
  {
    RelaySrcRenders(p);
    RelayDstRenders(p);
    SshRenders(o);
    ShqIsPiece(RelayDstCommand(p));
    PieceIsWord(Shq(RelayDstCommand(p)), RelayDstCommand(p));
    RendersJoin(SshInner(o), SshTokens(o), Shq(RelayDstCommand(p)), [Word(RelayDstCommand(p))]);
    RendersPipeline(RelaySrcCommand(p), RelaySrcTokens(p),
                    SshInner(o) + " " + Shq(RelayDstCommand(p)), SshTokens(o) + [Word(RelayDstCommand(p))]);
    RenderedIsRead(DirectSrcCommand(p, o), RelaySrcTokens(p) + [Pipe] + (SshTokens(o) + [Word(RelayDstCommand(p))]));
    RenderedIsRead(RelayDstCommand(p), RelayDstTokens(p));
  }

  /** Relay mode: each leg is read by one shell. */
  lemma RelayCommandsAreRead(p: StreamParams)
    ensures Shell(RelaySrcCommand(p)) == Ok(RelaySrcTokens(p))
    ensures Shell(RelayDstCommand(p)) == Ok(RelayDstTokens(p))
  {
    RelaySrcRenders(p);
    RelayDstRenders(p);
    RenderedIsRead(RelaySrcCommand(p), RelaySrcTokens(p));
    RenderedIsRead(RelayDstCommand(p), RelayDstTokens(p));
  }
}
