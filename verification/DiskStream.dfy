// `stream`: choosing direct or relay transfer, running it, and accepting it only when enough bytes
// were reported.

module DiskStream {
  import opened Wrappers
  import opened DdOutput
  import opened MigrateWorkflow
  import opened ShellQuoting

  datatype TransferMode = Auto | Direct | Relay

  datatype Host = Source | Destination

  /**
   * What the surroundings decide: the probe's exit code, each leg's exit code and stderr, and how many
   * bytes the reading and the writing `dd` moved.
   */
  datatype Legs = Legs(
    probeCode: int, srcCode: int, dstCode: int, srcStderr: string, dstStderr: string, read: nat, written: nat)

  datatype Transfer = Transfer(mode: TransferMode, bytesWritten: nat)

  function Chosen(requested: TransferMode, probeCode: int): TransferMode {
    if requested == Auto then if probeCode == 0 then Direct else Relay else requested
  }

  predicate LegsSucceed(mode: TransferMode, legs: Legs) {
    legs.srcCode == 0 && (mode == Relay ==> legs.dstCode == 0)
  }

  function Reported(mode: TransferMode, legs: Legs): seq<nat> {
    Figures(if mode == Direct then legs.srcStderr else legs.dstStderr)
  }

  function Largest(figures: seq<nat>): (m: nat)
    requires figures != []
    ensures m in figures && forall f | f in figures :: f <= m
  {
    if |figures| == 1 then figures[0]
    else
      var rest := Largest(figures[1..]);
      assert figures == [figures[0]] + figures[1..];
      if figures[0] > rest then figures[0] else rest
  }

  predicate Accepts(claimed: nat, expected: Option<nat>, blockBytes: nat) {
    expected.Some? ==> BytesVerified(claimed, expected.value, blockBytes)
  }

  lemma SomeCountVerifies(figures: seq<nat>, expected: Option<nat>, blockBytes: nat)
    ensures (exists b | b in figures :: Accepts(b, expected, blockBytes)) <==>
            figures != [] && Accepts(Largest(figures), expected, blockBytes)
  {
    if figures != [] && expected.Some? {
      forall b | b in figures && BytesVerified(b, expected.value, blockBytes)
        ensures BytesVerified(Largest(figures), expected.value, blockBytes)
      {
      }
    }
  }

  /** What `stream` records, if anything. */
  function Outcome(mode: TransferMode, legs: Legs, expected: Option<nat>, blockBytes: nat): Option<Transfer> {
    if LegsSucceed(mode, legs) && Reported(mode, legs) != []
       && Accepts(Largest(Reported(mode, legs)), expected, blockBytes)
    then Some(Transfer(mode, Largest(Reported(mode, legs)))) else None
  }

  /** Asked for, or found possible by the probe. */
  predicate GoesDirect(requested: TransferMode, legs: Legs) {
    requested == Direct || (requested == Auto && legs.probeCode == 0)
  }

  /** A transfer is recorded exactly when its legs succeed and some reported count verifies. */
  method Stream(requested: TransferMode, p: StreamParams, inner: InnerSshOpts, expected: Option<nat>, blockBytes: nat,
                legs: Legs)
    returns (r: Result<Transfer>, commands: seq<(Host, string)>)
    ensures (if r.Ok? then Some(r.value) else None) ==
            Outcome(Chosen(requested, legs.probeCode), legs, expected, blockBytes)
    ensures commands == if GoesDirect(requested, legs) then [(Source, DirectSrcCommand(p, inner))]
                        else [(Source, RelaySrcCommand(p)), (Destination, RelayDstCommand(p))]
    ensures var reported := Figures(if GoesDirect(requested, legs) then legs.srcStderr else legs.dstStderr);
            && (r.Ok? <==> legs.srcCode == 0 && (GoesDirect(requested, legs) || legs.dstCode == 0)
                           && exists b | b in reported :: Accepts(b, expected, blockBytes))
            && (r.Ok? ==> r.value.bytesWritten in reported && forall f | f in reported :: f <= r.value.bytesWritten)
    ensures r.Ok? ==> r.value.mode == if GoesDirect(requested, legs) then Direct else Relay
    ensures r.Ok? ==> Accepts(r.value.bytesWritten, expected, blockBytes)
  {
    var mode := requested;
    if requested == Auto {
      mode := if legs.probeCode == 0 then Direct else Relay;
    }
    var bytes: Option<nat>;
    if mode == Direct {
      commands := [(Source, DirectSrcCommand(p, inner))];
      if legs.srcCode != 0 {
        return Err("command failed"), commands;
      }
      bytes := ParseDdBytes(legs.srcStderr);
    } else {
      commands := [(Source, RelaySrcCommand(p)), (Destination, RelayDstCommand(p))];
      if legs.dstCode != 0 || legs.srcCode != 0 {
        return Err("relay failed"), commands;
      }
      bytes := ParseDdBytes(legs.dstStderr);
    }
    var verified := bytes.Some? && (expected.Some? ==> BytesVerified(bytes.value, expected.value, blockBytes));
    SomeCountVerifies(Reported(mode, legs), expected, blockBytes);
    assert bytes.Some? ==> bytes.value in Reported(mode, legs) && bytes.value == Largest(Reported(mode, legs));
    if !verified {
      return Err("byte verification failed"), commands;
    }
    r := Ok(Transfer(mode, bytes.value));
  }

  // ---------- Whose count it is ----------

  /**
   * Each `dd` prints its final count, and every other figure (of its progress lines) is at most that.
   * Only in direct mode does the stderr that is read carry the reader's output too.
   */
  ghost predicate PrintsItsCounts(mode: TransferMode, legs: Legs) {
    var figures := Reported(mode, legs);
    && legs.written in figures
    && (mode == Direct ==> legs.read in figures)
    && forall f | f in figures :: f <= legs.written || (mode == Direct && f <= legs.read)
  }

  function CopyOf(t: Transfer, legs: Legs): Copy {
    Copy(t.mode == Direct, t.bytesWritten, legs.read, legs.written)
  }

  /** What is recorded is the larger of both counts in direct mode, and the writer's in relay mode. */
  lemma RecordedIsHonest(requested: TransferMode, legs: Legs, expected: nat, blockBytes: nat)
    ensures var mode := Chosen(requested, legs.probeCode);
            var r := Outcome(mode, legs, Some(expected), blockBytes);
            r.Some? && PrintsItsCounts(mode, legs) ==> Honest(CopyOf(r.value, legs))
  {
  }

  /** In direct mode a transfer is accepted exactly when the reader's or the writer's count verifies. */
  lemma DirectAcceptsEither(legs: Legs, expected: nat, blockBytes: nat)
    requires LegsSucceed(Direct, legs) && PrintsItsCounts(Direct, legs)
    ensures Outcome(Direct, legs, Some(expected), blockBytes).Some? <==>
            BytesVerified(legs.read, expected, blockBytes) || BytesVerified(legs.written, expected, blockBytes)
  {
  }

  /**
   * The gate guards the bytes written, for every expected size and block, if and only if the transfer
   * was relayed or the reader did not read more than the writer wrote.
   */
  lemma GateGuardsExactly(requested: TransferMode, legs: Legs)
    requires var mode := Chosen(requested, legs.probeCode); LegsSucceed(mode, legs) && PrintsItsCounts(mode, legs)
    ensures var mode := Chosen(requested, legs.probeCode);
            (forall expected, block | Outcome(mode, legs, Some(expected), block).Some? ::
               BytesVerified(legs.written, expected, block)) <==>
            mode != Direct || legs.read <= legs.written
  {
    var mode := Chosen(requested, legs.probeCode);
    if mode == Direct && legs.read > legs.written {
      DirectAcceptsEither(legs, legs.read, 1);
      assert Outcome(mode, legs, Some(legs.read), 1).Some? && !BytesVerified(legs.written, legs.read, 1);
    }
  }

  // ---------- A short copy that is accepted ----------

  const COPIED := " copied\n"

  /** The final lines of both `dd`s, cut down to the counts and one word. */
  function BothSummaries(read: nat, written: nat): string {
    PrintCounts([Counted("", read), Counted(COPIED, written)], COPIED)
  }

  lemma SummariesAreRead(read: nat, written: nat)
    ensures Figures(BothSummaries(read, written)) == [read, written]
  {
    var cs := [Counted("", read), Counted(COPIED, written)];
    assert cs[1..] == [Counted(COPIED, written)] && cs[1..][1..] == [];
    assert CountsOf(cs[1..][1..]) == [] && CountsOf(cs[1..]) == [written];
    FiguresAreTheCounts(cs, COPIED, true);
  }

  /**
   * The pipeline's exit code is its last command's: when the compressor dies after the reader is done,
   * the writer ends early with code 0, and its short copy is accepted on the reader's count.
   */
  lemma ShortCopyIsAccepted(read: nat, written: nat, blockBytes: nat)
    requires written < read && blockBytes <= read - written
    ensures var legs := Legs(0, 0, 0, BothSummaries(read, written), "", read, written);
            && PrintsItsCounts(Direct, legs)
            && Outcome(Direct, legs, Some(read), blockBytes) == Some(Transfer(Direct, read))
            && !BytesVerified(written, read, blockBytes)
  {
    var legs := Legs(0, 0, 0, BothSummaries(read, written), "", read, written);
    SummariesAreRead(read, written);
    assert Reported(Direct, legs) == [read, written];
    assert [read, written][1..] == [written];
  }
}
