// One run of a command inside an aurae cell: allocate, start, drain two log channels at once, stop
// and free; and the wall-clock timeout around it.

module CellRun {
  import opened Wrappers

  datatype Command = Allocate | StartExe | StopExe | Free

  /**
   * One `aer` invocation (its stderr trimmed): it may throw (no binary, broken pipe), or end with
   * some text on stderr or none.
   */
  datatype Exec = Threw | Ended(complaint: string)

  datatype Channel = Stdout | Stderr

  /** What the two observers deliver until the run settles, in the order in which it arrives. */
  datatype Arrival = Line(channel: Channel, text: string) | Eof(channel: Channel) | Broke(channel: Channel)

  /** Everything the surroundings decide: each call's result, the pid if one is printed, and the arrivals. */
  datatype Surroundings = Surroundings(
    allocate: Exec, start: Exec, pid: Option<nat>, arrivals: seq<Arrival>, aborted: bool, stop: Exec, free: Exec)

  datatype Entry = Note | LogLine(channel: Channel, text: string)

  datatype Reason = AllocateFailed | StartFailed | NoPid | Marked(line: string) | Aborted

  datatype Outcome = Returned(pid: nat, reason: Option<Reason>) | Rejected

  // ---------- The reference ----------

  /** The lines that the consumers get to see: each channel's up to its end or its breakage. */
  function Seen(arrivals: seq<Arrival>, open: set<Channel>): seq<Arrival> {
    if open == {} || arrivals == [] then []
    else
      match arrivals[0]
      case Line(c, _) => if c in open then [arrivals[0]] + Seen(arrivals[1..], open) else Seen(arrivals[1..], open)
      case Eof(c) => Seen(arrivals[1..], open - {c})
      case Broke(c) => Seen(arrivals[1..], open - {c})
  }

  /** Whether an observer breaks while its channel is open. */
  predicate Breaks(arrivals: seq<Arrival>, open: set<Channel>) {
    if open == {} || arrivals == [] then false
    else
      match arrivals[0]
      case Line(_, _) => Breaks(arrivals[1..], open)
      case Eof(c) => Breaks(arrivals[1..], open - {c})
      case Broke(c) => c in open || Breaks(arrivals[1..], open - {c})
  }

  function LinesOf(seen: seq<Arrival>, c: Channel): seq<string> {
    if seen == [] then []
    else (if seen[0].Line? && seen[0].channel == c then [seen[0].text] else []) + LinesOf(seen[1..], c)
  }

  function LoggedLines(log: seq<Entry>): seq<Arrival> {
    if log == [] then []
    else if log[0].LogLine? then [Line(log[0].channel, log[0].text)] + LoggedLines(log[1..])
    else LoggedLines(log[1..])
  }

  function FirstMarked(lines: seq<string>, marker: string -> bool): Option<string> {
    if lines == [] then None else if marker(lines[0]) then Some(lines[0]) else FirstMarked(lines[1..], marker)
  }

  const BOTH := {Stdout, Stderr}

  predicate Allocated(s: Surroundings) {
    s.allocate == Ended("")
  }

  predicate Started(s: Surroundings) {
    Allocated(s) && s.start == Ended("") && s.pid.Some?
  }

  /** The lines that reach the run at all. */
  function Drained(s: Surroundings): seq<Arrival> {
    if Started(s) then Seen(s.arrivals, BOTH) else []
  }

  function ReasonOf(s: Surroundings, marker: string -> bool): Option<Reason> {
    if !Allocated(s) then Some(AllocateFailed)
    else if s.start != Ended("") then Some(StartFailed)
    else if s.pid.None? then Some(NoPid)
    else
      var marked := FirstMarked(LinesOf(Drained(s), Stderr), marker);
      if marked.Some? then Some(Marked(marked.value)) else if s.aborted then Some(Aborted) else None
  }

  function BodyCommands(s: Surroundings): seq<Command> {
    if Allocated(s) then [Allocate, StartExe] else [Allocate]
  }

  function CleanupCommands(s: Surroundings): seq<Command> {
    if !Allocated(s) then []
    else if !Started(s) then [Free]
    else if s.stop.Threw? then [StopExe]
    else [StopExe, Free]
  }

  /** The commands issued when the run is left as `s` says. */
  function CommandsOf(s: Surroundings): seq<Command> {
    BodyCommands(s) + CleanupCommands(s)
  }

  predicate BodyRejects(s: Surroundings) {
    s.allocate.Threw? || (Allocated(s) && s.start.Threw?) || (Started(s) && Breaks(s.arrivals, BOTH))
  }

  predicate CleanupRejects(s: Surroundings) {
    (Started(s) && s.stop.Threw?) || (Allocated(s) && s.free.Threw?)
  }

  lemma {:induction false} LinesAppend(seen: seq<Arrival>, a: Arrival, c: Channel)
    ensures LinesOf(seen + [a], c) == LinesOf(seen, c) + (if a.Line? && a.channel == c then [a.text] else [])
  {
    if seen == [] {
      assert [a][1..] == [];
    } else {
      assert (seen + [a])[1..] == seen[1..] + [a];
      LinesAppend(seen[1..], a, c);
    }
  }

  lemma {:induction false} LoggedAppend(log: seq<Entry>, e: Entry)
    ensures LoggedLines(log + [e]) == LoggedLines(log) + (if e.LogLine? then [Line(e.channel, e.text)] else [])
  {
    if log == [] {
      assert [e][1..] == [];
    } else {
      assert (log + [e])[1..] == log[1..] + [e];
      LoggedAppend(log[1..], e);
    }
  }

  lemma {:induction false} MarkedAppend(lines: seq<string>, line: string, marker: string -> bool)
    ensures FirstMarked(lines + [line], marker) ==
            if FirstMarked(lines, marker).Some? then FirstMarked(lines, marker)
            else if marker(line) then Some(line) else None
  {
    if lines == [] {
      assert [line][1..] == [];
    } else {
      assert (lines + [line])[1..] == lines[1..] + [line];
      MarkedAppend(lines[1..], line, marker);
    }
  }

  /** The run object: the commands issued and the three outputs grow as it goes. */
  class CellTarget {
    var commands: seq<Command>
    var stdout: seq<string>
    var stderr: seq<string>
    var log: seq<Entry>
    var reason: Option<Reason>

    constructor ()
      ensures commands == [] && stdout == [] && stderr == [] && log == [] && reason == None
    {
      commands, stdout, stderr, log, reason := [], [], [], [], None;
    }

    method Exec(c: Command, result: Exec) returns (complaint: Option<string>)
      modifies this`commands
      ensures commands == old(commands) + [c]
      ensures complaint == if result.Threw? then None else Some(result.complaint)
    {
      commands := commands + [c];
      complaint := if result.Threw? then None else Some(result.complaint);
    }

    method OnLog(e: Entry)
      modifies this`log
      ensures log == old(log) + [e]
      ensures LoggedLines(log) == LoggedLines(old(log)) + (if e.LogLine? then [Line(e.channel, e.text)] else [])
    {
      LoggedAppend(log, e);
      log := log + [e];
    }

    /** The body of `consume` for one item of either channel. */
    method Consume(a: Arrival, marker: string -> bool, ghost seen: seq<Arrival>)
      requires a.Line?
      requires stdout == LinesOf(seen, Stdout) && stderr == LinesOf(seen, Stderr) && LoggedLines(log) == seen
      requires reason == (var m := FirstMarked(stderr, marker); if m.Some? then Some(Marked(m.value)) else None)
      modifies this
      ensures commands == old(commands)
      ensures stdout == LinesOf(seen + [a], Stdout) && stderr == LinesOf(seen + [a], Stderr)
      ensures LoggedLines(log) == seen + [a]
      ensures reason == (var m := FirstMarked(stderr, marker); if m.Some? then Some(Marked(m.value)) else None)
    {
      LinesAppend(seen, a, Stdout);
      LinesAppend(seen, a, Stderr);
      MarkedAppend(stderr, a.text, marker);
      if a.channel == Stdout {
        stdout := stdout + [a.text];
      } else {
        stderr := stderr + [a.text];
      }
      OnLog(LogLine(a.channel, a.text));
      if a.channel == Stderr && marker(a.text) && reason == None {
        reason := Some(Marked(a.text));
      }
    }

    /**
     * Both consumers at once, for any interleaving; `broke` when an observer throws. The other one
     * goes on, and what it delivers while the run is being cleaned up still reaches sink and log.
     */
    method Drain(arrivals: seq<Arrival>, marker: string -> bool) returns (broke: bool)
      requires stdout == [] && stderr == [] && LoggedLines(log) == [] && reason == None
      modifies this
      ensures commands == old(commands)
      ensures broke == Breaks(arrivals, BOTH)
      ensures LoggedLines(log) == Seen(arrivals, BOTH)
      ensures stdout == LinesOf(Seen(arrivals, BOTH), Stdout) && stderr == LinesOf(Seen(arrivals, BOTH), Stderr)
      ensures reason == (var m := FirstMarked(stderr, marker); if m.Some? then Some(Marked(m.value)) else None)
    {
      var open := BOTH;
      broke := false;
      ghost var seen: seq<Arrival> := [];
      var i := 0;
      while i < |arrivals| && open != {}
        invariant 0 <= i <= |arrivals|
        decreases |arrivals| - i
        invariant commands == old(commands)
        invariant seen + Seen(arrivals[i..], open) == Seen(arrivals, BOTH)
        invariant (broke || Breaks(arrivals[i..], open)) == Breaks(arrivals, BOTH)
        invariant stdout == LinesOf(seen, Stdout) && stderr == LinesOf(seen, Stderr) && LoggedLines(log) == seen
        invariant reason == (var m := FirstMarked(stderr, marker); if m.Some? then Some(Marked(m.value)) else None)
      {
        var a := arrivals[i];
        assert arrivals[i..][1..] == arrivals[i + 1..];
        match a {
          case Line(c, text) =>
            if c in open {
              Consume(a, marker, seen);
              seen := seen + [a];
            }
          case Eof(c) => open := open - {c};
          case Broke(c) =>
            broke := broke || c in open;
            open := open - {c};
        }
        i := i + 1;
      }
    }

    /** The `try` block of `CellTarget.run`. */
    method RunBody(s: Surroundings, marker: string -> bool) returns (r: Outcome, haveCell: bool, running: bool)
      requires commands == [] && stdout == [] && stderr == [] && log == [] && reason == None
      modifies this
      ensures commands == BodyCommands(s)
      ensures haveCell == Allocated(s) && running == Started(s)
      ensures stdout == LinesOf(Drained(s), Stdout) && stderr == LinesOf(Drained(s), Stderr)
      ensures LoggedLines(log) == Drained(s)
      ensures r.Rejected? <==> BodyRejects(s)
      ensures r.Returned? ==> r.reason == ReasonOf(s, marker)
      ensures r.Returned? && running ==> s.pid == Some(r.pid)
    {
      haveCell, running := false, false;
      var alloc := Exec(Allocate, s.allocate);
      if alloc == None {
        return Rejected, haveCell, running;
      }
      if alloc.value != "" {
        return Returned(0, Some(AllocateFailed)), haveCell, running;
      }
      haveCell := true;
      OnLog(Note);
      var begun := Exec(StartExe, s.start);
      if begun == None {
        return Rejected, haveCell, running;
      }
      if begun.value != "" {
        return Returned(0, Some(StartFailed)), haveCell, running;
      }
      if s.pid == None {
        return Returned(0, Some(NoPid)), haveCell, running;
      }
      running := true;
      OnLog(Note);
      var broke := Drain(s.arrivals, marker);
      if broke {
        return Rejected, haveCell, running;
      }
      if s.aborted && reason == None {
        reason := Some(Aborted);
      }
      r := Returned(s.pid.value, reason);
    }

    /** The `finally` block; `ok` when nothing in it threw. */
    method CleanUp(s: Surroundings, haveCell: bool, running: bool) returns (ok: bool)
      requires haveCell == Allocated(s) && running == Started(s)
      modifies this`commands, this`log
      ensures commands == old(commands) + CleanupCommands(s)
      ensures LoggedLines(log) == LoggedLines(old(log))
      ensures ok == !CleanupRejects(s)
    {
      if running {
        var stop := Exec(StopExe, s.stop);
        if stop == None {
          return false;
        }
        if stop.value != "" {
          OnLog(Note);
        }
      }
      if haveCell {
        var free := Exec(Free, s.free);
        if free == None {
          return false;
        }
        if free.value != "" {
          OnLog(Note);
        }
      }
      ok := true;
    }

    /** `CellTarget.run`: whatever the body does, the `finally` block follows, and its throwing wins. */
    method Run(s: Surroundings, marker: string -> bool) returns (r: Outcome)
      requires commands == [] && stdout == [] && stderr == [] && log == [] && reason == None
      modifies this
      ensures commands == CommandsOf(s)
      ensures stdout == LinesOf(Drained(s), Stdout) && stderr == LinesOf(Drained(s), Stderr)
      ensures LoggedLines(log) == Drained(s)
      ensures r.Rejected? <==> BodyRejects(s) || CleanupRejects(s)
      ensures r.Returned? ==> r.reason == ReasonOf(s, marker)
      ensures r.Returned? && Started(s) ==> s.pid == Some(r.pid)
    {
      var haveCell, running;
      r, haveCell, running := RunBody(s, marker);
      var ok := CleanUp(s, haveCell, running);
      if !ok {
        r := Rejected;
      }
    }
  }

  // ---------- What follows from the reference ----------

  /** The cell is freed exactly when it was allocated and stopping it, if tried, did not throw. */
  lemma FreedExactly(s: Surroundings)
    ensures Free in CommandsOf(s) <==> Allocated(s) && (Started(s) ==> !s.stop.Threw?)
    ensures StopExe in CommandsOf(s) <==> Started(s)
    ensures !s.stop.Threw? ==> (Free in CommandsOf(s) <==> Allocated(s))
    ensures CommandsOf(s)[0] == Allocate && (StartExe in CommandsOf(s) <==> s.allocate == Ended(""))
  {
  }

  /** Stop comes before free, and neither is issued twice. */
  lemma StopBeforeFree(s: Surroundings, i: nat, j: nat)
    requires i < |CommandsOf(s)| && j < |CommandsOf(s)|
    ensures CommandsOf(s)[i] == StopExe && CommandsOf(s)[j] == Free ==> i < j
    ensures CommandsOf(s)[i] == CommandsOf(s)[j] ==> i == j
  {
  }

  function WholeChannel(arrivals: seq<Arrival>, c: Channel): seq<string> {
    if arrivals == [] || arrivals[0] == Eof(c) || arrivals[0] == Broke(c) then []
    else
      (if arrivals[0].Line? && arrivals[0].channel == c then [arrivals[0].text] else [])
      + WholeChannel(arrivals[1..], c)
  }

  /** Each sink holds its channel in order up to its end or breakage, whatever the interleaving. */
  lemma {:induction false} SinksAreChannels(arrivals: seq<Arrival>, open: set<Channel>, c: Channel)
    ensures LinesOf(Seen(arrivals, open), c) == if c in open then WholeChannel(arrivals, c) else []
  {
    if open != {} && arrivals != [] {
      match arrivals[0]
      case Line(d, text) =>
        SinksAreChannels(arrivals[1..], open, c);
        if d in open {
          assert Seen(arrivals, open)[1..] == Seen(arrivals[1..], open);
        }
      case Eof(d) => SinksAreChannels(arrivals[1..], open - {d}, c);
      case Broke(d) => SinksAreChannels(arrivals[1..], open - {d}, c);
    }
  }

  /** Arrival `i` breaks a channel that has neither ended nor broken before. */
  predicate BreaksAt(arrivals: seq<Arrival>, open: set<Channel>, i: nat) {
    && i < |arrivals| && arrivals[i].Broke? && arrivals[i].channel in open
    && forall j | 0 <= j < i :: !arrivals[j].Line? ==> arrivals[j].channel != arrivals[i].channel
  }

  lemma {:induction false} BreaksExactly(arrivals: seq<Arrival>, open: set<Channel>)
    ensures Breaks(arrivals, open) <==> exists i: nat :: BreaksAt(arrivals, open, i)
  {
    if open != {} && arrivals != [] {
      var a, rest := arrivals[0], arrivals[1..];
      var still := if a.Line? then open else open - {a.channel};
      BreaksExactly(rest, still);
      if i: nat :| BreaksAt(rest, still, i) {
        assert forall j | 1 <= j < i + 1 :: arrivals[j] == rest[j - 1];
        assert BreaksAt(arrivals, open, i + 1);
      }
      if i: nat :| BreaksAt(arrivals, open, i) {
        assert i > 0 ==> BreaksAt(rest, still, i - 1);
      }
      assert a.Broke? && a.channel in open ==> BreaksAt(arrivals, open, 0);
    }
  }

  /** The first line that is marked. */
  ghost predicate IsFirstMarked(lines: seq<string>, marker: string -> bool, k: nat) {
    k < |lines| && marker(lines[k]) && forall j | 0 <= j < k :: !marker(lines[j])
  }

  lemma {:induction false} FirstMarkedExactly(lines: seq<string>, marker: string -> bool)
    ensures FirstMarked(lines, marker).None? <==> forall l | l in lines :: !marker(l)
    ensures FirstMarked(lines, marker).Some? ==>
              exists k: nat :: IsFirstMarked(lines, marker, k) && FirstMarked(lines, marker) == Some(lines[k])
  {
    if lines != [] {
      FirstMarkedExactly(lines[1..], marker);
      assert lines == [lines[0]] + lines[1..];
      if marker(lines[0]) {
        assert IsFirstMarked(lines, marker, 0);
      } else if k: nat :| IsFirstMarked(lines[1..], marker, k)
                          && FirstMarked(lines[1..], marker) == Some(lines[1..][k]) {
        assert IsFirstMarked(lines, marker, k + 1);
      }
    }
  }

  /**
   * Why a run failed: the step that did, else the first marked line of stderr, whether or not the run was
   * aborted, else the abort.
   */
  lemma ReasonExactly(s: Surroundings, marker: string -> bool)
    ensures s.allocate != Ended("") ==> ReasonOf(s, marker) == Some(AllocateFailed)
    ensures s.allocate == Ended("") && s.start != Ended("") ==> ReasonOf(s, marker) == Some(StartFailed)
    ensures s.allocate == Ended("") && s.start == Ended("") && s.pid.None? ==> ReasonOf(s, marker) == Some(NoPid)
    ensures s.allocate == Ended("") && s.start == Ended("") && s.pid.Some? ==>
              var lines := WholeChannel(s.arrivals, Stderr);
              if exists l | l in lines :: marker(l)
              then exists k: nat :: IsFirstMarked(lines, marker, k) && ReasonOf(s, marker) == Some(Marked(lines[k]))
              else ReasonOf(s, marker) == if s.aborted then Some(Aborted) else None
  {
    SinksAreChannels(s.arrivals, BOTH, Stderr);
    FirstMarkedExactly(WholeChannel(s.arrivals, Stderr), marker);
  }

  // ---------- The timeout ----------

  datatype Tick = TimerFires | RunSettles(outcome: Outcome)

  datatype Answer = FromRun(outcome: Outcome) | Synthetic

  /** The answer, read off the order of events: the run's own, unless it failed after the timer fired. */
  function AnswerTo(ticks: seq<Tick>): Option<Answer> {
    if ticks == [] then None
    else
      var before, last := ticks[..|ticks| - 1], ticks[|ticks| - 1];
      if AnswerTo(before).Some? then AnswerTo(before)
      else if last.TimerFires? then None
      else Some(if TimerFires in before && last.outcome.Rejected? then Synthetic else FromRun(last.outcome))
  }

  /** Whether the timer fires before the run settles. */
  predicate TimedOutFirst(ticks: seq<Tick>) {
    ticks != [] && (TimedOutFirst(ticks[..|ticks| - 1])
                    || (ticks[|ticks| - 1].TimerFires? && AnswerTo(ticks[..|ticks| - 1]).None?))
  }

  lemma AppendTick(ticks: seq<Tick>, t: Tick)
    ensures (ticks + [t])[..|ticks + [t]| - 1] == ticks
    ensures TimerFires in ticks + [t] <==> TimerFires in ticks || t.TimerFires?
  {
  }

  /** `withTimeout`: whatever the timer does, nothing is returned before the run has settled. */
  class TimeoutRace {
    var didTimeout: bool
    var aborted: bool
    var answer: Option<Answer>
    ghost var ticks: seq<Tick>

    ghost predicate Valid()
      reads this
    {
      && answer == AnswerTo(ticks)
      && (answer == None ==> didTimeout == (TimerFires in ticks))
      && aborted == TimedOutFirst(ticks)
    }

    constructor ()
      ensures Valid() && ticks == []
    {
      didTimeout, aborted, answer, ticks := false, false, None, [];
    }

    method OnTimer()
      requires Valid()
      modifies this
      ensures Valid() && ticks == old(ticks) + [TimerFires]
    {
      AppendTick(ticks, TimerFires);
      if answer == None {
        didTimeout := true;
        aborted := true;
      }
      ticks := ticks + [TimerFires];
    }

    method OnSettled(outcome: Outcome)
      requires Valid()
      modifies this
      ensures Valid() && ticks == old(ticks) + [RunSettles(outcome)]
    {
      AppendTick(ticks, RunSettles(outcome));
      if answer == None {
        answer := Some(if didTimeout && outcome.Rejected? then Synthetic else FromRun(outcome));
      }
      ticks := ticks + [RunSettles(outcome)];
    }
  }

  lemma SettledIsAnswered(before: seq<Tick>, outcome: Outcome, timerFires: bool)
    requires before == if timerFires then [TimerFires] else []
    ensures AnswerTo(before + [RunSettles(outcome)]) ==
            Some(if timerFires && outcome.Rejected? then Synthetic else FromRun(outcome))
  {
    AppendTick(before, RunSettles(outcome));
    if timerFires {
      assert before[..0] == [] && before[0] == TimerFires;
      assert AnswerTo(before) == None && TimerFires in before;
    } else {
      assert before == [] && AnswerTo(before) == None;
    }
  }

  /**
   * A run raced against its timer: the answer comes with the run's settling, so every command of its
   * clean-up has been issued by then, and it is synthetic exactly for a run that fails after the timer.
   */
  method WithTimeout(target: CellTarget, s: Surroundings, marker: string -> bool, timerFires: bool)
    returns (answer: Answer)
    requires target.commands == [] && target.stdout == [] && target.stderr == [] && target.log == []
    requires target.reason == None && (s.aborted ==> timerFires)
    modifies target
    ensures target.commands == CommandsOf(s)
    ensures answer == Synthetic <==> timerFires && (BodyRejects(s) || CleanupRejects(s))
    ensures answer.FromRun? && answer.outcome.Returned? ==> answer.outcome.reason == ReasonOf(s, marker)
  {
    var race := new TimeoutRace();
    if timerFires {
      race.OnTimer();
    }
    ghost var before := race.ticks;
    var outcome := target.Run(s, marker);
    race.OnSettled(outcome);
    AppendTick(before, RunSettles(outcome));
    SettledIsAnswered(before, outcome, timerFires);
    answer := race.answer.value;
  }

  predicate HasSettled(ticks: seq<Tick>) {
    exists t | t in ticks :: t.RunSettles?
  }

  /** There is an answer exactly when the run, clean-up included, has settled. */
  lemma {:induction false} AnsweredOnlyAfterCleanup(ticks: seq<Tick>)
    ensures AnswerTo(ticks).Some? <==> HasSettled(ticks)
  {
    if ticks != [] {
      var before := ticks[..|ticks| - 1];
      assert ticks == before + [ticks[|ticks| - 1]];
      AnsweredOnlyAfterCleanup(before);
    }
  }
}
