// A run in which the target is started while its disk is still being edited, event by event.

module OverlapRun {
  import opened Wrappers
  import opened Records
  import opened TrueNasServer
  import opened Provisioning
  import opened MigrateWorkflow

  /** Where a list of events leads, if each is enabled in turn. */
  function Replay(inputs: Inputs, w: World, events: seq<Event>): Option<World>
    decreases |events|
  {
    if events == [] then Some(w)
    else if Enabled(inputs, w, events[0]) then Replay(inputs, Next(inputs, w, events[0]), events[1..])
    else None
  }

  lemma {:induction false} ReplayAppend(inputs: Inputs, w: World, a: seq<Event>, b: seq<Event>)
    requires Replay(inputs, w, a).Some?
    ensures Replay(inputs, w, a + b) == Replay(inputs, Replay(inputs, w, a).value, b)
    decreases |a|
  {
    if a == [] {
      assert a + b == b;
    } else {
      assert (a + b)[1..] == a[1..] + b;
      ReplayAppend(inputs, Next(inputs, w, a[0]), a[1..], b);
    }
  }

  lemma {:induction false} ReplayIsPath(inputs: Inputs, w: World, events: seq<Event>) returns (worlds: seq<World>)
    requires Replay(inputs, w, events).Some?
    ensures Path(inputs, worlds, events) && worlds[0] == w && Some(worlds[|events|]) == Replay(inputs, w, events)
    decreases |events|
  {
    if events == [] {
      worlds := [w];
    } else {
      var rest := ReplayIsPath(inputs, Next(inputs, w, events[0]), events[1..]);
      worlds := [w] + rest;
      forall i | 0 <= i < |events|
        ensures Enabled(inputs, worlds[i], events[i]) && worlds[i + 1] == Next(inputs, worlds[i], events[i])
      {
        if i > 0 {
          assert events[i] == events[1..][i - 1] && worlds[i] == rest[i - 1] && worlds[i + 1] == rest[i - 1 + 1];
        }
      }
    }
  }

  // ---------- Steps that go well ----------

  function Smooth(step: Step, copy: Copy): seq<Event> {
    [Begin(step), Act(step, copy), Succeed(step, false)]
  }

  /** The engine's record once the steps of `done` went well and the two agent steps were skipped. */
  ghost predicate At(p: Progress, done: set<Step>) {
    && p.acted == done
    && forall step :: StatusOf(p, step) ==
                      if step in done then Succeeded
                      else if step == AgentCheck || step == PrepAgent then Skipped else Pending
  }

  lemma Replay3(inputs: Inputs, w: World, a: Event, b: Event, c: Event)
    requires Enabled(inputs, w, a) && Enabled(inputs, Next(inputs, w, a), b)
    requires Enabled(inputs, Next(inputs, Next(inputs, w, a), b), c)
    ensures Replay(inputs, w, [a, b, c]) == Some(Next(inputs, Next(inputs, Next(inputs, w, a), b), c))
  {
    assert [a, b, c][1..] == [b, c] && [b, c][1..] == [c] && [c][1..] == [];
    var w1 := Next(inputs, w, a);
    var w2 := Next(inputs, w1, b);
    assert Replay(inputs, w2, [c]) == Some(Next(inputs, w2, c));
    assert Replay(inputs, w1, [b, c]) == Replay(inputs, w2, [c]);
  }

  lemma BegunAndActed(inputs: Inputs, w: World, step: Step, copy: Copy, done: set<Step>) returns (w1: World, w2: World)
    requires At(w.progress, done) && step !in done && step != AgentCheck && step != PrepAgent
    requires MayBegin(w.progress, step) && CanAct(inputs, w, step)
    ensures Enabled(inputs, w, Begin(step)) && w1 == Next(inputs, w, Begin(step))
    ensures Enabled(inputs, w1, Act(step, copy)) && w2 == Next(inputs, w1, Act(step, copy))
    ensures w2 == Acted(inputs, w, step, copy).(progress := w2.progress)
    ensures w2.progress == Progress(w.progress.status[step := Running], done + {step})
  {
    w1 := Next(inputs, w, Begin(step));
    assert w1 == w.(progress := WithStatus(w.progress, step, Running));
    w2 := Next(inputs, w1, Act(step, copy));
  }

  /** A step that goes well acts on the world and leaves its record; nothing else changes. */
  lemma SmoothStep(inputs: Inputs, w: World, step: Step, copy: Copy, done: set<Step>) returns (t: World)
    requires At(w.progress, done) && step !in done && step != AgentCheck && step != PrepAgent
    requires MayBegin(w.progress, step) && CanAct(inputs, w, step)
    requires CanSucceed(inputs, Acted(inputs, w, step, copy), step)
    ensures Replay(inputs, w, Smooth(step, copy)) == Some(t) && At(t.progress, done + {step})
    ensures t == Recorded(inputs, Acted(inputs, w, step, copy), step, false).(progress := t.progress)
  {
    var w1, w2 := BegunAndActed(inputs, w, step, copy, done);
    t := Next(inputs, w2, Succeed(step, false));
    Replay3(inputs, w, Begin(step), Act(step, copy), Succeed(step, false));
  }

  // ---------- The run ----------

  /** The steps that go well, in the order in which they are taken. */
  const BUILD := [Inspect, CreateZvol, Approve, Shutdown, Stream, CreateVm, AttachDisk, AttachNic]

  function SmoothAll(steps: seq<Step>, copy: Copy): seq<Event> {
    if steps == [] then [] else Smooth(steps[0], copy) + SmoothAll(steps[1..], copy)
  }

  function StepsOf(steps: seq<Step>): set<Step> {
    set s | s in steps
  }

  predicate Follows(done: set<Step>, step: Step) {
    && step !in done
    && match step
       case Inspect => true
       case CreateZvol => Inspect in done
       case Approve => CreateZvol in done
       case Shutdown => Approve in done
       case Stream => Shutdown in done && CreateZvol in done
       case CreateVm => Stream in done
       case AttachDisk => CreateVm in done && CreateZvol in done
       case AttachNic => CreateVm in done
       case _ => false
  }

  /** The steps can be begun one after the other, once those of `done` have gone well. */
  predicate InOrder(done: set<Step>, steps: seq<Step>)
    decreases |steps|
  {
    steps == [] || (Follows(done, steps[0]) && InOrder(done + {steps[0]}, steps[1..]))
  }

  /** The target VM is recorded, and it is on the host. */
  ghost predicate TargetKnown(inputs: Inputs, w: World) {
    w.vmData.Some? && w.vmData.value in w.server.vms && w.vmData.value.config.name == TargetName(inputs)
  }

  /** The volume is recorded, or will be, with that size. */
  ghost predicate VolumeKnown(inputs: Inputs, w: World, done: set<Step>, copy: Copy) {
    if CreateZvol in done then w.zvolData.Some? && w.zvolData.value.sizeBytes == copy.claimed
    else !ZvolTooSmall(w.server, inputs.zvol) && ZvolRecord(w.server, inputs.zvol).sizeBytes == copy.claimed
  }

  /** What holds on the way: the records that later steps read are there, and the count claimed is the volume's size. */
  ghost predicate OnTheWay(inputs: Inputs, w: World, done: set<Step>, copy: Copy) {
    && At(w.progress, done)
    && VolumeKnown(inputs, w, done, copy)
    && (CreateVm in done ==> TargetKnown(inputs, w))
    && (Shutdown in done ==> !w.sourceRunning)
    && (Stream in done ==> w.copied.Some? && w.copied.value.copy == copy)
  }

  lemma StepCanGo(inputs: Inputs, w: World, step: Step, done: set<Step>, copy: Copy)
    requires OnTheWay(inputs, w, done, copy) && Follows(done, step)
    ensures MayBegin(w.progress, step) && CanAct(inputs, w, step)
    ensures CanSucceed(inputs, Acted(inputs, w, step, copy), step)
  {
    if CreateVm in done {
      assert HasVm(w.server, w.vmData.value.id);
    }
  }

  lemma VolumeStaysKnown(inputs: Inputs, w: World, step: Step, done: set<Step>, copy: Copy, t: World)
    requires VolumeKnown(inputs, w, done, copy) && Follows(done, step) && CanAct(inputs, w, step)
    requires t == Recorded(inputs, Acted(inputs, w, step, copy), step, false).(progress := t.progress)
    ensures VolumeKnown(inputs, t, done + {step}, copy)
  {
    FirstAppend(w.server.datasets, NewZvol(inputs.zvol), IsDataset(FullName(inputs.zvol)));
  }

  lemma TargetStaysKnown(inputs: Inputs, w: World, step: Step, done: set<Step>, copy: Copy, t: World)
    requires (CreateVm in done ==> TargetKnown(inputs, w)) && Follows(done, step) && CanAct(inputs, w, step)
    requires t == Recorded(inputs, Acted(inputs, w, step, copy), step, false).(progress := t.progress)
    ensures CreateVm in done + {step} ==> TargetKnown(inputs, t)
  {
    FirstIsHeld(t.server.vms, IsNamed(TargetName(inputs)));
  }

  lemma OneStep(inputs: Inputs, w: World, step: Step, done: set<Step>, copy: Copy) returns (t: World)
    requires OnTheWay(inputs, w, done, copy) && Follows(done, step)
    ensures Replay(inputs, w, Smooth(step, copy)) == Some(t) && OnTheWay(inputs, t, done + {step}, copy)
  {
    StepCanGo(inputs, w, step, done, copy);
    t := SmoothStep(inputs, w, step, copy, done);
    VolumeStaysKnown(inputs, w, step, done, copy, t);
    TargetStaysKnown(inputs, w, step, done, copy, t);
    ActedFrame(inputs, w, step, copy);
  }

  lemma StepsOneByOne(done: set<Step>, steps: seq<Step>)
    ensures if steps == [] then done + StepsOf(steps) == done
            else done + {steps[0]} + StepsOf(steps[1..]) == done + StepsOf(steps)
  {
  }

  lemma {:induction false} AllSteps(inputs: Inputs, w: World, steps: seq<Step>, done: set<Step>, copy: Copy)
    returns (t: World)
    requires OnTheWay(inputs, w, done, copy) && InOrder(done, steps)
    ensures Replay(inputs, w, SmoothAll(steps, copy)) == Some(t)
    ensures OnTheWay(inputs, t, done + StepsOf(steps), copy)
    decreases |steps|
  {
    StepsOneByOne(done, steps);
    if steps == [] {
      return w;
    }
    var next := OneStep(inputs, w, steps[0], done, copy);
    t := AllSteps(inputs, next, steps[1..], done + {steps[0]}, copy);
    ReplayAppend(inputs, w, Smooth(steps[0], copy), SmoothAll(steps[1..], copy));
  }

  const SKIPS := [Skip(AgentCheck), Skip(PrepAgent)]

  lemma AgentSkipped(inputs: Inputs, w0: World, copy: Copy) returns (w: World)
    requires Initial(inputs, w0) && !ZvolTooSmall(w0.server, inputs.zvol)
    requires copy.claimed == ZvolRecord(w0.server, inputs.zvol).sizeBytes
    ensures Replay(inputs, w0, SKIPS) == Some(w) && OnTheWay(inputs, w, {}, copy)
  {
    var w1 := Next(inputs, w0, Skip(AgentCheck));
    w := Next(inputs, w1, Skip(PrepAgent));
    assert SKIPS[1..] == [Skip(PrepAgent)] && [Skip(PrepAgent)][1..] == [];
    assert Replay(inputs, w1, SKIPS[1..]) == Some(w);
  }

  const TIMED_OUT := [Begin(PrepOffline), Act(PrepOffline, NO_COPY), Fail(PrepOffline)]

  const STARTED := [Begin(Start), Act(Start, NO_COPY)]

  /** The edit's ssh times out over a live editor, and `completed` lets the start go on. */
  lemma TimedOut(inputs: Inputs, w0: World, done: set<Step>) returns (w: World)
    requires At(w0.progress, done) && AttachDisk in done && AttachNic in done && PrepOffline !in done && Start !in done
    ensures Replay(inputs, w0, TIMED_OUT) == Some(w) && w == w0.(progress := w.progress, editing := true)
    ensures StatusOf(w.progress, Start) == Pending && Start !in w.progress.acted && MayBegin(w.progress, Start)
    ensures forall step :: DidSucceed(w.progress, step) ==> step in done
  {
    var w1, w2 := BegunAndActed(inputs, w0, PrepOffline, NO_COPY, done);
    w := Next(inputs, w2, Fail(PrepOffline));
    Replay3(inputs, w0, Begin(PrepOffline), Act(PrepOffline, NO_COPY), Fail(PrepOffline));
  }

  lemma StartedFrom(inputs: Inputs, w0: World) returns (w: World)
    requires StatusOf(w0.progress, Start) == Pending && Start !in w0.progress.acted && MayBegin(w0.progress, Start)
    requires TargetKnown(inputs, w0)
    ensures Replay(inputs, w0, STARTED) == Some(w) && TargetRuns(inputs, w)
    ensures w == w0.(progress := w.progress, server := w.server)
    ensures StatusOf(w.progress, Start) == Running && Start in w.progress.acted
    ensures forall step :: DidSucceed(w.progress, step) ==> DidSucceed(w0.progress, step)
  {
    var w1 := Next(inputs, w0, Begin(Start));
    assert HasVm(w1.server, w1.vmData.value.id);
    w := Next(inputs, w1, Act(Start, NO_COPY));
    assert STARTED[1..] == [Act(Start, NO_COPY)] && STARTED[1..][1..] == [];
    assert Replay(inputs, w1, STARTED[1..]) == Some(w);
    var i :| 0 <= i < |w0.server.vms| && w0.server.vms[i] == w0.vmData.value;
    assert w.server.vms[i] in w.server.vms && w.server.vms[i].running;
  }

  const LAST := [Stream, CreateVm, AttachDisk, AttachNic]

  lemma LastStepsInOrder(done: set<Step>)
    requires Shutdown in done && CreateZvol in done
    requires Stream !in done && CreateVm !in done && AttachDisk !in done && AttachNic !in done
    ensures InOrder(done, LAST)
  {
    assert InOrder(done + {Stream} + {CreateVm} + {AttachDisk}, [AttachNic]);
    assert InOrder(done + {Stream} + {CreateVm}, [AttachDisk] + [AttachNic]);
    assert InOrder(done + {Stream}, [CreateVm] + ([AttachDisk] + [AttachNic]));
    assert LAST == [Stream] + ([CreateVm] + ([AttachDisk] + [AttachNic]));
  }

  lemma FirstStepsInOrder(done: set<Step>, rest: seq<Step>)
    requires done == {} + {Inspect} + {CreateZvol} + {Approve} + {Shutdown} && InOrder(done, rest)
    ensures InOrder({}, [Inspect] + ([CreateZvol] + ([Approve] + ([Shutdown] + rest))))
  {
    assert InOrder({} + {Inspect} + {CreateZvol} + {Approve}, [Shutdown] + rest);
    assert InOrder({} + {Inspect} + {CreateZvol}, [Approve] + ([Shutdown] + rest));
    assert InOrder({} + {Inspect}, [CreateZvol] + ([Approve] + ([Shutdown] + rest)));
  }

  lemma BuildIsInOrder()
    ensures InOrder({}, BUILD)
  {
    var done := {} + {Inspect} + {CreateZvol} + {Approve} + {Shutdown};
    LastStepsInOrder(done);
    FirstStepsInOrder(done, LAST);
    assert BUILD == [Inspect] + ([CreateZvol] + ([Approve] + ([Shutdown] + LAST)));
  }

  /** The whole run, event by event, with the given transfer. */
  function OverlapEvents(copy: Copy): seq<Event> {
    (SKIPS + SmoothAll(BUILD, copy)) + (TIMED_OUT + STARTED)
  }

  lemma StepsBuilt(done: set<Step>)
    requires done == {} + StepsOf(BUILD)
    ensures CreateVm in done && Shutdown in done && AttachDisk in done && AttachNic in done
    ensures PrepOffline !in done && Start !in done && Stream in done && CreateZvol in done
  {
    assert BUILD[1] == CreateZvol && BUILD[4] == Stream;
    assert BUILD[5] == CreateVm && BUILD[3] == Shutdown && BUILD[6] == AttachDisk && BUILD[7] == AttachNic;
  }

  lemma OverlapReplays(inputs: Inputs, w0: World, copy: Copy) returns (end: World)
    requires Initial(inputs, w0) && !ZvolTooSmall(w0.server, inputs.zvol)
    requires copy.claimed == ZvolRecord(w0.server, inputs.zvol).sizeBytes
    ensures Replay(inputs, w0, OverlapEvents(copy)) == Some(end)
    ensures TargetRuns(inputs, end) && end.editing && !end.sourceRunning
    ensures end.copied.Some? && end.copied.value.copy == copy
    ensures end.zvolData.Some? && end.zvolData.value.sizeBytes == copy.claimed
    ensures StatusOf(end.progress, Start) == Running && Start in end.progress.acted
    ensures forall step :: DidSucceed(end.progress, step) ==> step in BUILD
  {
    var w1 := AgentSkipped(inputs, w0, copy);
    BuildIsInOrder();
    var w2 := AllSteps(inputs, w1, BUILD, {}, copy);
    var done := {} + StepsOf(BUILD);
    StepsBuilt(done);
    var w3 := TimedOut(inputs, w2, done);
    end := StartedFrom(inputs, w3);
    ReplayAppend(inputs, w0, SKIPS, SmoothAll(BUILD, copy));
    ReplayAppend(inputs, w2, TIMED_OUT, STARTED);
    ReplayAppend(inputs, w0, SKIPS + SmoothAll(BUILD, copy), TIMED_OUT + STARTED);
  }

  /**
   * From every initial world whose volume is not too small, and for every transfer that claims the
   * volume's size, the run is a run of the workflow, and at its end the target runs, safely in every
   * other respect, while its disk is being edited.
   */
  lemma OverlapIsReachable(inputs: Inputs, w0: World, copy: Copy) returns (worlds: seq<World>, events: seq<Event>)
    requires Initial(inputs, w0) && !ZvolTooSmall(w0.server, inputs.zvol)
    requires copy.claimed == ZvolRecord(w0.server, inputs.zvol).sizeBytes
    ensures events == OverlapEvents(copy) && WorkflowRun(inputs, worlds, events) && worlds[0] == w0
    ensures var end := worlds[|events|];
            && TargetRuns(inputs, end) && end.editing && Safe(inputs, end) && !end.sourceRunning
            && end.copied.value.copy == copy && end.zvolData.value.sizeBytes == copy.claimed
  {
    var end := OverlapReplays(inputs, w0, copy);
    events := OverlapEvents(copy);
    worlds := ReplayIsPath(inputs, w0, events);
    MigrationIsSafe(inputs, worlds, events, |events|);
  }

  /**
   * The same run with a transfer whose reader read everything and whose writer wrote nothing: in
   * direct mode the reader's count is accepted, and the target runs on an empty disk.
   */
  lemma EmptyDiskIsReachable(inputs: Inputs, w0: World) returns (worlds: seq<World>, events: seq<Event>)
    requires Initial(inputs, w0) && !ZvolTooSmall(w0.server, inputs.zvol)
    requires ZvolRecord(w0.server, inputs.zvol).sizeBytes > 0
    requires ZvolRecord(w0.server, inputs.zvol).sizeBytes >= inputs.blockBytes
    ensures WorkflowRun(inputs, worlds, events) && worlds[0] == w0
    ensures var end := worlds[|events|];
            && TargetRuns(inputs, end) && end.copied.Some? && end.zvolData.Some?
            && Honest(end.copied.value.copy) && end.copied.value.copy.written == 0
            && !BytesVerified(0, end.zvolData.value.sizeBytes, inputs.blockBytes)
  {
    var size := ZvolRecord(w0.server, inputs.zvol).sizeBytes;
    worlds, events := OverlapIsReachable(inputs, w0, Copy(true, size, size, 0));
  }

  /** There is such an initial world for every input: an empty host. */
  lemma EmptyHostIsInitial(inputs: Inputs)
    ensures var w := World(Progress(map[], {}), true, None, false, Server([], [], [], 1, 1, true, true), None, None);
            Initial(inputs, w) && !ZvolTooSmall(w.server, inputs.zvol)
  {
  }
}
