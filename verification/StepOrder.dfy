// The order of the workflow's steps, read off the events: the table of `dependsOn` clauses as it is
// written, and what follows from it for approval, for cleanup and for the steps that may fail.

module StepOrder {
  import opened Wrappers
  import opened TrueNasServer
  import opened Provisioning
  import opened MigrateWorkflow
  import opened OverlapRun

  /** The `dependsOn` entries of one step: what it waits for to succeed, and what merely to be over. */
  datatype Needs = Needs(toSucceed: set<Step>, toEnd: set<Step>)

  function NeedsOf(step: Step): Needs {
    match step
    case Inspect => Needs({}, {})
    case AgentCheck => Needs({Inspect}, {})
    case CreateZvol => Needs({Inspect}, {})
    case PrepAgent => Needs({}, {AgentCheck})
    case Approve => Needs({CreateZvol}, {PrepAgent})
    case Shutdown => Needs({Approve}, {})
    case Stream => Needs({Shutdown}, {})
    case CreateVm => Needs({Stream}, {})
    case AttachDisk => Needs({CreateVm}, {})
    case AttachNic => Needs({CreateVm}, {})
    case PrepOffline => Needs({AttachDisk}, {PrepAgent})
    case Start => Needs({AttachDisk, AttachNic}, {PrepOffline})
    case VerifyReach => Needs({Start}, {})
    case VerifyOmni => Needs({VerifyReach}, {})
    case DnsFlip => Needs({VerifyReach}, {})
  }

  /** Some event before the `n`-th is of the kind. */
  ghost predicate Happened(events: seq<Event>, n: nat, kind: Event -> bool)
    requires n <= |events|
  {
    exists j | 0 <= j < n :: kind(events[j])
  }

  lemma OneMoreEvent(events: seq<Event>, m: nat, kind: Event -> bool)
    requires m < |events|
    ensures Happened(events, m + 1, kind) <==> Happened(events, m, kind) || kind(events[m])
  {
  }

  function Succeeding(step: Step): Event -> bool {
    (e: Event) => e.Succeed? && e.step == step
  }

  function Ending(step: Step): Event -> bool {
    (e: Event) => (e.Succeed? || e.Fail? || e.Skip?) && e.step == step
  }

  /** The step has its turn when it is begun or skipped. */
  function Turn(step: Step): Event -> bool {
    (e: Event) => (e.Begin? || e.Skip?) && e.step == step
  }

  /** What the status of a step says about the events so far. */
  ghost predicate Agrees(p: Progress, events: seq<Event>, n: nat, step: Step)
    requires n <= |events|
  {
    && (DidSucceed(p, step) <==> Happened(events, n, Succeeding(step)))
    && (Over(p, step) <==> Happened(events, n, Ending(step)))
    && (StatusOf(p, step) == Pending <==> !Happened(events, n, Turn(step)))
  }

  /** The status that an event gives to its step, if any. */
  function Given(e: Event): Option<(Step, Status)> {
    match e
    case Begin(step) => Some((step, Running))
    case Succeed(step, _) => Some((step, Succeeded))
    case Fail(step) => Some((step, Failed))
    case Skip(step) => Some((step, Skipped))
    case _ => None
  }

  lemma StatusAfter(p: Progress, e: Event, step: Step)
    ensures StatusOf(Advance(p, e), step) ==
            if Given(e).Some? && Given(e).value.0 == step then Given(e).value.1 else StatusOf(p, step)
  {
  }

  /** An event gives a step its next status only if the step is pending or running. */
  lemma GivenInOrder(p: Progress, e: Event)
    requires MayAdvance(p, e) && Given(e).Some?
    ensures var s := StatusOf(p, Given(e).value.0);
            if e.Begin? || e.Skip? then s == Pending else s == Running
  {
  }

  lemma SuccessNext(p: Progress, e: Event, step: Step)
    requires MayAdvance(p, e)
    ensures DidSucceed(Advance(p, e), step) <==> DidSucceed(p, step) || Succeeding(step)(e)
  {
    StatusAfter(p, e, step);
    if Given(e).Some? {
      GivenInOrder(p, e);
    }
  }

  lemma EndNext(p: Progress, e: Event, step: Step)
    requires MayAdvance(p, e)
    ensures Over(Advance(p, e), step) <==> Over(p, step) || Ending(step)(e)
  {
    StatusAfter(p, e, step);
    if Given(e).Some? {
      GivenInOrder(p, e);
    }
  }

  lemma TurnNext(p: Progress, e: Event, step: Step)
    requires MayAdvance(p, e)
    ensures StatusOf(Advance(p, e), step) == Pending <==> StatusOf(p, step) == Pending && !Turn(step)(e)
  {
    StatusAfter(p, e, step);
    if Given(e).Some? {
      GivenInOrder(p, e);
    }
  }

  lemma {:induction false} StatusIsHistory(inputs: Inputs, worlds: seq<World>, events: seq<Event>, n: nat, step: Step)
    requires WorkflowRun(inputs, worlds, events) && n < |worlds|
    ensures Agrees(worlds[n].progress, events, n, step)
  {
    if n > 0 {
      var m := n - 1;
      StatusIsHistory(inputs, worlds, events, m, step);
      SuccessNext(worlds[m].progress, events[m], step);
      EndNext(worlds[m].progress, events[m], step);
      TurnNext(worlds[m].progress, events[m], step);
      OneMoreEvent(events, m, Succeeding(step));
      OneMoreEvent(events, m, Ending(step));
      OneMoreEvent(events, m, Turn(step));
    }
  }

  lemma TableIsTheGraph(p: Progress, step: Step)
    ensures MayBegin(p, step) <==>
            (forall on | on in NeedsOf(step).toSucceed :: DidSucceed(p, on))
            && forall on | on in NeedsOf(step).toEnd :: Over(p, on)
  {
  }

  /**
   * At every point of every run a step may begin if and only if it has had no turn yet and every entry
   * of the table for it has been met by earlier events.
   */
  lemma BeginsExactly(inputs: Inputs, worlds: seq<World>, events: seq<Event>, n: nat, step: Step)
    requires WorkflowRun(inputs, worlds, events) && n < |worlds|
    ensures Enabled(inputs, worlds[n], Begin(step)) <==>
            && !Happened(events, n, Turn(step))
            && (forall on | on in NeedsOf(step).toSucceed :: Happened(events, n, Succeeding(on)))
            && (forall on | on in NeedsOf(step).toEnd :: Happened(events, n, Ending(on)))
  {
    var p := worlds[n].progress;
    TableIsTheGraph(p, step);
    StatusIsHistory(inputs, worlds, events, n, step);
    forall s: Step
      ensures DidSucceed(p, s) <==> Happened(events, n, Succeeding(s))
      ensures Over(p, s) <==> Happened(events, n, Ending(s))
    {
      StatusIsHistory(inputs, worlds, events, n, s);
    }
  }

  // ---------- What the order is for ----------

  /** Event `m` shut the source down, after its approval, and that after the volume was made and the guest prepared. */
  ghost predicate ShutDownWithApproval(events: seq<Event>, m: nat) {
    && m < |events| && events[m].Act? && events[m].step == Shutdown
    && Happened(events, m, Succeeding(Approve))
    && Happened(events, m, Succeeding(CreateZvol)) && Happened(events, m, Ending(PrepAgent))
  }

  lemma OnlyShutdownStops(inputs: Inputs, w: World, e: Event)
    requires Enabled(inputs, w, e) && w.sourceRunning && !Next(inputs, w, e).sourceRunning
    ensures e.Act? && e.step == Shutdown
  {
  }

  /** Whenever a run has switched the source off, it did so in a shutdown that had been approved. */
  lemma {:induction false} SourceGoesOffApproved(inputs: Inputs, worlds: seq<World>, events: seq<Event>, n: nat)
    requires WorkflowRun(inputs, worlds, events) && n < |worlds|
    requires worlds[0].sourceRunning && !worlds[n].sourceRunning
    ensures exists m | 0 <= m < n :: ShutDownWithApproval(events, m)
  {
    var m := n - 1;
    if worlds[m].sourceRunning {
      OnlyShutdownStops(inputs, worlds[m], events[m]);
      InvariantHolds(inputs, worlds, events, m);
      ChainBehind(worlds[m].progress);
      StatusIsHistory(inputs, worlds, events, m, Approve);
      StatusIsHistory(inputs, worlds, events, m, CreateZvol);
      StatusIsHistory(inputs, worlds, events, m, PrepAgent);
      assert ShutDownWithApproval(events, m);
    } else {
      SourceGoesOffApproved(inputs, worlds, events, m);
    }
  }

  /** The job has failed when a step did that is not allowed to. */
  ghost predicate JobFailed(p: Progress) {
    exists step: Step :: !AllowFailure(step) && StatusOf(p, step) == Failed
  }

  lemma StartedRestsOn(p: Progress)
    requires Ordered(p) && DidSucceed(p, Start)
    ensures forall step | !AllowFailure(step) :: DidSucceed(p, step)
  {
    ChainBehind(p);
    assert Began(p, Stream) && Began(p, Shutdown) && Began(p, Approve) && Began(p, CreateZvol);
    assert MayBegin(p, CreateZvol) && DidSucceed(p, Inspect);
    assert DidSucceed(p, Approve) && DidSucceed(p, Shutdown) && DidSucceed(p, CreateVm);
    forall step | !AllowFailure(step)
      ensures DidSucceed(p, step)
    {
      assert step.Inspect? || step.CreateZvol? || step.Approve? || step.Shutdown? || step.Stream? || step.CreateVm?
             || step.AttachDisk? || step.AttachNic? || step.Start?;
    }
  }

  /** The cleanup job runs only after a failed one, and then the target has not been reported started. */
  lemma CleanupSparesAStartedTarget(inputs: Inputs, worlds: seq<World>, events: seq<Event>, n: nat)
    requires WorkflowRun(inputs, worlds, events) && n < |worlds|
    requires JobFailed(worlds[n].progress)
    ensures !Happened(events, n, Succeeding(Start))
  {
    InvariantHolds(inputs, worlds, events, n);
    StatusIsHistory(inputs, worlds, events, n, Start);
    if DidSucceed(worlds[n].progress, Start) {
      StartedRestsOn(worlds[n].progress);
    }
  }

  /** A run to a reported start in which nothing succeeded but the steps that it needs. */
  lemma StartWithoutTheRest(inputs: Inputs) returns (worlds: seq<World>, events: seq<Event>)
    ensures WorkflowRun(inputs, worlds, events)
    ensures DidSucceed(worlds[|events|].progress, Start)
    ensures forall step :: DidSucceed(worlds[|events|].progress, step) ==> step in BUILD || step == Start
  {
    var w0 := World(Progress(map[], {}), true, None, false, Server([], [], [], 1, 1, true, true), None, None);
    var size := ZvolRecord(w0.server, inputs.zvol).sizeBytes;
    var copy := Copy(false, size, size, size);
    EmptyHostIsInitial(inputs);
    var end := OverlapReplays(inputs, w0, copy);
    var reported := Next(inputs, end, Succeed(Start, false));
    assert [Succeed(Start, false)][1..] == [];
    assert Replay(inputs, end, [Succeed(Start, false)]) == Some(reported);
    events := OverlapEvents(copy) + [Succeed(Start, false)];
    ReplayAppend(inputs, w0, OverlapEvents(copy), [Succeed(Start, false)]);
    worlds := ReplayIsPath(inputs, w0, events);
    forall step
      ensures DidSucceed(reported.progress, step) <==> DidSucceed(end.progress, step) || step == Start
    {
      SuccessNext(end.progress, Succeed(Start, false), step);
    }
  }

  /** The steps that must not fail are exactly those whose success every reported start rests on. */
  lemma CriticalExactly(inputs: Inputs, step: Step)
    ensures !AllowFailure(step) <==>
            forall worlds: seq<World>, events: seq<Event>, n: nat |
              WorkflowRun(inputs, worlds, events) && n < |worlds| && DidSucceed(worlds[n].progress, Start) ::
              DidSucceed(worlds[n].progress, step)
  {
    if !AllowFailure(step) {
      forall worlds: seq<World>, events: seq<Event>, n: nat |
        WorkflowRun(inputs, worlds, events) && n < |worlds| && DidSucceed(worlds[n].progress, Start)
        ensures DidSucceed(worlds[n].progress, step)
      {
        InvariantHolds(inputs, worlds, events, n);
        StartedRestsOn(worlds[n].progress);
      }
    } else {
      var worlds, events := StartWithoutTheRest(inputs);
      assert step !in BUILD && step != Start;
      assert !DidSucceed(worlds[|events|].progress, step);
    }
  }
}
