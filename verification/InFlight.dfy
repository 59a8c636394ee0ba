// Provisioning when a request outlives its caller: the session's timer gives up on a call whose
// write may still reach the host later, after other attempts have looked and written.

module InFlight {
  import opened Records
  import opened TrueNasServer
  import opened Provisioning
  import opened ProvisioningRuns

  /** The write of method `k`, for the VM that it has seen. */
  function WriteOf(plan: Plan, k: nat, vm: nat): Request
    requires 1 <= k <= 4
  {
    if k == 1 then DatasetCreate(NewZvol(plan.zvol))
    else if k == 2 then VmCreate(StampedConfig(plan.vm))
    else if k == 3 then DeviceCreate(vm, plan.disk)
    else DeviceCreate(vm, plan.nic)
  }

  /** `Issue`: some attempt's method `k` found nothing and sent its write. `Land`: such a write takes effect. */
  datatype Move = Issue(k: nat) | Land(k: nat, vm: nat)

  ghost predicate Moves(states: seq<Server>, moves: seq<Move>, plan: Plan, i: nat)
    requires i < |moves| < |states|
  {
    var s, t, m := states[i], states[i + 1], moves[i];
    && 1 <= m.k <= 4
    && match m
       case Issue(k) => DoneUpTo(s, plan, k - 1) && !Present(s, plan, k) && t == s
       case Land(k, vm) =>
         && (exists j | 0 <= j < i :: moves[j] == Issue(k) && vm == TargetId(states[j], plan))
         && t == Serve(s, WriteOf(plan, k, vm)).0
  }

  /** Any number of attempts, sequential or not: writes are issued and land in any order, late, or never. */
  ghost predicate Trace(states: seq<Server>, moves: seq<Move>, plan: Plan) {
    && |states| == |moves| + 1 && !ZvolTooSmall(states[0], plan.zvol)
    && forall i | 0 <= i < |moves| :: Moves(states, moves, plan, i)
  }

  /** The host refuses the write of method `k`, since what it creates is there. */
  ghost predicate Refused(s: Server, plan: Plan, k: nat) {
    Present(s, plan, k) && (k == 1 || s.refusesDuplicates)
  }

  /** The write lands and is accepted although what it creates has come to be there since. */
  ghost predicate LandsTwice(states: seq<Server>, moves: seq<Move>, plan: Plan, i: nat)
    requires i < |moves| < |states|
  {
    moves[i].Land? && Present(states[i], plan, moves[i].k) && !Refused(states[i], plan, moves[i].k)
  }

  function Size(s: Server): nat {
    |s.datasets| + |s.vms| + |s.devices|
  }

  // ---------- One landing ----------

  function WithDevice(s: Server, vm: nat, spec: DeviceSpec): Server {
    s.(devices := s.devices + [Device(s.nextDevice, vm, spec)], nextDevice := s.nextDevice + 1)
  }

  /** Where method `k` may have issued its write, landing it is one of three plain extensions, or refused. */
  lemma LandingExtends(s: Server, plan: Plan, k: nat)
    requires 1 <= k <= 4 && DoneUpTo(s, plan, k - 1)
    ensures var t := Serve(s, WriteOf(plan, k, TargetId(s, plan))).0;
            if Refused(s, plan, k) then t == s
            else if k == 1 then t == s.(datasets := s.datasets + [NewZvol(plan.zvol)])
            else if k == 2 then
              t == s.(vms := s.vms + [Vm(s.nextVm, StampedConfig(plan.vm), false)], nextVm := s.nextVm + 1)
            else t == WithDevice(s, TargetId(s, plan), if k == 3 then plan.disk else plan.nic)
  {
    if k >= 3 {
      FirstIsHeld(s.vms, IsNamed(plan.vm.name));
      assert HasVm(s, TargetId(s, plan));
    }
  }

  /** A landing takes nothing away, and the VM seen stays the VM found. */
  lemma LandingKeeps(s: Server, plan: Plan, k: nat, j: nat)
    requires 1 <= k <= 4 && DoneUpTo(s, plan, k - 1) && !ZvolTooSmall(s, plan.zvol)
    ensures var t := Serve(s, WriteOf(plan, k, TargetId(s, plan))).0;
            && (DoneUpTo(s, plan, j) ==> DoneUpTo(t, plan, j))
            && (FirstNamed(s.vms, plan.vm.name).Some? ==>
                  FirstNamed(t.vms, plan.vm.name) == FirstNamed(s.vms, plan.vm.name))
            && !ZvolTooSmall(t, plan.zvol)
  {
    LandingExtends(s, plan, k);
    var id := TargetId(s, plan);
    FirstAppend(s.datasets, NewZvol(plan.zvol), IsDataset(FullName(plan.zvol)));
    FirstAppend(s.vms, Vm(s.nextVm, StampedConfig(plan.vm), false), IsNamed(plan.vm.name));
    FirstAppend(s.devices, Device(s.nextDevice, id, plan.disk), IsLike(id, plan.disk));
    FirstAppend(s.devices, Device(s.nextDevice, id, plan.disk), IsLike(id, plan.nic));
    FirstAppend(s.devices, Device(s.nextDevice, id, plan.nic), IsLike(id, plan.disk));
    FirstAppend(s.devices, Device(s.nextDevice, id, plan.nic), IsLike(id, plan.nic));
  }

  /** Landing on a host that lacks the thing is what the method itself would have done. */
  lemma LandingInTime(s: Server, plan: Plan, k: nat)
    requires 1 <= k <= 4 && DoneUpTo(s, plan, k - 1) && !Present(s, plan, k) && !ZvolTooSmall(s, plan.zvol)
    ensures Stage(Serve(s, WriteOf(plan, k, TargetId(s, plan))).0, plan, 4) == Stage(s, plan, 4)
  {
    LandingExtends(s, plan, k);
    DoneStagesAreSkipped(s, plan, k - 1, k - 1);
    assert Serve(s, WriteOf(plan, k, TargetId(s, plan))).0 == Stage(s, plan, k);
    RerunFromStage(s, plan, k, 4);
  }

  lemma EnsureBesideVm(s: Server, t: Server, plan: Plan, k: nat)
    requires t == s.(vms := t.vms, nextVm := t.nextVm) && 3 <= k <= 4
    requires FirstNamed(t.vms, plan.vm.name) == FirstNamed(s.vms, plan.vm.name)
    ensures Ensured(t, plan, k) == Ensured(s, plan, k).(vms := t.vms, nextVm := t.nextVm)
    ensures Ensured(s, plan, k).vms == s.vms
  {
  }

  /** An extra record that no stage looks for stays beside whatever the stages add. */
  lemma {:induction false} ExtraVmStays(s: Server, t: Server, plan: Plan, j: nat)
    requires t == s.(vms := t.vms, nextVm := t.nextVm) && 2 <= j <= 4 && DoneUpTo(s, plan, 2)
    requires FirstNamed(t.vms, plan.vm.name) == FirstNamed(s.vms, plan.vm.name)
    ensures Stage(t, plan, j) == Stage(s, plan, j).(vms := t.vms, nextVm := t.nextVm) && Stage(s, plan, j).vms == s.vms
  {
    if j > 2 {
      ExtraVmStays(s, t, plan, j - 1);
      EnsureBesideVm(Stage(s, plan, j - 1), Stage(t, plan, j - 1), plan, j);
    } else {
      DoneStagesAreSkipped(s, plan, 2, 2);
      DoneStagesAreSkipped(t, plan, 2, 2);
    }
  }

  lemma ExtraDeviceStays(s: Server, t: Server, plan: Plan, spec: DeviceSpec)
    requires DoneUpTo(s, plan, 3) && FirstDevice(s.devices, TargetId(s, plan), spec).Some?
    requires t == WithDevice(s, TargetId(s, plan), spec)
    ensures Size(Stage(t, plan, 4)) == Size(Stage(s, plan, 4)) + 1
  {
    var id, d := TargetId(s, plan), Device(s.nextDevice, TargetId(s, plan), spec);
    FirstAppend(s.devices, d, IsLike(id, plan.disk));
    FirstAppend(s.devices, d, IsLike(id, plan.nic));
    FirstIsHeld(s.devices, IsLike(id, spec));
    FirstIsHeld(s.devices, IsLike(id, plan.nic));
    DoneStagesAreSkipped(s, plan, 3, 3);
    DoneStagesAreSkipped(t, plan, 3, 3);
  }

  /** Landing on an accepting host that has the thing already leaves one record too many for good. */
  lemma LandingTwice(s: Server, plan: Plan, k: nat)
    requires 2 <= k <= 4 && DoneUpTo(s, plan, k - 1) && Present(s, plan, k) && !s.refusesDuplicates
    ensures Size(Stage(Serve(s, WriteOf(plan, k, TargetId(s, plan))).0, plan, 4)) == Size(Stage(s, plan, 4)) + 1
  {
    var t := Serve(s, WriteOf(plan, k, TargetId(s, plan))).0;
    LandingExtends(s, plan, k);
    if k == 2 {
      FirstAppend(s.vms, Vm(s.nextVm, StampedConfig(plan.vm), false), IsNamed(plan.vm.name));
      ExtraVmStays(s, t, plan, 4);
    } else {
      ExtraDeviceStays(s, t, plan, if k == 3 then plan.disk else plan.nic);
    }
  }

  lemma LandingCounts(s: Server, t: Server, plan: Plan, k: nat)
    requires 1 <= k <= 4 && DoneUpTo(s, plan, k - 1) && !ZvolTooSmall(s, plan.zvol)
    requires t == Serve(s, WriteOf(plan, k, TargetId(s, plan))).0
    ensures var twice := Present(s, plan, k) && !Refused(s, plan, k);
            && Size(Stage(t, plan, 4)) == Size(Stage(s, plan, 4)) + (if twice then 1 else 0)
            && (!twice ==> Stage(t, plan, 4) == Stage(s, plan, 4))
  {
    if Refused(s, plan, k) {
      LandingExtends(s, plan, k);
    } else if Present(s, plan, k) {
      LandingTwice(s, plan, k);
    } else {
      LandingInTime(s, plan, k);
    }
  }

  // ---------- Whole traces ----------

  /** What was there when a write was issued is still there, and the VM is still the same. */
  lemma {:induction false} IssueRemembered(states: seq<Server>, moves: seq<Move>, plan: Plan, j: nat, i: nat)
    requires Trace(states, moves, plan) && j <= i <= |moves|
    ensures !ZvolTooSmall(states[i], plan.zvol)
    ensures forall k: nat :: DoneUpTo(states[j], plan, k) ==> DoneUpTo(states[i], plan, k)
    ensures FirstNamed(states[j].vms, plan.vm.name).Some? ==>
              FirstNamed(states[i].vms, plan.vm.name) == FirstNamed(states[j].vms, plan.vm.name)
    decreases i, 1
  {
    if j < i {
      IssueRemembered(states, moves, plan, j, i - 1);
      MoveKeeps(states, moves, plan, i - 1);
    } else if i > 0 {
      IssueRemembered(states, moves, plan, i - 1, i - 1);
      MoveKeeps(states, moves, plan, i - 1);
    }
  }

  /** A landing write was issued on a host that had everything before it, and still has it. */
  lemma {:induction false} LandingIsPrepared(states: seq<Server>, moves: seq<Move>, plan: Plan, i: nat)
    requires Trace(states, moves, plan) && i < |moves| && moves[i].Land?
    ensures 1 <= moves[i].k <= 4
    ensures DoneUpTo(states[i], plan, moves[i].k - 1) && !ZvolTooSmall(states[i], plan.zvol)
    ensures states[i + 1] == Serve(states[i], WriteOf(plan, moves[i].k, TargetId(states[i], plan))).0
    decreases i, 2
  {
    assert Moves(states, moves, plan, i);
    var j :| 0 <= j < i && moves[j] == Issue(moves[i].k) && moves[i].vm == TargetId(states[j], plan);
    assert Moves(states, moves, plan, j);
    IssueRemembered(states, moves, plan, j, i);
  }

  lemma {:induction false} MoveKeeps(states: seq<Server>, moves: seq<Move>, plan: Plan, i: nat)
    requires Trace(states, moves, plan) && i < |moves| && !ZvolTooSmall(states[i], plan.zvol)
    ensures !ZvolTooSmall(states[i + 1], plan.zvol)
    ensures forall k: nat :: DoneUpTo(states[i], plan, k) ==> DoneUpTo(states[i + 1], plan, k)
    ensures FirstNamed(states[i].vms, plan.vm.name).Some? ==>
              FirstNamed(states[i + 1].vms, plan.vm.name) == FirstNamed(states[i].vms, plan.vm.name)
    decreases i, 3
  {
    assert Moves(states, moves, plan, i);
    if moves[i].Land? {
      LandingIsPrepared(states, moves, plan, i);
      forall k: nat | DoneUpTo(states[i], plan, k)
        ensures DoneUpTo(states[i + 1], plan, k)
      {
        LandingKeeps(states[i], plan, moves[i].k, k);
      }
      LandingKeeps(states[i], plan, moves[i].k, 0);
    }
  }

  /** How many of the first `n` moves were landings too many. */
  ghost function TooMany(states: seq<Server>, moves: seq<Move>, plan: Plan, n: nat): nat
    requires n <= |moves| < |states|
  {
    if n == 0 then 0
    else TooMany(states, moves, plan, n - 1) + (if LandsTwice(states, moves, plan, n - 1) then 1 else 0)
  }

  /**
   * Conservation: a full run from here ends with as many records as a single run, and one more per
   * landing too many.
   */
  lemma {:induction false} RecordsAreCounted(states: seq<Server>, moves: seq<Move>, plan: Plan, n: nat)
    requires Trace(states, moves, plan) && n <= |moves|
    ensures Size(Stage(states[n], plan, 4)) == Size(Stage(states[0], plan, 4)) + TooMany(states, moves, plan, n)
    ensures TooMany(states, moves, plan, n) == 0 ==> Stage(states[n], plan, 4) == Stage(states[0], plan, 4)
  {
    if n > 0 {
      RecordsAreCounted(states, moves, plan, n - 1);
      assert Moves(states, moves, plan, n - 1);
      if moves[n - 1].Land? {
        LandingIsPrepared(states, moves, plan, n - 1);
        LandingCounts(states[n - 1], states[n], plan, moves[n - 1].k);
      }
    }
  }

  lemma {:induction false} NoneTooMany(states: seq<Server>, moves: seq<Move>, plan: Plan, n: nat)
    requires n <= |moves| < |states|
    ensures TooMany(states, moves, plan, n) == 0 <==> forall i | 0 <= i < n :: !LandsTwice(states, moves, plan, i)
  {
    if n > 0 {
      NoneTooMany(states, moves, plan, n - 1);
    }
  }

  /**
   * The exact condition: after any attempts whose writes may land late, a full run gives the host of
   * a single run if and only if no write landed on a host that already had what it creates.
   */
  lemma InFlightConverges(states: seq<Server>, moves: seq<Move>, plan: Plan)
    requires Trace(states, moves, plan)
    ensures Stage(states[|moves|], plan, 4) == Stage(states[0], plan, 4) <==>
            forall i | 0 <= i < |moves| :: !LandsTwice(states, moves, plan, i)
  {
    RecordsAreCounted(states, moves, plan, |moves|);
    NoneTooMany(states, moves, plan, |moves|);
  }

  // ---------- What can be known beforehand ----------

  lemma {:induction false} RefusalStays(states: seq<Server>, moves: seq<Move>, plan: Plan, n: nat)
    requires Trace(states, moves, plan) && n <= |moves|
    ensures states[n].refusesDuplicates == states[0].refusesDuplicates
  {
    if n > 0 {
      RefusalStays(states, moves, plan, n - 1);
      assert Moves(states, moves, plan, n - 1);
    }
  }

  /** The VM and both its devices are there. */
  ghost predicate BuiltFromVmOn(s: Server, plan: Plan) {
    Present(s, plan, 2) && Present(s, plan, 3) && Present(s, plan, 4)
  }

  lemma {:induction false} BuiltStays(states: seq<Server>, moves: seq<Move>, plan: Plan, n: nat)
    requires Trace(states, moves, plan) && n <= |moves| && BuiltFromVmOn(states[0], plan)
    ensures BuiltFromVmOn(states[n], plan)
    decreases n
  {
    if n > 0 {
      var s := states[n - 1];
      BuiltStays(states, moves, plan, n - 1);
      assert Moves(states, moves, plan, n - 1);
      if moves[n - 1].Land? {
        NeverIssued(states, moves, plan, n - 1);
      }
    }
  }

  /** What is there from the beginning is never written again. */
  lemma NeverIssued(states: seq<Server>, moves: seq<Move>, plan: Plan, i: nat)
    requires Trace(states, moves, plan) && i < |moves| && moves[i].Land? && BuiltFromVmOn(states[0], plan)
    ensures moves[i].k == 1
    decreases i
  {
    assert Moves(states, moves, plan, i);
    var j :| 0 <= j < i && moves[j] == Issue(moves[i].k) && moves[i].vm == TargetId(states[j], plan);
    assert Moves(states, moves, plan, j);
    BuiltStays(states, moves, plan, j);
  }

  /** However writes are issued and land, a full run gives the host of a single run. */
  ghost predicate AlwaysConverges(s: Server, plan: Plan) {
    forall states: seq<Server>, moves: seq<Move> | Trace(states, moves, plan) && states[0] == s ::
      Stage(states[|moves|], plan, 4) == Stage(s, plan, 4)
  }

  /** Two attempts that both look for thing `k` before either write lands. */
  function Both(k: nat, vm: nat): seq<Move> {
    [Issue(k), Issue(k), Land(k, vm), Land(k, vm)]
  }

  /** A write that lands in time leaves what it creates. */
  lemma LandedIsPresent(s: Server, plan: Plan, k: nat)
    requires 1 <= k <= 4 && DoneUpTo(s, plan, k - 1) && !Present(s, plan, k)
    ensures var once := Serve(s, WriteOf(plan, k, TargetId(s, plan))).0;
            && Present(once, plan, k) && once.refusesDuplicates == s.refusesDuplicates
            && (k >= 2 ==> once.datasets == s.datasets)
            && (k == 1 ==> once.vms == s.vms && once.devices == s.devices)
  {
    var id := TargetId(s, plan);
    LandingExtends(s, plan, k);
    FirstAppend(s.datasets, NewZvol(plan.zvol), IsDataset(FullName(plan.zvol)));
    FirstAppend(s.vms, Vm(s.nextVm, StampedConfig(plan.vm), false), IsNamed(plan.vm.name));
    FirstAppend(s.devices, Device(s.nextDevice, id, plan.disk), IsLike(id, plan.disk));
    FirstAppend(s.devices, Device(s.nextDevice, id, plan.nic), IsLike(id, plan.nic));
  }

  /** Where thing `k` is the next one missing, an accepting host can be left with two of it. */
  lemma LateWriteDoubles(s: Server, plan: Plan, k: nat)
    requires 2 <= k <= 4 && DoneUpTo(s, plan, k - 1) && !Present(s, plan, k)
    requires !s.refusesDuplicates && !ZvolTooSmall(s, plan.zvol)
    ensures var w := WriteOf(plan, k, TargetId(s, plan));
            var once := Serve(s, w).0;
            var states := [s, s, s, once, Serve(once, w).0];
            && Trace(states, Both(k, TargetId(s, plan)), plan)
            && LandsTwice(states, Both(k, TargetId(s, plan)), plan, 3)
    ensures !AlwaysConverges(s, plan)
  {
    var vm := TargetId(s, plan);
    var w, moves := WriteOf(plan, k, vm), Both(k, vm);
    var once := Serve(s, w).0;
    var states := [s, s, s, once, Serve(once, w).0];
    LandedIsPresent(s, plan, k);
    assert moves[0] == Issue(k) && vm == TargetId(states[0], plan);
    assert Moves(states, moves, plan, 2) && Moves(states, moves, plan, 3);
    assert Trace(states, moves, plan);
    assert LandsTwice(states, moves, plan, 3);
    InFlightConverges(states, moves, plan);
  }

  /** A trace from the host with the volume is one from the host without it, once the volume's write has landed. */
  lemma TraceShifted(s: Server, states: seq<Server>, moves: seq<Move>, plan: Plan)
    requires !Present(s, plan, 1) && !ZvolTooSmall(s, plan.zvol) && Trace(states, moves, plan)
    requires states[0] == Serve(s, WriteOf(plan, 1, TargetId(s, plan))).0
    ensures Trace([s, s] + states, [Issue(1), Land(1, TargetId(s, plan))] + moves, plan)
  {
    var vm := TargetId(s, plan);
    var longer, more := [s, s] + states, [Issue(1), Land(1, vm)] + moves;
    forall i | 0 <= i < |more|
      ensures Moves(longer, more, plan, i)
    {
      assert more[0] == Issue(1) && longer[0] == s;
      if i >= 2 {
        assert Moves(states, moves, plan, i - 2);
        if moves[i - 2].Land? {
          var j :| 0 <= j < i - 2 && moves[j] == Issue(moves[i - 2].k) && moves[i - 2].vm == TargetId(states[j], plan);
          assert more[j + 2] == moves[j] && longer[j + 2] == states[j];
        }
      }
    }
  }

  lemma VolumeFirst(s: Server, plan: Plan)
    requires !Present(s, plan, 1) && !ZvolTooSmall(s, plan.zvol)
    requires !AlwaysConverges(Serve(s, WriteOf(plan, 1, TargetId(s, plan))).0, plan)
    ensures !AlwaysConverges(s, plan)
  {
    var next := Serve(s, WriteOf(plan, 1, TargetId(s, plan))).0;
    var states: seq<Server>, moves: seq<Move> :| Trace(states, moves, plan) && states[0] == next
                                                 && Stage(states[|moves|], plan, 4) != Stage(next, plan, 4);
    TraceShifted(s, states, moves, plan);
    LandingInTime(s, plan, 1);
    var longer, more := [s, s] + states, [Issue(1), Land(1, TargetId(s, plan))] + moves;
    assert longer[|more|] == states[|moves|];
  }

  lemma RefusingConverges(s: Server, plan: Plan)
    requires s.refusesDuplicates || BuiltFromVmOn(s, plan)
    ensures AlwaysConverges(s, plan)
  {
    forall states: seq<Server>, moves: seq<Move> | Trace(states, moves, plan) && states[0] == s
      ensures Stage(states[|moves|], plan, 4) == Stage(s, plan, 4)
    {
      forall i | 0 <= i < |moves|
        ensures !LandsTwice(states, moves, plan, i)
      {
        RefusalStays(states, moves, plan, i);
        if moves[i].Land? && BuiltFromVmOn(s, plan) {
          NeverIssued(states, moves, plan, i);
        }
      }
      InFlightConverges(states, moves, plan);
    }
  }

  lemma NextMissingDoubles(s: Server, plan: Plan)
    requires !ZvolTooSmall(s, plan.zvol) && Present(s, plan, 1)
    requires !s.refusesDuplicates && !BuiltFromVmOn(s, plan)
    ensures !AlwaysConverges(s, plan)
  {
    LateWriteDoubles(s, plan, if !Present(s, plan, 2) then 2 else if !Present(s, plan, 3) then 3 else 4);
  }

  /**
   * What can be checked before the first attempt: re-running is safe whatever lands late if and only
   * if the host refuses duplicates or the VM and its devices are all there already.
   */
  lemma AlwaysConvergesExactly(s: Server, plan: Plan)
    requires !ZvolTooSmall(s, plan.zvol)
    ensures AlwaysConverges(s, plan) <==> s.refusesDuplicates || BuiltFromVmOn(s, plan)
  {
    if s.refusesDuplicates || BuiltFromVmOn(s, plan) {
      RefusingConverges(s, plan);
    } else if Present(s, plan, 1) {
      NextMissingDoubles(s, plan);
    } else {
      LandedIsPresent(s, plan, 1);
      LandingKeeps(s, plan, 1, 0);
      NextMissingDoubles(Serve(s, WriteOf(plan, 1, TargetId(s, plan))).0, plan);
      VolumeFirst(s, plan);
    }
  }
}
