// Whole runs of the provisioning methods: a re-run of a half-finished migration converges, and a
// sequential run without `force` keeps names, disks and MACs unique and every unmarked VM in place.

module ProvisioningRuns {
  import opened Wrappers
  import opened Records
  import opened TrueNasServer
  import opened Provisioning

  // ---------- Crash and re-run ----------

  /** One migration's arguments; the two devices are attached to the VM that `create_vm` reports. */
  datatype Plan = Plan(zvol: ZvolArgs, vm: VmConfig, disk: DeviceSpec, nic: DeviceSpec)

  predicate FreshIds(s: Server) {
    forall v | v in s.vms :: v.id < s.nextVm
  }

  function TargetId(s: Server, plan: Plan): nat {
    var v := FirstNamed(s.vms, plan.vm.name);
    if v.Some? then v.value.id else 0
  }

  /** What method `k` of the four makes of a server, undisturbed. */
  function Ensured(t: Server, plan: Plan, k: nat): Server {
    if k == 1 then EnsureZvol(t, plan.zvol)
    else if k == 2 then EnsureVm(t, plan.vm)
    else if k == 3 then EnsureDevice(t, TargetId(t, plan), plan.disk)
    else if k == 4 then EnsureDevice(t, TargetId(t, plan), plan.nic)
    else t
  }

  /** The server after the first `k` of the four methods of one undisturbed run from `s`. */
  function Stage(s: Server, plan: Plan, k: nat): Server {
    if k == 0 then s else Ensured(Stage(s, plan, k - 1), plan, k)
  }

  /** The four things that a run provides, numbered as its methods. */
  ghost predicate Present(s: Server, plan: Plan, k: nat) {
    && (k == 1 ==> FirstDataset(s.datasets, FullName(plan.zvol)).Some?)
    && (k == 2 ==> FirstNamed(s.vms, plan.vm.name).Some?)
    && (k == 3 ==> FirstDevice(s.devices, TargetId(s, plan), plan.disk).Some?)
    && (k == 4 ==> FirstDevice(s.devices, TargetId(s, plan), plan.nic).Some?)
  }

  /** What is already done at stage `k`, whatever the starting state was. */
  ghost predicate DoneUpTo(s: Server, plan: Plan, k: nat) {
    && (k >= 1 ==> Present(s, plan, 1))
    && (k >= 2 ==> Present(s, plan, 2))
    && (k >= 3 ==> Present(s, plan, 3))
    && (k >= 4 ==> Present(s, plan, 4))
  }

  lemma EnsuredIsPresent(t: Server, plan: Plan, k: nat)
    requires DoneUpTo(t, plan, k) && k < 4 && !ZvolTooSmall(t, plan.zvol)
    ensures DoneUpTo(Ensured(t, plan, k + 1), plan, k + 1)
    ensures !ZvolTooSmall(Ensured(t, plan, k + 1), plan.zvol)
  {
    var id := TargetId(t, plan);
    var disk, nic := Device(t.nextDevice, id, plan.disk), Device(t.nextDevice, id, plan.nic);
    FirstAppend(t.datasets, NewZvol(plan.zvol), IsDataset(FullName(plan.zvol)));
    FirstAppend(t.vms, Vm(t.nextVm, StampedConfig(plan.vm), false), IsNamed(plan.vm.name));
    FirstAppend(t.devices, disk, IsLike(id, plan.disk));
    FirstAppend(t.devices, nic, IsLike(id, plan.nic));
    FirstAppend(t.devices, nic, IsLike(id, plan.disk));
  }

  lemma {:induction false} StageIsDone(s: Server, plan: Plan, k: nat)
    requires !ZvolTooSmall(s, plan.zvol)
    ensures DoneUpTo(Stage(s, plan, k), plan, k)
    ensures !ZvolTooSmall(Stage(s, plan, k), plan.zvol)
    ensures FreshIds(s) ==> FreshIds(Stage(s, plan, k))
  {
    if k > 0 {
      StageIsDone(s, plan, k - 1);
      if k <= 4 {
        EnsuredIsPresent(Stage(s, plan, k - 1), plan, k - 1);
      }
    }
  }

  lemma {:induction false} DoneStagesAreSkipped(t: Server, plan: Plan, k: nat, j: nat)
    requires DoneUpTo(t, plan, k) && j <= k
    ensures Stage(t, plan, j) == t
  {
    if j > 0 {
      DoneStagesAreSkipped(t, plan, k, j - 1);
    }
  }

  /** An undisturbed run from any stage of a run ends where the run itself does. */
  lemma {:induction false} RerunFromStage(s: Server, plan: Plan, k: nat, j: nat)
    requires !ZvolTooSmall(s, plan.zvol) && k <= 4
    ensures Stage(Stage(s, plan, k), plan, j) == Stage(s, plan, if j <= k then k else j)
    decreases j
  {
    var t := Stage(s, plan, k);
    if j <= k {
      StageIsDone(s, plan, k);
      DoneStagesAreSkipped(t, plan, k, j);
    } else {
      RerunFromStage(s, plan, k, j - 1);
    }
  }

  /** One attempt, cut off anywhere: the server is left at one of the stages. */
  ghost predicate Attempt(s: Server, plan: Plan, t: Server) {
    exists k: nat :: k <= 4 && t == Stage(s, plan, k)
  }

  /**
   * Any number of attempts cut off at any call, before or after its effect, followed by one full
   * run, leaves exactly the server of a single full run: same records, same id counters.
   */
  lemma {:induction false} RerunConverges(plan: Plan, trace: seq<Server>)
    requires |trace| > 0 && !ZvolTooSmall(trace[0], plan.zvol)
    requires forall i | 0 <= i < |trace| - 1 :: Attempt(trace[i], plan, trace[i + 1])
    ensures Attempt(trace[0], plan, trace[|trace| - 1])
    ensures Stage(trace[|trace| - 1], plan, 4) == Stage(trace[0], plan, 4)
  {
    if |trace| == 1 {
      assert trace[0] == Stage(trace[0], plan, 0);
    } else {
      var n := |trace| - 1;
      RerunConverges(plan, trace[..n]);
      var k: nat :| k <= 4 && trace[n - 1] == Stage(trace[0], plan, k);
      assert Attempt(trace[n - 1], plan, trace[n]);
      var j: nat :| j <= 4 && trace[n] == Stage(trace[n - 1], plan, j);
      RerunFromStage(trace[0], plan, k, j);
      RerunFromStage(trace[0], plan, if j <= k then k else j, 4);
    }
  }

  /** The four methods in order, stopping at the first that throws. */
  method Provision(session: Session, plan: Plan) returns (r: Result<Vm>)
    requires FreshIds(session.server) && !ZvolTooSmall(session.server, plan.zvol)
    modifies session
    ensures Attempt(old(session.server), plan, session.server)
    ensures r.Ok? ==> session.server == Stage(old(session.server), plan, 4)
    ensures Reliable(old(session.link)) ==> r.Ok?
  {
    ghost var s := session.server;
    StageIsDone(s, plan, 1);
    StageIsDone(s, plan, 2);
    assert s == Stage(s, plan, 0);
    var zvol := session.CreateZvol(plan.zvol);
    if zvol.Err? {
      assert session.server == Stage(s, plan, 0) || session.server == Stage(s, plan, 1);
      return Err(zvol.error);
    }
    assert session.server == Stage(s, plan, 1);
    var vm := session.CreateVm(plan.vm);
    if vm.Err? {
      assert session.server == Stage(s, plan, 1) || session.server == Stage(s, plan, 2);
      return Err(vm.error);
    }
    assert session.server == Stage(s, plan, 2);
    FirstIsHeld(session.server.vms, IsNamed(plan.vm.name));
    assert HasVm(session.server, vm.value.id);
    var disk := session.Attach(vm.value.id, plan.disk);
    if disk.Err? {
      assert session.server == Stage(s, plan, 2) || session.server == Stage(s, plan, 3);
      return Err(disk.error);
    }
    assert session.server == Stage(s, plan, 3);
    var nic := session.Attach(vm.value.id, plan.nic);
    assert session.server == Stage(s, plan, 3) || session.server == Stage(s, plan, 4);
    r := if nic.Ok? then vm else Err(nic.error);
  }

  /** Retrying over links that fail in any way and then once over a working link. */
  method ProvisionWithRetries(session: Session, plan: Plan, links: seq<seq<Fault>>) returns (r: Result<Vm>)
    requires FreshIds(session.server) && !ZvolTooSmall(session.server, plan.zvol)
    modifies session
    ensures r.Ok? && session.server == Stage(old(session.server), plan, 4)
  {
    ghost var s := session.server;
    ghost var k: nat := 0;
    for i := 0 to |links|
      invariant k <= 4 && session.server == Stage(s, plan, k)
    {
      StageIsDone(s, plan, k);
      session.link := links[i];
      var _ := Provision(session, plan);
      ghost var j: nat :| j <= 4 && session.server == Stage(Stage(s, plan, k), plan, j);
      RerunFromStage(s, plan, k, j);
      k := if j <= k then k else j;
    }
    StageIsDone(s, plan, k);
    RerunFromStage(s, plan, k, 4);
    session.link := [];
    r := Provision(session, plan);
  }

  // ---------- Sequential runs of any methods ----------

  datatype Op =
    | OpCreateZvol(zvol: ZvolArgs)
    | OpCreateVm(config: VmConfig)
    | OpAttach(vm: nat, spec: DeviceSpec)
    | OpSetRunning(ref: VmRef, running: bool)
    | OpDelete(args: DeleteArgs)

  /** Every state in which one method call, failing anywhere or not, can leave the server. */
  ghost predicate Effect(s: Server, op: Op, t: Server) {
    t == s ||
    match op
    case OpCreateZvol(a) => t == EnsureZvol(s, a)
    case OpCreateVm(config) => t == EnsureVm(s, config)
    case OpAttach(vm, spec) => HasVm(s, vm) && t == EnsureDevice(s, vm, spec)
    case OpSetRunning(ref, running) =>
      Resolve(s, ref).Some? && t == s.(vms := WithRunning(s.vms, Resolve(s, ref).value.id, running))
    case OpDelete(a) => !GateRefuses(s, a) && (t == AfterVmDelete(s, a) || t == AfterDelete(s, a))
  }

  method Perform(session: Session, op: Op)
    requires FreshIds(session.server)
    modifies session
    ensures Effect(old(session.server), op, session.server)
  {
    match op
    case OpCreateZvol(a) => var _ := session.CreateZvol(a);
    case OpCreateVm(config) => var _ := session.CreateVm(config);
    case OpAttach(vm, spec) => var _ := session.Attach(vm, spec);
    case OpSetRunning(ref, running) => var _ := session.SetRunning(ref, running);
    case OpDelete(a) => var _ := session.Delete(a);
  }

  ghost predicate DistinctVms(vms: seq<Vm>) {
    vms == [] ||
    (&& (forall v | v in vms[1..] :: v.id != vms[0].id && v.config.name != vms[0].config.name)
     && DistinctVms(vms[1..]))
  }

  /** No VM has two disks of one path or two NICs of one case-folded MAC. */
  ghost predicate DistinctDevices(devices: seq<Device>) {
    devices == [] ||
    (&& (forall d | d in devices[1..] :: !(d.vm == devices[0].vm && SameDevice(d.spec, devices[0].spec)))
     && DistinctDevices(devices[1..]))
  }

  /** Ids, names, disk paths and case-folded MACs are unique, and every id was handed out by the host. */
  ghost predicate Unique(s: Server) {
    && FreshIds(s)
    && (forall d | d in s.devices :: d.vm < s.nextVm)
    && DistinctVms(s.vms)
    && DistinctDevices(s.devices)
  }

  /** No two VMs share an id or a name; no two devices of one VM share a path, or a MAC up to case. */
  ghost predicate NoTwins(s: Server) {
    && (forall i, j | 0 <= i < j < |s.vms| ::
          s.vms[i].id != s.vms[j].id && s.vms[i].config.name != s.vms[j].config.name)
    && (forall i, j | 0 <= i < j < |s.devices| && s.devices[i].vm == s.devices[j].vm ::
          !Alike(s.devices[i].spec, s.devices[j].spec))
  }

  lemma {:induction false} DistinctVmsExactly(vms: seq<Vm>)
    ensures DistinctVms(vms) <==> forall i, j | 0 <= i < j < |vms| ::
                                    vms[i].id != vms[j].id && vms[i].config.name != vms[j].config.name
  {
    if vms != [] {
      DistinctVmsExactly(vms[1..]);
      assert forall j | 1 <= j < |vms| :: vms[j] == vms[1..][j - 1];
    }
  }

  lemma {:induction false} DistinctDevicesExactly(devices: seq<Device>)
    ensures DistinctDevices(devices) <==> forall i, j | 0 <= i < j < |devices| && devices[i].vm == devices[j].vm ::
                                            !Alike(devices[i].spec, devices[j].spec)
  {
    if devices != [] {
      DistinctDevicesExactly(devices[1..]);
      forall j | 1 <= j < |devices|
        ensures devices[j] == devices[1..][j - 1]
        ensures SameDevice(devices[j].spec, devices[0].spec) <==> Alike(devices[0].spec, devices[j].spec)
      {
        SameDeviceExactly(devices[j].spec, devices[0].spec);
      }
    }
  }

  lemma UniqueExactly(s: Server)
    ensures Unique(s) <==> FreshIds(s) && (forall d | d in s.devices :: d.vm < s.nextVm) && NoTwins(s)
  {
    DistinctVmsExactly(s.vms);
    DistinctDevicesExactly(s.devices);
  }

  lemma {:induction false} DistinctVmsAppend(vms: seq<Vm>, v: Vm)
    requires DistinctVms(vms) && forall u | u in vms :: u.id != v.id && u.config.name != v.config.name
    ensures DistinctVms(vms + [v])
  {
    if vms != [] {
      assert (vms + [v])[1..] == vms[1..] + [v];
      DistinctVmsAppend(vms[1..], v);
    }
  }

  lemma {:induction false} DistinctDevicesAppend(devices: seq<Device>, d: Device)
    requires DistinctDevices(devices) && forall e | e in devices :: !(e.vm == d.vm && SameDevice(e.spec, d.spec))
    ensures DistinctDevices(devices + [d])
  {
    if devices != [] {
      assert (devices + [d])[1..] == devices[1..] + [d];
      DistinctDevicesAppend(devices[1..], d);
    }
  }

  lemma {:induction false} RunningKeepsDistinct(vms: seq<Vm>, id: nat, running: bool)
    requires DistinctVms(vms)
    ensures DistinctVms(WithRunning(vms, id, running))
    ensures forall v | v in WithRunning(vms, id, running) ::
              exists u :: u in vms && u.id == v.id && u.config == v.config
  {
    if vms != [] {
      RunningKeepsDistinct(vms[1..], id, running);
      assert WithRunning(vms, id, running)[1..] == WithRunning(vms[1..], id, running);
      assert vms == [vms[0]] + vms[1..];
    }
  }

  lemma {:induction false} VmRemoval(vms: seq<Vm>, id: nat)
    ensures forall v :: v in VmsExcept(vms, id) <==> v in vms && v.id != id
    ensures DistinctVms(vms) ==> DistinctVms(VmsExcept(vms, id))
  {
    if vms != [] {
      VmRemoval(vms[1..], id);
      assert vms == [vms[0]] + vms[1..];
    }
  }

  lemma {:induction false} DeviceRemoval(devices: seq<Device>, id: nat)
    ensures forall d :: d in DevicesExcept(devices, id) <==> d in devices && d.vm != id
    ensures DistinctDevices(devices) ==> DistinctDevices(DevicesExcept(devices, id))
  {
    if devices != [] {
      DeviceRemoval(devices[1..], id);
      assert devices == [devices[0]] + devices[1..];
    }
  }

  lemma EffectKeepsUnique(s: Server, op: Op, t: Server)
    requires Unique(s) && Effect(s, op, t)
    ensures Unique(t)
  {
    if t != s {
      match op
      case OpCreateZvol(a) =>
      case OpCreateVm(config) =>
        FirstIsHeld(s.vms, IsNamed(config.name));
        DistinctVmsAppend(s.vms, Vm(s.nextVm, StampedConfig(config), false));
      case OpAttach(vm, spec) =>
        FirstIsHeld(s.devices, IsLike(vm, spec));
        DistinctDevicesAppend(s.devices, Device(s.nextDevice, vm, spec));
      case OpSetRunning(ref, running) =>
        RunningKeepsDistinct(s.vms, Resolve(s, ref).value.id, running);
      case OpDelete(a) =>
        ResolvedIsHeld(s, a.ref);
        if Resolve(s, a.ref).Some? {
          VmRemoval(s.vms, Resolve(s, a.ref).value.id);
          DeviceRemoval(s.devices, Resolve(s, a.ref).value.id);
        }
    }
  }

  lemma {:induction false} SameIdSameVm(vms: seq<Vm>, u: Vm, v: Vm)
    requires DistinctVms(vms) && u in vms && v in vms && u.id == v.id
    ensures u == v
  {
    if u in vms[1..] && v in vms[1..] {
      SameIdSameVm(vms[1..], u, v);
    }
  }

  /** `v` is still there with its configuration, and its devices at `s` are still its first devices. */
  ghost predicate Keeps(s: Server, t: Server, v: Vm) {
    && (exists u | u in t.vms :: u.id == v.id && u.config == v.config)
    && DevicesOf(s.devices, v.id) <= DevicesOf(t.devices, v.id)
  }

  ghost predicate Forces(op: Op) {
    op.OpDelete? && op.args.force
  }

  lemma DeleteKeepsUnmarked(s: Server, a: DeleteArgs, t: Server, v: Vm)
    requires Unique(s) && !a.force && !GateRefuses(s, a) && (t == AfterVmDelete(s, a) || t == AfterDelete(s, a))
    requires v in s.vms && !IsSwampManaged(v.config.description)
    ensures Keeps(s, t, v)
  {
    var r := Resolve(s, a.ref);
    if r.Some? {
      ResolvedIsHeld(s, a.ref);
      if r.value.id == v.id {
        SameIdSameVm(s.vms, r.value, v);
      }
      WhereIsHeld(s.vms, NotVm(r.value.id));
      WhereWithin(s.devices, NotOf(r.value.id), IsOf(v.id));
    }
    assert v in t.vms;
  }

  lemma EffectKeepsUnmarked(s: Server, op: Op, t: Server, v: Vm)
    requires Unique(s) && Effect(s, op, t) && !Forces(op)
    requires v in s.vms && !IsSwampManaged(v.config.description)
    ensures Keeps(s, t, v)
  {
    if t != s {
      match op
      case OpCreateZvol(a) =>
      case OpCreateVm(config) => assert v in t.vms;
      case OpAttach(vm, spec) =>
        WhereAppend(s.devices, [Device(s.nextDevice, vm, spec)], IsOf(v.id));
      case OpSetRunning(ref, running) =>
        var i :| 0 <= i < |s.vms| && s.vms[i] == v;
        assert t.vms[i].id == v.id && t.vms[i] in t.vms;
      case OpDelete(a) => DeleteKeepsUnmarked(s, a, t, v);
    }
  }

  /** A sequential run: `states[i + 1]` is what `ops[i]`, failing or not, made of `states[i]`. */
  ghost predicate Run(states: seq<Server>, ops: seq<Op>) {
    && |states| == |ops| + 1
    && forall i | 0 <= i < |ops| :: Effect(states[i], ops[i], states[i + 1])
  }

  lemma {:induction false} RunKeepsUnique(states: seq<Server>, ops: seq<Op>, n: nat)
    requires Run(states, ops) && Unique(states[0]) && n < |states|
    ensures Unique(states[n]) && NoTwins(states[n])
  {
    UniqueExactly(states[n]);
    if n > 0 {
      RunKeepsUnique(states, ops, n - 1);
      assert Effect(states[n - 1], ops[n - 1], states[n]);
      EffectKeepsUnique(states[n - 1], ops[n - 1], states[n]);
    }
  }

  /** No run without `force` removes or reconfigures a VM that lacks the marker. */
  lemma {:induction false} RunKeepsUnmarked(states: seq<Server>, ops: seq<Op>, n: nat, v: Vm)
    requires Run(states, ops) && Unique(states[0]) && n < |states|
    requires forall op | op in ops :: !Forces(op)
    requires v in states[0].vms && !IsSwampManaged(v.config.description)
    ensures Keeps(states[0], states[n], v)
  {
    if n > 0 {
      RunKeepsUnmarked(states, ops, n - 1, v);
      RunKeepsUnique(states, ops, n - 1);
      var u :| u in states[n - 1].vms && u.id == v.id && u.config == v.config;
      assert Effect(states[n - 1], ops[n - 1], states[n]);
      EffectKeepsUnmarked(states[n - 1], ops[n - 1], states[n], u);
    }
  }

  /** Every VM that the host numbered from `first` on carries the marker. */
  ghost predicate MarkedFrom(s: Server, first: nat) {
    first <= s.nextVm && forall v | v in s.vms && v.id >= first :: IsSwampManaged(v.config.description)
  }

  lemma EffectKeepsMarked(s: Server, op: Op, t: Server, first: nat)
    requires MarkedFrom(s, first) && Effect(s, op, t)
    ensures MarkedFrom(t, first)
  {
    if t != s {
      match op
      case OpCreateZvol(a) =>
      case OpCreateVm(config) => MarkerIsStamped(config.description);
      case OpAttach(vm, spec) =>
      case OpSetRunning(ref, running) =>
      case OpDelete(a) =>
        if Resolve(s, a.ref).Some? {
          ResolvedIsHeld(s, a.ref);
          WhereIsHeld(s.vms, NotVm(Resolve(s, a.ref).value.id));
        }
    }
  }

  /**
   * Whatever the descriptions were, at every later point of a run every VM that the run made
   * passes the gate, by whichever reference it is named.
   */
  lemma {:induction false} CreatedVmsPassGate(states: seq<Server>, ops: seq<Op>, n: nat)
    requires Run(states, ops) && FreshIds(states[0]) && n < |states|
    ensures MarkedFrom(states[n], states[0].nextVm)
    ensures forall a: DeleteArgs ::
              var vm := Resolve(states[n], a.ref);
              vm.Some? && vm.value.id >= states[0].nextVm ==> !GateRefuses(states[n], a)
  {
    if n > 0 {
      CreatedVmsPassGate(states, ops, n - 1);
      assert Effect(states[n - 1], ops[n - 1], states[n]);
      EffectKeepsMarked(states[n - 1], ops[n - 1], states[n], states[0].nextVm);
    }
    forall a: DeleteArgs | Resolve(states[n], a.ref).Some? && Resolve(states[n], a.ref).value.id >= states[0].nextVm
      ensures !GateRefuses(states[n], a)
    {
      ResolvedIsHeld(states[n], a.ref);
    }
  }

  // ---------- Create and delete are inverse, and what the gate does not cover ----------

  lemma CreatedVmResolves(s: Server, config: VmConfig)
    requires FirstNamed(s.vms, config.name).None?
    ensures Resolve(EnsureVm(s, config), ByName(config.name)) == Some(Vm(s.nextVm, StampedConfig(config), false))
  {
    FirstAppend(s.vms, Vm(s.nextVm, StampedConfig(config), false), IsNamed(config.name));
  }

  /** Removing the last VM appended, when no device is attached to it, undoes the append. */
  lemma NewVmRemoval(s: Server, vm: Vm, zvols: bool)
    requires (forall v | v in s.vms :: v.id != vm.id) && (forall d | d in s.devices :: d.vm != vm.id)
    ensures Serve(s.(vms := s.vms + [vm]), VmDelete(vm.id, zvols)).0 == s
  {
    WhereAppend(s.vms, [vm], NotVm(vm.id));
    WhereAll(s.vms, NotVm(vm.id));
    WhereNone([vm], NotVm(vm.id));
    WhereAll(s.devices, NotOf(vm.id));
    assert BackingDatasets(s.devices, vm.id) == {};
    WhereAll(s.datasets, NotIn({}));
    assert vm in s.vms + [vm];
  }

  /** Deleting a VM that was just created leaves only the id counter changed. */
  lemma DeleteUndoesCreate(s: Server, config: VmConfig, a: DeleteArgs)
    requires Unique(s) && FirstNamed(s.vms, config.name).None?
    requires a.ref == ByName(config.name) && DanglingDataset(a).None?
    ensures AfterDelete(EnsureVm(s, config), a) == s.(nextVm := s.nextVm + 1)
  {
    CreatedVmResolves(s, config);
    NewVmRemoval(s.(nextVm := s.nextVm + 1), Vm(s.nextVm, StampedConfig(config), false), a.deleteZvol);
  }

  lemma BackingExactly(devices: seq<Device>, vm: nat, dataset: string)
    ensures dataset in BackingDatasets(devices, vm) <==>
            exists d | d in devices :: d.vm == vm && d.spec.Disk? && Names(d.spec.path, dataset)
  {
    forall d | d in devices && d.spec.Disk?
      ensures DatasetFromDevPath(d.spec.path) == Some(dataset) <==> Names(d.spec.path, dataset)
    {
      PathNamesDataset(d.spec.path, dataset);
    }
  }

  /**
   * The gate guards the VM record, not its disk. A `delete` that the gate lets through keeps the
   * dataset `d` unless `deleteZvol` is set and `d` is behind a disk of the deleted VM or is the one
   * that `zvolPath` names; no marker is consulted for it.
   */
  lemma DeleteKeepsDataset(s: Server, a: DeleteArgs, d: Dataset)
    requires d in s.datasets && !GateRefuses(s, a)
    ensures d in AfterDelete(s, a).datasets <==>
            !a.deleteZvol ||
            (&& !(exists x | x in s.devices ::
                    Resolve(s, a.ref).Some? && x.vm == Resolve(s, a.ref).value.id
                    && x.spec.Disk? && Names(x.spec.path, d.id))
             && !(a.zvolPath.Some? && Names(a.zvolPath.value, d.id)))
  {
    ResolvedIsHeld(s, a.ref);
    var t := AfterVmDelete(s, a);
    if Resolve(s, a.ref).Some? {
      var id := Resolve(s, a.ref).value.id;
      WhereIsHeld(s.datasets, NotIn(BackingDatasets(s.devices, id)));
      BackingExactly(s.devices, id, d.id);
    }
    if a.zvolPath.Some? {
      PathNamesDataset(a.zvolPath.value, d.id);
    }
    if DanglingDataset(a).Some? {
      WhereIsHeld(t.datasets, NotIn({DanglingDataset(a).value}));
    }
  }

  const HAND_MADE := Vm(1, VmConfig("db", 2, 2048, UEFI, true, None, Some("by hand")), true)

  const DISK_OF_IT := Dataset("Main/db", "Main/db", Some(1), true, None)

  const HOST_OF_IT := Server([DISK_OF_IT], [HAND_MADE], [Device(1, 1, Disk("/dev/zvol/Main/db", VirtioBus, None))],
                             2, 2, true, true)

  const STRAY_DELETE := DeleteArgs(ByName("gone"), true, Some("/dev/zvol/Main/db"), false)

  lemma StrayDeleteTakesTheDisk()
    ensures Resolve(HOST_OF_IT, STRAY_DELETE.ref).None?
    ensures AfterDelete(HOST_OF_IT, STRAY_DELETE).vms == [HAND_MADE]
    ensures AfterDelete(HOST_OF_IT, STRAY_DELETE).datasets == []
  {
    PathNamesDataset("/dev/zvol/Main/db", "Main/db");
    assert FirstNamed([HAND_MADE], "gone") == FirstNamed([HAND_MADE][1..], "gone");
    assert AfterVmDelete(HOST_OF_IT, STRAY_DELETE) == HOST_OF_IT;
    assert DatasetsExcept([DISK_OF_IT], {"Main/db"}) == DatasetsExcept([DISK_OF_IT][1..], {"Main/db"}) == [];
  }

  /** So an unforced delete of a VM that is already gone can take the disk of a hand-managed one. */
  lemma UnmarkedVmCanLoseItsDisk()
    ensures Unique(HOST_OF_IT) && HAND_MADE in HOST_OF_IT.vms && !IsSwampManaged(HAND_MADE.config.description)
    ensures !GateRefuses(HOST_OF_IT, STRAY_DELETE)
    ensures AfterDelete(HOST_OF_IT, STRAY_DELETE).vms == HOST_OF_IT.vms
    ensures DISK_OF_IT in HOST_OF_IT.datasets && AfterDelete(HOST_OF_IT, STRAY_DELETE).datasets == []
  {
    StrayDeleteTakesTheDisk();
  }
}
