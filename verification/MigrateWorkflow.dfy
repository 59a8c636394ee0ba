// The `migrate-vm` workflow: its step graph as a transition system over the source VM, the
// TrueNAS host, the data records the steps leave behind and the offline disk edit. The engine may
// begin any step whose dependencies hold, run steps concurrently, skip a pending step, and fail a
// running one before or after its effect.

module MigrateWorkflow {
  import opened Wrappers
  import opened Records
  import opened TrueNasServer
  import opened Provisioning
  import opened ProvisioningRuns

  datatype Step =
    | Inspect | AgentCheck | CreateZvol | PrepAgent | Approve | Shutdown | Stream | CreateVm
    | AttachDisk | AttachNic | PrepOffline | Start | VerifyReach | VerifyOmni | DnsFlip

  predicate AllowFailure(step: Step) {
    step in {AgentCheck, PrepAgent, PrepOffline, VerifyReach, VerifyOmni, DnsFlip}
  }

  /**
   * What a transfer was like: in direct mode or not, the count that it reported, the bytes that the
   * reader read, and the bytes that the writer wrote.
   */
  datatype Copy = Copy(direct: bool, claimed: nat, read: nat, written: nat)

  const NO_COPY := Copy(false, 0, 0, 0)

  datatype Status = Pending | Running | Succeeded | Failed | Skipped

  datatype Event =
    | Begin(step: Step)
    | Act(step: Step, copy: Copy)
    | Succeed(step: Step, existed: bool)
    | Fail(step: Step)
    | Skip(step: Step)
    | EditorExits

  // ---------- The engine: how far each step has come ----------

  /** `acted` holds the steps whose action has taken effect. */
  datatype Progress = Progress(status: map<Step, Status>, acted: set<Step>)

  function StatusOf(p: Progress, step: Step): Status {
    if step in p.status then p.status[step] else Pending
  }

  predicate DidSucceed(p: Progress, step: Step) {
    StatusOf(p, step) == Succeeded
  }

  /** The `completed` condition: the step is over, however it ended. */
  predicate Over(p: Progress, step: Step) {
    StatusOf(p, step) == Succeeded || StatusOf(p, step) == Failed || StatusOf(p, step) == Skipped
  }

  predicate Began(p: Progress, step: Step) {
    StatusOf(p, step) == Running || StatusOf(p, step) == Succeeded || StatusOf(p, step) == Failed
  }

  /** The `dependsOn` clauses of the step. */
  predicate MayBegin(p: Progress, step: Step) {
    match step
    case Inspect => true
    case AgentCheck => DidSucceed(p, Inspect)
    case CreateZvol => DidSucceed(p, Inspect)
    case PrepAgent => Over(p, AgentCheck)
    case Approve => DidSucceed(p, CreateZvol) && Over(p, PrepAgent)
    case Shutdown => DidSucceed(p, Approve)
    case Stream => DidSucceed(p, Shutdown)
    case CreateVm => DidSucceed(p, Stream)
    case AttachDisk => DidSucceed(p, CreateVm)
    case AttachNic => DidSucceed(p, CreateVm)
    case PrepOffline => DidSucceed(p, AttachDisk) && Over(p, PrepAgent)
    case Start => DidSucceed(p, AttachDisk) && DidSucceed(p, AttachNic) && Over(p, PrepOffline)
    case VerifyReach => DidSucceed(p, Start)
    case VerifyOmni => DidSucceed(p, VerifyReach)
    case DnsFlip => DidSucceed(p, VerifyReach)
  }

  predicate MayAdvance(p: Progress, e: Event) {
    match e
    case Begin(step) => StatusOf(p, step) == Pending && MayBegin(p, step)
    case Act(step, _) => StatusOf(p, step) == Running && step !in p.acted
    case Succeed(step, _) => StatusOf(p, step) == Running && step in p.acted
    case Fail(step) => StatusOf(p, step) == Running
    case Skip(step) => StatusOf(p, step) == Pending
    case EditorExits => true
  }

  function WithStatus(p: Progress, step: Step, status: Status): (q: Progress)
    ensures q.acted == p.acted
    ensures forall other :: StatusOf(q, other) == if other == step then status else StatusOf(p, other)
  {
    p.(status := p.status[step := status])
  }

  function Advance(p: Progress, e: Event): Progress {
    match e
    case Begin(step) => WithStatus(p, step, Running)
    case Act(step, _) => p.(acted := p.acted + {step})
    case Succeed(step, _) => WithStatus(p, step, Succeeded)
    case Fail(step) => WithStatus(p, step, Failed)
    case Skip(step) => WithStatus(p, step, Skipped)
    case EditorExits => p
  }

  /** A step that began may begin, one that succeeded has acted, and one that acted has begun. */
  ghost predicate Ordered(p: Progress) {
    && (forall step :: Began(p, step) ==> MayBegin(p, step))
    && (forall step :: DidSucceed(p, step) ==> step in p.acted)
    && (forall step :: step in p.acted ==> Began(p, step))
  }

  lemma AdvanceIsMonotone(p: Progress, e: Event)
    requires MayAdvance(p, e)
    ensures var q := Advance(p, e);
            forall step :: (DidSucceed(p, step) ==> DidSucceed(q, step)) && (Over(p, step) ==> Over(q, step))
                           && (Began(p, step) ==> Began(q, step))
  {
  }

  lemma MayBeginIsMonotone(p: Progress, q: Progress, step: Step)
    requires forall s :: (DidSucceed(p, s) ==> DidSucceed(q, s)) && (Over(p, s) ==> Over(q, s))
    requires MayBegin(p, step)
    ensures MayBegin(q, step)
  {
  }

  lemma OrderedStep(p: Progress, e: Event)
    requires Ordered(p) && MayAdvance(p, e)
    ensures Ordered(Advance(p, e))
  {
    var q := Advance(p, e);
    AdvanceIsMonotone(p, e);
    forall step | Began(q, step)
      ensures MayBegin(q, step)
    {
      assert MayBegin(p, step);
      MayBeginIsMonotone(p, q, step);
    }
  }

  /** Successes that a begun step rests on, unfolded along the dependency chain. */
  lemma ChainBehind(p: Progress)
    requires Ordered(p)
    ensures Began(p, Shutdown) ==> DidSucceed(p, Approve) && DidSucceed(p, CreateZvol) && Over(p, PrepAgent)
    ensures Began(p, Stream) ==> Shutdown in p.acted && DidSucceed(p, Shutdown) && DidSucceed(p, CreateZvol)
    ensures Began(p, CreateVm) ==> DidSucceed(p, Stream) && DidSucceed(p, CreateZvol)
    ensures Began(p, AttachDisk) || Began(p, AttachNic) || Began(p, Start) ==>
              CreateVm in p.acted && DidSucceed(p, CreateVm) && DidSucceed(p, Stream) && DidSucceed(p, CreateZvol)
    ensures Began(p, Start) ==>
              DidSucceed(p, AttachDisk) && DidSucceed(p, AttachNic) && Over(p, PrepOffline)
              && AttachDisk in p.acted && AttachNic in p.acted
  {
    assert forall step :: DidSucceed(p, step) ==> Began(p, step) && MayBegin(p, step) && step in p.acted;
  }

  // ---------- The world the steps act on ----------

  datatype Copied = Copied(dest: string, copy: Copy)

  /** The workflow's inputs and the inspected spec, as far as they reach the modelled state. */
  datatype Inputs = Inputs(
    zvol: ZvolArgs, vm: VmConfig, bus: Bus, mac: string, bridge: string, model: NicModel, blockBytes: nat)

  /**
   * `zvolData` and `vmData` are what `data.latest` returns for the two TrueNAS records; they
   * outlive a run. `copied` is the transfer made and where to, `editing` says that an editor is at
   * work on the streamed disk.
   */
  datatype World = World(
    progress: Progress, sourceRunning: bool, copied: Option<Copied>, editing: bool,
    server: Server, zvolData: Option<Zvol>, vmData: Option<Vm>)

  /** `bytesVerified`: enough bytes, or a shortfall of less than one block. */
  predicate BytesVerified(written: nat, expected: nat, blockBytes: nat) {
    written >= expected || expected - written < blockBytes
  }

  /** A count verifies exactly when not one whole block is missing. */
  lemma VerifiedExactly(written: nat, expected: nat, blockBytes: nat)
    requires blockBytes > 0
    ensures BytesVerified(written, expected, blockBytes) <==>
            (if written < expected then expected - written else 0) / blockBytes == 0
  {
  }

  /** The transfer reported what `dd` printed: in direct mode the larger of both counts, else the writer's. */
  predicate Honest(c: Copy) {
    c.claimed == if c.direct && c.read > c.written then c.read else c.written
  }

  /** The count is the writer's own: no reader beside it counted more. */
  predicate WritersCount(c: Copy) {
    !c.direct || c.read <= c.written
  }

  /** The reported count verifies, and with it the bytes written where that count is the writer's. */
  predicate Verified(inputs: Inputs, c: Copy, size: nat) {
    && BytesVerified(c.claimed, size, inputs.blockBytes)
    && (Honest(c) && WritersCount(c) ==> BytesVerified(c.written, size, inputs.blockBytes))
  }

  /**
   * Acceptance of a count means that the bytes written verify, for every expected size and block, if
   * and only if no reader's count beside the writer's was larger.
   */
  lemma WrittenVerifiesExactly(c: Copy)
    requires Honest(c)
    ensures (forall expected, block | BytesVerified(c.claimed, expected, block) ::
               BytesVerified(c.written, expected, block)) <==>
            WritersCount(c)
  {
    if !WritersCount(c) {
      assert BytesVerified(c.claimed, c.read, 1) && !BytesVerified(c.written, c.read, 1);
    }
  }

  function TargetName(inputs: Inputs): string {
    inputs.vm.name
  }

  function DiskSpec(inputs: Inputs, z: Zvol): DeviceSpec {
    Disk(z.devPath, inputs.bus, None)
  }

  function NicSpec(inputs: Inputs): DeviceSpec {
    Nic(inputs.mac, inputs.bridge, inputs.model)
  }

  predicate CanAttach(s: Server, vm: nat, spec: DeviceSpec) {
    HasVm(s, vm) || FirstDevice(s.devices, vm, spec).Some?
  }

  /** Whether the step's action can take effect now; the record it reads must exist. */
  predicate CanAct(inputs: Inputs, w: World, step: Step) {
    match step
    case CreateZvol => !ZvolTooSmall(w.server, inputs.zvol)
    case Stream => w.zvolData.Some?
    case AttachDisk => w.vmData.Some? && w.zvolData.Some? &&
                       CanAttach(w.server, w.vmData.value.id, DiskSpec(inputs, w.zvolData.value))
    case AttachNic => w.vmData.Some? && CanAttach(w.server, w.vmData.value.id, NicSpec(inputs))
    case Start => w.vmData.Some? && HasVm(w.server, w.vmData.value.id)
    case _ => true
  }

  function Acted(inputs: Inputs, w: World, step: Step, copy: Copy): World
    requires CanAct(inputs, w, step)
  {
    match step
    case CreateZvol => w.(server := EnsureZvol(w.server, inputs.zvol))
    case Shutdown => w.(sourceRunning := false)
    case Stream => w.(copied := Some(Copied(w.zvolData.value.devPath, copy)))
    case CreateVm => w.(server := EnsureVm(w.server, inputs.vm))
    case AttachDisk => w.(server := EnsureDevice(w.server, w.vmData.value.id, DiskSpec(inputs, w.zvolData.value)))
    case AttachNic => w.(server := EnsureDevice(w.server, w.vmData.value.id, NicSpec(inputs)))
    case PrepOffline => w.(editing := true)
    case Start => w.(server := w.server.(vms := WithRunning(w.server.vms, w.vmData.value.id, true)))
    case _ => w
  }

  /** What a step needs to report success beyond having acted. */
  predicate CanSucceed(inputs: Inputs, w: World, step: Step) {
    match step
    case Stream => w.copied.Some? && w.zvolData.Some?
                   && BytesVerified(w.copied.value.copy.claimed, w.zvolData.value.sizeBytes, inputs.blockBytes)
    case PrepOffline => !w.editing
    case CreateVm => FirstNamed(w.server.vms, TargetName(inputs)).Some?
    case _ => true
  }

  function Recorded(inputs: Inputs, w: World, step: Step, existed: bool): World {
    match step
    case CreateZvol => w.(zvolData := Some(ZvolRecord(w.server, inputs.zvol).(existed := existed)))
    case CreateVm => w.(vmData := FirstNamed(w.server.vms, TargetName(inputs)))
    case _ => w
  }

  predicate Enabled(inputs: Inputs, w: World, e: Event) {
    && MayAdvance(w.progress, e)
    && match e
       case Act(step, copy) => CanAct(inputs, w, step)
       case Succeed(step, existed) => CanSucceed(inputs, w, step)
       case EditorExits => w.editing
       case _ => true
  }

  function Worked(inputs: Inputs, w: World, e: Event): World
    requires Enabled(inputs, w, e)
  {
    match e
    case Act(step, copy) => Acted(inputs, w, step, copy)
    case Succeed(step, existed) => Recorded(inputs, w, step, existed)
    case EditorExits => w.(editing := false)
    case _ => w
  }

  function Next(inputs: Inputs, w: World, e: Event): World
    requires Enabled(inputs, w, e)
  {
    Worked(inputs, w, e).(progress := Advance(w.progress, e))
  }

  /** The ids of VMs, and of the VMs that devices are on, are below the host's counter. */
  ghost predicate IdsAreHandedOut(s: Server) {
    FreshIds(s) && forall d | d in s.devices :: d.vm < s.nextVm
  }

  ghost predicate Initial(inputs: Inputs, w: World) {
    && w.progress == Progress(map[], {}) && w.copied == None && !w.editing
    && IdsAreHandedOut(w.server)
    && FirstNamed(w.server.vms, TargetName(inputs)).None?
  }

  /** `worlds[i + 1]` is what `events[i]` made of `worlds[i]`. */
  ghost predicate Path(inputs: Inputs, worlds: seq<World>, events: seq<Event>) {
    && |worlds| == |events| + 1
    && forall i | 0 <= i < |events| ::
         Enabled(inputs, worlds[i], events[i]) && worlds[i + 1] == Next(inputs, worlds[i], events[i])
  }

  ghost predicate WorkflowRun(inputs: Inputs, worlds: seq<World>, events: seq<Event>) {
    Path(inputs, worlds, events) && Initial(inputs, worlds[0])
  }

  // ---------- What the running system must never violate ----------

  ghost predicate TargetRuns(inputs: Inputs, w: World) {
    exists v | v in w.server.vms :: v.config.name == TargetName(inputs) && v.running
  }

  ghost predicate HasDevice(s: Server, vm: nat, spec: DeviceSpec) {
    FirstDevice(s.devices, vm, spec).Some?
  }

  /** The VM runs with the configuration asked for, the description apart. */
  ghost predicate RunsAsConfigured(s: Server, vm: nat, config: VmConfig) {
    exists v | v in s.vms :: v.id == vm && v.running && v.config == config.(description := v.config.description)
  }

  ghost predicate HasExactly(s: Server, vm: nat, spec: DeviceSpec) {
    exists d | d in s.devices :: d.vm == vm && d.spec == spec
  }

  ghost predicate Safe(inputs: Inputs, w: World) {
    TargetRuns(inputs, w) ==>
      && StatusOf(w.progress, Approve) == Succeeded
      && StatusOf(w.progress, Shutdown) == Succeeded && !w.sourceRunning
      && StatusOf(w.progress, Stream) == Succeeded && w.copied.Some? && w.zvolData.Some? && w.vmData.Some?
      && Verified(inputs, w.copied.value.copy, w.zvolData.value.sizeBytes)
      && RunsAsConfigured(w.server, w.vmData.value.id, inputs.vm)
      && HasExactly(w.server, w.vmData.value.id, Disk(w.copied.value.dest, inputs.bus, None))
      && HasExactly(w.server, w.vmData.value.id, Nic(inputs.mac, inputs.bridge, inputs.model))
      && (w.editing ==> StatusOf(w.progress, PrepOffline) == Failed)
  }

  /** The disk is read only from a source that is powered off. */
  ghost predicate StreamReadsPoweredOff(w: World) {
    StatusOf(w.progress, Stream) in {Running, Succeeded, Failed} ==> !w.sourceRunning
  }

  // ---------- The invariant ----------

  ghost predicate SourceAndEditor(w: World) {
    && (Shutdown in w.progress.acted ==> !w.sourceRunning)
    && (w.editing ==> StatusOf(w.progress, PrepOffline) == Running || StatusOf(w.progress, PrepOffline) == Failed)
  }

  ghost predicate Remembered(inputs: Inputs, w0: World, w: World) {
    && (StatusOf(w.progress, CreateZvol) == Succeeded ==>
          w.zvolData.Some? && w.zvolData.value.devPath == ZvolDevPath(FullName(inputs.zvol)))
    && (StatusOf(w.progress, CreateZvol) != Succeeded ==> w.zvolData == w0.zvolData)
    && (StatusOf(w.progress, CreateVm) == Succeeded ==> w.vmData.Some? && w.vmData.value.id == w0.server.nextVm)
    && (Stream in w.progress.acted ==>
          w.copied.Some? && w.zvolData.Some? && w.copied.value.dest == w.zvolData.value.devPath)
    && (StatusOf(w.progress, Stream) == Succeeded ==>
          w.copied.Some? && w.zvolData.Some?
          && BytesVerified(w.copied.value.copy.claimed, w.zvolData.value.sizeBytes, inputs.blockBytes))
  }

  ghost predicate GrownVms(inputs: Inputs, s0: Server, w: World) {
    && w.server.vms == (if CreateVm in w.progress.acted
                        then s0.vms + [Vm(s0.nextVm, StampedConfig(inputs.vm), Start in w.progress.acted)] else s0.vms)
    && w.server.nextVm == (if CreateVm in w.progress.acted then s0.nextVm + 1 else s0.nextVm)
  }

  ghost predicate GrownDatasets(inputs: Inputs, s0: Server, w: World) {
    w.server.datasets == if CreateZvol in w.progress.acted then EnsureZvol(s0, inputs.zvol).datasets else s0.datasets
  }

  /** Devices are only appended, all on the new VM: the new volume's disk and the NIC. */
  ghost predicate GrownDevices(inputs: Inputs, s0: Server, w: World) {
    && s0.devices <= w.server.devices
    && (|s0.devices| < |w.server.devices| ==> Began(w.progress, AttachDisk) || Began(w.progress, AttachNic))
    && (forall i | |s0.devices| <= i < |w.server.devices| ::
          && w.server.devices[i].vm == s0.nextVm
          && (|| w.server.devices[i].spec == Disk(ZvolDevPath(FullName(inputs.zvol)), inputs.bus, None)
              || w.server.devices[i].spec == Nic(inputs.mac, inputs.bridge, inputs.model)))
    && (AttachDisk in w.progress.acted ==>
          w.zvolData.Some? && HasDevice(w.server, s0.nextVm, DiskSpec(inputs, w.zvolData.value)))
    && (AttachNic in w.progress.acted ==> HasDevice(w.server, s0.nextVm, NicSpec(inputs)))
  }

  ghost predicate Invariant(inputs: Inputs, w0: World, w: World) {
    && Ordered(w.progress) && SourceAndEditor(w) && Remembered(inputs, w0, w)
    && GrownVms(inputs, w0.server, w) && GrownDatasets(inputs, w0.server, w) && GrownDevices(inputs, w0.server, w)
  }

  /** Each action touches one thing at most. */
  lemma ActedFrame(inputs: Inputs, w: World, step: Step, copy: Copy)
    requires CanAct(inputs, w, step)
    ensures var t := Acted(inputs, w, step, copy);
            && t.progress == w.progress && t.zvolData == w.zvolData && t.vmData == w.vmData
            && (step != CreateZvol ==> t.server.datasets == w.server.datasets)
            && (step != CreateVm && step != Start ==>
                  t.server.vms == w.server.vms && t.server.nextVm == w.server.nextVm)
            && (step != AttachDisk && step != AttachNic ==> t.server.devices == w.server.devices)
            && (step != Stream ==> t.copied == w.copied)
            && (t.sourceRunning ==> w.sourceRunning)
            && t.editing == (w.editing || step == PrepOffline)
  {
  }

  /** Each event touches one thing at most. */
  lemma EventFrame(inputs: Inputs, w: World, e: Event)
    requires Enabled(inputs, w, e)
    ensures var t := Next(inputs, w, e);
            && t.progress == Advance(w.progress, e)
            && (e.Act? ==> t == Acted(inputs, w, e.step, e.copy).(progress := t.progress))
            && (e.Succeed? ==> t == Recorded(inputs, w, e.step, e.existed).(progress := t.progress))
            && (!e.Act? ==> t.server == w.server && t.copied == w.copied && t.sourceRunning == w.sourceRunning)
            && (!e.Succeed? ==> t.zvolData == w.zvolData && t.vmData == w.vmData)
            && (e.Succeed? && e.step != CreateZvol ==> t.zvolData == w.zvolData)
            && (e.Succeed? && e.step != CreateVm ==> t.vmData == w.vmData)
            && (t.sourceRunning ==> w.sourceRunning)
            && t.editing == (if e.Act? && e.step == PrepOffline then true
                             else if e.EditorExits? then false else w.editing)
  {
    if e.Act? {
      ActedFrame(inputs, w, e.step, e.copy);
    }
  }

  lemma RememberedStep(inputs: Inputs, w0: World, w: World, e: Event)
    requires Initial(inputs, w0) && Enabled(inputs, w, e)
    requires Ordered(w.progress) && Remembered(inputs, w0, w) && GrownVms(inputs, w0.server, w)
    ensures Remembered(inputs, w0, Next(inputs, w, e))
  {
    ChainBehind(w.progress);
    EventFrame(inputs, w, e);
    if e.Act? {
      ActedFrame(inputs, w, e.step, e.copy);
    }
    if e.Succeed? && e.step == CreateVm {
      var vm := Vm(w0.server.nextVm, StampedConfig(inputs.vm), Start in w.progress.acted);
      FirstAppend(w0.server.vms, vm, IsNamed(TargetName(inputs)));
    }
  }

  lemma StartedVm(vms: seq<Vm>, vm: Vm)
    requires (forall v | v in vms :: v.id != vm.id) && !vm.running
    ensures WithRunning(vms + [vm], vm.id, true) == vms + [vm.(running := true)]
  {
    assert forall i | 0 <= i < |vms| :: vms[i] in vms;
  }

  lemma VmsStep(inputs: Inputs, w0: World, w: World, e: Event)
    requires Initial(inputs, w0) && Enabled(inputs, w, e)
    requires Ordered(w.progress) && Remembered(inputs, w0, w) && GrownVms(inputs, w0.server, w)
    ensures GrownVms(inputs, w0.server, Next(inputs, w, e))
  {
    ChainBehind(w.progress);
    EventFrame(inputs, w, e);
    if e.Act? {
      ActedFrame(inputs, w, e.step, e.copy);
      if e.step == Start {
        StartedVm(w0.server.vms, Vm(w0.server.nextVm, StampedConfig(inputs.vm), false));
      }
    }
  }

  lemma DatasetsStep(inputs: Inputs, w0: World, w: World, e: Event)
    requires Enabled(inputs, w, e) && GrownDatasets(inputs, w0.server, w)
    ensures GrownDatasets(inputs, w0.server, Next(inputs, w, e))
  {
    EventFrame(inputs, w, e);
    if e.Act? {
      ActedFrame(inputs, w, e.step, e.copy);
    }
  }

  lemma DeviceIsEnsured(s: Server, vm: nat, spec: DeviceSpec)
    ensures var t := EnsureDevice(s, vm, spec);
            && s.devices <= t.devices <= s.devices + [Device(s.nextDevice, vm, spec)]
            && HasDevice(t, vm, spec)
            && forall other | HasDevice(s, vm, other) :: HasDevice(t, vm, other)
  {
    var d := Device(s.nextDevice, vm, spec);
    FirstAppend(s.devices, d, IsLike(vm, spec));
    forall other | HasDevice(s, vm, other)
      ensures HasDevice(s.(devices := s.devices + [d]), vm, other)
    {
      FirstAppend(s.devices, d, IsLike(vm, other));
    }
  }

  lemma DevicesKept(inputs: Inputs, s0: Server, w: World, t: World)
    requires GrownDevices(inputs, s0, w) && t.server.devices == w.server.devices
    requires Began(w.progress, AttachDisk) ==> Began(t.progress, AttachDisk)
    requires Began(w.progress, AttachNic) ==> Began(t.progress, AttachNic)
    requires AttachDisk in t.progress.acted ==> AttachDisk in w.progress.acted && t.zvolData == w.zvolData
    requires AttachNic in t.progress.acted ==> AttachNic in w.progress.acted
    ensures GrownDevices(inputs, s0, t)
  {
  }

  lemma DiskAttached(inputs: Inputs, s0: Server, w: World, t: World)
    requires GrownDevices(inputs, s0, w) && w.zvolData.Some? && t.zvolData == w.zvolData
    requires w.zvolData.value.devPath == ZvolDevPath(FullName(inputs.zvol))
    requires t.server == EnsureDevice(w.server, s0.nextVm, DiskSpec(inputs, w.zvolData.value))
    requires Began(t.progress, AttachDisk) && t.progress.acted == w.progress.acted + {AttachDisk}
    ensures GrownDevices(inputs, s0, t)
  {
    DeviceIsEnsured(w.server, s0.nextVm, DiskSpec(inputs, w.zvolData.value));
  }

  lemma NicAttached(inputs: Inputs, s0: Server, w: World, t: World)
    requires GrownDevices(inputs, s0, w) && t.zvolData == w.zvolData
    requires t.server == EnsureDevice(w.server, s0.nextVm, NicSpec(inputs))
    requires Began(t.progress, AttachNic) && t.progress.acted == w.progress.acted + {AttachNic}
    ensures GrownDevices(inputs, s0, t)
  {
    DeviceIsEnsured(w.server, s0.nextVm, NicSpec(inputs));
  }

  lemma DevicesStep(inputs: Inputs, w0: World, w: World, e: Event)
    requires Enabled(inputs, w, e)
    requires Ordered(w.progress) && Remembered(inputs, w0, w) && GrownDevices(inputs, w0.server, w)
    ensures GrownDevices(inputs, w0.server, Next(inputs, w, e))
  {
    var t := Next(inputs, w, e);
    ChainBehind(w.progress);
    EventFrame(inputs, w, e);
    AdvanceIsMonotone(w.progress, e);
    if e.Act? && e.step == AttachDisk {
      DiskAttached(inputs, w0.server, w, t);
    } else if e.Act? && e.step == AttachNic {
      NicAttached(inputs, w0.server, w, t);
    } else {
      if e.Act? {
        ActedFrame(inputs, w, e.step, e.copy);
      }
      DevicesKept(inputs, w0.server, w, t);
    }
  }

  lemma SourceAndEditorStep(inputs: Inputs, w: World, e: Event)
    requires Enabled(inputs, w, e) && SourceAndEditor(w)
    ensures SourceAndEditor(Next(inputs, w, e))
  {
    EventFrame(inputs, w, e);
  }

  lemma InvariantStep(inputs: Inputs, w0: World, w: World, e: Event)
    requires Initial(inputs, w0) && Invariant(inputs, w0, w) && Enabled(inputs, w, e)
    ensures Invariant(inputs, w0, Next(inputs, w, e))
  {
    var t := Next(inputs, w, e);
    assert Ordered(t.progress) by { OrderedStep(w.progress, e); EventFrame(inputs, w, e); }
    assert SourceAndEditor(t) by { SourceAndEditorStep(inputs, w, e); }
    assert Remembered(inputs, w0, t) by { RememberedStep(inputs, w0, w, e); }
    assert GrownVms(inputs, w0.server, t) by { VmsStep(inputs, w0, w, e); }
    assert GrownDatasets(inputs, w0.server, t) by { DatasetsStep(inputs, w0, w, e); }
    assert GrownDevices(inputs, w0.server, t) by { DevicesStep(inputs, w0, w, e); }
  }

  lemma {:induction false} InvariantHolds(inputs: Inputs, worlds: seq<World>, events: seq<Event>, n: nat)
    requires WorkflowRun(inputs, worlds, events) && n < |worlds|
    ensures Invariant(inputs, worlds[0], worlds[n])
  {
    if n > 0 {
      InvariantHolds(inputs, worlds, events, n - 1);
      InvariantStep(inputs, worlds[0], worlds[n - 1], events[n - 1]);
    } else {
      assert worlds[0].server.devices <= worlds[0].server.devices;
    }
  }

  /** A device like the disk or the NIC asked for, on the new VM, is exactly that one. */
  lemma DeviceIsExact(inputs: Inputs, w0: World, w: World, spec: DeviceSpec)
    requires Initial(inputs, w0) && GrownDevices(inputs, w0.server, w)
    requires HasDevice(w.server, w0.server.nextVm, spec)
    requires spec == Disk(ZvolDevPath(FullName(inputs.zvol)), inputs.bus, None)
             || spec == Nic(inputs.mac, inputs.bridge, inputs.model)
    ensures HasExactly(w.server, w0.server.nextVm, spec)
  {
    var s0, s := w0.server, w.server;
    FirstIsHeld(s.devices, IsLike(s0.nextVm, spec));
    var d := FirstDevice(s.devices, s0.nextVm, spec).value;
    var i :| 0 <= i < |s.devices| && s.devices[i] == d;
  }

  /** Whole-run safety, at every point of every run. */
  lemma MigrationIsSafe(inputs: Inputs, worlds: seq<World>, events: seq<Event>, n: nat)
    requires WorkflowRun(inputs, worlds, events) && n < |worlds|
    ensures Safe(inputs, worlds[n]) && StreamReadsPoweredOff(worlds[n])
    ensures !(worlds[n].sourceRunning && TargetRuns(inputs, worlds[n]))
  {
    var w0, w := worlds[0], worlds[n];
    InvariantHolds(inputs, worlds, events, n);
    ChainBehind(w.progress);
    FirstIsHeld(w0.server.vms, IsNamed(TargetName(inputs)));
    if TargetRuns(inputs, w) {
      assert Start in w.progress.acted;
      assert Began(w.progress, Start) && Began(w.progress, AttachDisk) && Began(w.progress, Shutdown);
      DeviceIsExact(inputs, w0, w, DiskSpec(inputs, w.zvolData.value));
      DeviceIsExact(inputs, w0, w, NicSpec(inputs));
      var vm := Vm(w0.server.nextVm, StampedConfig(inputs.vm), true);
      assert vm in w.server.vms;
    }
  }

  /** No step starts the source again: once it is off it stays off. */
  lemma {:induction false} SourceStaysOff(inputs: Inputs, worlds: seq<World>, events: seq<Event>, m: nat, n: nat)
    requires WorkflowRun(inputs, worlds, events) && m <= n < |worlds| && !worlds[m].sourceRunning
    ensures !worlds[n].sourceRunning
  {
    if m < n {
      SourceStaysOff(inputs, worlds, events, m, n - 1);
      EventFrame(inputs, worlds[n - 1], events[n - 1]);
    }
  }

  // ---------- When an offline edit overlaps the running target ----------

  /** Event `i` ended the offline-edit step over a live editor, and the editor has not exited since. */
  ghost predicate LeftBehindBy(worlds: seq<World>, events: seq<Event>, n: nat, i: nat)
    requires n <= |events| < |worlds|
  {
    && i < n && events[i] == Fail(PrepOffline) && worlds[i].editing
    && forall j | i < j < n :: events[j] != EditorExits
  }

  predicate EditorIsAlone(w: World) {
    w.editing && StatusOf(w.progress, PrepOffline) != Running
  }

  lemma EditorStep(inputs: Inputs, w: World, e: Event)
    requires Enabled(inputs, w, e) && SourceAndEditor(w)
    ensures EditorIsAlone(Next(inputs, w, e)) <==>
            (EditorIsAlone(w) && e != EditorExits) || (e == Fail(PrepOffline) && w.editing)
  {
    EventFrame(inputs, w, e);
  }

  lemma LeftBehindNext(worlds: seq<World>, events: seq<Event>, m: nat, n: nat)
    requires n == m + 1 <= |events| < |worlds|
    ensures (exists i: nat :: LeftBehindBy(worlds, events, n, i)) <==>
            ((exists i: nat :: LeftBehindBy(worlds, events, m, i)) && events[m] != EditorExits)
            || (events[m] == Fail(PrepOffline) && worlds[m].editing)
  {
    if events[m] == Fail(PrepOffline) && worlds[m].editing {
      assert LeftBehindBy(worlds, events, n, m);
    } else if i: nat :| LeftBehindBy(worlds, events, m, i) {
      assert events[m] != EditorExits ==> LeftBehindBy(worlds, events, n, i);
    } else if i: nat :| LeftBehindBy(worlds, events, n, i) {
      assert i < m ==> LeftBehindBy(worlds, events, m, i);
    }
  }

  /**
   * An editor outlives its step exactly when the step failed over it (its ssh timeout kills the
   * local client only) and it has not exited since.
   */
  lemma {:induction false} EditorOutlivesItsStep(inputs: Inputs, worlds: seq<World>, events: seq<Event>, n: nat)
    requires WorkflowRun(inputs, worlds, events) && n < |worlds|
    ensures EditorIsAlone(worlds[n]) <==> exists i: nat :: LeftBehindBy(worlds, events, n, i)
  {
    if n > 0 {
      var m := n - 1;
      EditorOutlivesItsStep(inputs, worlds, events, m);
      InvariantHolds(inputs, worlds, events, m);
      EditorStep(inputs, worlds[m], events[m]);
      LeftBehindNext(worlds, events, m, n);
    }
  }

  lemma TargetRunsOnceStarted(inputs: Inputs, worlds: seq<World>, events: seq<Event>, n: nat)
    requires WorkflowRun(inputs, worlds, events) && n < |worlds|
    ensures TargetRuns(inputs, worlds[n]) <==> Start in worlds[n].progress.acted
  {
    var s0, w := worlds[0].server, worlds[n];
    InvariantHolds(inputs, worlds, events, n);
    ChainBehind(w.progress);
    FirstIsHeld(s0.vms, IsNamed(TargetName(inputs)));
    if Start in w.progress.acted {
      var vm := Vm(s0.nextVm, StampedConfig(inputs.vm), true);
      assert vm in w.server.vms && vm.config.name == TargetName(inputs);
    }
  }

  /**
   * The exact condition: at any point of any run, the target runs while its disk is being edited
   * if and only if it was started and an editor was left behind by its failed step.
   */
  lemma OverlapExactly(inputs: Inputs, worlds: seq<World>, events: seq<Event>, n: nat)
    requires WorkflowRun(inputs, worlds, events) && n < |worlds|
    ensures TargetRuns(inputs, worlds[n]) && worlds[n].editing <==>
            Start in worlds[n].progress.acted && exists i: nat :: LeftBehindBy(worlds, events, n, i)
  {
    TargetRunsOnceStarted(inputs, worlds, events, n);
    EditorOutlivesItsStep(inputs, worlds, events, n);
    InvariantHolds(inputs, worlds, events, n);
    ChainBehind(worlds[n].progress);
  }
}
