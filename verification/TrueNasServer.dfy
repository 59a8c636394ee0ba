// The TrueNAS host as the provisioning model sees it: datasets, libvirt VMs and their devices,
// the two id counters, and the effect of each JSON-RPC request the model issues.

module TrueNasServer {
  import opened Wrappers
  import opened Records
  import opened Text

  datatype Bootloader = UEFI | UEFI_CSM

  datatype Bus = VirtioBus | Ahci

  datatype NicModel = VirtioNic | E1000

  /** `blocksize` is `None` where the pool's default applies. */
  datatype Dataset = Dataset(id: string, name: string, volsize: Option<nat>, sparse: bool, blocksize: Option<string>)

  datatype VmConfig = VmConfig(
    name: string, vcpus: nat, memoryMib: nat, bootloader: Bootloader, autostart: bool,
    cores: Option<nat>, description: Option<string>)

  datatype Vm = Vm(id: nat, config: VmConfig, running: bool)

  datatype DeviceSpec =
    | Disk(path: string, bus: Bus, order: Option<int>)
    | Nic(mac: string, bridge: string, model: NicModel)

  datatype Device = Device(id: nat, vm: nat, spec: DeviceSpec)

  /**
   * `echoesRecord` says whether `vm.create` answers with the record or only with its id, and
   * `refusesDuplicates` whether the host refuses a second VM of a name and a second disk of a path or
   * NIC of a MAC on one VM. The source leaves both open. A second dataset of a name is always refused.
   */
  datatype Server = Server(
    datasets: seq<Dataset>, vms: seq<Vm>, devices: seq<Device>,
    nextVm: nat, nextDevice: nat, echoesRecord: bool, refusesDuplicates: bool)

  datatype Request =
    | DatasetQuery(id: string)
    | DatasetCreate(dataset: Dataset)
    | DatasetDelete(id: string)
    | VmQueryId(vmId: nat)
    | VmQueryName(name: string)
    | VmQueryAll
    | VmCreate(config: VmConfig)
    | VmDelete(vmId: nat, zvols: bool)
    | VmStart(vmId: nat)
    | VmStop(vmId: nat)
    | DeviceQuery(vmId: nat)
    | DeviceCreate(vmId: nat, spec: DeviceSpec)

  datatype Reply =
    | Datasets(datasets: seq<Dataset>)
    | Vms(vms: seq<Vm>)
    | Devices(devices: seq<Device>)
    | CreatedVm(vm: Vm)
    | CreatedId(id: nat)
    | CreatedDevice(device: Device)
    | Done

  // What records are asked for and removed by.

  function IsDataset(id: string): Dataset -> bool {
    (d: Dataset) => d.id == id
  }

  function IsVm(id: nat): Vm -> bool {
    (v: Vm) => v.id == id
  }

  function IsNamed(name: string): Vm -> bool {
    (v: Vm) => v.config.name == name
  }

  function IsOf(vm: nat): Device -> bool {
    (d: Device) => d.vm == vm
  }

  /** Whether `d` is the device that attaching `spec` would create: same path, or same MAC up to case. */
  predicate SameDevice(d: DeviceSpec, spec: DeviceSpec) {
    match spec
    case Disk(path, _, _) => d.Disk? && d.path == path
    case Nic(mac, _, _) => d.Nic? && Lower(d.mac) == Lower(mac)
  }

  /** Two disks of one path, or two NICs of one MAC up to case. */
  predicate Alike(a: DeviceSpec, b: DeviceSpec) {
    (a.Disk? && b.Disk? && a.path == b.path) || (a.Nic? && b.Nic? && UpToCase(a.mac, b.mac))
  }

  lemma SameDeviceExactly(a: DeviceSpec, b: DeviceSpec)
    ensures SameDevice(a, b) <==> Alike(a, b)
  {
    if a.Nic? && b.Nic? {
      FoldingIsUpToCase(a.mac, b.mac);
    }
  }

  function IsSame(spec: DeviceSpec): Device -> bool {
    (d: Device) => SameDevice(d.spec, spec)
  }

  function IsLike(vm: nat, spec: DeviceSpec): Device -> bool {
    (d: Device) => d.vm == vm && SameDevice(d.spec, spec)
  }

  function NotIn(ids: set<string>): Dataset -> bool {
    (d: Dataset) => d.id !in ids
  }

  function NotVm(id: nat): Vm -> bool {
    (v: Vm) => v.id != id
  }

  function NotOf(vm: nat): Device -> bool {
    (d: Device) => d.vm != vm
  }

  function DevicesOf(devices: seq<Device>, vm: nat): seq<Device> {
    Where(devices, IsOf(vm))
  }

  function DatasetsExcept(ds: seq<Dataset>, ids: set<string>): seq<Dataset> {
    Where(ds, NotIn(ids))
  }

  function VmsExcept(vms: seq<Vm>, id: nat): seq<Vm> {
    Where(vms, NotVm(id))
  }

  function DevicesExcept(devices: seq<Device>, vm: nat): seq<Device> {
    Where(devices, NotOf(vm))
  }

  function WithRunning(vms: seq<Vm>, id: nat, running: bool): seq<Vm> {
    seq(|vms|, i requires 0 <= i < |vms| =>
      if vms[i].id == id then vms[i].(running := running) else vms[i])
  }

  const ZVOL_DIR := "/dev/zvol/"

  function ZvolDevPath(dataset: string): string {
    ZVOL_DIR + dataset
  }

  predicate NoLineBreak(s: string) {
    forall i | 0 <= i < |s| ::
      s[i] != '\n' && s[i] != '\r' && s[i] as int != 0x2028 && s[i] as int != 0x2029
  }

  /** The dataset a `/dev/zvol/<pool>/<name>` path stands for (at least one character after the prefix). */
  function DatasetFromDevPath(path: string): Option<string> {
    if |path| > |ZVOL_DIR| && path[..|ZVOL_DIR|] == ZVOL_DIR && NoLineBreak(path[|ZVOL_DIR|..])
    then Some(path[|ZVOL_DIR|..]) else None
  }

  /** What the pattern ^/dev/zvol/(.+)$ says of a path. */
  predicate Names(path: string, dataset: string) {
    path == "/dev/zvol/" + dataset && dataset != "" && NoLineBreak(dataset)
  }

  lemma PathNamesDataset(path: string, dataset: string)
    ensures DatasetFromDevPath(path) == Some(dataset) <==> Names(path, dataset)
  {
    if Names(path, dataset) {
      assert path[..|ZVOL_DIR|] == ZVOL_DIR && path[|ZVOL_DIR|..] == dataset;
    }
    if DatasetFromDevPath(path) == Some(dataset) {
      assert path == path[..|ZVOL_DIR|] + path[|ZVOL_DIR|..];
    }
  }

  /** The datasets that the DISK devices of `vm` are backed by. */
  function BackingDatasets(devices: seq<Device>, vm: nat): set<string> {
    set d | d in devices && d.vm == vm && d.spec.Disk? && DatasetFromDevPath(d.spec.path).Some? ::
      DatasetFromDevPath(d.spec.path).value
  }

  predicate HasVm(s: Server, id: nat) {
    exists v | v in s.vms :: v.id == id
  }

  predicate HasDataset(s: Server, id: string) {
    exists d | d in s.datasets :: d.id == id
  }

  /** What the host does with one request. A request about something that does not exist is refused. */
  function Serve(s: Server, q: Request): (Server, Result<Reply>) {
    match q
    case DatasetQuery(id) => (s, Ok(Datasets(Where(s.datasets, IsDataset(id)))))
    case DatasetCreate(d) =>
      if First(s.datasets, IsDataset(d.id)).Some? then (s, Err("dataset exists"))
      else (s.(datasets := s.datasets + [d]), Ok(Done))
    case DatasetDelete(id) =>
      if HasDataset(s, id) then (s.(datasets := DatasetsExcept(s.datasets, {id})), Ok(Done))
      else (s, Err("no such dataset"))
    case VmQueryId(id) => (s, Ok(Vms(Where(s.vms, IsVm(id)))))
    case VmQueryName(name) => (s, Ok(Vms(Where(s.vms, IsNamed(name)))))
    case VmQueryAll => (s, Ok(Vms(s.vms)))
    case VmCreate(config) =>
      if s.refusesDuplicates && First(s.vms, IsNamed(config.name)).Some? then (s, Err("VM exists"))
      else
        var vm := Vm(s.nextVm, config, false);
        (s.(vms := s.vms + [vm], nextVm := s.nextVm + 1),
         Ok(if s.echoesRecord then CreatedVm(vm) else CreatedId(vm.id)))
    case VmDelete(id, zvols) =>
      if !HasVm(s, id) then (s, Err("no such VM"))
      else
        (s.(datasets := if zvols then DatasetsExcept(s.datasets, BackingDatasets(s.devices, id)) else s.datasets,
            vms := VmsExcept(s.vms, id), devices := DevicesExcept(s.devices, id)),
         Ok(Done))
    case VmStart(id) =>
      if HasVm(s, id) then (s.(vms := WithRunning(s.vms, id, true)), Ok(Done)) else (s, Err("no such VM"))
    case VmStop(id) =>
      if HasVm(s, id) then (s.(vms := WithRunning(s.vms, id, false)), Ok(Done)) else (s, Err("no such VM"))
    case DeviceQuery(id) => (s, Ok(Devices(DevicesOf(s.devices, id))))
    case DeviceCreate(id, spec) =>
      if !HasVm(s, id) then (s, Err("no such VM"))
      else if s.refusesDuplicates && First(s.devices, IsLike(id, spec)).Some? then (s, Err("device exists"))
      else
        var d := Device(s.nextDevice, id, spec);
        (s.(devices := s.devices + [d], nextDevice := s.nextDevice + 1), Ok(CreatedDevice(d)))
  }
}
