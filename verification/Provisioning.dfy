// The provisioning methods: each is a query followed by at most one write over a session that
// may lose any request or any reply. `create_vm` may need a second query for the new record.

module Provisioning {
  import opened Wrappers
  import opened Text
  import opened Records
  import opened TrueNasServer

  const SWAMP_MARKER := "[swamp-managed]"

  /** What the network does to one call: nothing, loses the request, or loses the reply. */
  datatype Fault = Delivered | LostRequest | LostReply

  datatype ZvolArgs = ZvolArgs(pool: string, name: string, bytes: nat, sparse: bool, blocksize: Option<string>)

  datatype Zvol = Zvol(
    fullName: string, sizeBytes: nat, sparse: bool, blocksize: Option<string>, devPath: string, existed: bool)

  datatype DeviceRecord = DeviceRecord(id: nat, existed: bool)

  datatype VmRef = ById(id: nat) | ByName(name: string)

  datatype DeleteArgs = DeleteArgs(ref: VmRef, deleteZvol: bool, zvolPath: Option<string>, force: bool)

  // ---------- The marker ----------

  function DescriptionOf(description: Option<string>): string {
    if description.Some? then description.value else ""
  }

  function WithSwampMarker(description: Option<string>): string {
    var base := Trim(DescriptionOf(description));
    if Contains(base, SWAMP_MARKER) then base
    else if |base| > 0 then base + " " + SWAMP_MARKER
    else SWAMP_MARKER
  }

  predicate IsSwampManaged(description: Option<string>) {
    description.Some? && Contains(description.value, SWAMP_MARKER)
  }

  /** What is added to a text that is already trimmed. */
  function Stamp(base: string): string {
    if Contains(base, SWAMP_MARKER) then "" else if base == "" then SWAMP_MARKER else " " + SWAMP_MARKER
  }

  lemma MarkedAtEnd(front: string)
    ensures Contains(front + SWAMP_MARKER, SWAMP_MARKER)
    ensures (front + SWAMP_MARKER)[|front + SWAMP_MARKER| - 1] == ']'
  {
    assert OccursAt(front + SWAMP_MARKER, |front|, SWAMP_MARKER);
  }

  lemma StampedIsMarked(base: string)
    requires Tight(base)
    ensures Contains(base + Stamp(base), SWAMP_MARKER) && Tight(base + Stamp(base))
  {
    if Contains(base, SWAMP_MARKER) {
      assert base + "" == base;
    } else if base == "" {
      MarkedAtEnd("");
      assert "" + SWAMP_MARKER == SWAMP_MARKER;
    } else {
      MarkedAtEnd(base + " ");
      assert base + (" " + SWAMP_MARKER) == (base + " ") + SWAMP_MARKER;
    }
  }

  lemma StampOnce(text: string)
    requires Tight(text) && Contains(text, SWAMP_MARKER)
    ensures WithSwampMarker(Some(text)) == text
  {
  }

  /**
   * The caller's text, trimmed, stays in front and gets the marker exactly if it lacks it; so the stamped
   * text always carries the marker, and stamping it again changes nothing.
   */
  lemma MarkerIsStamped(description: Option<string>)
    ensures WithSwampMarker(description) == Trim(DescriptionOf(description)) + Stamp(Trim(DescriptionOf(description)))
    ensures IsSwampManaged(Some(WithSwampMarker(description)))
    ensures WithSwampMarker(Some(WithSwampMarker(description))) == WithSwampMarker(description)
  {
    var base := Trim(DescriptionOf(description));
    TrimIsTight(DescriptionOf(description));
    StampedIsMarked(base);
    assert base + (" " + SWAMP_MARKER) == base + " " + SWAMP_MARKER;
    StampOnce(base + Stamp(base));
  }

  function StampedConfig(config: VmConfig): VmConfig {
    config.(description := Some(WithSwampMarker(config.description)))
  }

  // ---------- Lookups ----------

  /** `findDataset` accepts a record by its id or by its name. */
  function AnswersTo(fullName: string): Dataset -> bool {
    (d: Dataset) => d.id == fullName || d.name == fullName
  }

  function FirstDataset(ds: seq<Dataset>, id: string): Option<Dataset> {
    First(ds, IsDataset(id))
  }

  function FirstNamed(vms: seq<Vm>, name: string): Option<Vm> {
    First(vms, IsNamed(name))
  }

  function FirstWithId(vms: seq<Vm>, id: nat): Option<Vm> {
    First(vms, IsVm(id))
  }

  function FirstDevice(devices: seq<Device>, vm: nat, spec: DeviceSpec): Option<Device> {
    First(devices, IsLike(vm, spec))
  }

  // ---------- The state each method drives the server to ----------

  function FullName(a: ZvolArgs): string {
    a.pool + "/" + a.name
  }

  /** `zvolCreateParams`: an empty block size is left to the pool. */
  function NewZvol(a: ZvolArgs): Dataset {
    Dataset(FullName(a), FullName(a), Some(a.bytes), a.sparse, if a.blocksize == Some("") then None else a.blocksize)
  }

  predicate ZvolTooSmall(s: Server, a: ZvolArgs) {
    var d := FirstDataset(s.datasets, FullName(a));
    d.Some? && d.value.volsize.Some? && d.value.volsize.value < a.bytes
  }

  function EnsureZvol(s: Server, a: ZvolArgs): Server {
    if FirstDataset(s.datasets, FullName(a)).Some? then s
    else s.(datasets := s.datasets + [NewZvol(a)])
  }

  function ZvolRecord(s: Server, a: ZvolArgs): Zvol {
    var d := FirstDataset(s.datasets, FullName(a));
    var size := if d.Some? && d.value.volsize.Some? then d.value.volsize.value else a.bytes;
    Zvol(FullName(a), size, a.sparse, a.blocksize, ZvolDevPath(FullName(a)), d.Some?)
  }

  function EnsureVm(s: Server, config: VmConfig): (r: Server)
    ensures FirstNamed(r.vms, config.name).Some?
  {
    if FirstNamed(s.vms, config.name).Some? then s
    else
      var vm := Vm(s.nextVm, StampedConfig(config), false);
      FirstAppend(s.vms, vm, IsNamed(config.name));
      s.(vms := s.vms + [vm], nextVm := s.nextVm + 1)
  }

  function EnsureDevice(s: Server, vm: nat, spec: DeviceSpec): Server {
    if FirstDevice(s.devices, vm, spec).Some? then s
    else s.(devices := s.devices + [Device(s.nextDevice, vm, spec)], nextDevice := s.nextDevice + 1)
  }

  /** The data set has every property that was asked for; an empty block size is left to the pool. */
  predicate MadeFor(d: Dataset, a: ZvolArgs) {
    && d.id == a.pool + "/" + a.name && d.name == d.id && d.volsize == Some(a.bytes) && d.sparse == a.sparse
    && d.blocksize == if a.blocksize == None || a.blocksize == Some("") then None else a.blocksize
  }

  /**
   * What `create_zvol` provides and reports: a data set of the name, made as asked if there was none and
   * else of at least the size asked if it tells one; the size reported is that one's.
   */
  lemma ZvolIsProvided(s: Server, a: ZvolArgs)
    ensures ZvolTooSmall(s, a) <==>
            exists d | FirstDataset(s.datasets, a.pool + "/" + a.name) == Some(d) ::
              d.volsize.Some? && d.volsize.value < a.bytes
    ensures var z, found := ZvolRecord(s, a), FirstDataset(EnsureZvol(s, a).datasets, a.pool + "/" + a.name);
            && found.Some? && found.value in EnsureZvol(s, a).datasets && found.value.id == a.pool + "/" + a.name
            && z.fullName == a.pool + "/" + a.name && z.devPath == "/dev/zvol/" + a.pool + "/" + a.name
            && (z.existed <==> exists d | d in s.datasets :: d.id == a.pool + "/" + a.name)
            && (!z.existed ==> MadeFor(found.value, a))
            && (found.value.volsize.Some? ==> z.sizeBytes == found.value.volsize.value)
            && (!ZvolTooSmall(s, a) ==> z.sizeBytes >= a.bytes)
  {
    FirstIsHeld(s.datasets, IsDataset(FullName(a)));
    FirstAppend(s.datasets, NewZvol(a), IsDataset(FullName(a)));
    FirstIsHeld(EnsureZvol(s, a).datasets, IsDataset(FullName(a)));
  }

  /** What `create_vm` provides: a VM of the name; if there was none, one as configured, stopped and marked. */
  lemma VmIsProvided(s: Server, config: VmConfig)
    ensures var found := FirstNamed(EnsureVm(s, config).vms, config.name);
            && found.Some? && found.value in EnsureVm(s, config).vms && found.value.config.name == config.name
            && ((forall v | v in s.vms :: v.config.name != config.name) ==>
                  && found.value.id == s.nextVm && !found.value.running
                  && found.value.config == config.(description := found.value.config.description)
                  && IsSwampManaged(found.value.config.description))
  {
    FirstIsHeld(s.vms, IsNamed(config.name));
    FirstAppend(s.vms, Vm(s.nextVm, StampedConfig(config), false), IsNamed(config.name));
    FirstIsHeld(EnsureVm(s, config).vms, IsNamed(config.name));
    MarkerIsStamped(config.description);
  }

  ghost predicate HasAlike(s: Server, vm: nat, spec: DeviceSpec) {
    exists d | d in s.devices :: d.vm == vm && Alike(d.spec, spec)
  }

  /** What attaching provides: a device like the one asked for; exactly that one if there was none. */
  lemma DeviceIsProvided(s: Server, vm: nat, spec: DeviceSpec)
    ensures FirstDevice(s.devices, vm, spec).Some? <==> HasAlike(s, vm, spec)
    ensures var found := FirstDevice(EnsureDevice(s, vm, spec).devices, vm, spec);
            && found.Some? && found.value in EnsureDevice(s, vm, spec).devices
            && found.value.vm == vm && Alike(found.value.spec, spec)
            && (!HasAlike(s, vm, spec) ==> found.value.spec == spec)
  {
    FirstIsHeld(s.devices, IsLike(vm, spec));
    FirstAppend(s.devices, Device(s.nextDevice, vm, spec), IsLike(vm, spec));
    FirstIsHeld(EnsureDevice(s, vm, spec).devices, IsLike(vm, spec));
    forall d: Device
      ensures SameDevice(d.spec, spec) <==> Alike(d.spec, spec)
    {
      SameDeviceExactly(d.spec, spec);
    }
  }

  // ---------- Deletion ----------

  function Resolve(s: Server, ref: VmRef): Option<Vm> {
    match ref
    case ById(id) => FirstWithId(s.vms, id)
    case ByName(name) => FirstNamed(s.vms, name)
  }

  /** The VM has the id, or the name, that is referred to. */
  predicate Meets(v: Vm, ref: VmRef) {
    match ref
    case ById(id) => v.id == id
    case ByName(name) => v.config.name == name
  }

  lemma ResolvedIsHeld(s: Server, ref: VmRef)
    ensures Resolve(s, ref).Some? <==> exists v | v in s.vms :: Meets(v, ref)
    ensures Resolve(s, ref).Some? ==> Meets(Resolve(s, ref).value, ref)
    ensures Resolve(s, ref).Some? ==> Resolve(s, ref).value in s.vms && HasVm(s, Resolve(s, ref).value.id)
  {
    match ref
    case ById(id) => FirstIsHeld(s.vms, IsVm(id));
    case ByName(name) => FirstIsHeld(s.vms, IsNamed(name));
  }

  /** The server once `delete` has removed the VM it resolved, if any. */
  function AfterVmDelete(s: Server, a: DeleteArgs): Server {
    var vm := Resolve(s, a.ref);
    if vm.Some? then Serve(s, VmDelete(vm.value.id, a.deleteZvol)).0 else s
  }

  function DanglingDataset(a: DeleteArgs): Option<string> {
    if a.deleteZvol && a.zvolPath.Some? then DatasetFromDevPath(a.zvolPath.value) else None
  }

  /** The server once `delete` has also removed the dataset it was given a path for. */
  function AfterDelete(s: Server, a: DeleteArgs): Server {
    var t := AfterVmDelete(s, a);
    var d := DanglingDataset(a);
    if d.Some? then t.(datasets := DatasetsExcept(t.datasets, {d.value})) else t
  }

  /** The safety gate: a VM lacking the marker is refused unless `force`. */
  predicate GateRefuses(s: Server, a: DeleteArgs) {
    var vm := Resolve(s, a.ref);
    !a.force && vm.Some? && !IsSwampManaged(vm.value.config.description)
  }

  lemma NewIdFinds(vms: seq<Vm>, v: Vm)
    requires forall u | u in vms :: u.id < v.id
    ensures FirstWithId(vms + [v], v.id) == Some(v)
  {
    FirstAppend(vms, v, IsVm(v.id));
    FirstIsHeld(vms, IsVm(v.id));
  }

  /** Reading a VM back after switching it finds it switched. */
  lemma SwitchedIsFound(vms: seq<Vm>, record: Vm, running: bool)
    requires record in vms
    ensures var after := FirstWithId(WithRunning(vms, record.id, running), record.id);
            after.Some? && after.value.id == record.id && after.value.running == running
  {
    var switched := WithRunning(vms, record.id, running);
    FirstIsHeld(switched, IsVm(record.id));
    var i :| 0 <= i < |vms| && vms[i] == record;
    assert switched[i] in switched && IsVm(record.id)(switched[i]);
    var after := FirstWithId(switched, record.id).value;
    var j :| 0 <= j < |switched| && switched[j] == after;
  }

  ghost predicate Reliable(link: seq<Fault>) {
    forall i | 0 <= i < |link| :: link[i] == Delivered
  }

  /** One session to one host: the server's state and what the link will do to the coming calls. */
  class Session {
    var server: Server
    var link: seq<Fault>

    constructor (s: Server)
      ensures server == s && link == []
    {
      server := s;
      link := [];
    }

    method Call(q: Request) returns (a: Result<Reply>)
      modifies this
      ensures Reliable(old(link)) ==> Reliable(link)
      ensures a.Ok? ==> (server, a) == Serve(old(server), q)
      ensures a.Err? ==> server == old(server) || server == Serve(old(server), q).0
      ensures Reliable(old(link)) ==> (server, a) == Serve(old(server), q)
    {
      var fault := if link == [] then Delivered else link[0];
      link := if link == [] then [] else link[1..];
      if fault == LostRequest {
        return Err("connection lost");
      }
      var (s, answer) := Serve(server, q);
      server := s;
      a := if fault == LostReply then Err("reply lost") else answer;
    }

    /** `create_zvol`: on every outcome the server is untouched or holds the volume. */
    method CreateZvol(a: ZvolArgs) returns (r: Result<Zvol>)
      modifies this
      ensures Reliable(old(link)) ==> Reliable(link)
      ensures r.Ok? ==> !ZvolTooSmall(old(server), a)
      ensures r.Ok? ==> server == EnsureZvol(old(server), a) && r.value == ZvolRecord(old(server), a)
      ensures server == old(server) || server == EnsureZvol(old(server), a)
      ensures ZvolTooSmall(old(server), a) ==> server == old(server)
      ensures Reliable(old(link)) ==> (r.Ok? <==> !ZvolTooSmall(old(server), a))
    {
      FirstOfWhere(server.datasets, IsDataset(FullName(a)), AnswersTo(FullName(a)), IsDataset(FullName(a)));
      var answer := Call(DatasetQuery(FullName(a)));
      if answer.Err? {
        return Err(answer.error);
      }
      var existing := FindFirst(answer.value.datasets, AnswersTo(FullName(a)));
      var size := a.bytes;
      if existing.Some? {
        var have := existing.value.volsize;
        if have.Some? && have.value < a.bytes {
          return Err("exists but is smaller than requested");
        }
        size := if have.Some? then have.value else a.bytes;
      } else {
        answer := Call(DatasetCreate(NewZvol(a)));
        if answer.Err? {
          return Err(answer.error);
        }
      }
      r := Ok(Zvol(FullName(a), size, a.sparse, a.blocksize, ZvolDevPath(FullName(a)), existing.Some?));
    }

    /** `create_vm`: the record returned is the VM of that name on the server. */
    method CreateVm(config: VmConfig) returns (r: Result<Vm>)
      requires forall v | v in server.vms :: v.id < server.nextVm
      modifies this
      ensures Reliable(old(link)) ==> Reliable(link)
      ensures r.Ok? ==> server == EnsureVm(old(server), config)
                        && Some(r.value) == FirstNamed(server.vms, config.name)
      ensures server == old(server) || server == EnsureVm(old(server), config)
      ensures Reliable(old(link)) ==> r.Ok?
    {
      ghost var created := Vm(server.nextVm, StampedConfig(config), false);
      FirstAppend(server.vms, created, IsNamed(config.name));
      FirstOfWhere(server.vms, IsNamed(config.name), IsNamed(config.name), IsNamed(config.name));
      var answer := Call(VmQueryName(config.name));
      if answer.Err? {
        return Err(answer.error);
      }
      var record := FindFirst(answer.value.vms, IsNamed(config.name));
      if record.None? {
        answer := Call(VmCreate(StampedConfig(config)));
        if answer.Err? {
          return Err(answer.error);
        }
        if answer.value.CreatedVm? {
          record := Some(answer.value.vm);
        } else {
          var id := answer.value.id;
          NewIdFinds(old(server).vms, created);
          FirstOfWhere(server.vms, IsVm(id), IsVm(id), IsVm(id));
          answer := Call(VmQueryId(id));
          if answer.Err? {
            return Err(answer.error);
          }
          record := FindFirst(answer.value.vms, IsVm(id));
          if record.None? {
            return Err("vm.create did not return a VM record");
          }
        }
      }
      r := Ok(record.value);
    }

    /** `attach_disk` and `attach_nic`: the two differ only in the device they look for and create. */
    method Attach(vmId: nat, spec: DeviceSpec) returns (r: Result<DeviceRecord>)
      modifies this
      ensures Reliable(old(link)) ==> Reliable(link)
      ensures r.Ok? ==> server == EnsureDevice(old(server), vmId, spec)
                        && (r.value.existed <==> HasAlike(old(server), vmId, spec))
                        && (var d := FirstDevice(server.devices, vmId, spec); d.Some? && r.value.id == d.value.id)
      ensures server == old(server) || (HasVm(old(server), vmId) && server == EnsureDevice(old(server), vmId, spec))
      ensures Reliable(old(link)) ==>
                (r.Ok? <==> HasVm(old(server), vmId) || HasAlike(old(server), vmId, spec))
    {
      DeviceIsProvided(server, vmId, spec);
      FirstOfWhere(server.devices, IsOf(vmId), IsSame(spec), IsLike(vmId, spec));
      FirstAppend(server.devices, Device(server.nextDevice, vmId, spec), IsLike(vmId, spec));
      var answer := Call(DeviceQuery(vmId));
      if answer.Err? {
        return Err(answer.error);
      }
      var existing := FindFirst(answer.value.devices, IsSame(spec));
      if existing.Some? {
        return Ok(DeviceRecord(existing.value.id, true));
      }
      answer := Call(DeviceCreate(vmId, spec));
      if answer.Err? {
        return Err(answer.error);
      }
      r := Ok(DeviceRecord(answer.value.device.id, false));
    }

    /** `resolveVm`: by id with an unfiltered second query as a fallback, or by name. */
    method ResolveVm(ref: VmRef) returns (r: Result<Option<Vm>>)
      modifies this
      ensures server == old(server)
      ensures Reliable(old(link)) ==> Reliable(link) && r.Ok?
      ensures r.Ok? ==> r.value == Resolve(server, ref)
    {
      match ref
      case ById(id) =>
        FirstOfWhere(server.vms, IsVm(id), IsVm(id), IsVm(id));
        var answer := Call(VmQueryId(id));
        if answer.Err? {
          return Err(answer.error);
        }
        var record := FindFirst(answer.value.vms, IsVm(id));
        if record.None? {
          answer := Call(VmQueryAll);
          if answer.Err? {
            return Err(answer.error);
          }
          record := FindFirst(answer.value.vms, IsVm(id));
        }
        r := Ok(record);
      case ByName(name) =>
        FirstOfWhere(server.vms, IsNamed(name), IsNamed(name), IsNamed(name));
        var answer := Call(VmQueryName(name));
        if answer.Err? {
          return Err(answer.error);
        }
        var record := FindFirst(answer.value.vms, IsNamed(name));
        r := Ok(record);
    }

    /** `start` and `stop`, with the best-effort read-back. */
    method SetRunning(ref: VmRef, running: bool) returns (r: Result<Vm>)
      modifies this
      ensures Reliable(old(link)) ==> Reliable(link)
      ensures server == old(server) ||
              (Resolve(old(server), ref).Some? &&
               server == old(server).(vms := WithRunning(old(server).vms, Resolve(old(server), ref).value.id, running)))
      ensures r.Ok? ==> Resolve(old(server), ref).Some?
                        && server.vms == WithRunning(old(server).vms, Resolve(old(server), ref).value.id, running)
                        && server == old(server).(vms := server.vms)
                        && r.value.id == Resolve(old(server), ref).value.id && r.value.running == running
      ensures Reliable(old(link)) ==> (r.Ok? <==> Resolve(old(server), ref).Some?)
    {
      var found := ResolveVm(ref);
      if found.Err? {
        return Err(found.error);
      }
      if found.value.None? {
        return Err("no VM matching");
      }
      var record := found.value.value;
      var id := record.id;
      ResolvedIsHeld(server, ref);
      var answer := Call(if running then VmStart(id) else VmStop(id));
      if answer.Err? {
        return Err(answer.error);
      }
      SwitchedIsFound(old(server).vms, record, running);
      FirstOfWhere(server.vms, IsVm(id), IsVm(id), IsVm(id));
      answer := Call(VmQueryId(id));
      if answer.Err? {
        return Err(answer.error);
      }
      var after := FindFirst(answer.value.vms, IsVm(id));
      r := Ok(if after.Some? then after.value else record);
    }

    /**
     * `delete`: with the gate shut nothing changes; otherwise the VM goes first and then, best
     * effort, the dataset of the path given.
     */
    method Delete(a: DeleteArgs) returns (r: Result<bool>)
      modifies this
      ensures Reliable(old(link)) ==> Reliable(link)
      ensures GateRefuses(old(server), a) ==> server == old(server) && r.Err?
      ensures server == old(server) || server == AfterVmDelete(old(server), a) || server == AfterDelete(old(server), a)
      ensures r.Ok? ==> server == AfterVmDelete(old(server), a) || server == AfterDelete(old(server), a)
      ensures Reliable(old(link)) ==>
                if GateRefuses(old(server), a) then r.Err?
                else r == Ok(Resolve(old(server), a.ref).Some?) && server == AfterDelete(old(server), a)
    {
      var found := ResolveVm(a.ref);
      if found.Err? {
        return Err(found.error);
      }
      if found.value.Some? {
        var vm := found.value.value;
        if !a.force && !IsSwampManaged(vm.config.description) {
          return Err("not swamp-managed");
        }
        ResolvedIsHeld(server, a.ref);
        var answer := Call(VmDelete(vm.id, a.deleteZvol));
        if answer.Err? {
          return Err(answer.error);
        }
      }
      if a.deleteZvol && a.zvolPath.Some? && a.zvolPath.value != "" {
        var dataset := DatasetFromDevPath(a.zvolPath.value);
        if dataset.Some? {
          if !HasDataset(server, dataset.value) {
            WhereAll(server.datasets, NotIn({dataset.value}));
          }
          var _ := Call(DatasetDelete(dataset.value));
        }
      }
      r := Ok(found.value.Some?);
    }
  }
}
