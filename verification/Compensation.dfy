// The `cleanup-on-failure` job: deleting the half-built target after a failed `migrate` job. It
// names the volume to remove through `data.latest`, so whether it undoes the run depends on which
// record that is.

module Compensation {
  import opened Wrappers
  import opened Records
  import opened TrueNasServer
  import opened Provisioning
  import opened MigrateWorkflow

  /** The arguments of `delete-target-vm`; without any zvol record its inputs cannot be evaluated. */
  function CleanupArgs(inputs: Inputs, w: World): Option<DeleteArgs> {
    if w.zvolData.None? then None
    else Some(DeleteArgs(ByName(TargetName(inputs)), true, Some(w.zvolData.value.devPath), true))
  }

  /** The host after the cleanup job, over a link that delivers. */
  function AfterCleanup(inputs: Inputs, w: World): Server {
    var a := CleanupArgs(inputs, w);
    if a.Some? then AfterDelete(w.server, a.value) else w.server
  }

  method CleanUp(session: Session, inputs: Inputs, w: World)
    requires session.server == w.server && Reliable(session.link)
    modifies session
    ensures session.server == AfterCleanup(inputs, w)
  {
    var a := CleanupArgs(inputs, w);
    if a.Some? {
      var _ := session.Delete(a.value);
    }
  }

  /** Every VM, dataset and device is as before; only the id counters may have moved on. */
  ghost predicate Restored(s0: Server, s: Server) {
    s.vms == s0.vms && s.datasets == s0.datasets && s.devices == s0.devices
  }

  /** The dataset that the latest zvol record stands for. */
  function RecordedDataset(w: World): Option<string> {
    if w.zvolData.Some? then DatasetFromDevPath(w.zvolData.value.devPath) else None
  }

  /**
   * What an operator can check before the cleanup: a volume of the target's name is there only if
   * it is the recorded one, and a recorded volume of another name is not there.
   */
  predicate RecordIsOurs(inputs: Inputs, w: World) {
    var full := FullName(inputs.zvol);
    && (HasDataset(w.server, full) ==> RecordedDataset(w) == Some(full))
    && (RecordedDataset(w).Some? && RecordedDataset(w).value != full ==>
          !HasDataset(w.server, RecordedDataset(w).value))
  }

  lemma {:induction false} RemovalOfAppended(ds: seq<Dataset>, d: Dataset, ids: set<string>)
    requires forall e | e in ds :: e.id !in ids
    ensures DatasetsExcept(ds, ids) == ds
    ensures DatasetsExcept(ds + [d], ids) == if d.id in ids then ds else ds + [d]
  {
    if ds == [] {
      assert [d][1..] == [];
    } else {
      assert (ds + [d])[1..] == ds[1..] + [d];
      RemovalOfAppended(ds[1..], d, ids);
    }
  }

  lemma {:induction false} RemovalOfSuffix(devices: seq<Device>, k: nat, vm: nat)
    requires k <= |devices|
    requires forall i | 0 <= i < k :: devices[i].vm != vm
    requires forall i | k <= i < |devices| :: devices[i].vm == vm
    ensures DevicesExcept(devices, vm) == devices[..k]
  {
    if devices != [] {
      RemovalOfSuffix(devices[1..], if k == 0 then 0 else k - 1, vm);
      assert k > 0 ==> devices[..k] == [devices[0]] + devices[1..][..k - 1];
    }
  }

  lemma TargetPathNamesItself(full: string)
    requires full != ""
    ensures DatasetFromDevPath(ZvolDevPath(full)) == if NoLineBreak(full) then Some(full) else None
  {
    assert ZvolDevPath(full)[|ZVOL_DIR|..] == full;
  }

  ghost predicate FreshTarget(inputs: Inputs, w0: World) {
    Initial(inputs, w0) && FirstDataset(w0.server.datasets, FullName(inputs.zvol)).None?
  }

  lemma VmsUndone(inputs: Inputs, w0: World, w: World)
    requires FreshTarget(inputs, w0) && GrownVms(inputs, w0.server, w) && CreateVm in w.progress.acted
    ensures VmsExcept(w.server.vms, w0.server.nextVm) == w0.server.vms
    ensures var v := FirstNamed(w.server.vms, TargetName(inputs)); v.Some? && v.value.id == w0.server.nextVm
    ensures HasVm(w.server, w0.server.nextVm)
  {
    var s0, id := w0.server, w0.server.nextVm;
    var vm := Vm(id, StampedConfig(inputs.vm), Start in w.progress.acted);
    FirstAppend(s0.vms, vm, IsNamed(TargetName(inputs)));
    WhereAppend(s0.vms, [vm], NotVm(id));
    WhereAll(s0.vms, NotVm(id));
    WhereNone([vm], NotVm(id));
    assert vm in w.server.vms;
  }

  lemma DevicesUndone(inputs: Inputs, w0: World, w: World)
    requires FreshTarget(inputs, w0) && GrownDevices(inputs, w0.server, w)
    ensures DevicesExcept(w.server.devices, w0.server.nextVm) == w0.server.devices
  {
    var s0, s := w0.server, w.server;
    assert forall i | 0 <= i < |s0.devices| :: s.devices[i] == s0.devices[i] && s0.devices[i] in s0.devices;
    RemovalOfSuffix(s.devices, |s0.devices|, s0.nextVm);
  }

  lemma NewDisksAreOurs(inputs: Inputs, w0: World, w: World)
    requires FreshTarget(inputs, w0) && GrownDevices(inputs, w0.server, w)
    ensures forall d | d in w.server.devices && d.vm == w0.server.nextVm && d.spec.Disk? ::
              d.spec.path == ZvolDevPath(FullName(inputs.zvol))
  {
    var s0, s := w0.server, w.server;
    assert forall k | 0 <= k < |s0.devices| :: s.devices[k] == s0.devices[k] && s0.devices[k] in s0.devices;
  }

  /** Whatever disk the new VM has is the run's own volume, and then its record is the latest. */
  lemma BackingIsOurs(inputs: Inputs, w0: World, w: World)
    requires FreshTarget(inputs, w0) && GrownDevices(inputs, w0.server, w)
    ensures var backing := BackingDatasets(w.server.devices, w0.server.nextVm);
            backing == {} || backing == {FullName(inputs.zvol)}
  {
    var s0, s := w0.server, w.server;
    TargetPathNamesItself(FullName(inputs.zvol));
    NewDisksAreOurs(inputs, w0, w);
    var backing := BackingDatasets(s.devices, s0.nextVm);
    assert backing <= {FullName(inputs.zvol)};
    if backing != {} {
      assert FullName(inputs.zvol) in backing;
    }
  }

  /** A backing volume is the recorded one: it can be attached only once the volume was recorded. */
  lemma BackingIsRecorded(inputs: Inputs, w0: World, w: World)
    requires FreshTarget(inputs, w0) && Invariant(inputs, w0, w)
    requires CreateVm in w.progress.acted
    requires BackingDatasets(w.server.devices, w0.server.nextVm) == {FullName(inputs.zvol)}
    ensures CreateZvol in w.progress.acted && RecordedDataset(w) == Some(FullName(inputs.zvol))
  {
    ChainBehind(w.progress);
    TargetPathNamesItself(FullName(inputs.zvol));
    var full := FullName(inputs.zvol);
    assert full in BackingDatasets(w.server.devices, w0.server.nextVm);
    var d :| d in w.server.devices && d.vm == w0.server.nextVm && d.spec.Disk?
             && DatasetFromDevPath(d.spec.path) == Some(full);
    NewDisksAreOurs(inputs, w0, w);
  }

  lemma VmDeleted(s: Server, id: nat)
    requires HasVm(s, id)
    ensures var t := Serve(s, VmDelete(id, true)).0;
            && t.vms == VmsExcept(s.vms, id) && t.devices == DevicesExcept(s.devices, id)
            && t.datasets == DatasetsExcept(s.datasets, BackingDatasets(s.devices, id))
  {
  }

  /** Deleting the created target, spelled out. */
  lemma TargetDeleted(inputs: Inputs, w0: World, w: World, a: DeleteArgs)
    requires FreshTarget(inputs, w0) && GrownVms(inputs, w0.server, w) && CreateVm in w.progress.acted
    requires a.ref == ByName(TargetName(inputs)) && a.deleteZvol
    ensures var t, id := AfterVmDelete(w.server, a), w0.server.nextVm;
            && t.vms == w0.server.vms && t.devices == DevicesExcept(w.server.devices, id)
            && t.datasets == DatasetsExcept(w.server.datasets, BackingDatasets(w.server.devices, id))
  {
    VmsUndone(inputs, w0, w);
    VmDeleted(w.server, w0.server.nextVm);
    assert AfterVmDelete(w.server, a) == Serve(w.server, VmDelete(w0.server.nextVm, true)).0;
  }

  /** The VM half: whether or not the target VM came to be, deletion brings VMs and devices back. */
  lemma VmPartUndone(inputs: Inputs, w0: World, w: World, a: DeleteArgs)
    requires FreshTarget(inputs, w0) && Invariant(inputs, w0, w) && a.ref == ByName(TargetName(inputs)) && a.deleteZvol
    ensures var t := AfterVmDelete(w.server, a);
            && t.vms == w0.server.vms && t.devices == w0.server.devices
            && (t.datasets == w.server.datasets
                || (t.datasets == DatasetsExcept(w.server.datasets, {FullName(inputs.zvol)})
                    && CreateZvol in w.progress.acted && RecordedDataset(w) == Some(FullName(inputs.zvol))))
  {
    if CreateVm in w.progress.acted {
      TargetDeleted(inputs, w0, w, a);
      DevicesUndone(inputs, w0, w);
      BackingIsOurs(inputs, w0, w);
      if BackingDatasets(w.server.devices, w0.server.nextVm) == {} {
        WhereAll(w.server.datasets, NotIn({}));
      } else {
        BackingIsRecorded(inputs, w0, w);
      }
    } else {
      ChainBehind(w.progress);
      assert w.server.devices == w0.server.devices;
    }
  }

  /** Removing a dataset of another name shows exactly if there is one. */
  lemma OtherRemoved(s0: Server, d: Dataset, t: Server, other: string)
    requires t.datasets == s0.datasets || t.datasets == s0.datasets + [d]
    requires (forall e | e in s0.datasets :: e.id != d.id) && other != d.id
    ensures DatasetsExcept(t.datasets, {other}) == s0.datasets <==>
            t.datasets == s0.datasets && forall e | e in s0.datasets :: e.id != other
  {
    WhereIsHeld(t.datasets, NotIn({other}));
    if t.datasets == s0.datasets + [d] {
      assert d in t.datasets;
    } else if forall e | e in s0.datasets :: e.id != other {
      RemovalOfAppended(s0.datasets, d, {other});
    } else {
      var e :| e in s0.datasets && e.id == other;
      assert e !in DatasetsExcept(t.datasets, {other});
    }
  }

  /**
   * Compensation: from a host with no VM and no volume of the target's name, at any point of any
   * run, the cleanup restores every VM, dataset and device exactly when the latest record is ours.
   */
  lemma CleanupRestoresExactly(inputs: Inputs, worlds: seq<World>, events: seq<Event>, n: nat)
    requires WorkflowRun(inputs, worlds, events) && n < |worlds| && FreshTarget(inputs, worlds[0])
    ensures Restored(worlds[0].server, AfterCleanup(inputs, worlds[n])) <==> RecordIsOurs(inputs, worlds[n])
  {
    var w0, w := worlds[0], worlds[n];
    var s0, s, full := w0.server, w.server, FullName(inputs.zvol);
    InvariantHolds(inputs, worlds, events, n);
    ChainBehind(w.progress);
    FirstIsHeld(s0.datasets, IsDataset(full));
    var d := NewZvol(inputs.zvol);
    assert s.datasets == if CreateZvol in w.progress.acted then s0.datasets + [d] else s0.datasets;
    assert HasDataset(s, full) <==> CreateZvol in w.progress.acted;
    RemovalOfAppended(s0.datasets, d, {full});
    if w.zvolData.None? {
      assert CreateVm !in w.progress.acted;
      assert s.devices == s0.devices;
    } else {
      var a := CleanupArgs(inputs, w).value;
      VmPartUndone(inputs, w0, w, a);
      var t := AfterVmDelete(s, a);
      assert DanglingDataset(a) == RecordedDataset(w);
      if RecordedDataset(w).Some? && RecordedDataset(w).value != full {
        OtherRemoved(s0, d, t, RecordedDataset(w).value);
      }
    }
  }

  /** Once `create-zvol` has reported success nothing can go wrong, whatever fails later. */
  lemma CleanupAfterRecordedZvol(inputs: Inputs, worlds: seq<World>, events: seq<Event>, n: nat)
    requires WorkflowRun(inputs, worlds, events) && n < |worlds| && FreshTarget(inputs, worlds[0])
    requires DidSucceed(worlds[n].progress, CreateZvol) && NoLineBreak(FullName(inputs.zvol))
    ensures Restored(worlds[0].server, AfterCleanup(inputs, worlds[n]))
  {
    InvariantHolds(inputs, worlds, events, n);
    TargetPathNamesItself(FullName(inputs.zvol));
    CleanupRestoresExactly(inputs, worlds, events, n);
  }

  /**
   * A run whose very first step fails, after an earlier migration whose volume is still on the
   * host: the latest record is the earlier one, and the cleanup deletes that volume.
   */
  lemma CleanupCanDeleteAnEarlierVolume(inputs: Inputs, w: World)
    requires FreshTarget(inputs, w)
    requires FullName(inputs.zvol) != "Main/old"
    requires w.server.datasets == [Dataset("Main/old", "Main/old", Some(1), true, None)]
    requires w.zvolData == Some(Zvol("Main/old", 1, true, None, ZvolDevPath("Main/old"), false))
    ensures Enabled(inputs, w, Begin(Inspect)) && Enabled(inputs, Next(inputs, w, Begin(Inspect)), Fail(Inspect))
    ensures var failed := Next(inputs, Next(inputs, w, Begin(Inspect)), Fail(Inspect));
            !AllowFailure(Inspect) && AfterCleanup(inputs, failed).datasets == []
  {
    TargetPathNamesItself("Main/old");
    var failed := Next(inputs, Next(inputs, w, Begin(Inspect)), Fail(Inspect));
    assert AfterVmDelete(failed.server, CleanupArgs(inputs, failed).value) == failed.server;
    assert DanglingDataset(CleanupArgs(inputs, failed).value) == Some("Main/old");
    var ds := w.server.datasets;
    assert DatasetsExcept(ds, {"Main/old"}) == DatasetsExcept(ds[1..], {"Main/old"}) == [];
  }
}
