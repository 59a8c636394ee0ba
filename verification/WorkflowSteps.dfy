// The workflow's steps as the methods carry them out: whatever the link and the disk mover do, the
// world moves along the transitions of the step graph.

module WorkflowSteps {
  import opened Wrappers
  import opened Records
  import opened TrueNasServer
  import opened Provisioning
  import opened ProvisioningRuns
  import opened MigrateWorkflow
  import opened ShellQuoting
  import opened DiskStream

  /** The step is running and has not acted yet. */
  predicate Due(w: World, step: Step) {
    StatusOf(w.progress, step) == Running && step !in w.progress.acted
  }

  ghost predicate EndsActed(inputs: Inputs, w: World, step: Step, t: World)
    requires StatusOf(w.progress, step) == Running && step in w.progress.acted
  {
    || t == Next(inputs, w, Fail(step))
    || exists existed :: CanSucceed(inputs, w, step) && t == Next(inputs, w, Succeed(step, existed))
  }

  /** The step failed before its effect, or acted and then failed or succeeded. */
  ghost predicate Ends(inputs: Inputs, w: World, step: Step, t: World)
    requires Due(w, step)
  {
    || t == Next(inputs, w, Fail(step))
    || exists copy :: CanAct(inputs, w, step) && EndsActed(inputs, Next(inputs, w, Act(step, copy)), step, t)
  }

  /** The step failed; `acted` when its effect had come about. */
  function Failed(inputs: Inputs, w: World, step: Step, acted: bool): (t: World)
    requires Due(w, step) && (acted ==> CanAct(inputs, w, step))
    ensures Ends(inputs, w, step, t)
    ensures t.server == if acted then Acted(inputs, w, step, NO_COPY).server else w.server
  {
    if acted then
      var a := Next(inputs, w, Act(step, NO_COPY));
      assert EndsActed(inputs, a, step, Next(inputs, a, Fail(step)));
      Next(inputs, a, Fail(step))
    else Next(inputs, w, Fail(step))
  }

  /** The step acted and reported success. */
  function Done(inputs: Inputs, w: World, step: Step, copy: Copy, existed: bool): (t: World)
    requires Due(w, step) && CanAct(inputs, w, step)
    requires CanSucceed(inputs, Acted(inputs, w, step, copy), step)
    ensures Ends(inputs, w, step, t)
    ensures t == Recorded(inputs, Acted(inputs, w, step, copy), step, existed).(progress := t.progress)
  {
    var a := Next(inputs, w, Act(step, copy));
    var t := Next(inputs, a, Succeed(step, existed));
    assert EndsActed(inputs, a, step, t);
    t
  }

  method DoCreateZvol(session: Session, inputs: Inputs, w: World) returns (t: World, r: Result<Zvol>)
    requires session.server == w.server && Due(w, CreateZvol)
    modifies session
    ensures Ends(inputs, w, CreateZvol, t) && t.server == session.server
    ensures r.Ok? ==> DidSucceed(t.progress, CreateZvol) && t.zvolData == Some(r.value)
  {
    r := session.CreateZvol(inputs.zvol);
    if r.Ok? {
      FirstAppend(w.server.datasets, NewZvol(inputs.zvol), IsDataset(FullName(inputs.zvol)));
      t := Done(inputs, w, CreateZvol, NO_COPY, r.value.existed);
    } else {
      t := Failed(inputs, w, CreateZvol, session.server != w.server);
    }
  }

  method DoCreateVm(session: Session, inputs: Inputs, w: World) returns (t: World, r: Result<Vm>)
    requires session.server == w.server && Due(w, CreateVm) && FreshIds(w.server)
    modifies session
    ensures Ends(inputs, w, CreateVm, t) && t.server == session.server
    ensures r.Ok? ==> DidSucceed(t.progress, CreateVm) && t.vmData == Some(r.value)
  {
    r := session.CreateVm(inputs.vm);
    if r.Ok? {
      t := Done(inputs, w, CreateVm, NO_COPY, false);
    } else {
      t := Failed(inputs, w, CreateVm, session.server != w.server);
    }
  }

  /** `attach-disk` and `attach-nic`; without the records that their inputs read, they fail at once. */
  method DoAttach(session: Session, inputs: Inputs, w: World, step: Step) returns (t: World, r: Result<DeviceRecord>)
    requires session.server == w.server && Due(w, step) && (step == AttachDisk || step == AttachNic)
    modifies session
    ensures Ends(inputs, w, step, t) && t.server == session.server
    ensures r.Ok? ==> DidSucceed(t.progress, step)
  {
    if w.vmData.None? || (step == AttachDisk && w.zvolData.None?) {
      t := Failed(inputs, w, step, false);
      return t, Err("no such record");
    }
    var spec := if step == AttachDisk then DiskSpec(inputs, w.zvolData.value) else NicSpec(inputs);
    r := session.Attach(w.vmData.value.id, spec);
    if r.Ok? {
      t := Done(inputs, w, step, NO_COPY, false);
    } else {
      t := Failed(inputs, w, step, session.server != w.server);
    }
  }

  method DoStart(session: Session, inputs: Inputs, w: World) returns (t: World, r: Result<Vm>)
    requires session.server == w.server && Due(w, Start)
    modifies session
    ensures Ends(inputs, w, Start, t) && t.server == session.server
    ensures r.Ok? ==> DidSucceed(t.progress, Start)
  {
    if w.vmData.None? {
      t := Failed(inputs, w, Start, false);
      return t, Err("no such record");
    }
    var ref := ById(w.vmData.value.id);
    ResolvedIsHeld(w.server, ref);
    r := session.SetRunning(ref, true);
    FirstIsHeld(w.server.vms, IsVm(w.vmData.value.id));
    if r.Ok? {
      t := Done(inputs, w, Start, NO_COPY, false);
    } else {
      t := Failed(inputs, w, Start, session.server != w.server);
    }
  }

  /**
   * `stream-disk`: it writes to the recorded volume, and succeeds exactly when the disk mover verified
   * the count that it then records. What it records is honest if `dd` prints what it counted.
   */
  method DoStream(inputs: Inputs, w: World, requested: TransferMode, p: StreamParams, inner: InnerSshOpts, legs: Legs)
    returns (t: World, r: Result<Transfer>, commands: seq<(Host, string)>)
    requires Due(w, Step.Stream)
    ensures Ends(inputs, w, Step.Stream, t) && t.server == w.server
    ensures r.Ok? <==> DidSucceed(t.progress, Step.Stream)
    ensures w.zvolData.Some? ==>
              var q := p.(dstDevPath := w.zvolData.value.devPath);
              commands == if GoesDirect(requested, legs) then [(Source, DirectSrcCommand(q, inner))]
                          else [(Source, RelaySrcCommand(q)), (Destination, RelayDstCommand(q))]
    ensures r.Ok? ==> w.zvolData.Some?
                      && t.copied == Some(Copied(w.zvolData.value.devPath, CopyOf(r.value, legs)))
                      && (PrintsItsCounts(r.value.mode, legs) ==> Honest(t.copied.value.copy))
  {
    if w.zvolData.None? {
      t := Failed(inputs, w, Step.Stream, false);
      return t, Err("no such record"), [];
    }
    var z := w.zvolData.value;
    var q := p.(dstDevPath := z.devPath);
    r, commands := DiskStream.Stream(requested, q, inner, Some(z.sizeBytes), inputs.blockBytes, legs);
    if r.Ok? {
      RecordedIsHonest(requested, legs, z.sizeBytes, inputs.blockBytes);
      t := Done(inputs, w, Step.Stream, CopyOf(r.value, legs), false);
    } else {
      t := Failed(inputs, w, Step.Stream, false);
    }
  }
}
