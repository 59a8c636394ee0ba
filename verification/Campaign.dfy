// Migrating until it works: a failed run, its cleanup, and the workflow run again, any number of
// times.

module Campaign {
  import opened Wrappers
  import opened TrueNasServer
  import opened Provisioning
  import opened MigrateWorkflow
  import opened Compensation

  datatype Attempted = Attempted(worlds: seq<World>, events: seq<Event>)

  function FirstWorld(r: Attempted): World
    requires r.worlds != []
  {
    r.worlds[0]
  }

  function LastWorld(r: Attempted): World
    requires r.worlds != []
  {
    r.worlds[|r.worlds| - 1]
  }

  /**
   * A new run starts on the host that the cleanup left, with the zvol record of before; the source may
   * be in any state.
   */
  ghost predicate Restarts(inputs: Inputs, last: World, first: World) {
    && first.progress == Progress(map[], {}) && first.copied == None && !first.editing
    && first.server == AfterCleanup(inputs, last) && first.zvolData == last.zvolData
  }

  ghost predicate IsCampaign(inputs: Inputs, runs: seq<Attempted>) {
    && runs != [] && (forall r | r in runs :: Path(inputs, r.worlds, r.events))
    && FreshTarget(inputs, FirstWorld(runs[0]))
    && forall i | 0 <= i < |runs| - 1 :: Restarts(inputs, LastWorld(runs[i]), FirstWorld(runs[i + 1]))
  }

  lemma FreshAgain(inputs: Inputs, w0: World, last: World, first: World)
    requires FreshTarget(inputs, w0) && GrownVms(inputs, w0.server, last) && Restarts(inputs, last, first)
    requires Restored(w0.server, first.server)
    ensures FreshTarget(inputs, first)
  {
    assert first.server.nextVm == last.server.nextVm;
  }

  /**
   * If each run so far ended with its own record latest, the next one starts on the host as it was
   * before the first, all but the id counters, and is again a run from a fresh target.
   */
  lemma {:induction false} EachRunStartsFresh(inputs: Inputs, runs: seq<Attempted>, k: nat)
    requires IsCampaign(inputs, runs) && k < |runs|
    requires forall i | 0 <= i < k :: RecordIsOurs(inputs, LastWorld(runs[i]))
    ensures FreshTarget(inputs, FirstWorld(runs[k])) && Restored(FirstWorld(runs[0]).server, FirstWorld(runs[k]).server)
    ensures WorkflowRun(inputs, runs[k].worlds, runs[k].events)
  {
    assert runs[k] in runs;
    if k > 0 {
      var r := runs[k - 1];
      EachRunStartsFresh(inputs, runs, k - 1);
      InvariantHolds(inputs, r.worlds, r.events, |r.events|);
      CleanupRestoresExactly(inputs, r.worlds, r.events, |r.events|);
      assert Restarts(inputs, LastWorld(r), FirstWorld(runs[k - 1 + 1]));
      FreshAgain(inputs, FirstWorld(r), LastWorld(r), FirstWorld(runs[k]));
    }
  }

  /** So every run of the campaign is safe at every point. */
  lemma CampaignIsSafe(inputs: Inputs, runs: seq<Attempted>, k: nat, n: nat)
    requires IsCampaign(inputs, runs) && k < |runs| && n < |runs[k].worlds|
    requires forall i | 0 <= i < k :: RecordIsOurs(inputs, LastWorld(runs[i]))
    ensures Safe(inputs, runs[k].worlds[n]) && StreamReadsPoweredOff(runs[k].worlds[n])
    ensures !(runs[k].worlds[n].sourceRunning && TargetRuns(inputs, runs[k].worlds[n]))
  {
    EachRunStartsFresh(inputs, runs, k);
    MigrationIsSafe(inputs, runs[k].worlds, runs[k].events, n);
  }

  /** A record of the target's own volume stays latest through a run, so every cleanup of it restores. */
  lemma OursOnceRecorded(inputs: Inputs, worlds: seq<World>, events: seq<Event>, n: nat)
    requires WorkflowRun(inputs, worlds, events) && n < |worlds| && FreshTarget(inputs, worlds[0])
    requires RecordedDataset(worlds[0]) == Some(FullName(inputs.zvol))
    ensures RecordedDataset(worlds[n]) == Some(FullName(inputs.zvol)) && RecordIsOurs(inputs, worlds[n])
  {
    InvariantHolds(inputs, worlds, events, n);
    assert worlds[0].zvolData.value.devPath == ZvolDevPath(FullName(inputs.zvol));
  }

  /**
   * Any number of failed runs is undone: once some earlier run has recorded the target's volume,
   * every later run, however the ones before it failed, starts on the host as it was.
   */
  lemma {:induction false} FailedRunsAreUndone(inputs: Inputs, runs: seq<Attempted>, k: nat)
    requires IsCampaign(inputs, runs) && k < |runs|
    requires RecordedDataset(FirstWorld(runs[0])) == Some(FullName(inputs.zvol))
    ensures FreshTarget(inputs, FirstWorld(runs[k])) && Restored(FirstWorld(runs[0]).server, FirstWorld(runs[k]).server)
    ensures RecordedDataset(FirstWorld(runs[k])) == Some(FullName(inputs.zvol))
    ensures forall i | 0 <= i < k :: RecordIsOurs(inputs, LastWorld(runs[i]))
  {
    if k > 0 {
      var r := runs[k - 1];
      FailedRunsAreUndone(inputs, runs, k - 1);
      EachRunStartsFresh(inputs, runs, k - 1);
      OursOnceRecorded(inputs, r.worlds, r.events, |r.events|);
      assert Restarts(inputs, LastWorld(r), FirstWorld(runs[k - 1 + 1]));
    }
    EachRunStartsFresh(inputs, runs, k);
  }
}
