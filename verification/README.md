# Verified models of the swamp extensions

A Dafny model of the logic behind moving a virtual machine from Proxmox to TrueNAS, and of the
extensions around it: the TrueNAS provisioning methods and the `migrate-vm` workflow, the JSON-RPC
socket they talk through, the text codecs, the trust graph and its scorecard, retries and
pagination, the aurae cell lifecycle, the DNS store, the Omni inventory and the fleet report.
`dafny verify dfyconfig.toml` checks all of it.

## What is modelled

**Provisioning** (`Records`, `TrueNasServer`, `Provisioning`, `ProvisioningRuns`, `InFlight`). The host is a value: data
sets, VMs, devices and two id counters, with the effect of each request. A `Session` object issues
requests over a link that may lose any request or any reply; each method is a query followed by at
most one write, and its contract says what the host can be left as on every outcome. Above the
methods: any number of attempts cut off anywhere, then one full run, ends in exactly the state of a
single run; and sequential runs keep names, disk paths and MACs unique and every VM without the
marker in place. `InFlight` adds writes that outlive their caller and land late, on a host that
may or may not refuse duplicates.

**The workflow** (`MigrateWorkflow`, `StepOrder`, `OverlapRun`, `WorkflowSteps`, `Compensation`, `Campaign`). The
steps and their `dependsOn` conditions are a transition system. The engine may begin any step whose
conditions hold, run steps side by side, skip a step, and fail a running one before or after its
effect; `WorkflowSteps` ties the transitions to the methods. Whole-run safety is proved at every
point of every run, and `StepOrder` states over the events when a step may begin, that the source is
never shut down unapproved, and which steps may fail. The cleanup job is proved to undo the target side exactly under a condition that
can be checked beforehand, and failing, cleaning up and running again to be safe any number of times.

**JSON-RPC** (`JsonRpc`). The socket object under any order of calls, failed sends, responses
(reordered, duplicated, unknown), expiring timers and a close. A reference reads each call's fate
off the event list; the object's state is proved to agree with it.

**Codecs** (`AerLog`, `Omnictl`, `ShellQuoting`, `ZoneList`). Each is proved to undo a printer: the
log reader for every chunking, the JSON splitter for every printed list of objects (sections 2 to 7
of RFC 8259), the ssh command builder through two shells (sections 2.2 and 2.3 of POSIX.1-2017
XCU), and the `zoneadm` field splitter. `DdOutput` and `DiskStream` add the choice of transfer mode, the reading
of `dd`'s counts, and what the gate on transferred bytes guards.

**Trust graph** (`TrustGraph`, `TrustProperties`, `Scorecard`, `Tallies`, `ScanSheet`, `PostureGate`,
`PostureReport`). The three derivations, the
merge, the posture cache, the scorecard and the threshold gate; `ScanSheet` reads the scorecard off the scan, `PostureGate` says what a passing
gate means for the scan, and `PostureReport` when a report's closing sentence is true.

**Lifecycles and stores** (`CellRun`, `HttpRetry`, `DnsStore`, `OmniInventory`, `RollUps`, `FleetRows`). Resource
release under failure anywhere, bounded retries and pages, a record list refining a map, a join
whose counts are conserved, and a stable argmax.

## Where the code and its documentation, or a natural expectation, differ

The model follows the code. Each of these is stated as an exact condition or with a concrete case.

- Cleanup names the volume to delete through `data.latest`, which may be the record of an earlier
  migration. Cleanup restores the host if and only if that record is this run's
  (`CleanupRestoresExactly`); `CleanupCanDeleteAnEarlierVolume` is a run in which it is not.
- The offline edit runs over ssh with a timeout that kills the local client only
  (`migrate/ssh.ts:79-109`), and `start-target` waits for the step to be `completed`. So a running
  target and an edit can overlap, exactly when an editor was left behind so (`OverlapExactly`); a run
  that gets there is spelled out (`OverlapIsReachable`).
- `truenas/vm.ts:9-10` says that a re-run is safe. A call that timed out may still take effect later
  (`truenas/client.ts:190-206`). A volume is never made twice. A VM or device is, when a late write
  lands beside another attempt's and the host accepts it, and nothing else spoils a re-run
  (`InFlightConverges`). Re-running is safe whatever lands late if and only if the host refuses
  duplicates or all three are there already (`AlwaysConvergesExactly`, `LateWriteDoubles`).
- In direct mode one stderr carries the output of the reading and of the writing `dd`
  (`migrate/disk.ts:316-332`), and the pipeline's exit code is its last command's. So the count that
  is verified may be the reader's. A transfer passes exactly when either count verifies
  (`DirectAcceptsEither`), and the gate guards the bytes written if and only if the transfer is
  relayed or the reader read no more than the writer wrote (`GateGuardsExactly`).
  `ShortCopyIsAccepted` gives the stderr of a short copy that passes; `EmptyDiskIsReachable` is a run
  of the workflow that ends with the target running on an empty disk.
- The delete gate protects the VM, not the data set named by `zvolPath`
  (`DeleteKeepsDataset`, `UnmarkedVmCanLoseItsDisk`).
- `trust_graph.ts:121-124` says that a bare `assert_posture` always passes; `maxCritical` and
  `maxHigh` default to 0, so it passes exactly without critical and high findings
  (`BareRunPassesExactly`). A floor of p percent admits true coverage down to p - 0.5
  (`PassingMeansCovered`, `FloorCanBeMissed`).
- A report without findings says that every trust edge is ephemeral and conditioned
  (`trust-network/shared/graph.ts:1032-1037`). That is true exactly when there is no identity provider
  and no service token and every application has a policy by the cache (`SentenceHoldsExactly`); one
  identity provider that needs a company account makes it false (`SentenceCanBeFalse`).
- The posture cache joins account and application with a slash, so ids with slashes can share an
  entry (`CacheAgreesExactly`, `CacheCanMixApplications`). A provider condition of "" would be marked
  gated without a factor; the parser never yields it (`ProviderGatingExactly`,
  `NormalizedCondition`).
- `aurae/target.ts:174-177` says that cleanup failures are never thrown again; when running
  `cell stop` itself throws, the run rejects and `cell free` is skipped (`FreedExactly`).
- The 200-page cap is silent (`CapIsSilent`). An upsert on a record without an id posts a second one
  (`UpsertNeedsTheId`), and a delete silently keeps it (`DeleteRefinesRemoval`). A cluster id listed
  twice counts its members twice, and a cluster named like a property that every object inherits is
  rolled up as text or not at all (`InventoryIsConserved`, `InheritedNamesBreakRollUps`).

## Model

| member | source | states |
|---|---|---|
| Records.FindFirst | truenas/vm_parse.ts:107-121 | The `find*` loops: the first record that meets the condition |
| Records.FirstOfWhere | truenas/vm.ts:218-233 | Searching a reply that the host has filtered finds what a search of everything for both conditions would |
| Records.FirstIsHeld | truenas/vm_parse.ts:163-186 | A search finds a record exactly when one meets the condition, and what it finds is held and meets it |
| TrueNasServer.SameDeviceExactly | truenas/vm_parse.ts:246-274 | Two devices count as one exactly if they are disks of one path or NICs of MACs that are the same letter by letter up to case |
| TrueNasServer.PathNamesDataset | truenas/vm.ts:236-239 | A device path stands for a data set exactly if it is `/dev/zvol/` and that non-empty name, free of line breaks |
| Provisioning.MarkerIsStamped | truenas/vm_parse.ts:128-138 | The caller's text, trimmed, stays in front and gets the marker exactly if it lacks it; the stamped text passes the marker test, and stamping it again changes nothing |
| Provisioning.Session.Call | truenas/client.ts:140-153 | One call: answered as the host answers, or lost before or after its effect |
| Provisioning.Session.CreateZvol | truenas/vm.ts:335-396 | On every outcome the host is untouched or holds exactly the volume asked for, sparseness and block size included; a smaller existing one is refused |
| Provisioning.ZvolIsProvided | truenas/vm.ts:335-396 | What a success provides: a data set of the name, with every property asked for if it was made, else of at least the size asked if it tells one; size, path and `existed` of the record are that data set's |
| Provisioning.Session.CreateVm | truenas/vm.ts:408-462 | On every outcome the host is untouched or has exactly one new stamped VM if none had the name; the record returned is the VM of that name |
| Provisioning.VmIsProvided | truenas/vm.ts:408-462 | What a success provides: a VM of the name; if there was none, a stopped one with every setting asked for and the marker |
| Provisioning.Session.Attach | truenas/vm.ts:474-596 | Disk and NIC: the device is created only if the VM has none of that path, or of that MAC up to case, and `existed` says just that; the id returned is the device's |
| Provisioning.DeviceIsProvided | truenas/vm.ts:474-596 | What a success provides: a device of that path or MAC on that VM, and if there was none, exactly the one asked for |
| Provisioning.Session.ResolveVm | truenas/vm.ts:218-233 | Resolution changes nothing and finds the VM by id, with the unfiltered fallback, or by name |
| Provisioning.Session.SetRunning | truenas/vm.ts:606-664 | Start and stop change the running flag of the resolved VM and nothing else, or nothing |
| Provisioning.Session.Delete | truenas/vm.ts:702-760 | A shut gate changes nothing; an open one removes the VM, its devices and the named volume, in that order |
| ProvisioningRuns.RerunConverges | truenas/vm.ts:9-10 | Any number of attempts cut off at any call, then one full run, gives exactly the host of one full run, id counters included |
| ProvisioningRuns.Provision | truenas/vm.ts:335-596 | The four methods in order, cut off anywhere, leave the host at one of the stages |
| ProvisioningRuns.ProvisionWithRetries | truenas/vm.ts:9-10 | Retrying over arbitrary faulty links and then once over a working one succeeds and leaves the host of a single run |
| ProvisioningRuns.Perform | truenas/vm.ts:335-760 | Each method, whatever the link does, has one of the effects that the run theorems quantify over |
| ProvisioningRuns.RunKeepsUnique | truenas/vm.ts:477-564 | At every point of every sequential run no two VMs share an id or a name, and no two devices of one VM a path, or a MAC up to case |
| ProvisioningRuns.RunKeepsUnmarked | truenas/vm.ts:16-19 | No unforced run removes or reconfigures a VM without the marker |
| ProvisioningRuns.CreatedVmsPassGate | truenas/vm.ts:706-720 | At every later point of a run every VM that the run made carries the marker and passes the gate, by whichever reference it is named |
| ProvisioningRuns.DeleteUndoesCreate | truenas/vm.ts:702-760 | Creating and deleting a VM leaves the host as it was but for the id counter |
| ProvisioningRuns.DeleteKeepsDataset | truenas/vm.ts:722-760 | Exactly which data sets a permitted delete keeps, in terms of device paths and the path given: no marker protects them |
| ProvisioningRuns.UnmarkedVmCanLoseItsDisk | truenas/vm.ts:16-19 | A concrete unforced delete that takes the disk of an unmarked VM |
| InFlight.InFlightConverges | truenas/vm.ts:9-10 | Attempts whose writes outlive them, sequential or not, converge to the host of a single run if and only if no write is accepted by a host that already has what it creates; volumes never are, and a refusing host accepts none |
| InFlight.RecordsAreCounted | truenas/client.ts:190-206 | Conservation when writes land late: a full run ends with as many records as a single run and one more per write accepted by a host that had its object |
| InFlight.LateWriteDoubles | truenas/vm.ts:408-596 | Wherever the VM, its disk or its NIC is the next thing missing, two attempts that both looked first leave two of it on a host that accepts duplicates |
| InFlight.AlwaysConvergesExactly | truenas/vm.ts:9-10 | Checkable before the first attempt: every re-run converges, whatever lands late, if and only if the host refuses duplicates or the VM and both devices are there |
| MigrateWorkflow.InvariantHolds | workflows/workflow-c2fc7fd4-ca18-4c07-b20b-80ab56124402.yaml:115-399 | At every point of every run the host is the initial one plus exactly what the acted steps created |
| StepOrder.BeginsExactly | workflows/workflow-c2fc7fd4-ca18-4c07-b20b-80ab56124402.yaml:115-399 | At every point of every run a step may begin if and only if it has had no turn yet and earlier events met each of its `dependsOn` entries |
| StepOrder.SourceGoesOffApproved | workflows/workflow-c2fc7fd4-ca18-4c07-b20b-80ab56124402.yaml:184-221 | Whenever a run has switched the source off, it was by a shutdown after the approval's success, with the volume made and the in-guest preparation over before |
| StepOrder.CleanupSparesAStartedTarget | workflows/workflow-c2fc7fd4-ca18-4c07-b20b-80ab56124402.yaml:400-424 | The job that cleanup waits for has failed only if the target was not reported started |
| StepOrder.CriticalExactly | workflows/workflow-c2fc7fd4-ca18-4c07-b20b-80ab56124402.yaml:115-399 | A step is not allowed to fail if and only if every run that reports the target started rests on its success |
| MigrateWorkflow.MigrationIsSafe | workflows/workflow-c2fc7fd4-ca18-4c07-b20b-80ab56124402.yaml:205-349 | A running target implies that approval and shutdown succeeded and the source is off; the transfer's reported count verified, and with it the bytes written if that count is the writer's; the VM runs with the settings asked for, on exactly the disk streamed to and with exactly the NIC of the source's MAC; no unabandoned edit; the stream reads a powered-off source; source and target never run together |
| MigrateWorkflow.VerifiedExactly | migrate/build.ts:132-144 | A count verifies exactly when not one whole block is missing |
| MigrateWorkflow.WrittenVerifiesExactly | migrate/build.ts:132-144 | For an honestly reported transfer, acceptance means that the bytes written verify, for every size and block, if and only if no reader's count beside the writer's was larger |
| MigrateWorkflow.SourceStaysOff | workflows/workflow-c2fc7fd4-ca18-4c07-b20b-80ab56124402.yaml:205-399 | No step starts the source again |
| MigrateWorkflow.EditorOutlivesItsStep | workflows/workflow-c2fc7fd4-ca18-4c07-b20b-80ab56124402.yaml:302-326 | An editor is at work beside its step exactly when the step failed over it and it has not exited since |
| MigrateWorkflow.OverlapExactly | workflows/workflow-c2fc7fd4-ca18-4c07-b20b-80ab56124402.yaml:302-349 | At any point of any run the target runs while its disk is edited if and only if it was started and an editor was left behind by its failed step |
| OverlapRun.OverlapIsReachable | workflows/workflow-c2fc7fd4-ca18-4c07-b20b-80ab56124402.yaml:115-349 | From every initial world whose volume is not too small, and for every transfer that claims its size, a run, event by event, to a target that runs, safely in every other respect, while its disk is edited |
| OverlapRun.EmptyDiskIsReachable | workflows/workflow-c2fc7fd4-ca18-4c07-b20b-80ab56124402.yaml:223-349 | A run to a target that runs although nothing was written to its disk, the reader's count having been accepted |
| WorkflowSteps.DoCreateZvol | workflows/workflow-c2fc7fd4-ca18-4c07-b20b-80ab56124402.yaml:146-163 | Over any link `create_zvol` moves the world along the step graph, and its record is the one kept |
| WorkflowSteps.DoCreateVm | workflows/workflow-c2fc7fd4-ca18-4c07-b20b-80ab56124402.yaml:245-261 | The same for `create_vm` |
| WorkflowSteps.DoAttach | workflows/workflow-c2fc7fd4-ca18-4c07-b20b-80ab56124402.yaml:264-299 | The same for `attach_disk` and `attach_nic`; without the records they read they fail |
| WorkflowSteps.DoStart | workflows/workflow-c2fc7fd4-ca18-4c07-b20b-80ab56124402.yaml:329-349 | The same for `start` |
| WorkflowSteps.DoStream | workflows/workflow-c2fc7fd4-ca18-4c07-b20b-80ab56124402.yaml:223-242 | The stream step writes to the recorded volume's path and succeeds exactly when the disk mover accepted a count; path and transfer are what is recorded, honestly if `dd` prints what it counted |
| Compensation.CleanUp | workflows/workflow-c2fc7fd4-ca18-4c07-b20b-80ab56124402.yaml:403-424 | The cleanup job's effect on the host: a forced delete of the target's name and of the latest recorded volume |
| Compensation.CleanupRestoresExactly | workflows/workflow-c2fc7fd4-ca18-4c07-b20b-80ab56124402.yaml:403-424 | From a host without the target's name and volume, cleanup at any point restores every VM, data set and device if and only if the latest record is this run's |
| Compensation.CleanupAfterRecordedZvol | workflows/workflow-c2fc7fd4-ca18-4c07-b20b-80ab56124402.yaml:146-163 | Once `create-zvol` has succeeded cleanup restores the host, whatever fails later |
| Compensation.CleanupCanDeleteAnEarlierVolume | workflows/workflow-c2fc7fd4-ca18-4c07-b20b-80ab56124402.yaml:403-424 | A run failing at its first step whose cleanup deletes an earlier migration's volume |
| Campaign.EachRunStartsFresh | workflows/workflow-c2fc7fd4-ca18-4c07-b20b-80ab56124402.yaml:403-424 | Run, cleanup, run again, any number of times: while each run ends with its own record latest, the next starts on the host of before the first, id counters apart |
| Campaign.CampaignIsSafe | workflows/workflow-c2fc7fd4-ca18-4c07-b20b-80ab56124402.yaml:205-349 | And is safe at every point |
| Campaign.FailedRunsAreUndone | workflows/workflow-c2fc7fd4-ca18-4c07-b20b-80ab56124402.yaml:403-424 | Once the target's volume was ever recorded no condition is needed: every failed run is undone |
| DdOutput.ParseDdBytes | migrate/build.ts:124-130 | The largest figure in the text, or none |
| DdOutput.MatchIsThePattern | migrate/build.ts:124-130 | The search finds at a place exactly what the pattern matches there, digits, blanks, word and word boundary |
| DdOutput.PrintedFigureIsRead | migrate/build.ts:118-130 | A count printed as `dd` prints it is among the figures, whatever stands around it |
| DdOutput.FiguresAreTheCounts | migrate/build.ts:118-130 | And a text that prints just these counts, with nothing like a figure between them, has just these figures, in order |
| DiskStream.Stream | migrate/disk.ts:281-395 | The commands of direct mode if asked for or found possible by the probe, else of relay mode; a transfer is recorded exactly when its legs succeed and some count in the stderr of the writing leg verifies; the count recorded is the largest |
| DiskStream.DirectAcceptsEither | migrate/disk.ts:316-332 | A direct transfer passes exactly when the reader's or the writer's count verifies |
| DiskStream.GateGuardsExactly | migrate/disk.ts:316-367 | What is accepted has its written bytes verified, for every expected size and block, if and only if the transfer is relayed or the reader read no more than was written |
| DiskStream.ShortCopyIsAccepted | migrate/build.ts:97-108 | The exit code and stderr with which any copy that is short by a block or more passes in direct mode |
| JsonRpc.JsonRpcSocket.Call | truenas/client.ts:140-153 | A call takes the next id and waits, settles at once if sending throws, or is refused after a close |
| JsonRpc.JsonRpcSocket.OnMessage | truenas/client.ts:113-131 | A frame settles the pending call of its id; anything else changes nothing, and the handler throws exactly on a frame whose JSON is `null` |
| JsonRpc.JsonRpcSocket.OnClose | truenas/client.ts:133-138 | The first close rejects every pending call in order; a second changes nothing |
| JsonRpc.JsonRpcSocket.OnExpire | truenas/client.ts:190-206 | The timer answers the caller and leaves the pending entry |
| JsonRpc.RunIsWellFormed | truenas/client.ts:90-162 | After any events pending and settled calls together are the issued ids, each once, and nothing is pending after a close |
| JsonRpc.EachCallMeetsItsFate | truenas/client.ts:113-153 | Each call is settled at most once, as the first response with its own id, the send failure or the close says; its caller hears that or the timeout, whichever came first |
| JsonRpc.FirstResponseSettles | truenas/client.ts:113-131 | Spelled out: the first response to a call settles it once, rejecting it exactly if its `error` is none of absent, null, false, 0 and the empty string; its caller hears that, or the timeout if the timer was first |
| JsonRpc.IdsAreFresh | truenas/client.ts:140-143 | Two accepted calls never share an id |
| JsonRpc.ClosedForGood | truenas/client.ts:133-141 | After a close nothing is pending and calls are refused |
| AerLog.Unescape | aurae/aer.ts:225-259 | The index loop computes the recursive unescaping |
| AerLog.UnescapeUndoesEscape | aurae/aer.ts:225-259 | Whatever the text, unescaping undoes its printing with the six short escapes |
| AerLog.UnknownEscapeIsKept | aurae/aer.ts:252-255 | Every other escape is kept as it was printed, so no data is lost |
| AerLog.ExtractLogLines | aurae/aer.ts:214-223 | The matching loop finds every line field of the text |
| AerLog.MatchIsThePattern | aurae/aer.ts:214-223 | The search finds at a place exactly what the pattern matches there: word boundary, key, blanks, and a quoted literal of plain characters and escapes |
| AerLog.CutIsSafe | aurae/aer.ts:153-173 | Text cut off at a stanza's end reads the same apart from what follows |
| AerLog.Observe | aurae/aer.ts:153-173 | Over any chunking, exactly the lines of the whole text, in order; and the lines of every stanza are out as soon as the chunk that finishes it has come |
| AerLog.PrintedStreamIsWhole | aurae/aer.ts:214-268 | A stream of well printed stanzas, whatever escapes their lines hold and whatever the stream's ending, reads as the printed lines, unknown escapes verbatim, and every cut lies between matches |
| AerLog.ObservePrinted | aurae/aer.ts:153-173 | The printed lines come back whatever the chunks and the ending were, the first k of them by the chunk that completes k stanzas |
| Omnictl.SplitObjects | omni/omnictl.ts:69-109 | The scanner's loop over depth, start, string and escape state cuts the top-level objects |
| Omnictl.ParseOmnictlJson | omni/omnictl.ts:69-109 | Empty output, the array form, unbalanced braces, and otherwise each object parsed in order |
| Omnictl.SplitUndoesPrint | omni/omnictl.ts:69-109 | Every list of objects in any spacing, with any braces and quotes in strings, is cut into exactly its printed texts and not taken for an array |
| Omnictl.TruncatedIsRefused | omni/omnictl.ts:69-109 | Output that breaks off anywhere inside an object is refused, however many whole objects precede |
| Omnictl.StrayBraceIsRefused | omni/omnictl.ts:69-109 | A closing brace outside every object is refused, whatever follows |
| ShellQuoting.ShqIsPiece | migrate/build.ts:14-16 | The quoted form of every string is one word piece meaning that string |
| ShellQuoting.DirectCommandSurvivesTwoShells | migrate/build.ts:97-108 | The source's shell gives ssh the write pipeline as one word, and the target's shell reads that as `dd` on the original strings |
| ShellQuoting.RelayCommandsAreRead | migrate/build.ts:78-89 | Each relay leg is read as its pipeline on the original strings |
| ZoneList.SplitFields | helios/helios_zone.ts:147-166 | The character loop computes the field list |
| ZoneList.SplitReadsMarks | helios/helios_zone.ts:147-166 | Splitting undoes printing, whichever characters were escaped, and keeps a backslash at the end of the line |
| ZoneList.EveryLineIsMarks | helios/helios_zone.ts:147-166 | Every line is such a printed line, so its reading is determined |
| ZoneList.SplitUndoesLine | helios/helios_zone.ts:147-166 | Splitting undoes colon and backslash escaping for every non-empty field list |
| TrustGraph.DeriveGithubSlice | trust-network/shared/graph.ts:239-307 | The edges and domain ids of the GitHub slice |
| TrustGraph.DeriveGcpSlice | trust-network/shared/graph.ts:356-557 | The edges and domain ids of the GCP slice |
| TrustGraph.BuildCache | trust-network/shared/graph.ts:692-698 | The posture cache, last application per key |
| TrustGraph.DeriveCloudflareSlice | trust-network/shared/graph.ts:658-879 | The edges and domain ids of the Cloudflare slice |
| TrustGraph.Build | trust-network/trust_graph.ts:261-269 | The merged graph: all slices' edges in order and the union of their domain ids; every domain is kept under its own id, which begins with its platform |
| TrustProperties.GraphIsWellFormed | trust-network/trust_graph.ts:261-269 | For every scan, both endpoints of every edge are domains of the graph, and an edge is ephemeral exactly when it is a federation |
| TrustProperties.EdgesRunTheRightWay | trust-network/shared/graph.ts:239-879 | Every edge runs from whoever a scanned resource lets in to what it lets them into, with that resource's credential type |
| TrustProperties.PostureExactly | trust-network/shared/graph.ts:590-604 | An application is open exactly if a policy of its own bypasses, or allows everyone; its factors are those that its allow policies ask |
| TrustProperties.SourceNamesTheTrusted | trust-network/shared/graph.ts:380-428 | A provider is attributed to an organisation exactly if it trusts GitHub Actions and pins just that owner; the other sources likewise |
| TrustProperties.BoundExactly | trust-network/shared/graph.ts:346-349 | An account is bound to a provider exactly if it is of its project and a member names the pool as a whole path segment |
| TrustProperties.AppDomainsAreApart | trust-network/shared/graph.ts:682-690 | With slash-free account ids, applications share a domain only if account and application are the same |
| TrustProperties.GraphSize | trust-network/shared/graph.ts:239-879 | The exact number of edges of every graph |
| TrustProperties.NormalizedCondition | trust-network/shared/gcp.ts:157-159 | A blank or absent condition becomes none, any other is kept |
| TrustProperties.ProviderGatingExactly | trust-network/shared/graph.ts:433-502 | A provider's edges are soundly marked exactly when its condition is not "" |
| TrustProperties.GraphIsGatedSoundly | trust-network/shared/graph.ts:499-789 | With normalized conditions, a gated edge names a factor and carries neither "anyone" finding |
| TrustProperties.CacheAgreesExactly | trust-network/shared/graph.ts:692-698 | Every lookup equals the direct computation if and only if applications sharing a key share their posture |
| TrustProperties.CacheAgreesForSlashFreeIds | trust-network/shared/graph.ts:746-779 | Slash-free account ids are enough |
| TrustProperties.CacheCanMixApplications | trust-network/shared/graph.ts:692-698 | Two applications whose ids make a bypassed one look clean |
| Tallies.TallySpec | trust-network/shared/graph.ts:886-929 | A tally holds exactly the occurring keys, each with its count, and adds up to all of them |
| Scorecard.ComputeInventory | trust-network/shared/graph.ts:886-929 | The loops compute the tallies, counts and percentages of the graph |
| Scorecard.ScorecardAgrees | trust-network/shared/graph.ts:886-1002 | Tallies by type, platform and severity add up to edges, domains and findings, and each report group has its tallied size |
| Scorecard.TalliesExactly | trust-network/shared/graph.ts:886-929 | Each credential type is tallied with the number of its edges, and each platform with the number of its domains |
| ScanSheet.ScorecardOfScan | trust-network/shared/graph.ts:239-929 | For every scan the scorecard of its graph, edges, findings of each severity, ephemeral and conditioned edges, read off the scanned resources alone, with percentages within half a point |
| Scorecard.PctBound | trust-network/shared/graph.ts:913-914 | The rounded figure is within half a point of the truth and between 0 and 100 |
| Scorecard.AssertPosture | trust-network/trust_graph.ts:324-360 | Each violation is reported exactly when its threshold is crossed, none exactly when the graph passes |
| Scorecard.BareRunPassesExactly | trust-network/trust_graph.ts:121-141 | With default thresholds a graph passes exactly when no edge carries a critical or high finding and the medium ones are within bounds |
| Scorecard.FloorMeans | trust-network/trust_graph.ts:324-360 | Any floor from 0 to 100, fractional ones included, is met exactly when true coverage falls short of the floor rounded up by half a point at most, or there is nothing to cover |
| Scorecard.PassingMeansCovered | trust-network/trust_graph.ts:324-360 | Passing any floor guarantees true coverage of the floor less half a point |
| Scorecard.FloorCanBeMissed | trust-network/trust_graph.ts:324-360 | True coverage below 67 percent that passes a floor of 67 |
| PostureGate.GraphIsCleanExactly | trust-network/trust_graph.ts:261-269 | The whole graph is free of critical and high findings exactly when the scan holds none of the four causes, each application judged by the policies of the last one with its cache key |
| PostureGate.CacheErrsOneWay | trust-network/shared/graph.ts:692-698 | The cache cannot make an application look open when none is, and judges rightly when applications sharing a key share their posture |
| PostureGate.BareGateMeans | trust-network/trust_graph.ts:324-360 | From scan to verdict, over policies: with default thresholds the gate passes exactly when the scan holds none of the four causes (a policy that bypasses or allows everyone is one) and the medium findings counted off the scan are within bounds; applications are judged by the last one with their cache key, and by their own policies if shared keys agree |
| PostureReport.SentenceHoldsExactly | trust-network/shared/graph.ts:1032-1037 | In a report without findings the sentence is true if and only if there is no identity provider, no service token, and every application, judged by the last one with its cache key, has a policy |
| PostureReport.SentenceCanBeFalse | trust-network/shared/graph.ts:1032-1037 | A scan of one identity provider has no findings and an unconditioned edge |
| CellRun.CellTarget.Drain | aurae/target.ts:149-164 | For any interleaving both sinks and the log hold what arrived, after a breakage of the other observer too, and the reason is the first marked stderr line |
| CellRun.CellTarget.Run | aurae/target.ts:92-199 | Commands, sinks, log and result of a whole run |
| CellRun.FreedExactly | aurae/target.ts:173-198 | Free is issued exactly when the cell was allocated and stopping, if tried, did not throw; stop exactly when a pid was parsed; the executable is started exactly in an allocated cell |
| CellRun.StopBeforeFree | aurae/target.ts:173-198 | Stop precedes free and neither is repeated |
| CellRun.SinksAreChannels | aurae/target.ts:149-164 | Each sink is its channel in order up to its end or breakage, for every interleaving |
| CellRun.ReasonExactly | aurae/target.ts:92-171 | Why a run failed: the step that did, else the first marked line of stderr even if the run was aborted, else the abort |
| CellRun.BreaksExactly | aurae/target.ts:149-164 | The drain breaks exactly if an observer breaks whose channel has neither ended nor broken before |
| CellRun.TimeoutRace.OnTimer | aurae/mod.ts:204-238 | The timer aborts the run and answers nothing |
| CellRun.TimeoutRace.OnSettled | aurae/mod.ts:204-238 | The run's settling gives the answer, synthetic only for a failure after the timer |
| CellRun.AnsweredOnlyAfterCleanup | aurae/mod.ts:204-238 | There is an answer exactly when the run has settled, for any order of timer and settling |
| CellRun.WithTimeout | aurae/mod.ts:204-238 | When it answers, every command of the run and of its cleanup has been issued; the answer is synthetic exactly when the timer fired and the run rejected, else the run's own |
| HttpRetry.RequestRaw | trust-network/shared/http.ts:155-226 | At most maxRetries + 1 requests and maxRetries * 90 s of sleep, the outcome (an unreadable 2xx body included) read off the last attempt, and the final throw reached exactly for a negative maxRetries |
| HttpRetry.GoesOnExactly | trust-network/shared/http.ts:155-226 | An attempt is repeated exactly if retries are left and it met a network error, or 429, 500 and above, or 403 with the limit used up, and is told to come back within 90 seconds or untold |
| HttpRetry.WaitEndsAtTheMoment | trust-network/shared/http.ts:132-145 | A wait that the server asks for ends at the moment it named, or at once if that is past |
| HttpRetry.BackoffDoubles | trust-network/shared/http.ts:126-130 | Other waits are 1, 2, 4, 8, 16 and then 20 seconds, and the jitter |
| HttpRetry.VerdictExactly | trust-network/shared/http.ts:155-226 | What the last attempt amounts to: the body of a 2xx, its loss, a reset too far off, or an error |
| HttpRetry.FetchPaginated | trust-network/shared/http.ts:257-297 | The items of the first 200 pages of the cursor chain in order, or a throw exactly when one of those requests throws; a server may answer a cursor differently each time |
| HttpRetry.CapIsSilent | trust-network/shared/http.ts:257-297 | The result is complete exactly when the chain ends within the cap; otherwise exactly that many pages are taken |
| DnsStore.FindExisting | unifi/parse.ts:59-71 | The first record of the name and type up to case and blanks |
| DnsStore.SlotExactly | unifi/parse.ts:59-71 | A record is found exactly by a key and type that are its own up to case and surrounding blanks, an absent type counting as A |
| DnsStore.UpsertRecord | unifi/dns.ts:190-245 | The controller's records after reading, matching, and one PUT or POST |
| DnsStore.DeleteRecord | unifi/dns.ts:273-303 | The controller's records after reading, matching, and at most one DELETE |
| DnsStore.UpsertRefinesUpdate | unifi/dns.ts:190-245 | Where the record found, if any, has an id, upsert is a map update: the slot holds the new key, type, value and state with every other field kept, other slots are untouched, distinctness is kept, a second one changes nothing |
| DnsStore.DeleteRefinesRemoval | unifi/dns.ts:273-303 | Delete removes the slot if and only if the record found, if any, has an id; every other record stays, and a second delete changes nothing |
| DnsStore.DeleteUndoesCreate | unifi/dns.ts:190-303 | Deleting what was just created restores the record list |
| DnsStore.UpsertNeedsTheId | unifi/dns.ts:190-245 | Upsert keeps slots distinct if and only if the record it finds, if any, has an id |
| OmniInventory.MergeInventory | omni/transform.ts:198-279 | Nodes, clusters, notes and the three roll-ups as plain objects |
| OmniInventory.NodesMirrorMachines | omni/transform.ts:206-216 | Each node says of its machine what it is, and has a status exactly if one with its non-empty id was listed |
| OmniInventory.ClustersAreCounted | omni/transform.ts:232-250 | Each listed cluster, in order, is counted by the machines that name it, by role and by contact |
| OmniInventory.RollUpsExactly | omni/transform.ts:253-262 | Each roll-up holds, for every key that no object inherits, the number of machines of that cluster, role or version |
| OmniInventory.NotesExactly | omni/transform.ts:218-230 | A machine is noted exactly if it names a cluster that is not listed, or one without having a status |
| OmniInventory.InventoryIsConserved | omni/transform.ts:198-279 | Machine counts, unassigned and noted nodes add up to all nodes if and only if no populated cluster is listed twice, each roll-up if and only if none of its keys is an inherited name; the two roles fit in the machine count |
| OmniInventory.InheritedNamesBreakRollUps | omni/transform.ts:253-262 | A cluster named `constructor` is rolled up as text, one named `__proto__` not at all |
| RollUps.AddsUpExactly | omni/transform.ts:253-262 | A roll-up accounts for every key if and only if none is an inherited name |
| FleetRows.DedupeRows | fleet/render.ts:191-204 | The map-and-list loop computes the deduplicated rows |
| FleetRows.RichnessCounts | fleet/render.ts:179-184 | Richness is the number of known fields among vCPUs, memory, addresses and MACs |
| FleetRows.DedupedIsStableArgmax | fleet/render.ts:191-204 | One row per key in first-seen order, each the earliest richest, then every unnamed row |
| FleetRows.DedupeIsIdempotent | fleet/render.ts:191-204 | Deduplicating twice is deduplicating once |
| FleetRows.KeyIdentifiesGuest | fleet/render.ts:191-204 | For the three hypervisors, one key means one hypervisor and one name |
| FleetRows.TotalsByHypervisor | fleet/render.ts:212-248 | The totals loop gives each hypervisor that has rows the sums of its rows |
| FleetRows.TotalsIgnoreOrder | fleet/render.ts:212-248 | The totals do not depend on display order |

## Left out

- Real transport and processes: WebSockets, `fetch`, `ssh`, subprocesses, clocks and timers are an arbitrary environment or events.
- Two provisioning sessions at once: query-then-create is not atomic, so uniqueness is stated for sequential runs; convergence is stated for concurrent ones too (`InFlight`).
- Provisioning.Session.Call: within one session a lost request never takes effect later; `InFlight` models that apart from the session object.
- Loosely typed JSON (`asString`, `asNumber`, `asRecord`, the nestings of a device's type): replies are typed records.
- The host's own checks: that TrueNAS refuses requests on absent objects, hands out increasing ids and keeps data set names unique is assumed; whether it refuses a second VM of a name or a second like device is left open.
- DiskStream.GateGuardsExactly: that both `dd`s print their final counts, and no other figure is larger, is a condition (`PrintsItsCounts`), not derived.
- JsonRpc.JsonRpcSocket.OnMessage: what the runtime does after the handler has thrown is not part of this model.
- The workflow engine and Proxmox: that steps begin only under their conditions, and that a shutdown step that acted left the source off, is assumed.
- Schemas, logging, redaction, written resources, timestamps and markdown layout.
- Parsing `blockSize` tokens to bytes: the block size in bytes is a parameter of `DiskStream.Stream`. Figures in `dd`'s output are exact integers.
- ShellQuoting.DirectCommandSurvivesTwoShells: user and host are plain shell words, as the source inserts them unquoted; expansions and comments are refused by the shell model instead of being interpreted.
- AerLog.PrintedStreamIsWhole: finished stanzas carry one line field each, and no other field contains `line:` at a word boundary, which the pattern could not tell apart.
- Omnictl.SplitUndoesPrint: numbers and literal names are any non-empty text of their alphabet; `JSON.parse` itself is a parameter.
- Characters are code points and not UTF-16 units; case folding is ASCII.
- Numbers are unbounded; percentages and waits are exact, so floating-point rounding is not part of this model.
- CellRun.CellTarget.Run: where late log lines fall among the cleanup's commands is not recorded.
- FleetRows.TotalsByHypervisor: labels are those of the three normalizers; a label that is an inherited property name is not modelled.
- Campaign.EachRunStartsFresh: an editor left behind by an earlier run has exited before the next one; a start beside a leftover VM of the target's name is not part of this model.
- Edge ids, audiences and permissions of the trust graph; `stableHash` is not injective, so no distinctness of ids is claimed. Domain contents beyond id, platform and kind.
- `extractRepoOwners`, URL hosts and secret classification are uninterpreted; factor lists are sets.
- The provider scans, text scrapers for Helios hosts, and the scoped half of the zonecfg round trip, which the code does not complete.
- Sorting by `localeCompare` in the inventory and the report; no count depends on it.
- Data beyond counts and names in the Omni join, and unit parsing in the fleet report: they would only add easy members.
