# A verified model of the Kairos operator

This project models the parts of the Kairos operator that upgrade and reboot nodes and that build
OS artifacts, and proves what those parts are for. `dafny verify dfyconfig.toml`
verifies the whole project with Dafny 4.11.

## What is modelled

**The NodeOp controller, the reboot watcher and the cluster between them.** `Cluster.dfy` holds the
cluster as one value: the status of the NodeOp version by version, its Jobs and Pods, the Node objects
version by version, the real boots of every node, and the history of what the operator did. `Inv` is the
invariant. `Environment.dfy` says what may happen between two calls: boots, kubelet reports, Jobs and
Pods moving on or going away, outside writes, reboots by watchers. `Api.dfy` is the API server as the
operator meets it. Before every call any number of environment steps happen; a call may be lost, or
carried out with its reply lost; a write of a versioned object is refused unless it names the current
version; cached reads may be old. A restart of the operator is a pass whose remaining calls all fail.
A server that is `quiet` has no faults and no interference, and under it every operator method has an
exact contract. The operator's own code is in `NodeActions`, `RebootPods`, `NodeStatusPass`,
`StatusUpdate`, `RebootPodChoice`, `JobCreation`, `Preflights`, `Release`, `TargetNodes`,
`JobManagement` and `Reconciler`: methods over a mutable copy of the NodeOp, with the loops of the
source over maps in any order. `RebootWatcher.dfy` is the second process, against any behaviour of the
rest of the world.

The main results, for every run (`Reconciler.Run`, whose final trace and history tell the whole run):

- In reboot mode at most one upgrade Job is ever created for a node, under the name its reboot Pod was
  given and only after that Pod was seen ready, its container running and its last Ready condition true, and the
  NodeOp neither cordons nor drains the node after that.
  This holds while the run is *undisturbed*: the reboot Pod of a created Job stays alive and the Job is
  not deleted until the Job is recorded.
- In either mode, and whatever is lost or deleted, no further Job is created for a node from the moment the
  status records one. The converse holds too: without reboot mode a fault-free startMainJob on a node without
  a recorded Job always creates exactly one more, and in reboot mode it does so, once the new Pod is ready, on
  every such node without a live reboot Pod.
- "Reboot completed" stands on the stored boot ID: a succeeded Pod of the recorded Job reports it, the
  node has booted again after that boot, and it runs on another one. The same holds of an uncordon after
  a successful Job in reboot mode, at the moment it happens. A stored boot ID never changes.
- With a concurrency limit, no version of the status, persisted or in memory, has more entries in
  flight than the limit.
- With StopOnFailure, once a pass has come to manageJobCreation with a failed entry, nothing is created
  any more in the run; a fault-free such pass drops exactly the waiting nodes that have no Job, leaves
  them without live reboot Pods, and records the Jobs of the others.
- A fault-free status pass succeeds exactly when every node that it has to uncordon has a Node object,
  and then gives the same entries, the same phase and the same Nodes in whatever order the map is visited:
  a pending reboot is completed exactly when the Node is Ready on another boot than the one reported, a failure
  cancels it, and a Node loses this NodeOp's cordon exactly when the operation on it is over.
- The watcher reboots a node only on the very boot that a succeeded Pod of the Job reports; if those Pods
  agree, that is one boot, however many watchers there are and however often they restart. It ends well
  only when the node has booted since and runs on another boot than the one reported, and when the
  operator takes the node for rebooted the watcher's comparison says so too.

`Limits.dfy` has these converses, and runs of startMainJob itself that start from a new NodeOp and create two
Jobs for a node: in reboot mode when a refused status write is followed by the loss
of the reboot Pod, and without reboot mode already after the refused write.

**Cordon ownership.** `CordonOwnership.dfy` lets any number of NodeOps and outside actors work on one
Node over old reads: a NodeOp only undoes its own cordon, as long as nobody outside cordons a Node that
still carries an annotation; if someone does, the cordon is undone.

**The builder Pod.** `OSArtifactSpec.dfy`, `BuilderPod.dfy`, `BuilderPlan.dfy` and `BuildRun.dfy`:
validation, the assembly of the Pod with containers that share one slice of mounts, what holds of every
Pod made from a valid spec, down to the source of each volume and the mount at each path, and which files a
run leaves.

**The OSArtifact controller's phases**, in `ArtifactDecisions.dfy` and `OSArtifactController.dfy`, with any number of objects of others
under the same label, Jobs that go away, and reads that may be old. Ready means that one list showed a
succeeded Job for every exporter; an exporter gets a second Job only after its first one was removed; phases
only move forward as long as the second read in startBuild shows no phase past Building, and a fault-free build
start breaks the order exactly when it does. `ReadyWithoutExports`,
`ExportedTwice` and `BackToBuilding` are runs that show what the code does otherwise.

**Four algorithms**: shell quoting (`ExcludePaths`), name truncation (`Names`), and label values and the
label merge patch (`NodeLabels`).

## Assumptions about the environment

- The spec of a NodeOp does not change while it runs; its owner reference is a constant of the model.
- A Job's verdict sticks once it has one, and the name of a Job that is gone does not come back as a
  Job of the same NodeOp. Reads of Jobs by the operator are current.
- Boot IDs have the canonical form and are never reused. A Node object never shows a boot older than
  one on which a reporter of an upgrade Job of that node ran.
- What a succeeded Pod reports as a boot ID is the ID of a boot on which the reporter of its Job ran.
- A random Job name has not been used before. API reads that the source makes past the cache are current.
- The spec of an OSArtifact does not change while it is processed. Its Pods and Jobs are found by a label that
  holds its name, in all namespaces: that they are its own is a condition (`Store.Alone`), which holds when nothing
  else bears the label, such as the objects of an OSArtifact of that name in another namespace. Jobs may be removed at any time, by hand or by
  `ttlSecondsAfterFinished`, which an exporter can set.
- Tools that write a file write the one their arguments name.

## Where the code and its documentation differ

- The comment on `image.ref` says that `ociSpec` is ignored when it is set
  (`api/v1alpha2/osartifact_types.go:80`). The code still adds the image extractor and the `ocispec`
  volume when both are set (`internal/controller/job.go:304-306`, `993-1005`), and so does the model.
- The default volume names are documented as reserved, but `image-credentials` is not among them
  (`api/v1alpha2/osartifact_types.go:41-47`); `BuilderPlan.VolumesAreDistinct` says what follows, and
  `BuilderPlan.CredentialsNameClashes` gives a valid spec whose Pod has two volumes of one name.
- Validation looks at `uki.keysVolume` only when a UKI output is requested
  (`api/v1alpha2/osartifact_types.go:550-557`), but the builders mount it whenever it is set
  (`internal/controller/job.go:436-468`): `BuilderPlan.UnusedKeysAreMounted` gives a valid spec whose Pod
  mounts a volume that it does not declare.
- Validation compares the two ISO name overrides with each other only
  (`api/v1alpha2/osartifact_types.go:557-560`); `BuildRun.SharedISOName` gives the two ways in which a
  signed and an unsigned ISO still end up under one name.

## Model

| member | source | states |
|---|---|---|
| BootIds.FromJobPodsMeaning | internal/bootid/bootid.go:37-52 | the report is that of the first succeeded Pod that has a valid one, in list order; "" exactly when no succeeded Pod has one |
| BootIds.ContainerReportMeaning | internal/bootid/bootid.go:42-48 | a container reports an ID exactly when it is called boot-id-reporter, has ended, and its message is that ID with nothing but white space around it |
| BootIds.ValidMeaning | internal/bootid/bootid.go:21-31 | boot IDs are five groups of 8, 4, 4, 4 and 12 hexadecimal digits with hyphens between them |
| Cluster.InitialInv | internal/controller/nodeop_controller.go:1586-1596 | a cluster in which the NodeOp is new, whatever else is in it, satisfies the invariant |
| NodeOpTypes.JobVerdictMeaning | internal/controller/nodeop_controller.go:905-929 | the first true condition among the terminal ones decides: failed for Failed and FailureTarget, succeeded for SuccessCriteriaMet and Complete |
| EnvironmentLemmas.StepKeepsInv | internal/controller/nodeop_controller.go:1395-1411 | every environment step keeps the invariant and what the operator may rely on between calls |
| EnvironmentLemmas.StepReady | internal/controller/nodeop_controller.go:1733-1754 | whatever a step notes as a ready reboot Pod belongs to a Pod of that node and Job, its container runs and its last Ready condition is true |
| OperatorWrites.WriteStatusKeepsInv | internal/controller/nodeop_controller.go:856-860 | a status may be saved when it is good and takes back nothing the current one says |
| OperatorWrites.AddJobKeepsInv | internal/controller/nodeop_controller.go:686-695 | a Job may be created for a node with none, under the name its live reboot Pods carry; the invariant survives |
| OperatorWrites.AddRebootPodKeepsInv | internal/controller/nodeop_controller.go:1177-1280 | a reboot Pod may be created only when the node has no live one |
| OperatorWrites.DeletePodKeepsInv | internal/controller/nodeop_controller.go:1356-1370 | a reboot Pod may go unless it is the last one that leads to a Job not recorded yet |
| OperatorWrites.WriteNodeKeepsInv | internal/controller/nodeop_controller.go:291-308 | cordoning and uncordoning keep the invariant when the node's Job was not created, or its reboot is proven |
| OperatorWrites.HaltKeepsInv | internal/controller/nodeop_controller.go:1598-1601 | after a failure under StopOnFailure the operation may be marked as stopped for good |
| Knowledge.LivePodsLeadToJob | internal/controller/nodeop_controller.go:1699-1706 | if a node's Job was created and is not recorded, its live reboot Pods name it and it exists |
| Knowledge.MissingJobIsUnstarted | internal/controller/nodeop_controller.go:623-634 | when the Job the live reboot Pods name is absent, none was ever created for the node |
| Knowledge.CreatedIsUnique | internal/controller/nodeop_controller.go:615-619 | in an undisturbed run in reboot mode two created Jobs of one node are the same |
| Knowledge.RecordedIsGood | internal/controller/nodeop_controller.go:707-734 | the entry written for a created Job satisfies everything the invariant asks of entries |
| ApiServer.Api.GetNodeOp | internal/controller/nodeop_controller.go:218-239 | any version so far may be read, or the read fails, or the NodeOp is gone |
| ApiServer.Api.UpdateStatus | internal/controller/nodeop_controller.go:856-860 | a save from an old version is refused whatever else happens, and nothing is written; a lost reply looks like a failure; nothing recorded is taken back |
| ApiServer.Api.CreateJob | internal/controller/nodeop_controller.go:686-695 | a creation is refused when the name is taken, may be lost, and only then reports success when the Job is there |
| ApiServer.Api.CreateRebootPod | internal/controller/nodeop_controller.go:1177-1280 | on success the new Pod is the node's only live one and carries the given name |
| ApiServer.Api.DeleteRebootPod | internal/controller/nodeop_controller.go:1356-1370 | deleting is graceful; another Pod that is kept stays safe; success means the Pod is no longer live |
| ApiServer.Api.UpdateNode | internal/controller/nodeop_controller.go:296-308 | a write from an old version is refused and leaves no trace, also when the Node was removed and came back; a write that succeeds makes the next version |
| NodeActions.CordonNode | internal/controller/nodeop_controller.go:266-307 | fault-free: a schedulable Node becomes unschedulable with this NodeOp's annotation, any other is left alone, also said of the two fields of the Node; never done for a node whose Job was created |
| NodeActions.UncordonNode | internal/controller/nodeop_controller.go:314-362 | fault-free: succeeds exactly when the Node is there; a cordon marked as someone else's or not marked stays, any other Node ends schedulable and without annotation; after success in reboot mode only when the node has booted after the boot whose ID the entry stores |
| NodeActions.DrainNode | internal/controller/nodeop_controller.go:365-455 | fault-free: the deletions logged are exactly those of listed Pods on the node that are not terminating, not the operator's own, not reboot Pods, not of a DaemonSet if those are ignored and controlled unless forced; in listing order |
| NodeActions.VictimsMeaning | internal/controller/nodeop_controller.go:394-440 | which listed Pods a drain deletes, by the fields of each Pod |
| RebootPods.DeleteRebootPods | internal/controller/nodeop_controller.go:1353-1370 | fault-free: exactly the given Pods not yet being deleted are marked; after success none of them is live |
| RebootPods.CleanupRebootPodForNode | internal/controller/nodeop_controller.go:1385-1393 | fault-free: all reboot Pods of the node are being deleted, no others |
| StatusFlow.AfterJobGood | internal/controller/nodeop_controller.go:882-933 | the entry after the Job check is good: Failed means failed or gone, Completed means succeeded; a failure is kept and no slot is gained |
| StatusFlow.AfterRebootGood | internal/controller/nodeop_controller.go:936-981 | the entry after the reboot check is good: completed only with a boot after the one whose ID is stored, which a succeeded Pod of the Job reports; a stored boot ID kept |
| StatusFlow.OtherBootProves | internal/controller/nodeop_controller.go:1452-1478 | a ready node seen on another boot than the reported one has booted again after the boot with that ID |
| StatusFlow.ReportFromPods | internal/controller/nodeop_controller.go:1433-1450 | what is read from a Job's Pods is what a succeeded one reports, and a boot on which the Job's reporter ran |
| StatusFlow.RefreshIdempotent | internal/controller/nodeop_controller.go:757-863 | on an unchanging cluster a second status pass changes no entry |
| NodeStatusPass.ProcessJobStatus | internal/controller/nodeop_controller.go:882-933 | the loop finds the first true terminal condition; Failed exactly for a missing Job or when that is Failed or FailureTarget, Completed exactly when it is SuccessCriteriaMet or Complete, Running exactly when there is none; nothing but phase and message changes |
| NodeStatusPass.NodeRebootedSince | internal/controller/nodeop_controller.go:1460-1478 | true only when the node has booted again after the boot with the given ID |
| NodeStatusPass.IsRebootCompleted | internal/controller/nodeop_controller.go:1395-1431 | fills in a succeeded Pod's boot ID once, never replaces it, and says yes only when the node has booted after that very boot |
| NodeStatusPass.ProcessRebootStatus | internal/controller/nodeop_controller.go:936-981 | fault-free: a completed entry with a pending reboot becomes "reboot completed" exactly when it stores a boot ID, or a succeeded Pod reports one, and the Node is Ready on another non-empty one; a failed entry in reboot mode is cancelled and none of the node's reboot Pods stays; with faults, completed still comes with a boot after the one whose ID is stored |
| StatusFlow.AfterRebootDecides | internal/controller/nodeop_controller.go:936-981 | the same of the entry the reboot check leads to, for every entry and cluster |
| StatusFlow.RefreshDecided | internal/controller/nodeop_controller.go:769-844 | the entry after one pass is decided by the Job's conditions first and by the reboot then; without a Job it stays |
| StatusFlow.JobThenReboot | internal/controller/nodeop_controller.go:882-981 | an entry that waits for its reboot: once its Job has succeeded the reboot is completed exactly when the Node shows it, once the Job has failed or is gone the entry is Failed and its reboot cancelled |
| StatusFlow.PhaseIsDecided | internal/controller/nodeop_controller.go:846-853 | the overall phase: Failed exactly when some entry failed, Completed exactly when there are entries and all are done, with their reboot where there is a Job and reboot mode |
| NodeStatusPass.UncordonAfterFailure | internal/controller/nodeop_controller.go:869-879 | uncordons exactly when both options ask for it; fault-free it fails exactly when they do and the Node is gone |
| StatusUpdate.VisitEntry | internal/controller/nodeop_controller.go:769-844 | one entry: preflight and waiting entries stay, the others are brought up to date, the node is uncordoned exactly when due; fault-free the visit fails exactly when a Node to uncordon is gone |
| StatusUpdate.TallyDecides | internal/controller/nodeop_controller.go:765-853 | the running counters decide: Failed iff some entry failed, else Completed iff there are entries and all are done, else Running |
| StatusUpdate.VisitAll | internal/controller/nodeop_controller.go:765-844 | the loop, in any order of the map: fault-free it succeeds exactly when the Nodes to uncordon are there, and then every entry and Node is the function of the old state that the order does not enter |
| StatusUpdate.UpdateNodeOpStatus | internal/controller/nodeop_controller.go:757-863 | on success the saved status is the one in memory, Failed or Completed overall exactly as its entries say; fault-free and on the current version it succeeds exactly when the Nodes to uncordon are there, so always when all are, every entry is then decided by its Job's conditions, the boot IDs and the Node's Ready condition, and every Node by the new entry: the own cordon is undone once the operation is over, with its reboot in reboot mode, or failed with UncordonOnFailure, anyone else's never; an old copy is never saved |
| StatusUpdate.StatusIsDecided | internal/controller/nodeop_controller.go:757-863 | the same of the function of the old state that the loop computes |
| RebootPodChoice.BeforeIsOrder | internal/controller/nodeop_controller.go:1321-1327 | creation time, then name, is a strict total order |
| RebootPodChoice.StringLessMeaning | internal/controller/nodeop_controller.go:1321-1327 | names are compared byte by byte: the first difference decides, and a proper prefix comes first |
| RebootPodChoice.OldestMeaning | internal/controller/nodeop_controller.go:1300-1333 | the oldest Pod, by the fields of the Pods: live, and no live Pod of the node created earlier, or at the same time under a smaller name |
| RebootPodChoice.SortSorts | internal/controller/nodeop_controller.go:1321-1327 | the sort gives the same Pods in ascending order |
| RebootPodChoice.OldestIsUnique | internal/controller/nodeop_controller.go:1282-1299 | only one Pod can come before all others, so the choice does not depend on the listing order |
| RebootPodChoice.KeepOnlyAgain | internal/controller/nodeop_controller.go:1282-1299 | a repeated call keeps the same Pod and deletes nothing more |
| RebootPodChoice.SplitPods | internal/controller/nodeop_controller.go:1305-1315 | the loop separates live and finished Pods and leaves out those being deleted |
| RebootPodChoice.KeepOneRebootPod | internal/controller/nodeop_controller.go:1300-1333 | the Pod returned is the only one that can be live; fault-free it is the live one created first, the smaller name deciding between equals, all others are being deleted, and there is none exactly when every Pod of the node was finished or being deleted |
| JobCreation.RecordNodeJob | internal/controller/nodeop_controller.go:707-734 | the node's entry becomes Pending with the Job's name, no boot ID, and its reboot pending exactly in reboot mode, and is saved; the concurrency limit and all earlier records hold |
| JobCreation.AwaitRebootPod | internal/controller/nodeop_controller.go:1775-1812 | a waiting entry, whose message tells the Pod's phase and the reason its container waits, is saved only when its message changes |
| JobCreation.PrepareNode | internal/controller/nodeop_controller.go:636-653 | fault-free: with Cordon the Node is cordoned, and marked if it was not cordoned already, and with draining exactly the Pods to drain are deleted; without Cordon nothing is done; only for a node whose Job was not created |
| JobCreation.AdoptExistingJob | internal/controller/nodeop_controller.go:742-754 | a refused creation is adopted only when the Job that is there is this NodeOp's |
| JobCreation.CreateNodeJob | internal/controller/nodeop_controller.go:620-705 | an existing Job of ours is only recorded, someone else's is an error, an absent one is created and recorded after the node was made ready, as the very last event; fault-free the Job then exists whatever version the status is at, and only the current version is written over |
| JobCreation.ChooseRebootPod | internal/controller/nodeop_controller.go:1707-1721 | the Pod kept, or a new one with a new Job name when none is live; it is then the only live one |
| JobCreation.IsRebootPodReady | internal/controller/nodeop_controller.go:1733-1754 | ready exactly when the container runs and the last Ready condition is there and true; the Pod's phase does not enter |
| JobCreation.StartWithoutReboot | internal/controller/nodeop_controller.go:1708-1710 | without reboot mode a Job under a name never used before is created and recorded; fault-free it is created even when the status write is refused |
| JobCreation.FollowRebootPod | internal/controller/nodeop_controller.go:1722-1731 | the node waits with the Pod's message until the Pod is ready, then the Job the Pod names is created or adopted; a Pod that names none is an error |
| JobCreation.StartMainJob | internal/controller/nodeop_controller.go:1707-1731 | in reboot mode the node waits until the Pod is ready and the Job then recorded is the one the Pod names; only this node's entry changes; fault-free the oldest live Pod decides: if its container does not run or its last Ready condition is missing or not true, no Job is made, no Node written and the node waits, otherwise the Job it names is there and recorded; no other node's Pods, Jobs or Node are touched |
| Preflights.StartPreflight | internal/controller/nodeop_controller.go:1934-1972 | an existing preflight Pod is used again, else one is created; the node is in preflight |
| Preflights.AdvancePreflight | internal/controller/nodeop_controller.go:1979-2037 | fault-free, by the phase and message of the first preflight Pod: Failed exactly when there is none or it failed, Completed without a Job exactly when it succeeded with a message, which the entry carries; both are saved and the Pod is deleted; without a message the upgrade starts, a Pod that has not ended changes nothing |
| Release.UnrecordedNodeJob | internal/controller/nodeop_controller.go:1873-1896 | the name returned is a created Job of the node; with "" no Job of the node was ever created |
| Release.ReleaseWaitingNodes | internal/controller/nodeop_controller.go:1832-1866 | fault-free: exactly the waiting nodes none of whose reboot Pods names an existing Job of ours are dropped and lose their Pods, the others get their Job recorded, no other entry changes |
| TargetNodes.StableSortSplits | internal/controller/nodeop_controller.go:1566-1571 | the stable sort is all control-plane nodes in listing order, then all others in listing order |
| TargetNodes.GetTargetNodes | internal/controller/nodeop_controller.go:1537-1579 | the matching nodes, each once; none without a control-plane label comes before one with |
| JobManagement.CountRunningJobs | internal/controller/nodeop_controller.go:1909-1922 | the loop counts the entries in Preflight, Pending or Running and the completed ones whose reboot is pending |
| JobManagement.HasFailedJobs | internal/controller/nodeop_controller.go:1899-1906 | true exactly when some entry is Failed |
| JobManagement.ControlPlaneFirst | internal/controller/nodeop_controller.go:1529-1571 | a pass that attempts a worker attempts every control-plane node that has no entry |
| JobManagement.SituationStays | internal/controller/nodeop_controller.go:1603-1685 | fault-free work on one node changes nothing that another node's work depends on |
| JobManagement.NoPodNoQuestion | internal/controller/nodeop_controller.go:1712-1721 | in reboot mode a node without live reboot Pods can always be started |
| JobManagement.AdvanceNodes | internal/controller/nodeop_controller.go:1603-1625 | the first pass changes entries of target nodes only and keeps the set of entries; fault-free every target in preflight or waiting has moved on as its Pods say, nothing has changed for targets without an entry, and the pass succeeds when every such node can be started |
| JobManagement.FailedPreflightStops | internal/controller/nodeop_controller.go:1603-1640 | under StopOnFailure a pass that gets to its attempts had no target in preflight with a failed or missing preflight Pod |
| JobManagement.AttemptsMeaning | internal/controller/nodeop_controller.go:1642-1685 | the attempts are fresh targets in target order; with a limit they fit under it with what is in flight, and a fresh target is left out only when the limit, or without one the number of targets, is reached |
| JobManagement.WorkDecided | internal/controller/nodeop_controller.go:1603-1685 | fault-free: every target with an entry has moved on as its preflight Pod or its oldest live reboot Pod decides, all others stay; every attempted node is in preflight, or waiting or recorded unless its Node is gone or its live Pods name no Job or someone else's |
| JobManagement.UnblockedCanAdvance | internal/controller/nodeop_controller.go:1603-1625 | a node that exists, and whose live reboot Pods name Jobs that are absent or ours, does not stop the first pass |
| JobManagement.StartNodes | internal/controller/nodeop_controller.go:1672-1685 | exactly the first so many nodes are attempted, only they get entries, and the limit holds whatever fails; fault-free every attempted node that can be started is |
| JobManagement.ManageJobCreation | internal/controller/nodeop_controller.go:1586-1688 | the attempts are the first min(free slots, fresh nodes) fresh targets after the first pass; with a failure under StopOnFailure, or fault-free with a failed or missing preflight Pod among the targets, there are none and the operation is stopped; after a failure the stop is logged first and the waiting nodes are released; fault-free it succeeds when the first pass can |
| Reconciler.Reconcile | internal/controller/nodeop_controller.go:141-183 | one pass from any copy of the NodeOp keeps the invariant and takes nothing back; from a failure under StopOnFailure it stops the operation and attempts nothing, fault-free also when a target's preflight Pod failed; fault-free it comes to manageJobCreation exactly when the Nodes to uncordon are there, saves the refreshed status first, every entry and Node decided as updateNodeOpStatus says, and after a failure exactly the waiting nodes without a Job are let go |
| Reconciler.InvMeansOneJob | internal/controller/nodeop_controller.go:1690-1731 | one Job per node, announced to a reboot Pod that was seen with a running container and its last Ready condition true, and no cordon or drain after it |
| Reconciler.InvMeansRealReboots | internal/controller/nodeop_controller.go:811-821 | completed reboots stand on the stored boot ID and uncordons after success on theirs: reported by a succeeded Pod, followed by another boot, and not the boot the node is on; the limit holds in every version |
| Reconciler.InvMeansBootIdsStay | internal/controller/nodeop_controller.go:1414-1430 | a stored boot ID is the same in every later version |
| Reconciler.LeadsMeansLast | internal/controller/nodeop_controller.go:1603-1685 | between any two moments of a run: a recorded Job stays recorded, and no Job is created for its node |
| Reconciler.Run | internal/controller/nodeop_controller.go:136-183 | all of this holds of every run from a new NodeOp, with the invariant at every moment; from the moment a Job is recorded for a node no further one is created for it, with and without reboot mode and whatever is lost; nothing is created after a pass has come to manageJobCreation with a failed entry under StopOnFailure |
| Limits.StartAnew | internal/controller/nodeop_controller.go:1699-1721 | in reboot mode startMainJob on a node without a live reboot Pod and without a recorded Job, whatever Jobs were created for it, makes a new Pod and, once that is ready, a new Job; if someone else writes the NodeOp meanwhile the Job stays unrecorded |
| Limits.JobMadeTwice | internal/controller/nodeop_controller.go:1707-1731 | in reboot mode, from a new NodeOp: a refused status write and the loss of the reboot Pod, and startMainJob has created two Jobs for the node |
| Limits.OneMoreWithoutReboot | internal/controller/nodeop_controller.go:1707-1710 | the converse without reboot mode: on any node with a Node object and no recorded Job a fault-free startMainJob creates exactly one more Job, recorded exactly when no one else has written the NodeOp |
| Limits.JobMadeTwiceWithoutReboot | internal/controller/nodeop_controller.go:1707-1710 | without reboot mode, from a new NodeOp: a refused status write, and startMainJob has created two Jobs for the node |
| Limits.DeletedJobFails | internal/controller/nodeop_controller.go:892-902 | an entry turns Failed exactly when its Job failed or is gone, finished or not |
| RebootWatcher.IsComplete | internal/rebootwatcher/rebootwatcher.go:238-245 | some condition says complete |
| RebootWatcher.ReportedBoot | internal/rebootwatcher/rebootwatcher.go:215-224 | equal boot IDs mean the node is on the boot that a succeeded Pod reports, different ones that it has booted again after that boot |
| RebootWatcher.Check | internal/rebootwatcher/rebootwatcher.go:176-210 | both IDs are genuine when it is ready: what a succeeded Pod of the Job reports, and the running boot; fault-free it is ready exactly when the Job is complete and has reported |
| RebootWatcher.Act | internal/rebootwatcher/rebootwatcher.go:215-235 | reboots only on the boot with the given ID, which a succeeded Pod reports, fault-free always then; ends well only when the node has booted since and runs on another boot |
| RebootWatcher.Run | internal/rebootwatcher/rebootwatcher.go:126-167 | at most one reboot is issued, on the boot whose ID was read from the Job's Pods; nil only when the node has left that boot; fault-free it waits until the Job has a true Complete condition and a succeeded Pod reports, then reboots the node exactly when its current boot has the reported ID, and ends well otherwise |
| RebootWatcher.RunAgain | internal/rebootwatcher/rebootwatcher.go:19-24 | over all restarts every reboot is issued on a boot that a succeeded Pod reports, on one only when those reports agree; nil only when the node has left the boot last read |
| RebootWatcher.WatchersCauseOneBoot | internal/rebootwatcher/rebootwatcher.go:13-24 | any number of watchers of a Job whose succeeded Pods agree reboot the node on one boot only, the one reported |
| RebootWatcher.OperatorAndWatcherAgree | internal/controller/nodeop_controller.go:1452-1478 | when the operator takes the node for rebooted, the node has left the reported boot, so the watcher's comparison comes out different too |
| RebootWatcher.NoRebootAfterCompleted | internal/controller/nodeop_controller.go:965-978 | after "reboot completed" the node has left the boot with the stored ID, and if the Job's succeeded Pods agree no watcher of it may reboot the node |
| CordonOwnership.OwnerRefIsInjective | internal/controller/nodeop_controller.go:254-260 | different NodeOps have different owner references |
| CordonOwnership.NodeStore.CordonBy | internal/controller/nodeop_controller.go:266-307 | on any version read: a cordoned Node is never claimed, a successful write makes this NodeOp the cordoner |
| CordonOwnership.NodeStore.UncordonBy | internal/controller/nodeop_controller.go:314-362 | on any version read: a cordon marked as someone else's, or not marked, is left alone |
| CordonOwnership.RunMoves | internal/controller/nodeop_controller.go:262-362 | in every orderly run a NodeOp only undoes its own cordon |
| CordonOwnership.RecordonIsUndone | internal/controller/nodeop_controller.go:338-361 | an outside cordon over a stale annotation is undone by the NodeOp it names |
| OSArtifactSpec.ValidateImageSpec | api/v1alpha2/osartifact_types.go:475-532 | passes exactly the image specs described by ImageFine |
| OSArtifactSpec.ValidateArtifactVolumeRefs | api/v1alpha2/osartifact_types.go:565-577 | passes exactly when all four references name user volumes or nothing |
| OSArtifactSpec.ValidateArtifactSpec | api/v1alpha2/osartifact_types.go:534-563 | passes exactly the artifact specs described by ArtifactsFine |
| OSArtifactSpec.Validate | api/v1alpha2/osartifact_types.go:444-473 | passes exactly the valid specs, the loop over the volumes included; what passes has something to build and to build it from, a complete target if it is pushed, and a user volume for every reference, with the artifacts on a volume of their own |
| BuilderPod.ReplaceRootfsVolumeMounts | internal/controller/job.go:387-396 | in place, every mount of every container ends up redirected once, also when containers share mounts |
| BuilderPod.CopyImporters | internal/controller/job.go:281-285 | importers keep their order and mounts, in slices of their own |
| BuilderPod.SequentialContainers | internal/controller/job.go:303-335 | the init containers after stage 1, one per requested step, in order |
| BuilderPod.NewBuilderPod | internal/controller/job.go:258-385 | the containers are the plan, none lost or repeated when the last init becomes the main one; for a valid spec the volumes are exactly the user's and the operator's, each with its source: "artifacts" that of the volume the spec names, or the claim; every container has at each path exactly the mount asked for there, no path twice; the spec's importers are untouched |
| BuilderPod.VolumesMeaning | internal/controller/job.go:742-784 | for a valid spec: which volumes a Pod has and where each comes from, claim, empty directory, config map, the secret of the reference in the spec, or the user's own source |
| BuilderPod.MountsForMeaning | internal/controller/job.go:436-468 | path by path, what each of the operator's containers mounts: overlays, keys, cloud config and grub.cfg for the builders, build context, storage, CA certificates and credentials for stage 1 |
| BuilderPod.MountedMeaning | internal/controller/job.go:348-351 | after the redirection each path has the mount asked for there, made from rootfsVolume where it was "rootfs", and importers have their own |
| BuilderPlan.ArtifactsApart | api/v1alpha2/osartifact_types.go:579-587 | in a valid spec's Pod the volume that takes the artifacts is neither where the root file system is unpacked nor where the image is built |
| BuilderPlan.VolumesAreDistinct | internal/controller/job.go:742-784 | volume names are distinct exactly when no user volume is called image-credentials while credentials are mounted |
| BuilderPlan.CredentialsNameClashes | api/v1alpha2/osartifact_types.go:41-47 | a valid spec whose Pod has two volumes called image-credentials |
| BuilderPlan.KeysAreDeclared | api/v1alpha2/osartifact_types.go:550-557 | with a UKI output to build, or no uki block, the keys volume is named as it should be and declared |
| BuilderPlan.MountsAreDeclared | internal/controller/job.go:436-468 | every mount of the operator's containers names a declared volume exactly when keysVolume is empty, the name of one of the operator's volumes, or a user volume |
| BuilderPlan.UnusedKeysAreMounted | api/v1alpha2/osartifact_types.go:550-557 | a valid spec, with a uki block that asks for no output, whose Pod mounts an undeclared volume |
| BuilderPlan.RootfsIsRedirected | internal/controller/job.go:348-351 | with rootfsVolume every rootfs mount goes to it under subPath rootfs, keeps its path, and nothing else changes |
| BuilderPlan.PlanMembers | internal/controller/job.go:280-346 | a container is in the plan exactly when the spec asks for it |
| BuilderPlan.PlanIsOrdered | internal/controller/job.go:280-360 | importers, stage 1, then the builders, the ISO before netboot, nothing twice |
| BuildRun.IsoAfter | internal/controller/job.go:606-652 | an ISO is there at the end exactly when it was there or written, and not removed after |
| BuildRun.ISOsAtTheEnd | internal/controller/job.go:634-652 | every requested ISO is there at the end; netboot's source stays exactly when it was requested under any name |
| BuildRun.FilesAtTheEnd | internal/controller/job.go:112-168 | whatever was there before, the run leaves exactly the files asked for besides, each kind under its own override or the artifact's name, and every ISO asked for |
| BuildRun.NetbootFindsItsISO | internal/controller/job.go:599-608 | the ISO that netboot reads is there when it runs |
| BuildRun.ImagesCommute | internal/controller/job.go:336-345 | the images built side by side leave the same files in any order |
| BuildRun.SharedISOName | internal/controller/job.go:509-517 | a valid spec gives the signed and unsigned ISO one name in exactly two cases |
| OSArtifactController.Store.CheckBuild | internal/controller/osartifact_controller.go:333-359 | the first listed Pod whose phase is known decides: fault-free on the current version Exporting is added exactly when it succeeded, Error exactly when it failed, nothing when it is pending or running, and a build is started exactly when there is no such Pod; with faults no phase is added that these do not allow, and only over the version read |
| ArtifactDecisions.BuildDecisionMeaning | internal/controller/osartifact_controller.go:339-357 | export, fail or wait by the first Pod whose phase is known, start exactly when no phase is known |
| ArtifactDecisions.CreationsFollow | internal/controller/osartifact_controller.go:385-452 | Ready exactly when the last Job listed for each exporter has succeeded and completions unset or 1, Error exactly when one of them failed for good, and a Job exactly for each exporter without one before the first that failed |
| OSArtifactController.Store.CheckExport | internal/controller/osartifact_controller.go:361-456 | Ready only when the list shows a succeeded Job for every exporter, Error only when it shows one given up; without failures exactly then; Jobs are made exactly for the exporters that the list does not show, up to the first that is given up |
| OSArtifactController.Store.Reconcile | internal/controller/osartifact_controller.go:71-119 | the phase read decides what is done; fault-free on the current version a building artifact follows the first builder Pod whose phase is known, an exporting one the last Job listed for each exporter; Ready and Error are left alone; a fault-free start of a build keeps phases moving forward exactly when they did and the second read shows no phase past Building |
| OSArtifactController.RunController | internal/controller/osartifact_controller.go:71-119 | over every run with Jobs removed, namesakes and old reads: forward phases as long as no second read in startBuild shows a phase past Building; Ready only after one list showed every export done, the artifact's own if it has no namesake, which needs completions unset or 1 throughout; a second Job for an exporter only after a removal |
| OSArtifactController.BuildingFits | internal/controller/osartifact_controller.go:318-329 | saved over the current version, Building keeps phases moving forward exactly when they did and that version is not past Building |
| OSArtifactController.ForwardsMeaning | internal/controller/osartifact_controller.go:71-119 | phases moving forward, pair by pair: nothing follows Ready or Error, nothing but these Exporting, and no start state anything |
| OSArtifactController.SecondJobNeedsRemoval | internal/controller/osartifact_controller.go:387-414 | between two Jobs of one exporter the first was removed |
| OSArtifactController.ExportedTwice | internal/controller/osartifact_controller.go:387-414 | a run in which a succeeded and removed export is done again while another one is still running |
| OSArtifactController.ReadyWithoutExports | internal/controller/osartifact_controller.go:336-368 | a run in which a namesake's Pod and Job make an artifact Ready that has built and exported nothing |
| OSArtifactController.BackToBuilding | internal/controller/osartifact_controller.go:318-329 | a run in which an exporting artifact goes back to Building, because startBuild fetches it again and does not look at its phase |
| OSArtifactController.SeveralCompletions | internal/controller/osartifact_controller.go:401-439 | an export with completions other than 1 never counts as done, and by default it is given up as soon as it is made |
| ExcludePaths.BuildExcludePathFlags | internal/controller/nodeopupgrade_controller.go:273-285 | the loop writes one quoted flag per path; without a NUL the shell reads the result as --exclude-path before /etc/hostname, before /etc/hosts and before each user path, in order |
| ExcludePaths.EscapedIsRead | internal/controller/nodeopupgrade_controller.go:266-285 | inside single quotes an escaped path is read back as itself, whatever it holds but NUL |
| ExcludePaths.ShellReadsBack | internal/controller/nodeopupgrade_controller.go:266-285 | for any list of paths the shell reads back exactly the flags and paths, in order, if and only if no path holds a NUL |
| ExcludePaths.ShellReadsFlagsBack | internal/controller/nodeopupgrade_controller.go:266-285 | the same for the user's paths behind the always-excluded ones |
| ExcludePaths.FragmentAppends | internal/controller/nodeopupgrade_controller.go:266-285 | appended to a command, it leaves the command's last word alone |
| Names.SubdomainIsLocal | internal/utils/name.go:19-28 | label by label and character by character, the grammar of names is the same |
| Names.HashDigits | internal/utils/name.go:36-38 | the 12 digits are the top 48 bits of the hash, leading zeros kept |
| Names.TruncatedIsName | internal/utils/name.go:29-46 | for every name and every limit of at least 13: a name, no longer than the limit, unchanged when short, else what fits in front but for hyphens and dots at its end, and the hash |
| Names.JobNameFits | internal/controller/nodeop_controller.go:1763-1767 | every upgrade Job name is a name of at most 63 characters that ends in the random suffix, with both names in full when they fit |
| NodeLabels.SanitizedIsValid | cmd/node-labeler/labeler.go:171-182 | whatever the input, the result is a label value of at most 63 characters |
| NodeLabels.SanitizedMeaning | cmd/node-labeler/labeler.go:171-182 | the result reaches from the first letter or digit of the input to the last that fits into 63 characters, with hyphens for what a label value cannot hold; it is empty exactly when there is no letter or digit |
| NodeLabels.ValidIsKept | cmd/node-labeler/labeler.go:171-182 | a label value is left as it is |
| NodeLabels.SanitizeTwice | cmd/node-labeler/labeler.go:171-182 | sanitizing twice is sanitizing once |
| NodeLabels.ToNullablePatch | cmd/node-labeler/labeler.go:235-248 | the two loops set every new value and null every kairos.io/ key without one, in any order of the maps |
| NodeLabels.PatchSyncs | cmd/node-labeler/labeler.go:233-248 | merged by section 2 of RFC 7396, the patch turns the stored map into the synced one |
| NodeLabels.NodeSyncs | cmd/node-labeler/labeler.go:193-231 | the request changes the Node's labels and annotations to the synced ones and nothing else in the document |
| NodeLabels.SyncedMeaning | cmd/node-labeler/labeler.go:233-248 | kairos.io/ keys are exactly the new ones, all others as before |
| NodeLabels.SecondSyncChangesNothing | cmd/node-labeler/labeler.go:233-248 | a second sync changes nothing and has nothing to remove |

## Left out

- The Kubernetes client, informers, watches, logging, flags, TLS and the manager's setup are not modelled.
- The content of Jobs and Pods (images, environment, resources, security contexts, tolerations), RBAC objects and the finalizer are not modelled.
- Shell scripts other than the exclude-path fragment, and the tools auroraboot, buildah and kairos-agent, are not modelled.
- Go's text/template, shellescape and label selectors are not modelled: a selector is any predicate on nodes, the hash any 64-bit number.
- Time, backoff and liveness, such as that a node is rebooted at some point, are not modelled.
- updateStatusFromNodeOp and the NodeOpUpgrade, node-labeler DaemonSet and startup controllers are not modelled.
- handleDeletion is not modelled: a NodeOp that is being deleted is one whose pass does nothing.
- The text of status messages is not modelled: a message is a value with the parts that the text is made of, so two messages are equal when their parts are.
- How the message and the reason of a preflight Pod are picked from its container statuses is not modelled; a failed export Job is one whose conditions say so.
- LastUpdated is not modelled; it does not enter any decision.
- The Secrets, ConfigMap and volume claim that startBuild creates before the builder Pod are not modelled: that one of them cannot be made is a call that fails.
- NodeActions.DrainNode: the drain deletes Pods of the whole cluster, of which the model keeps only the deletions it makes; the grace period is not modelled.
- JobManagement.ManageJobCreation: Concurrency is a natural number; the source's 32-bit arithmetic does not overflow for any number of nodes a cluster can have.
- RebootWatcher.Run: the endless polling loop is cut off after any number of polls, which stands for the end of the context.
