/**
 * The cluster as one value: everything the API server stores about one NodeOp, the nodes'
 * real boots, and ghost history. An object that the API server versions is the sequence
 * of all its values so far; its resource version is its position in that sequence.
 */
module Cluster {
  import opened Wrappers
  import opened BootIds
  import opened NodeOpTypes

  /** Why uncordonNode was called. */
  datatype Cause = AfterSuccess(job: string, bootId: string) | AfterFailure | AfterDrainFailure

  /** What the operator did, in order. `boots` counts the node's boots at that moment. */
  datatype Event =
    | JobCreated(node: string, job: string)
    | RebootPodCreated(node: string, job: string)
    | PreflightPodCreated(node: string)
    | Cordoned(node: string)
    | Drained(node: string, pod: string)
    | Uncordoned(node: string, cause: Cause, boots: nat)
    | Halted

  datatype World = World(
    history: seq<Statuses>,             // NodeOp.Status.NodeStatuses, version by version
    jobs: map<string, Job>,
    jobNames: set<string>,              // names under which a Job was ever created
    drawn: map<string, string>,         // upgrade Job names handed out, with their node
    announced: set<(string, string)>,   // (node, name) pairs ever given to a reboot Pod
    pods: map<string, RebootPod>,
    readied: set<Sighting>,             // what reboot Pods showed when they were ready
    preflights: map<string, seq<PreflightPod>>,
    nodes: map<string, seq<NodeObject>>,
    formerNodes: map<string, seq<NodeObject>>, // the versions of Nodes that were removed
    boots: map<string, seq<string>>,    // the boot ID of each boot of each node
    views: map<string, NodeView>,       // what each Node object shows
    reports: set<(string, nat)>,        // (Job, boot) pairs on which a boot-id-reporter ran
    jobPods: map<string, seq<UpgradePod>>,
    podsSeen: set<(string, UpgradePod)>, // (Job, Pod) pairs: what Pods of upgrade Jobs ever looked like
    issued: set<(string, string, nat)>, // (node, Job, boot) of each reboot a watcher issued
    undisturbed: bool,                  // see Disturbs
    halted: bool,
    trace: seq<Event>)

  function Current(w: World): Statuses
    requires w.history != []
  {
    w.history[|w.history| - 1]
  }

  function Version(w: World): int {
    |w.history| - 1
  }

  function Boots(w: World, n: string): seq<string> {
    if n in w.boots then w.boots[n] else []
  }

  function LookUp<T>(m: map<string, T>, k: string): Option<T> {
    if k in m then Some(m[k]) else None
  }

  /** All versions so far of the Nodes of this name: a Node that comes back does not get an old version again. */
  function NodeVersions(w: World, n: string): seq<NodeObject> {
    if n in w.nodes then w.nodes[n] else if n in w.formerNodes then w.formerNodes[n] else []
  }

  predicate OurJob(w: World, j: string) {
    j in w.jobs && w.jobs[j].ours
  }

  /** The boot-id-reporter of Job `j` ran on the boot of j's node that has this boot ID. */
  predicate RanOn(w: World, j: string, id: string) {
    && j in w.drawn
    && exists r | r in w.reports :: r.0 == j && r.1 < |Boots(w, w.drawn[j])| && Boots(w, w.drawn[j])[r.1] == id
  }

  /** A succeeded Pod of Job `j` reports this boot ID. */
  predicate SeenReport(w: World, j: string, id: string) {
    id != "" && exists s | s in w.podsSeen :: s.0 == j && Reports(s.1, id)
  }

  /** A succeeded Pod of Job `j` reports this boot ID, and its reporter did run on that boot. */
  predicate Reported(w: World, j: string, id: string) {
    RanOn(w, j, id) && SeenReport(w, j, id)
  }

  /** Among the first `boots` boots of node `n` there is one after the boot with this ID. */
  predicate BootedSince(w: World, n: string, id: string, boots: nat) {
    exists k :: 0 <= k < |Boots(w, n)| && k + 1 < boots && Boots(w, n)[k] == id
  }

  /** Node `n` has booted again after the boot that a succeeded Pod of Job `j` reports as `id`. */
  predicate RebootProven(w: World, n: string, j: string, id: string) {
    && j in w.drawn && w.drawn[j] == n
    && Reported(w, j, id)
    && BootedSince(w, n, id, |Boots(w, n)|)
  }

  /** The node's current boot has this ID. */
  predicate RunsOn(w: World, n: string, id: string) {
    Boots(w, n) != [] && Boots(w, n)[|Boots(w, n)| - 1] == id
  }

  /** Whatever this Pod reports as a succeeded Pod of `j` was a boot its reporter ran on. */
  predicate Genuine(w: World, j: string, pod: UpgradePod) {
    pod.phase == PodSucceeded ==>
      forall c | c in pod.containers && ContainerReport(c) != "" :: RanOn(w, j, ContainerReport(c))
  }

  /**
   * A view of a Node object is never older than the boot on which a reporter of one of
   * the node's upgrade Jobs ran.
   */
  predicate Plausible(w: World, n: string, v: NodeView) {
    v.bootId != "" ==>
      exists k | 0 <= k < |Boots(w, n)| ::
        && Boots(w, n)[k] == v.bootId
        && forall r | r in w.reports && r.0 in w.drawn && w.drawn[r.0] == n :: r.1 <= k
  }

  /** Boot IDs are canonical and never reused. */
  ghost predicate BootsFine(ids: seq<string>) {
    && (forall id | id in ids :: Valid(id))
    && (forall k, l | 0 <= k < l < |ids| :: ids[k] != ids[l])
  }

  /** Boot IDs differ, so a node that has booted since is on another boot. */
  lemma LaterBootDiffers(w: World, n: string, id: string, boots: nat)
    requires Physical(w) && BootedSince(w, n, id, boots) && boots <= |Boots(w, n)|
    ensures Boots(w, n)[boots - 1] != id && !RunsOn(w, n, id)
  {
    assert BootsFine(w.boots[n]);
  }

  /** What holds of nodes, boots and Pods whatever the operator does. */
  ghost predicate Physical(w: World) {
    && (forall n | n in w.boots :: BootsFine(w.boots[n]))
    && (forall r | r in w.reports :: r.0 in w.drawn && r.1 < |Boots(w, w.drawn[r.0])|)
    && (forall n | n in w.views :: Plausible(w, n, w.views[n]))
    && (forall s | s in w.podsSeen :: Genuine(w, s.0, s.1))
    && (forall j, p | j in w.jobPods && p in w.jobPods[j] :: (j, p) in w.podsSeen)
    && (forall n | n in w.nodes :: w.nodes[n] != [])
    && (forall n | n in w.views :: n in w.nodes)
    && (forall i | i in w.issued ::
          && i.1 in w.drawn && w.drawn[i.1] == i.0
          && i.2 < |Boots(w, i.0)| && Reported(w, i.1, Boots(w, i.0)[i.2]))
  }

  /** The Job is gone for good or has failed: the entry stays Failed. */
  predicate Dead(w: World, j: string) {
    j in w.jobs ==> JobVerdict(w.jobs[j].conditions) == Broken
  }

  predicate Finished(w: World, j: string) {
    j in w.jobs ==> JobVerdict(w.jobs[j].conditions) == Succeeded
  }

  predicate Created(w: World, n: string, j: string) {
    JobCreated(n, j) in w.trace
  }

  /** Between the two moments a Job was created for the node. */
  predicate MadeSince(w: World, v: World, n: string) {
    exists k | |w.trace| <= k < |v.trace| :: v.trace[k].JobCreated? && v.trace[k].node == n
  }

  predicate NoJobMade(w: World, v: World) {
    forall k | |w.trace| <= k < |v.trace| :: !v.trace[k].JobCreated?
  }

  /** No upgrade Job was ever created for the node. */
  ghost predicate Unstarted(w: World, n: string) {
    forall j :: !Created(w, n, j)
  }

  ghost predicate GoodEntry(spec: Spec, w: World, n: string, e: NodeStatus) {
    && (e.jobName == "" ==>
          && e.bootId == "" && e.phase != Running
          && (e.phase == Completed || e.phase == Failed ==> e.rebootStatus == NotRequested))
    && (e.jobName != "" ==>
          && e.jobName in w.drawn && w.drawn[e.jobName] == n && e.jobName in w.jobNames
          && e.phase != Preflight
          && (if spec.reboot
              then e.rebootStatus == RebootPending || e.rebootStatus == RebootCompleted || e.rebootStatus == Cancelled
              else e.rebootStatus == NotRequested)
          && (e.phase == Failed ==> Dead(w, e.jobName))
          && (e.phase == Completed ==> Finished(w, e.jobName))
          && (spec.reboot && w.undisturbed ==> forall j | Created(w, n, j) :: j == e.jobName))
    && (e.bootId != "" ==> Reported(w, e.jobName, e.bootId))
    && (e.rebootStatus == RebootCompleted ==> e.bootId != "" && RebootProven(w, n, e.jobName, e.bootId))
  }

  /** What every persisted version and every in-memory copy of the statuses satisfies. */
  ghost predicate Good(spec: Spec, w: World, s: Statuses) {
    && (forall n | n in s :: GoodEntry(spec, w, n, s[n]))
    && (spec.concurrency > 0 ==> InFlight(s) <= spec.concurrency)
  }

  /** What no later version takes back: a recorded Job, a failure, a stored boot ID. */
  predicate AdvancesAt(s: Statuses, t: Statuses, n: string) {
    n in s ==>
      && (s[n].jobName != "" ==> n in t && t[n].jobName == s[n].jobName)
      && (s[n].phase == Failed ==> n in t && t[n].phase == Failed)
      && (s[n].bootId != "" ==> n in t && t[n].bootId == s[n].bootId)
  }

  ghost predicate Advances(s: Statuses, t: Statuses) {
    forall n | n in s :: AdvancesAt(s, t, n)
  }

  predicate LiveOn(w: World, n: string, p: string) {
    p in w.pods && w.pods[p].node == n && Live(w.pods[p])
  }

  predicate HasLive(w: World, n: string) {
    exists p | p in w.pods :: LiveOn(w, n, p)
  }

  /** All live reboot Pods of the node wait for Job `j`. */
  ghost predicate LiveNamed(w: World, n: string, j: string) {
    forall p | LiveOn(w, n, p) :: w.pods[p].jobName == j
  }

  /** Job `j` exists and the node's live reboot Pods all wait for it. */
  ghost predicate Underway(w: World, n: string, j: string) {
    OurJob(w, j) && HasLive(w, n) && LiveNamed(w, n, j)
  }

  /** A created Job is recorded, or it can be found again through the node's reboot Pod. */
  ghost predicate Pledge(w: World)
    requires w.history != []
  {
    forall n, j | Created(w, n, j) :: Recorded(Current(w), n) || Underway(w, n, j)
  }

  predicate UpgradeAct(e: Event) {
    e.JobCreated? || e.Cordoned? || e.Drained?
  }

  /** After a node's Job is created it is not created, cordoned for or drained for again. */
  ghost predicate OnceOnly(t: seq<Event>) {
    forall i, k | 0 <= i < k < |t| && t[i].JobCreated? && UpgradeAct(t[k]) :: t[i].node != t[k].node
  }

  predicate Creation(e: Event) {
    e.JobCreated? || e.RebootPodCreated? || e.PreflightPodCreated?
  }

  ghost predicate NothingAfterHalt(t: seq<Event>) {
    forall i, k | 0 <= i < k < |t| && t[i] == Halted :: !Creation(t[k])
  }

  /** An uncordon after success is backed by a boot after the one that a succeeded Pod of the Job reported. */
  ghost predicate Justified(spec: Spec, w: World, e: Event) {
    e.Uncordoned? && e.cause.AfterSuccess? && spec.reboot ==>
      && e.cause.job in w.drawn && w.drawn[e.cause.job] == e.node
      && Reported(w, e.cause.job, e.cause.bootId)
      && e.boots <= |Boots(w, e.node)|
      && BootedSince(w, e.node, e.cause.bootId, e.boots)
  }

  ghost predicate ReadyNoted(w: World, pods: map<string, RebootPod>) {
    forall p | p in pods && RebootPodReady(pods[p]) :: SightingOf(pods[p]) in w.readied
  }

  /** A reboot Pod of the node that names Job `j` was once ready. */
  predicate WasReady(w: World, n: string, j: string) {
    exists s | s in w.readied :: s.node == n && s.job == j
  }

  /** What was noted as ready had a true Ready condition last and a running container. */
  ghost predicate ReadyMeansRunning(w: World) {
    forall s | s in w.readied ::
      && s.container == ContainerRunning
      && s.readyConditions != [] && s.readyConditions[|s.readyConditions| - 1]
  }

  ghost predicate Named(spec: Spec, w: World) {
    && (forall a | a in w.announced :: a.1 in w.drawn && w.drawn[a.1] == a.0)
    && (forall p | p in w.pods && w.pods[p].jobName != "" :: (w.pods[p].node, w.pods[p].jobName) in w.announced)
    && ReadyNoted(w, w.pods) && ReadyMeansRunning(w)
    && (forall j | j in w.jobs :: j in w.jobNames)
    && (forall j | OurJob(w, j) :: Created(w, w.jobs[j].node, j))
    && (forall n, j | Created(w, n, j) ::
          && j != "" && j in w.jobNames && j in w.drawn && w.drawn[j] == n
          && (spec.reboot ==> (n, j) in w.announced && WasReady(w, n, j)))
  }

  ghost predicate Protocol(spec: Spec, w: World) {
    && w.history != []
    && (forall v | 0 <= v < |w.history| :: Good(spec, w, w.history[v]))
    && (forall u, v | 0 <= u <= v < |w.history| :: Advances(w.history[u], w.history[v]))
    && Named(spec, w)
    && (spec.reboot && w.undisturbed ==> OnceOnly(w.trace) && Pledge(w))
    && (w.halted ==> spec.stopOnFailure && HasFailed(Current(w)))
    && (Halted in w.trace ==> w.halted)
    && NothingAfterHalt(w.trace)
    && (forall e | e in w.trace :: Justified(spec, w, e))
  }

  ghost predicate Inv(spec: Spec, w: World) {
    Physical(w) && Protocol(spec, w)
  }

  /** A cluster in which this NodeOp has just been created; older reboot Pods may be around. */
  ghost predicate Initial(spec: Spec, w: World) {
    && w.history == [map[]]
    && Physical(w)
    && (forall j | j in w.jobs :: j in w.jobNames && !w.jobs[j].ours)
    && (forall a | a in w.announced :: a.1 in w.drawn && w.drawn[a.1] == a.0)
    && (forall p | p in w.pods && w.pods[p].jobName != "" :: (w.pods[p].node, w.pods[p].jobName) in w.announced)
    && ReadyNoted(w, w.pods) && ReadyMeansRunning(w)
    && w.undisturbed && !w.halted && w.trace == []
  }

  lemma InitialInv(spec: Spec, w: World)
    requires Initial(spec, w)
    ensures Inv(spec, w)
  {
    assert BusyNodes(map[]) == {};
  }
}
