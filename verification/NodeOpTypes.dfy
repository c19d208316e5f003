/** The values the NodeOp controller stores and reads: api/v1alpha1 and the Kubernetes objects it uses. */
module NodeOpTypes {
  import opened Wrappers
  import opened BootIds

  datatype Phase = Pending | Running | Completed | Failed | Preflight

  /** `Unset` is the empty string. */
  datatype RebootStatus = Unset | NotRequested | Cancelled | RebootPending | RebootCompleted

  datatype Message =
    | JobCreatedMessage
    | JobNotFound
    | JobFailed
    | JobIsRunning
    | JobSucceeded
    | JobAndRebootSucceeded
    | WaitingForRebootPod(podPhase: Option<PodPhase>, reason: string)
    | PreflightInProgress
    | PreflightPodNotFound
    | SkippedByPreflight(text: string)
    | PreflightFailed(why: string)

  /** One entry of NodeOp.Status.NodeStatuses; `jobName == ""` means no upgrade Job is recorded. */
  datatype NodeStatus = NodeStatus(
    phase: Phase,
    jobName: string,
    message: Message,
    rebootStatus: RebootStatus,
    bootId: string)

  type Statuses = map<string, NodeStatus>

  datatype DrainOptions = DrainOptions(force: bool, ignoreDaemonSets: bool)

  /** NodeOp.Spec after defaulting; `drain` is set only when draining is enabled. */
  datatype Spec = Spec(
    reboot: bool,
    cordon: bool,
    drain: Option<DrainOptions>,
    uncordonOnFailure: bool,
    stopOnFailure: bool,
    concurrency: nat,
    preflight: bool,
    ownerRef: string)

  datatype ConditionType = JobFailedCondition | FailureTarget | SuccessCriteriaMet | JobComplete | OtherCondition

  datatype Condition = Condition(kind: ConditionType, isTrue: bool)

  /** `ours` says that the Job's controller reference is this NodeOp. */
  datatype Job = Job(node: string, ours: bool, conditions: seq<Condition>)

  datatype ContainerState = NotReported | ContainerRunning | ContainerWaiting(reason: string) | ContainerTerminated

  /** `readyConditions` lists the Status of each Ready condition, in order. */
  datatype RebootPod = RebootPod(
    node: string,
    jobName: string,
    created: nat,
    phase: PodPhase,
    deleting: bool,
    readyConditions: seq<bool>,
    container: ContainerState)

  datatype PreflightPod = PreflightPod(phase: PodPhase, message: string, reason: string)

  /** What cordoning touches on a Node. */
  datatype NodeObject = NodeObject(unschedulable: bool, cordonedBy: Option<string>)

  /** The status a Node object shows: its boot ID and its Ready condition. */
  datatype NodeView = NodeView(bootId: string, ready: bool)

  /** What the drain looks at on a Pod. */
  datatype PodInfo = PodInfo(
    name: string,
    node: string,
    terminating: bool,
    isController: bool,
    hasRebootLabel: bool,
    daemonSet: bool,
    controlled: bool)

  datatype NodeInfo = NodeInfo(name: string, master: bool, controlPlane: bool)

  predicate IsMasterNode(n: NodeInfo) {
    n.master || n.controlPlane
  }

  predicate AwaitingRebootPod(e: NodeStatus) {
    e.phase == Pending && e.jobName == ""
  }

  /** A live reboot Pod can still reboot its node: not being deleted and not stopped. */
  predicate Live(p: RebootPod) {
    !p.deleting && p.phase != PodSucceeded && p.phase != PodFailed
  }

  predicate RebootPodReady(p: RebootPod) {
    p.readyConditions != [] && p.readyConditions[|p.readyConditions| - 1] && p.container == ContainerRunning
  }

  /** A reboot Pod seen ready: whose it was, and what it showed. */
  datatype Sighting = Sighting(node: string, job: string, readyConditions: seq<bool>, container: ContainerState)

  function SightingOf(p: RebootPod): Sighting {
    Sighting(p.node, p.jobName, p.readyConditions, p.container)
  }

  /** The condition that decides a Job: the first true one that is terminal. */
  datatype Verdict = Undecided | Succeeded | Broken

  function JobVerdict(cs: seq<Condition>): Verdict {
    if cs == [] then Undecided
    else if cs[0].isTrue && (cs[0].kind == JobFailedCondition || cs[0].kind == FailureTarget) then Broken
    else if cs[0].isTrue && (cs[0].kind == SuccessCriteriaMet || cs[0].kind == JobComplete) then Succeeded
    else JobVerdict(cs[1..])
  }

  /** The first true condition among those that end a Job. */
  predicate FirstTerminal(cs: seq<Condition>, i: int) {
    && 0 <= i < |cs| && cs[i].isTrue && cs[i].kind != OtherCondition
    && forall h | 0 <= h < i :: !cs[h].isTrue || cs[h].kind == OtherCondition
  }

  ghost predicate EndedBy(cs: seq<Condition>, kinds: set<ConditionType>) {
    exists i :: FirstTerminal(cs, i) && cs[i].kind in kinds
  }

  /** That condition decides: failed for Failed and FailureTarget, succeeded for SuccessCriteriaMet and Complete. */
  lemma {:induction false} JobVerdictMeaning(cs: seq<Condition>)
    ensures JobVerdict(cs) == Broken <==> EndedBy(cs, {JobFailedCondition, FailureTarget})
    ensures JobVerdict(cs) == Succeeded <==> EndedBy(cs, {SuccessCriteriaMet, JobComplete})
  {
    if cs != [] {
      JobVerdictMeaning(cs[1..]);
      if cs[0].isTrue && cs[0].kind != OtherCondition {
        assert FirstTerminal(cs, 0) && forall i :: FirstTerminal(cs, i) ==> i == 0;
      } else {
        forall i ensures FirstTerminal(cs, i) <==> FirstTerminal(cs[1..], i - 1) {
          if FirstTerminal(cs[1..], i - 1) {
            forall h | 0 <= h < i ensures !cs[h].isTrue || cs[h].kind == OtherCondition {
              if h > 0 { assert cs[h] == cs[1..][h - 1]; }
            }
          }
        }
        assert forall i :: FirstTerminal(cs[1..], i) ==> FirstTerminal(cs, i + 1) && cs[i + 1] == cs[1..][i];
      }
    }
  }

  /** Entries that take one of the Concurrency slots. */
  predicate Busy(e: NodeStatus) {
    || e.phase == Preflight || e.phase == Pending || e.phase == Running
    || (e.phase == Completed && e.rebootStatus == RebootPending)
  }

  function BusyNodes(s: Statuses): set<string> {
    set n | n in s && Busy(s[n])
  }

  ghost function InFlight(s: Statuses): nat {
    |BusyNodes(s)|
  }

  predicate HasFailed(s: Statuses) {
    exists n | n in s :: s[n].phase == Failed
  }

  /** A node's operation is over and needs nothing more. */
  predicate Done(spec: Spec, e: NodeStatus) {
    e.phase == Completed && (e.jobName == "" || !spec.reboot || e.rebootStatus == RebootCompleted)
  }

  datatype OverallPhase = OverallFailed | OverallCompleted | OverallRunning

  function PhaseOf(spec: Spec, s: Statuses): OverallPhase {
    if HasFailed(s) then OverallFailed
    else if s != map[] && forall n | n in s :: Done(spec, s[n]) then OverallCompleted
    else OverallRunning
  }

  predicate Recorded(s: Statuses, n: string) {
    n in s && s[n].jobName != ""
  }

  /** The entry recordNodeJob writes. */
  function RecordedEntry(spec: Spec, job: string): NodeStatus {
    NodeStatus(Pending, job, JobCreatedMessage, if spec.reboot then RebootPending else NotRequested, "")
  }

  function WaitingMessage(p: RebootPod): Message {
    WaitingForRebootPod(
      if p.phase != PodPending then Some(p.phase) else None,
      if p.container.ContainerWaiting? then p.container.reason else "")
  }

  function WaitingEntry(p: RebootPod): NodeStatus {
    NodeStatus(Pending, "", WaitingMessage(p), RebootPending, "")
  }

  lemma InFlightUpdate(s: Statuses, n: string, e: NodeStatus)
    ensures InFlight(s[n := e]) <= InFlight(s) + 1
    ensures (n in s && Busy(s[n])) || !Busy(e) ==> InFlight(s[n := e]) <= InFlight(s)
  {
    var before, after := BusyNodes(s), BusyNodes(s[n := e]);
    assert after <= before + {n};
    SubsetSize(after, before + {n});
    if (n in s && Busy(s[n])) || !Busy(e) {
      assert after <= before;
      SubsetSize(after, before);
    }
  }

  lemma {:induction false} SubsetSize<T>(a: set<T>, b: set<T>)
    requires a <= b
    ensures |a| <= |b|
  {
    if a != {} {
      var x :| x in a;
      SubsetSize(a - {x}, b - {x});
    }
  }
}
