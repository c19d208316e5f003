/** What happens in the cluster between two calls of the operator. */
module Environment {
  import opened BootIds
  import opened NodeOpTypes
  import opened Cluster

  datatype EnvStep =
    | TouchNodeOp                                              // a write that leaves the status alone
    | NodeBoots(node: string, bootId: string)
    | KubeletReports(node: string, ready: bool)
    | JobProgresses(job: string, conditions: seq<Condition>)
    | JobDisappears(job: string)
    | ForeignJob(job: string, node: string)
    | ReporterRuns(job: string)
    | UpgradePodsChange(job: string, pods: seq<UpgradePod>)
    | RebootPodChanges(pod: string, phase: PodPhase, readyConditions: seq<bool>, container: ContainerState)
    | RebootPodDeleted(pod: string)
    | RebootPodGone(pod: string)
    | PreflightPodsChange(node: string, preflights: seq<PreflightPod>)
    | NodeObjectChanges(node: string, stored: NodeObject)
    | NodeRemoved(node: string)
    | WatcherReboots(node: string, job: string)

  predicate UnrecordedJob(w: World, j: string)
    requires w.history != []
  {
    OurJob(w, j) && !Recorded(Current(w), w.jobs[j].node)
  }

  /** The reboot Pod is what leads back to a Job that exists but is not recorded yet. */
  predicate CarriesUnrecordedJob(w: World, p: string)
    requires w.history != []
  {
    p in w.pods && Live(w.pods[p]) && UnrecordedJob(w, w.pods[p].jobName)
  }

  /** Steps after which the name of a created Job may be lost: it and its Pod go before it is recorded. */
  predicate Disturbs(w: World, s: EnvStep)
    requires w.history != []
  {
    match s
    case JobDisappears(j) => UnrecordedJob(w, j)
    case RebootPodChanges(p, phase, _, _) => CarriesUnrecordedJob(w, p) && (phase == PodSucceeded || phase == PodFailed)
    case RebootPodDeleted(p) => CarriesUnrecordedJob(w, p)
    case RebootPodGone(p) => CarriesUnrecordedJob(w, p)
    case _ => false
  }

  predicate Enabled(w: World, s: EnvStep) {
    match s
    case NodeBoots(n, id) => Valid(id) && id !in Boots(w, n)
    case KubeletReports(n, _) => n in w.nodes
    case JobProgresses(j, cs) =>
      j in w.jobs && (JobVerdict(w.jobs[j].conditions) != Undecided ==> JobVerdict(cs) == JobVerdict(w.jobs[j].conditions))
    case ForeignJob(j, _) => j !in w.jobNames
    case ReporterRuns(j) =>
      && j in w.drawn && Boots(w, w.drawn[j]) != []
      && w.drawn[j] in w.views
      && w.views[w.drawn[j]].bootId == Boots(w, w.drawn[j])[|Boots(w, w.drawn[j])| - 1]
    case UpgradePodsChange(j, pods) => forall p | p in pods :: Genuine(w, j, p)
    case RebootPodChanges(p, phase, _, _) => p in w.pods && (!Live(w.pods[p]) ==> phase == w.pods[p].phase)
    case RebootPodDeleted(p) => p in w.pods
    case WatcherReboots(n, j) =>
      && j in w.drawn && w.drawn[j] == n
      && Boots(w, n) != [] && Reported(w, j, Boots(w, n)[LastBoot(w, n)])
    case _ => true
  }

  function LastBoot(w: World, n: string): nat
    requires Boots(w, n) != []
  {
    |Boots(w, n)| - 1
  }

  function HistoryAfter(w: World, s: EnvStep): seq<Statuses>
    requires w.history != []
  {
    if s.TouchNodeOp? then w.history + [Current(w)] else w.history
  }

  function JobsAfter(w: World, s: EnvStep): map<string, Job>
    requires Enabled(w, s)
  {
    match s
    case JobProgresses(j, cs) => w.jobs[j := w.jobs[j].(conditions := cs)]
    case JobDisappears(j) => w.jobs - {j}
    case ForeignJob(j, n) => w.jobs[j := Job(n, false, [])]
    case _ => w.jobs
  }

  function JobNamesAfter(w: World, s: EnvStep): set<string> {
    if s.ForeignJob? then w.jobNames + {s.job} else w.jobNames
  }

  function PodsAfter(w: World, s: EnvStep): map<string, RebootPod> {
    match s
    case RebootPodChanges(p, phase, ready, container) =>
      if p in w.pods
      then w.pods[p := w.pods[p].(phase := phase, readyConditions := ready, container := container)]
      else w.pods
    case RebootPodDeleted(p) => if p in w.pods then w.pods[p := w.pods[p].(deleting := true)] else w.pods
    case RebootPodGone(p) => w.pods - {p}
    case _ => w.pods
  }

  function ReadiedAfter(w: World, s: EnvStep): set<Sighting> {
    if s.RebootPodChanges? && s.pod in w.pods && RebootPodReady(PodsAfter(w, s)[s.pod])
    then w.readied + {SightingOf(PodsAfter(w, s)[s.pod])}
    else w.readied
  }

  function NodesAfter(w: World, s: EnvStep): map<string, seq<NodeObject>> {
    if s.NodeObjectChanges?
    then w.nodes[s.node := NodeVersions(w, s.node) + [s.stored]]
    else if s.NodeRemoved? then w.nodes - {s.node}
    else w.nodes
  }

  function FormerAfter(w: World, s: EnvStep): map<string, seq<NodeObject>> {
    if s.NodeRemoved? then w.formerNodes[s.node := NodeVersions(w, s.node)] else w.formerNodes
  }

  function BootsAfter(w: World, s: EnvStep): map<string, seq<string>> {
    if s.NodeBoots? then w.boots[s.node := Boots(w, s.node) + [s.bootId]] else w.boots
  }

  function ViewsAfter(w: World, s: EnvStep): map<string, NodeView> {
    if s.KubeletReports? then
      var boots := Boots(w, s.node);
      w.views[s.node := NodeView(if boots == [] then "" else boots[|boots| - 1], s.ready)]
    else if s.NodeRemoved? then w.views - {s.node}
    else w.views
  }

  function ReportsAfter(w: World, s: EnvStep): set<(string, nat)>
    requires Enabled(w, s)
  {
    if s.ReporterRuns? then w.reports + {(s.job, LastBoot(w, w.drawn[s.job]))} else w.reports
  }

  function PodsSeenAfter(w: World, s: EnvStep): set<(string, UpgradePod)> {
    if s.UpgradePodsChange? then w.podsSeen + (set p | p in s.pods :: (s.job, p)) else w.podsSeen
  }

  function IssuedAfter(w: World, s: EnvStep): set<(string, string, nat)>
    requires Enabled(w, s)
  {
    if s.WatcherReboots? then w.issued + {(s.node, s.job, LastBoot(w, s.node))} else w.issued
  }

  function Next(w: World, s: EnvStep): World
    requires w.history != []
  {
    if !Enabled(w, s) then w
    else World(
      HistoryAfter(w, s),
      JobsAfter(w, s),
      JobNamesAfter(w, s),
      w.drawn,
      w.announced,
      PodsAfter(w, s),
      ReadiedAfter(w, s),
      if s.PreflightPodsChange? then w.preflights[s.node := s.preflights] else w.preflights,
      NodesAfter(w, s),
      FormerAfter(w, s),
      BootsAfter(w, s),
      ViewsAfter(w, s),
      ReportsAfter(w, s),
      if s.UpgradePodsChange? then w.jobPods[s.job := s.pods] else w.jobPods,
      PodsSeenAfter(w, s),
      IssuedAfter(w, s),
      w.undisturbed && !Disturbs(w, s),
      w.halted,
      w.trace)
  }

  /** Job verdicts stick, and no name of a Job that has gone comes back. */
  predicate JobsEvolve(w: World, v: World) {
    JobsFrom(w.jobs, w.jobNames, v.jobs)
  }

  predicate JobsFrom(before: map<string, Job>, used: set<string>, after: map<string, Job>) {
    forall j | j in after ::
      if j in before
      then
        && after[j].node == before[j].node && after[j].ours == before[j].ours
        && (JobVerdict(before[j].conditions) != Undecided ==>
              JobVerdict(after[j].conditions) == JobVerdict(before[j].conditions))
      else j !in used && !after[j].ours
  }

  predicate PodsShrink(w: World, v: World) {
    PodsFrom(w.pods, v.pods)
  }

  predicate PodsFrom(before: map<string, RebootPod>, after: map<string, RebootPod>) {
    forall p | p in after ::
      && p in before
      && after[p].node == before[p].node && after[p].jobName == before[p].jobName
      && after[p].created == before[p].created
      && (Live(after[p]) ==> Live(before[p]))
  }

  ghost predicate BootsGrow(w: World, v: World) {
    && (forall n :: Boots(w, n) <= Boots(v, n))
    && w.reports <= v.reports
    && w.readied <= v.readied
    && w.podsSeen <= v.podsSeen
    && w.issued <= v.issued
  }

  ghost predicate NodesGrow(w: World, v: World) {
    forall n :: NodeVersions(w, n) <= NodeVersions(v, n)
  }

  predicate Kept(w: World, v: World)
    requires w.history != []
  {
    && (forall j | j in w.jobs && UnrecordedJob(w, j) :: j in v.jobs)
    && (forall p | p in w.pods && CarriesUnrecordedJob(w, p) :: p in v.pods && Live(v.pods[p]))
  }

  /** What any number of environment steps can do, as the operator sees it. */
  ghost predicate Env(w: World, v: World) {
    && w.history != [] && w.history <= v.history
    && (forall i | |w.history| <= i < |v.history| :: v.history[i] == Current(w))
    && v.drawn == w.drawn && v.announced == w.announced && v.trace == w.trace && v.halted == w.halted
    && w.jobNames <= v.jobNames
    && JobsEvolve(w, v) && PodsShrink(w, v) && BootsGrow(w, v) && NodesGrow(w, v)
    && (v.undisturbed ==> w.undisturbed && Kept(w, v))
  }

  lemma EnvRefl(w: World)
    requires w.history != []
    ensures Env(w, w)
  {
  }

  lemma EnvCurrent(w: World, v: World)
    requires Env(w, v)
    ensures v.history != [] && Current(v) == Current(w)
  {
    if |v.history| > |w.history| {
      assert v.history[|v.history| - 1] == Current(w);
    } else {
      assert v.history == w.history;
    }
  }

  lemma EnvTrans(u: World, v: World, w: World)
    requires Env(u, v) && Env(v, w)
    requires forall j | j in u.jobs :: j in u.jobNames
    ensures Env(u, w)
  {
    EnvCurrent(u, v);
    EnvCurrent(v, w);
    forall i | |u.history| <= i < |w.history| ensures w.history[i] == Current(u) {
      if i < |v.history| { assert w.history[i] == v.history[i]; }
    }
    assert BootsGrow(u, w) by {
      forall n ensures Boots(u, n) <= Boots(w, n) {
        assert Boots(u, n) <= Boots(v, n) <= Boots(w, n);
      }
    }
    assert NodesGrow(u, w) by {
      forall n ensures NodeVersions(u, n) <= NodeVersions(w, n) {
        assert NodeVersions(u, n) <= NodeVersions(v, n) <= NodeVersions(w, n);
      }
    }
    if w.undisturbed {
      forall j | j in u.jobs && UnrecordedJob(u, j) ensures j in w.jobs {
        assert UnrecordedJob(v, j);
      }
      forall p | p in u.pods && CarriesUnrecordedJob(u, p) ensures p in w.pods && Live(w.pods[p]) {
        assert CarriesUnrecordedJob(v, p);
      }
    }
  }
}
