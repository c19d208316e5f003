/** How one pass over a node's status entry changes it: processJobStatus and processRebootStatus. */
module StatusFlow {
  import opened BootIds
  import opened NodeOpTypes
  import opened Cluster

  /** updateNodeOpStatus leaves these entries as they are. */
  predicate LeftAlone(e: NodeStatus) {
    e.phase == Preflight || (e.jobName == "" && (e.phase == Pending || e.phase == Completed || e.phase == Failed))
  }

  function AfterJob(w: World, e: NodeStatus): NodeStatus {
    if e.jobName !in w.jobs then e.(phase := Failed, message := JobNotFound)
    else match JobVerdict(w.jobs[e.jobName].conditions)
      case Broken => e.(phase := Failed, message := JobFailed)
      case Succeeded =>
        e.(phase := Completed,
           message := if e.rebootStatus == RebootCompleted then JobAndRebootSucceeded else JobSucceeded)
      case Undecided => e.(phase := Running, message := JobIsRunning)
  }

  /** Given the boot ID the Job reported ("" when none) and whether the node is up on another boot. */
  function AfterReboot(spec: Spec, e: NodeStatus, id: string, rebooted: bool): NodeStatus {
    if e.rebootStatus == Unset then e.(rebootStatus := if spec.reboot then RebootPending else NotRequested)
    else if e.phase == Failed && spec.reboot then e.(rebootStatus := Cancelled)
    else if e.phase == Completed && e.rebootStatus == RebootPending && id != "" then
      if rebooted
      then e.(bootId := id, rebootStatus := RebootCompleted, message := JobAndRebootSucceeded)
      else e.(bootId := id)
    else e
  }

  function PodsOf(w: World, j: string): seq<UpgradePod> {
    if j in w.jobPods then w.jobPods[j] else []
  }

  function ViewOf(w: World, n: string): NodeView {
    if n in w.views then w.views[n] else NodeView("", false)
  }

  function KnownBootId(w: World, e: NodeStatus): string {
    if e.bootId != "" then e.bootId else FromJobPods(PodsOf(w, e.jobName))
  }

  predicate RebootedSince(v: NodeView, id: string) {
    id != "" && v.bootId != "" && v.bootId != id && v.ready
  }

  /** The entry after one pass on an unchanging cluster. */
  function Refresh(spec: Spec, w: World, n: string, e: NodeStatus): NodeStatus {
    if LeftAlone(e) then e
    else
      var f := AfterJob(w, e);
      var id := KnownBootId(w, f);
      AfterReboot(spec, f, id, RebootedSince(ViewOf(w, n), id))
  }

  function RefreshAll(spec: Spec, w: World, s: Statuses): Statuses {
    map n | n in s :: Refresh(spec, w, n, s[n])
  }

  /** The Job's state decides the phase, by the first true condition that ends a Job; nothing else changes but the message. */
  ghost predicate JobDecides(w: World, e: NodeStatus, f: NodeStatus) {
    && f == e.(phase := f.phase, message := f.message)
    && if e.jobName !in w.jobs then f.phase == Failed && f.message == JobNotFound
       else
         var cs := w.jobs[e.jobName].conditions;
         && (f.phase == Failed <==> EndedBy(cs, {JobFailedCondition, FailureTarget}))
         && (f.phase == Completed <==> EndedBy(cs, {SuccessCriteriaMet, JobComplete}))
         && (f.phase == Running <==> forall i :: !FirstTerminal(cs, i))
  }

  lemma AfterJobDecides(w: World, e: NodeStatus)
    ensures JobDecides(w, e, AfterJob(w, e))
  {
    if e.jobName in w.jobs {
      var cs := w.jobs[e.jobName].conditions;
      JobVerdictMeaning(cs);
      forall i, k | FirstTerminal(cs, i) && FirstTerminal(cs, k) ensures i == k {
      }
    }
  }

  /** The boot ID to compare with: the stored one, or else the one that the Job's succeeded Pods report. */
  function Baseline(w: World, e: NodeStatus): string {
    if e.bootId != "" then e.bootId
    else if e.jobName in w.jobPods then FromJobPods(w.jobPods[e.jobName]) else ""
  }

  /** There is a boot ID to compare with, and the Node is Ready and shows another one. */
  predicate RebootShown(w: World, n: string, e: NodeStatus) {
    && Baseline(w, e) != ""
    && n in w.views && w.views[n].ready && w.views[n].bootId != "" && w.views[n].bootId != Baseline(w, e)
  }

  /**
   * What becomes of the reboot status of an entry whose phase is up to date: a failure cancels it, a completed Job's
   * pending reboot is completed exactly when the reboot shows, and anything else stays.
   */
  ghost predicate RebootDecides(spec: Spec, w: World, n: string, e: NodeStatus, f: NodeStatus) {
    if e.rebootStatus == Unset then f == e.(rebootStatus := if spec.reboot then RebootPending else NotRequested)
    else if e.phase == Failed && spec.reboot then f == e.(rebootStatus := Cancelled)
    else if e.phase == Completed && e.rebootStatus == RebootPending then
      && f == e.(bootId := Baseline(w, e), rebootStatus := f.rebootStatus, message := f.message)
      && (f.rebootStatus == RebootCompleted <==> RebootShown(w, n, e))
      && (f.rebootStatus == RebootCompleted || (f.rebootStatus == RebootPending && f.message == e.message))
      && (f.rebootStatus == RebootCompleted ==> f.message == JobAndRebootSucceeded)
    else f == e
  }

  lemma AfterRebootDecides(spec: Spec, w: World, n: string, e: NodeStatus)
    ensures var id := KnownBootId(w, e);
            RebootDecides(spec, w, n, e, AfterReboot(spec, e, id, RebootedSince(ViewOf(w, n), id)))
  {
    assert FromJobPods([]) == "";
    hide FromJobPods;
  }

  /** One pass over an entry: without a Job it stays, with one the Job and then the reboot decide. */
  ghost predicate EntryDecided(spec: Spec, w: World, n: string, e: NodeStatus, f: NodeStatus) {
    if e.phase == Preflight || e.jobName == "" then f == e
    else exists g :: JobDecides(w, e, g) && RebootDecides(spec, w, n, g, f)
  }

  lemma RefreshDecided(spec: Spec, w: World, n: string, e: NodeStatus)
    requires e.jobName == "" ==> e.phase != Running
    ensures EntryDecided(spec, w, n, e, Refresh(spec, w, n, e))
  {
    if e.phase != Preflight && e.jobName != "" {
      AfterJobDecides(w, e);
      AfterRebootDecides(spec, w, n, AfterJob(w, e));
      hide JobDecides, RebootDecides, AfterJob, AfterReboot, KnownBootId, RebootedSince;
    }
  }

  /**
   * Of a Job that waits for its reboot: once it has succeeded, its reboot is completed exactly when the reboot shows,
   * against the boot ID of a succeeded Pod unless one is stored; once it has failed or is gone, its reboot is cancelled.
   */
  lemma JobThenReboot(spec: Spec, w: World, n: string, e: NodeStatus, f: NodeStatus)
    requires EntryDecided(spec, w, n, e, f) && e.phase != Preflight && e.jobName != "" && e.rebootStatus == RebootPending
    ensures e.jobName in w.jobs && EndedBy(w.jobs[e.jobName].conditions, {SuccessCriteriaMet, JobComplete}) ==>
              && f.phase == Completed && (f.rebootStatus == RebootCompleted <==> RebootShown(w, n, e))
              && (f.rebootStatus == RebootCompleted ==>
                    && f.bootId != "" && n in w.views && w.views[n].ready && w.views[n].bootId !in {"", f.bootId}
                    && (e.bootId == "" ==> exists p | p in PodsOf(w, e.jobName) :: Reports(p, f.bootId)))
    ensures e.jobName !in w.jobs || EndedBy(w.jobs[e.jobName].conditions, {JobFailedCondition, FailureTarget}) ==>
              f.phase == Failed && (spec.reboot ==> f.rebootStatus == Cancelled)
  {
    var g :| JobDecides(w, e, g) && RebootDecides(spec, w, n, g, f);
    BaselineReported(w, e);
    hide FromJobPods;
  }

  lemma BaselineReported(w: World, e: NodeStatus)
    ensures e.bootId == "" && Baseline(w, e) != "" ==> exists p | p in PodsOf(w, e.jobName) :: Reports(p, Baseline(w, e))
  {
    FromJobPodsMeaning(PodsOf(w, e.jobName));
    if e.bootId == "" && Baseline(w, e) != "" {
      var i :| 0 <= i < |PodsOf(w, e.jobName)| && Reports(PodsOf(w, e.jobName)[i], Baseline(w, e));
    }
  }

  /** The overall phase, by the entries. */
  ghost predicate PhaseDecided(spec: Spec, s: Statuses, phase: OverallPhase) {
    && (phase == OverallFailed <==> exists n | n in s :: s[n].phase == Failed)
    && (phase == OverallCompleted <==>
          && s != map[]
          && forall n | n in s ::
               s[n].phase == Completed && (s[n].jobName != "" && spec.reboot ==> s[n].rebootStatus == RebootCompleted))
  }

  lemma PhaseIsDecided(spec: Spec, s: Statuses)
    ensures PhaseDecided(spec, s, PhaseOf(spec, s))
  {
    if s != map[] { var n :| n in s; }
  }

  /** A Job, once found failed or gone, keeps its entry Failed. */
  lemma AfterJobGood(spec: Spec, w: World, n: string, e: NodeStatus)
    requires GoodEntry(spec, w, n, e) && e.jobName != ""
    ensures GoodEntry(spec, w, n, AfterJob(w, e))
    ensures e.phase == Failed ==> AfterJob(w, e).phase == Failed
    ensures AfterJob(w, e).jobName == e.jobName && AfterJob(w, e).bootId == e.bootId
    ensures Busy(AfterJob(w, e)) ==> Busy(e)
  {
  }

  lemma AfterRebootGood(spec: Spec, w: World, n: string, e: NodeStatus, id: string, rebooted: bool)
    requires GoodEntry(spec, w, n, e) && e.jobName != ""
    requires id != "" ==> Reported(w, e.jobName, id)
    requires rebooted ==> id != "" && RebootProven(w, n, e.jobName, id)
    ensures GoodEntry(spec, w, n, AfterReboot(spec, e, id, rebooted))
    ensures var f := AfterReboot(spec, e, id, rebooted);
            && f.jobName == e.jobName && f.phase == e.phase
            && (e.bootId != "" && id == e.bootId ==> f.bootId == e.bootId)
    ensures Busy(AfterReboot(spec, e, id, rebooted)) ==> Busy(e)
  {
  }

  /** A node seen on a boot other than the reported one has booted again since the report. */
  lemma OtherBootProves(spec: Spec, w: World, n: string, j: string, id: string, v: NodeView)
    requires Physical(w) && Reported(w, j, id) && w.drawn[j] == n
    requires Plausible(w, n, v) && RebootedSince(v, id)
    ensures RebootProven(w, n, j, id)
  {
    var r :| r in w.reports && r.0 == j && r.1 < |Boots(w, n)| && Boots(w, n)[r.1] == id;
    var k :| 0 <= k < |Boots(w, n)| && Boots(w, n)[k] == v.bootId &&
             forall r | r in w.reports && r.0 in w.drawn && w.drawn[r.0] == n :: r.1 <= k;
    assert BootsFine(w.boots[n]);
    assert r.1 <= k && r.1 != k;
    assert Boots(w, n)[r.1] == id;
  }

  lemma ReportFromPods(w: World, j: string, ps: seq<UpgradePod>)
    requires forall p | p in ps :: Genuine(w, j, p) && (j, p) in w.podsSeen
    ensures FromJobPods(ps) != "" ==> Valid(FromJobPods(ps)) && Reported(w, j, FromJobPods(ps))
  {
    FromJobPodsMeaning(ps);
    if FromJobPods(ps) != "" {
      var i :| 0 <= i < |ps| && Reports(ps[i], FromJobPods(ps));
      assert Genuine(w, j, ps[i]) && (j, ps[i]) in w.podsSeen;
    }
  }

  /** On an unchanging cluster a second pass changes nothing more. */
  lemma RefreshIdempotent(spec: Spec, w: World, n: string, e: NodeStatus)
    requires e.rebootStatus != Unset
    ensures Refresh(spec, w, n, Refresh(spec, w, n, e)) == Refresh(spec, w, n, e)
  {
    if !LeftAlone(e) {
      hide FromJobPods, JobVerdict, RebootedSince, PodsOf, ViewOf;
      var f := AfterJob(w, e);
      var id := KnownBootId(w, f);
      var rebooted := RebootedSince(ViewOf(w, n), id);
      var g := AfterReboot(spec, f, id, rebooted);
      assert AfterJob(w, g) == g;
      assert f.phase == Completed && f.rebootStatus == RebootPending ==> KnownBootId(w, g) == id;
    }
  }

  lemma {:induction false} SameSize<T>(a: set<T>, b: set<T>)
    requires a <= b && |a| == |b|
    ensures a == b
  {
    if b - a != {} {
      var x :| x in b - a;
      SubsetSize(a, b - {x});
    }
  }
}
