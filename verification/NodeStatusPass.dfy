/** updateNodeOpStatus and what it calls. */
module NodeStatusPass {
  import opened Wrappers
  import opened BootIds
  import opened NodeOpTypes
  import opened Cluster
  import opened Environment
  import opened Knowledge
  import opened ApiServer
  import opened NodeActions
  import opened RebootPods
  import opened StatusFlow

  /** What Refresh looks at is the same in both. */
  predicate SameFacts(u: World, v: World) {
    v.jobs == u.jobs && v.jobPods == u.jobPods && v.views == u.views && v.history == u.history
  }

  /** processJobStatus: the first true terminal condition of the Job decides. */
  method ProcessJobStatus(api: Api, e: NodeStatus) returns (r: Result<NodeStatus>)
    requires Inv(api.spec, api.w)
    modifies api
    ensures Inv(api.spec, api.w) && Env(old(api.w), api.w)
    ensures r.Ok? ==> r.value == AfterJob(api.w, e) && JobDecides(api.w, e, r.value)
    ensures api.quiet ==> r.Ok? && api.w == old(api.w)
  {
    hide Inv, JobDecides;
    var got := api.GetJob(e.jobName);
    if got.Err? { return Err; }
    AfterJobDecides(api.w, e);
    if got.value.None? { return Ok(e.(phase := Failed, message := JobNotFound)); }
    var conditions := got.value.value.conditions;
    var i := 0;
    while i < |conditions|
      invariant 0 <= i <= |conditions|
      invariant JobVerdict(conditions) == JobVerdict(conditions[i..])
    {
      var c := conditions[i];
      if c.isTrue {
        match c.kind
        case JobFailedCondition | FailureTarget => return Ok(e.(phase := Failed, message := JobFailed));
        case SuccessCriteriaMet | JobComplete =>
          var message := JobSucceeded;
          if e.rebootStatus == RebootCompleted { message := JobAndRebootSucceeded; }
          return Ok(e.(phase := Completed, message := message));
        case OtherCondition =>
      }
      assert conditions[i..][1..] == conditions[i + 1..];
      i := i + 1;
    }
    r := Ok(e.(phase := Running, message := JobIsRunning));
  }

  /** nodeRebootedSince */
  method NodeRebootedSince(api: Api, n: string, j: string, id: string) returns (r: Result<bool>)
    requires Inv(api.spec, api.w) && id != ""
    requires Reported(api.w, j, id) && api.w.drawn[j] == n
    modifies api
    ensures Inv(api.spec, api.w) && Env(old(api.w), api.w)
    ensures r == Ok(true) ==> RebootProven(api.w, n, j, id)
    ensures api.quiet ==> r == Ok(RebootedSince(ViewOf(api.w, n), id)) && api.w == old(api.w)
  {
    hide Inv;
    var got := api.GetNodeView(n);
    EnvIsPassive(old(api.w), api.w);
    PassiveReported(old(api.w), api.w, n, j, id);
    if got.Err? { return Err; }
    var view := got.value;
    if view.bootId == "" || view.bootId == id { return Ok(false); }
    if view.ready { PhysicalPart(api.spec, api.w); OtherBootProves(api.spec, api.w, n, j, id, view); }
    r := Ok(view.ready);
  }

  lemma PhysicalPart(spec: Spec, w: World)
    requires Inv(spec, w)
    ensures Physical(w)
  {
  }

  /** isRebootCompleted: the entry with its boot ID filled in, and whether the reboot is proven. */
  method IsRebootCompleted(api: Api, n: string, e: NodeStatus) returns (r: Result<(NodeStatus, bool)>)
    requires Inv(api.spec, api.w) && GoodEntry(api.spec, api.w, n, e) && e.jobName != ""
    modifies api
    ensures Inv(api.spec, api.w) && Passive(old(api.w), api.w)
    ensures r.Ok? ==> exists id ::
              && r.value.0 == (if id != "" then e.(bootId := id) else e)
              && (e.bootId != "" ==> id == e.bootId)
              && (id != "" ==> Reported(api.w, e.jobName, id))
              && (r.value.1 ==> id != "" && RebootProven(api.w, n, e.jobName, id))
    ensures api.quiet ==>
              var id := KnownBootId(old(api.w), e);
              && api.w == old(api.w)
              && r == Ok((if id != "" then e.(bootId := id) else e, RebootedSince(ViewOf(api.w, n), id)))
  {
    hide Inv, GoodEntry;
    PassiveStart(api.spec, api.w);
    var f := e;
    if e.bootId == "" {
      var pods := api.ListUpgradePods(e.jobName);
      EnvIsPassive(old(api.w), api.w);
      if pods.Err? { return Err; }
      var id := FromJobPods(pods.value);
      ReportFromPods(api.w, e.jobName, pods.value);
      if !Valid(id) {
        assert id == "";
        return Ok((f, false));
      }
      f := f.(bootId := id);
    }
    ghost var u := api.w;
    PassiveEntry(api.spec, old(api.w), u, n, e);
    var rebooted := NodeRebootedSince(api, n, e.jobName, f.bootId);
    EnvIsPassive(u, api.w);
    PassiveChain(api.spec, old(api.w), u, api.w);
    PassiveReported(u, api.w, n, e.jobName, f.bootId);
    if rebooted.Err? { return Err; }
    r := Ok((f, rebooted.value));
  }

  lemma StoredIsReported(spec: Spec, w: World, n: string, e: NodeStatus)
    requires GoodEntry(spec, w, n, e)
    ensures e.bootId != "" ==> Reported(w, e.jobName, e.bootId)
  {
  }

  /** processRebootStatus */
  method ProcessRebootStatus(api: Api, n: string, e: NodeStatus) returns (r: Result<NodeStatus>)
    requires Inv(api.spec, api.w) && GoodEntry(api.spec, api.w, n, e) && e.jobName != ""
    requires Recorded(Current(api.w), n)
    modifies api
    ensures Inv(api.spec, api.w) && Passive(old(api.w), api.w)
    ensures r.Ok? ==> exists id, rebooted ::
              && r.value == AfterReboot(api.spec, e, id, rebooted)
              && (e.bootId != "" ==> id == e.bootId)
              && (id != "" ==> Reported(api.w, e.jobName, id))
              && (rebooted ==> id != "" && RebootProven(api.w, n, e.jobName, id))
    ensures api.quiet ==>
              var id := KnownBootId(old(api.w), e);
              && r == Ok(AfterReboot(api.spec, e, id, RebootedSince(ViewOf(old(api.w), n), id)))
              && api.w == old(api.w).(pods := api.w.pods)
    ensures api.quiet ==> r.Ok? && RebootDecides(api.spec, old(api.w), n, e, r.value)
    ensures api.quiet && api.spec.reboot && e.phase == Failed && e.rebootStatus !in {Unset, Cancelled} ==>
              forall p | p in api.w.pods && api.w.pods[p].node == n :: api.w.pods[p].deleting
  {
    hide Inv, Passive, RebootDecides, Reported, RebootProven, GoodEntry, FromJobPods;
    AfterRebootDecides(api.spec, api.w, n, e);
    PassiveStart(api.spec, api.w);
    StoredIsReported(api.spec, api.w, n, e);
    if e.rebootStatus == Unset {
      var f := e.(rebootStatus := if api.spec.reboot then RebootPending else NotRequested);
      assert f == AfterReboot(api.spec, e, e.bootId, false);
      return Ok(f);
    }
    if e.phase == Failed && api.spec.reboot {
      if e.rebootStatus != Cancelled {
        var ok := CleanupRebootPodForNode(api, n);
        PassiveReported(old(api.w), api.w, n, e.jobName, e.bootId);
      }
      var f := e.(rebootStatus := Cancelled);
      assert f == AfterReboot(api.spec, e, e.bootId, false);
      return Ok(f);
    }
    if e.phase == Completed && e.rebootStatus == RebootPending {
      var checked := IsRebootCompleted(api, n, e);
      if checked.Err? { return Err; }
      var (f, rebooted) := checked.value;
      ghost var id :| && f == (if id != "" then e.(bootId := id) else e)
                      && (e.bootId != "" ==> id == e.bootId)
                      && (id != "" ==> Reported(api.w, e.jobName, id))
                      && (rebooted ==> id != "" && RebootProven(api.w, n, e.jobName, id));
      if rebooted {
        f := f.(rebootStatus := RebootCompleted, message := JobAndRebootSucceeded);
      }
      assert f == AfterReboot(api.spec, e, id, rebooted);
      return Ok(f);
    }
    assert e == AfterReboot(api.spec, e, e.bootId, false);
    r := Ok(e);
  }

  /** uncordonAfterFailure */
  method UncordonAfterFailure(api: Api, n: string) returns (ok: bool)
    requires Inv(api.spec, api.w)
    modifies api
    ensures Inv(api.spec, api.w) && Passive(old(api.w), api.w)
    ensures api.quiet ==>
              && OnlyNodesDiffer(old(api.w), api.w)
              && (ok <==> (api.spec.cordon && api.spec.uncordonOnFailure ==> HasNode(old(api.w), n)))
              && NodeTurns(old(api.w), api.w, n, api.spec.cordon && api.spec.uncordonOnFailure, api.spec.ownerRef)
    ensures !(api.spec.cordon && api.spec.uncordonOnFailure) ==> ok && api.w == old(api.w)
  {
    PassiveStart(api.spec, api.w);
    if !api.spec.cordon || !api.spec.uncordonOnFailure { return true; }
    ok := UncordonNode(api, n, AfterFailure);
  }
}
