/** Reconcile, and any run of the controller in a cluster that changes around it. */
module Reconciler {
  import opened Wrappers
  import opened NodeOpTypes
  import opened Cluster
  import opened Knowledge
  import opened ApiServer
  import opened StatusFlow
  import opened StatusUpdate
  import opened JobCreation
  import opened Release
  import opened TargetNodes
  import opened JobManagement

  /** One pass whose updateNodeOpStatus succeeded: the cluster manageJobCreation started from, and what it did. */
  datatype Round = Round(begun: World, work: Pass)

  /** What one pass attempts, given the statuses it starts from. */
  ghost predicate Attempted(spec: Spec, selector: Option<NodeInfo -> bool>, s: Statuses, pass: Pass) {
    if pass.mid.None? then pass.attempts == []
    else
      var mid := pass.mid.value;
      && mid.Keys == s.Keys
      && pass.targets == StableSort(Matching(selector, pass.listed))
      && pass.attempts == FreshOf(pass.targets, mid)[..SlotsFor(spec, pass.targets, mid, InFlight(mid))]
  }

  /** The pass has stopped the operation because of the failure it started from, and starts nothing. */
  ghost predicate Stopped(round: Round, w: World) {
    && w.halted && round.work.attempts == []
    && round.begun.trace + [Halted] <= w.trace
  }

  /** The waiting nodes without a Job have been let go, and none of them has a live reboot Pod. */
  ghost predicate LetGo(spec: Spec, begun: World, w: World)
    requires begun.history != [] && w.history != []
  {
    && Released(spec, begun, Current(begun), Current(w))
    && forall n | n in Current(begun) && n !in Current(w) :: !HasLive(w, n)
  }

  /** One pass. It may start from an out-of-date copy of the NodeOp, and stop at any call. */
  method Reconcile(api: Api, selector: Option<NodeInfo -> bool>) returns (ok: bool, ghost round: Option<Round>)
    requires Inv(api.spec, api.w)
    modifies api
    ensures Inv(api.spec, api.w) && Forward(old(api.w), api.w)
    ensures round.Some? ==>
              var begun := round.value.begun;
              && Inv(api.spec, begun) && Forward(old(api.w), begun) && Forward(begun, api.w) && begun.history != []
              && Attempted(api.spec, selector, Current(begun), round.value.work)
              && (api.spec.stopOnFailure && HasFailed(Current(begun)) ==> Stopped(round.value, api.w))
    ensures api.quiet && api.spec.stopOnFailure && round.Some? && round.value.begun.history != []
            && (exists x | x in round.value.work.targets ::
                  PreflightHasFailed(round.value.begun, Current(round.value.begun), x.name)) ==>
              round.value.work.attempts == [] && (ok ==> api.w.halted)
    ensures api.quiet ==>
              && (round.Some? <==> NodesReady(api.spec, old(api.w), Current(old(api.w))))
              && (round.None? ==> !ok && api.w.history == old(api.w).history)
    ensures api.quiet && round.Some? ==>
              var begun, refreshed := round.value.begun, RefreshAll(api.spec, old(api.w), Current(old(api.w)));
              && begun.history == old(api.w).history + [refreshed]
              && NodesFollow(api.spec, old(api.w), begun, refreshed)
              && StatusDecided(api.spec, old(api.w), begun, Current(old(api.w)), refreshed)
              && (api.spec.stopOnFailure && HasFailed(refreshed) ==>
                    ok && api.w.history != [] && LetGo(api.spec, begun, api.w))
  {
    hide Inv, Good, Passive, Advances, Forward, NodesReady, RefreshAll, HasFailed, Released, HasLive, OnlyAdds, NodesFollow;
    hide Matching, StableSort, FreshOf, InFlight, StatusDecided, PhaseDecided, PreflightHasFailed;
    ghost var w0 := api.w;
    round := None;
    PassiveStart(api.spec, w0);
    var got := api.GetNodeOp();
    EnvIsPassive(w0, api.w);
    PassiveIsForward(w0, api.w);
    if got.Err? { return false, round; }
    if got.value.None? { return true, round; }
    var op := got.value.value;
    ghost var u := api.w;
    ok := UpdateNodeOpStatus(api, op);
    ForwardTrans(w0, u, api.w);
    if !ok { return; }
    ghost var v := api.w;
    StillThere(api.spec, v);
    ghost var s, work := op.statuses, Pass([], [], None, []);
    ok, work := ManageJobCreation(api, op, selector);
    if work.mid.Some? { KeptKeys(s, work.mid.value, work.targets); }
    round := Some(Round(v, work));
    ForwardTrans(w0, v, api.w);
    StillThere(api.spec, api.w);
  }

  /** In reboot mode a node gets one upgrade Job, the one its ready reboot Pod names, and is not touched after. */
  ghost predicate OneJobPerNode(spec: Spec, w: World) {
    spec.reboot && w.undisturbed ==>
      && (forall n, j, h | Created(w, n, j) && Created(w, n, h) :: j == h)
      && (forall n, j | Created(w, n, j) :: (n, j) in w.announced && exists s | s in w.readied ::
            && s.node == n && s.job == j && s.container == ContainerRunning
            && s.readyConditions != [] && s.readyConditions[|s.readyConditions| - 1])
      && (forall i, k | 0 <= i < k < |w.trace| && w.trace[i].JobCreated? && UpgradeAct(w.trace[k]) ::
            w.trace[k].node != w.trace[i].node)
  }

  /**
   * "Reboot completed" stands on the stored boot ID, which a succeeded Pod of the recorded Job reports:
   * the node is on a later boot. The same holds of every uncordon after success, at its own moment.
   */
  ghost predicate RebootsAreReal(spec: Spec, w: World) {
    && (forall v, n | 0 <= v < |w.history| && n in w.history[v] && w.history[v][n].rebootStatus == RebootCompleted ::
          var e := w.history[v][n];
          e.bootId != "" && RebootProven(w, n, e.jobName, e.bootId) && !RunsOn(w, n, e.bootId))
    && (forall e | e in w.trace && e.Uncordoned? && e.cause.AfterSuccess? && spec.reboot ::
          && RebootProven(w, e.node, e.cause.job, e.cause.bootId)
          && BootedSince(w, e.node, e.cause.bootId, e.boots)
          && e.boots <= |Boots(w, e.node)| && Boots(w, e.node)[e.boots - 1] != e.cause.bootId)
  }

  /** A stored boot ID, and the recorded Job it belongs to, never change. */
  ghost predicate BootIdsStay(w: World) {
    forall u, v, n | 0 <= u <= v < |w.history| && n in w.history[u] && w.history[u][n].bootId != "" ::
      n in w.history[v] && w.history[v][n].bootId == w.history[u][n].bootId
  }

  ghost predicate WithinBudget(spec: Spec, w: World) {
    spec.concurrency > 0 ==> forall v | 0 <= v < |w.history| :: InFlight(w.history[v]) <= spec.concurrency
  }

  lemma InvMeansOneJob(spec: Spec, w: World)
    requires Inv(spec, w)
    ensures OneJobPerNode(spec, w)
  {
    if spec.reboot && w.undisturbed {
      forall n, j, h | Created(w, n, j) && Created(w, n, h) ensures j == h {
        CreatedIsUnique(spec, w, n, j, h);
      }
    }
  }

  lemma InvMeansRealReboots(spec: Spec, w: World)
    requires Inv(spec, w)
    ensures RebootsAreReal(spec, w) && WithinBudget(spec, w)
  {
    forall v, n | 0 <= v < |w.history| && n in w.history[v] && w.history[v][n].rebootStatus == RebootCompleted
      ensures var e := w.history[v][n];
              e.bootId != "" && RebootProven(w, n, e.jobName, e.bootId) && !RunsOn(w, n, e.bootId)
    {
      var e := w.history[v][n];
      assert Good(spec, w, w.history[v]);
      assert GoodEntry(spec, w, n, e);
      LaterBootDiffers(w, n, e.bootId, |Boots(w, n)|);
    }
    forall e | e in w.trace && e.Uncordoned? && e.cause.AfterSuccess? && spec.reboot
      ensures RebootProven(w, e.node, e.cause.job, e.cause.bootId)
      ensures BootedSince(w, e.node, e.cause.bootId, e.boots)
      ensures e.boots <= |Boots(w, e.node)| && Boots(w, e.node)[e.boots - 1] != e.cause.bootId
    {
      assert Justified(spec, w, e);
      LaterBootDiffers(w, e.node, e.cause.bootId, e.boots);
    }
  }

  lemma InvMeansBootIdsStay(spec: Spec, w: World)
    requires Inv(spec, w)
    ensures BootIdsStay(w)
  {
    forall u, v, n | 0 <= u <= v < |w.history| && n in w.history[u] && w.history[u][n].bootId != ""
      ensures n in w.history[v] && w.history[v][n].bootId == w.history[u][n].bootId
    {
      assert Advances(w.history[u], w.history[v]);
      assert AdvancesAt(w.history[u], w.history[v], n);
    }
  }

  /** Once a pass has started from a failure under StopOnFailure nothing is created any more. */
  ghost predicate NothingAfterFailure(spec: Spec, rounds: seq<Round>, w: World) {
    forall r | r in rounds && r.begun.history != [] && spec.stopOnFailure && HasFailed(Current(r.begun)) ::
      forall k | |r.begun.trace| <= k < |w.trace| :: !Creation(w.trace[k])
  }

  /** The rounds of a run so far: each has logged its stop if it started from a failure. */
  ghost predicate RoundsOf(spec: Spec, rounds: seq<Round>, w: World) {
    forall r | r in rounds :: r.begun.history != [] && Forward(r.begun, w) && StopNoted(spec, r, w)
  }

  ghost predicate StopNoted(spec: Spec, r: Round, w: World)
    requires r.begun.history != []
  {
    spec.stopOnFailure && HasFailed(Current(r.begun)) ==> r.begun.trace + [Halted] <= w.trace
  }

  /** Moments of a run, in order, the last of them `w`. */
  ghost predicate Leads(spec: Spec, moments: seq<World>, w: World) {
    && moments != [] && moments[|moments| - 1] == w
    && (forall m | m in moments :: Inv(spec, m))
    && (forall i, k | 0 <= i <= k < |moments| :: Forward(moments[i], moments[k]))
  }

  /**
   * From the moment on which the status records a Job for a node, no further Job is created for that node:
   * with and without reboot mode, and whatever was lost or deleted.
   */
  ghost predicate RecordedIsLast(moments: seq<World>) {
    forall i, k, n | 0 <= i <= k < |moments| && moments[i].history != [] && moments[k].history != [] ::
      Recorded(Current(moments[i]), n) ==> Recorded(Current(moments[k]), n) && !MadeSince(moments[i], moments[k], n)
  }

  lemma LeadsFurther(spec: Spec, moments: seq<World>, u: World, v: World)
    requires Leads(spec, moments, u) && Inv(spec, v) && Forward(u, v)
    ensures Leads(spec, moments + [v], v)
  {
    hide Inv, Forward;
    var more := moments + [v];
    forall i, k | 0 <= i <= k < |more| ensures Forward(more[i], more[k]) {
      if k == |moments| {
        if i == k { ForwardRefl(v); } else { ForwardTrans(moments[i], u, v); }
      }
    }
  }

  lemma LeadsStart(spec: Spec, w: World)
    requires Inv(spec, w)
    ensures Leads(spec, [w], w)
  {
    ForwardRefl(w);
  }

  lemma LeadsMeansLast(spec: Spec, moments: seq<World>, w: World)
    requires Leads(spec, moments, w)
    ensures RecordedIsLast(moments)
  {
    forall i, k, n | 0 <= i <= k < |moments| && moments[i].history != [] && moments[k].history != []
                     && Recorded(Current(moments[i]), n)
      ensures Recorded(Current(moments[k]), n) && !MadeSince(moments[i], moments[k], n)
    {
      assert Forward(moments[i], moments[k]);
      assert RecordStops(moments[i], moments[k]);
    }
  }

  lemma NoRounds(spec: Spec, w: World)
    ensures RoundsOf(spec, [], w)
  {
  }

  lemma RoundsGrow(spec: Spec, rounds: seq<Round>, u: World, v: World)
    requires RoundsOf(spec, rounds, u) && Forward(u, v)
    ensures RoundsOf(spec, rounds, v)
  {
    forall r | r in rounds ensures Forward(r.begun, v) && StopNoted(spec, r, v) {
      ForwardTrans(r.begun, u, v);
    }
  }

  lemma RoundsMeanStop(spec: Spec, rounds: seq<Round>, w: World)
    requires Inv(spec, w) && RoundsOf(spec, rounds, w)
    ensures NothingAfterFailure(spec, rounds, w)
  {
    forall r, k | r in rounds && spec.stopOnFailure && HasFailed(Current(r.begun)) && |r.begun.trace| <= k < |w.trace|
      ensures !Creation(w.trace[k])
    {
      assert StopNoted(spec, r, w);
      assert w.trace[|r.begun.trace|] == Halted;
    }
  }

  /**
   * Any run: from a new NodeOp, any number of passes, faults, restarts and environment steps
   * in any order. What holds of the final cluster holds of every cluster on the way, since a run
   * may stop anywhere, and its trace and history tell the whole run. `rounds` lists the passes
   * that got as far as manageJobCreation, `moments` the cluster at each of these points and between
   * the passes.
   */
  method Run(spec: Spec, selector: Option<NodeInfo -> bool>, start: World, steps: nat)
    returns (w: World, ghost rounds: seq<Round>, ghost moments: seq<World>)
    requires Initial(spec, start)
    ensures Inv(spec, w) && Forward(start, w)
    ensures Leads(spec, moments, w) && moments[0] == start && forall r | r in rounds :: r.begun in moments
    ensures OneJobPerNode(spec, w)
    ensures RecordedIsLast(moments)
    ensures RebootsAreReal(spec, w) && BootIdsStay(w)
    ensures WithinBudget(spec, w)
    ensures forall r | r in rounds :: Forward(start, r.begun) && Forward(r.begun, w)
    ensures NothingAfterFailure(spec, rounds, w)
  {
    hide Inv, Forward, HasFailed, StopNoted, Attempted, RoundsOf, Leads;
    InitialInv(spec, start);
    moments := [start];
    LeadsStart(spec, start);
    var api := new Api(spec, false, start);
    ForwardRefl(start);
    rounds := [];
    NoRounds(spec, start);
    var left := steps;
    while left > 0
      invariant api.spec == spec && Inv(spec, api.w) && Forward(start, api.w) && fresh(api)
      invariant RoundsOf(spec, rounds, api.w) && forall r | r in rounds :: Forward(start, r.begun)
      invariant Leads(spec, moments, api.w) && moments != [] && moments[0] == start
      invariant forall r | r in rounds :: r.begun in moments
    {
      ghost var u := api.w;
      var reconcile: bool := *;
      if reconcile {
        ghost var round;
        var ok;
        ok, round := Reconcile(api, selector);
        RoundsGrow(spec, rounds, u, api.w);
        if round.Some? {
          RoundAdded(spec, rounds, round.value, api.w);
          ForwardTrans(start, u, round.value.begun);
          LeadsFurther(spec, moments, u, round.value.begun);
          LeadsFurther(spec, moments + [round.value.begun], round.value.begun, api.w);
          rounds, moments := rounds + [round.value], moments + [round.value.begun] + [api.w];
        } else {
          LeadsFurther(spec, moments, u, api.w);
          moments := moments + [api.w];
        }
      } else {
        api.Interfere();
        EnvIsPassive(u, api.w);
        PassiveIsForward(u, api.w);
        RoundsGrow(spec, rounds, u, api.w);
        LeadsFurther(spec, moments, u, api.w);
        moments := moments + [api.w];
      }
      ForwardTrans(start, u, api.w);
      left := left - 1;
    }
    w := api.w;
    InvMeansOneJob(spec, w);
    InvMeansRealReboots(spec, w);
    InvMeansBootIdsStay(spec, w);
    RoundsMeanStop(spec, rounds, w);
    RoundsForward(spec, rounds, w);
    LeadsMeansLast(spec, moments, w);
  }

  lemma RoundAdded(spec: Spec, rounds: seq<Round>, round: Round, w: World)
    requires RoundsOf(spec, rounds, w) && round.begun.history != [] && Forward(round.begun, w)
    requires spec.stopOnFailure && HasFailed(Current(round.begun)) ==> Stopped(round, w)
    ensures RoundsOf(spec, rounds + [round], w)
  {
    hide Forward, HasFailed;
  }

  lemma RoundsForward(spec: Spec, rounds: seq<Round>, w: World)
    requires RoundsOf(spec, rounds, w)
    ensures forall r | r in rounds :: Forward(r.begun, w)
  {
    hide Forward;
  }
}
