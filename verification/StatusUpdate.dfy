/** updateNodeOpStatus: one pass over all entries, in whatever order the map is visited. */
module StatusUpdate {
  import opened Wrappers
  import opened NodeOpTypes
  import opened Cluster
  import opened OperatorWrites
  import opened Knowledge
  import opened ApiServer
  import opened NodeActions
  import opened StatusFlow
  import opened NodeStatusPass
  import opened Cordons

  /** The nodes that this pass uncordons have a Node object; other nodes of the status need not. */
  predicate NodesReady(spec: Spec, w: World, s: Statuses) {
    forall n | n in s && ToUncordon(spec, Refresh(spec, w, n, s[n])) :: HasNode(w, n)
  }

  /** One entry has become `e`, its Node has followed, and the visit fails just when a Node to uncordon is gone. */
  ghost predicate Visited(spec: Spec, u: World, v: World, n: string, e: NodeStatus, ok: bool) {
    && (ok <==> (ToUncordon(spec, e) ==> HasNode(u, n)))
    && NodeTurns(u, v, n, ToUncordon(spec, e), spec.ownerRef)
  }

  /** processJobStatus and processRebootStatus on one entry. */
  method ProcessEntry(api: Api, n: string, e: NodeStatus) returns (r: Result<NodeStatus>)
    requires Inv(api.spec, api.w) && GoodEntry(api.spec, api.w, n, e) && e.jobName != ""
    requires Recorded(Current(api.w), n)
    modifies api
    ensures Inv(api.spec, api.w) && Passive(old(api.w), api.w)
    ensures r.Ok? ==>
              && GoodEntry(api.spec, api.w, n, r.value)
              && r.value.jobName == e.jobName
              && (e.bootId != "" ==> r.value.bootId == e.bootId)
              && (e.phase == Failed ==> r.value.phase == Failed)
              && (Busy(r.value) ==> Busy(e))
    ensures api.quiet && !LeftAlone(e) ==> r == Ok(Refresh(api.spec, old(api.w), n, e))
    ensures api.quiet ==> SameFacts(old(api.w), api.w) && api.w.nodes == old(api.w).nodes
  {
    hide Inv, GoodEntry, AfterJob, AfterReboot;
    var processed := ProcessJobStatus(api, e);
    EnvIsPassive(old(api.w), api.w);
    if processed.Err? { return Err; }
    var f := processed.value;
    ghost var u := api.w;
    PassiveEntry(api.spec, old(api.w), u, n, e);
    AfterJobGood(api.spec, u, n, e);
    r := ProcessRebootStatus(api, n, f);
    PassiveChain(api.spec, old(api.w), u, api.w);
    if r.Ok? {
      ghost var id, rebooted :| r.value == AfterReboot(api.spec, f, id, rebooted)
                                && (f.bootId != "" ==> id == f.bootId)
                                && (id != "" ==> Reported(api.w, f.jobName, id))
                                && (rebooted ==> id != "" && RebootProven(api.w, n, f.jobName, id));
      PassiveEntry(api.spec, u, api.w, n, f);
      AfterRebootGood(api.spec, api.w, n, f, id, rebooted);
    }
  }

  /** A node whose operation is complete is uncordoned, in reboot mode only once its reboot is proven. */
  method UncordonCompleted(api: Api, n: string, e: NodeStatus) returns (ok: bool)
    requires Inv(api.spec, api.w) && GoodEntry(api.spec, api.w, n, e) && e.jobName != ""
    modifies api
    ensures Inv(api.spec, api.w) && Passive(old(api.w), api.w)
    ensures api.quiet ==>
              && OnlyNodesDiffer(old(api.w), api.w)
              && (ok <==> (e.phase == Completed && ToUncordon(api.spec, e) ==> HasNode(old(api.w), n)))
              && NodeTurns(old(api.w), api.w, n, e.phase == Completed && ToUncordon(api.spec, e), api.spec.ownerRef)
    ensures e.phase != Completed ==> ok && api.w == old(api.w)
  {
    hide Inv;
    PassiveStart(api.spec, api.w);
    if e.phase == Completed && api.spec.cordon {
      if (api.spec.reboot && e.rebootStatus == RebootCompleted) || !api.spec.reboot {
        ok := UncordonNode(api, n, AfterSuccess(e.jobName, e.bootId));
        return;
      }
    }
    ok := true;
  }

  /** A node whose operation failed is uncordoned when the spec asks for it. */
  method UncordonFailed(api: Api, op: NodeOp, n: string) returns (ok: bool)
    requires Inv(api.spec, api.w) && Holds(api.spec, api.w, op)
    modifies api
    ensures Inv(api.spec, api.w) && Passive(old(api.w), api.w) && Holds(api.spec, api.w, op)
    ensures api.quiet ==>
              && OnlyNodesDiffer(old(api.w), api.w)
              && (ok <==> (api.spec.cordon && api.spec.uncordonOnFailure ==> HasNode(old(api.w), n)))
              && NodeTurns(old(api.w), api.w, n, api.spec.cordon && api.spec.uncordonOnFailure, api.spec.ownerRef)
  {
    hide Inv, Good, Passive, Advances;
    ok := UncordonAfterFailure(api, n);
    StillHolds(api.spec, old(api.w), api.w, op.statuses, op.version);
  }

  /** The part of the loop body for an entry with a Job. */
  method VisitJobEntry(api: Api, op: NodeOp, n: string) returns (ok: bool)
    requires Inv(api.spec, api.w) && Holds(api.spec, api.w, op) && n in op.statuses && !LeftAlone(op.statuses[n])
    requires Recorded(op.statuses, n) ==> Recorded(Current(api.w), n)
    modifies api, op`statuses
    ensures Inv(api.spec, api.w) && Passive(old(api.w), api.w) && Holds(api.spec, api.w, op)
    ensures n in op.statuses && op.statuses == old(op.statuses)[n := op.statuses[n]]
    ensures api.quiet ==> SameFacts(old(api.w), api.w)
    ensures api.quiet ==>
              && op.statuses[n] == Refresh(api.spec, old(api.w), n, old(op.statuses)[n])
              && Visited(api.spec, old(api.w), api.w, n, op.statuses[n], ok)
  {
    hide Inv, GoodEntry, Good, Passive, Advances, Refresh, LeftAlone, NodeTurns, Visited, ToUncordon;
    PassiveStart(api.spec, api.w);
    GoodAt(api.spec, api.w, op.statuses, n);
    ghost var s, version := op.statuses, op.version;
    JobIsNamed(api.spec, api.w, n, op.statuses[n]);
    var processed := ProcessEntry(api, n, op.statuses[n]);
    StillHolds(api.spec, old(api.w), api.w, s, version);
    if processed.Err? { return false; }
    op.statuses := op.statuses[n := processed.value];
    EntryUpdated(api.spec, api.w, s, version, n, processed.value);
    ghost var u := api.w;
    ok := UncordonCompleted(api, n, processed.value);
    PassiveChain(api.spec, old(api.w), u, api.w);
    StillHolds(api.spec, u, api.w, op.statuses, version);
    if !ok || processed.value.phase != Failed {
      if api.quiet { VisitedSucceeded(api.spec, old(api.w), u, api.w, n, processed.value, ok); }
      return;
    }
    ghost var v := api.w;
    ok := UncordonFailed(api, op, n);
    PassiveChain(api.spec, old(api.w), v, api.w);
    if api.quiet { VisitedFailed(api.spec, old(api.w), v, api.w, n, processed.value, ok); }
  }

  lemma VisitedSucceeded(spec: Spec, w: World, u: World, v: World, n: string, e: NodeStatus, ok: bool)
    requires u.nodes == w.nodes && (!ok || e.phase != Failed)
    requires ok <==> (e.phase == Completed && ToUncordon(spec, e) ==> HasNode(u, n))
    requires NodeTurns(u, v, n, e.phase == Completed && ToUncordon(spec, e), spec.ownerRef)
    ensures Visited(spec, w, v, n, e, ok)
  {
  }

  lemma VisitedFailed(spec: Spec, w: World, u: World, v: World, n: string, e: NodeStatus, ok: bool)
    requires u.nodes == w.nodes && e.phase == Failed
    requires ok <==> (spec.cordon && spec.uncordonOnFailure ==> HasNode(u, n))
    requires NodeTurns(u, v, n, spec.cordon && spec.uncordonOnFailure, spec.ownerRef)
    ensures Visited(spec, w, v, n, e, ok)
  {
  }

  /** What updateNodeOpStatus does with the entry of one node. */
  method VisitEntry(api: Api, op: NodeOp, n: string) returns (ok: bool)
    requires Inv(api.spec, api.w) && Holds(api.spec, api.w, op) && n in op.statuses
    requires Recorded(op.statuses, n) ==> Recorded(Current(api.w), n)
    modifies api, op`statuses
    ensures Inv(api.spec, api.w) && Passive(old(api.w), api.w) && Holds(api.spec, api.w, op)
    ensures n in op.statuses && op.statuses == old(op.statuses)[n := op.statuses[n]]
    ensures api.quiet ==> SameFacts(old(api.w), api.w)
    ensures api.quiet ==>
              && op.statuses[n] == Refresh(api.spec, old(api.w), n, old(op.statuses)[n])
              && Visited(api.spec, old(api.w), api.w, n, op.statuses[n], ok)
  {
    hide Inv, GoodEntry, Good, Passive, Advances, AfterJob, AfterReboot, KnownBootId, RebootedSince, Holds, Recorded;
    PassiveStart(api.spec, api.w);
    var e := op.statuses[n];
    if e.phase == Preflight { return true; }
    if AwaitingRebootPod(e) { return true; }
    if e.phase == Completed && e.jobName == "" { return true; }
    if e.phase == Failed && e.jobName == "" {
      ok := UncordonFailed(api, op, n);
      return;
    }
    ok := VisitJobEntry(api, op, n);
  }

  lemma GoodAt(spec: Spec, w: World, s: Statuses, n: string)
    requires Good(spec, w, s) && n in s
    ensures GoodEntry(spec, w, n, s[n])
    ensures AdvancesAt(s, s, n)
  {
  }

  lemma JobIsNamed(spec: Spec, w: World, n: string, e: NodeStatus)
    requires GoodEntry(spec, w, n, e) && !LeftAlone(e)
    ensures e.jobName != ""
  {
  }

  lemma StillHolds(spec: Spec, u: World, v: World, s: Statuses, version: nat)
    requires Passive(u, v) && Good(spec, u, s) && version < |u.history| && Advances(u.history[version], s)
    ensures Good(spec, v, s) && version < |v.history| && Advances(v.history[version], s)
  {
    PassiveGood(spec, u, v, s);
  }

  lemma EntryUpdated(spec: Spec, w: World, s: Statuses, version: nat, n: string, e: NodeStatus)
    requires Good(spec, w, s) && version < |w.history| && Advances(w.history[version], s) && n in s
    requires GoodEntry(spec, w, n, e) && (Busy(e) ==> Busy(s[n]))
    requires e.jobName == s[n].jobName && (s[n].phase == Failed ==> e.phase == Failed)
    requires s[n].bootId != "" ==> e.bootId == s[n].bootId
    ensures Good(spec, w, s[n := e]) && Advances(w.history[version], s[n := e])
    ensures AdvancesAt(s, s[n := e], n)
  {
    InFlightUpdate(s, n, e);
    GoodUpdate(spec, w, s, n, e);
    AdvancesUpdate(w.history[version], s, n, e);
  }

  lemma RecordedStays(spec: Spec, w: World, version: nat, n: string)
    requires Inv(spec, w) && version < |w.history| && Recorded(w.history[version], n)
    ensures Recorded(Current(w), n)
  {
    assert Advances(w.history[version], Current(w));
    assert AdvancesAt(w.history[version], Current(w), n);
  }

  /** The entries a loop over `order` has reached, and those among them whose operation is over. */
  ghost function Reached(order: seq<string>, i: nat): set<string>
    requires i <= |order|
  {
    set k | 0 <= k < i :: order[k]
  }

  ghost function DoneAmong(spec: Spec, s: Statuses, nodes: set<string>): set<string> {
    set n | n in nodes && n in s && Done(spec, s[n])
  }

  /** The loop's tallies once `order[..i]` is visited: a failure so far, and the completed nodes so far. */
  ghost predicate Tallied(spec: Spec, s: Statuses, order: seq<string>, i: nat, anyFailed: bool, completed: int)
    requires i <= |order|
  {
    && (anyFailed <==> exists n | n in Reached(order, i) && n in s :: s[n].phase == Failed)
    && completed == |DoneAmong(spec, s, Reached(order, i))|
  }

  /** One more entry is visited: only its own value counts, the earlier ones stay as they were. */
  lemma TallyStep(spec: Spec, s: Statuses, t: Statuses, order: seq<string>, i: nat, anyFailed: bool, completed: int)
    requires i < |order| && Enumerates(order, s.Keys) && Tallied(spec, s, order, i, anyFailed, completed)
    requires order[i] in t && t == s[order[i] := t[order[i]]]
    ensures Tallied(spec, t, order, i + 1,
              anyFailed || t[order[i]].phase == Failed,
              completed + if Done(spec, t[order[i]]) then 1 else 0)
  {
    ReachedStep(order, s.Keys, i);
    hide Reached, Enumerates;
    var n := order[i];
    DoneStep(spec, s, t, n, Reached(order, i));
    assert anyFailed ==> exists m | m in Reached(order, i + 1) && m in t :: t[m].phase == Failed by {
      if anyFailed {
        var m :| m in Reached(order, i) && m in s && s[m].phase == Failed;
        assert m in Reached(order, i + 1) && t[m] == s[m];
      }
    }
  }

  lemma ReachedStep(order: seq<string>, keys: set<string>, i: nat)
    requires i < |order| && Enumerates(order, keys)
    ensures Reached(order, i + 1) == Reached(order, i) + {order[i]} && order[i] !in Reached(order, i)
  {
    forall n | n in Reached(order, i + 1) ensures n in Reached(order, i) + {order[i]} {
      var k :| 0 <= k < i + 1 && order[k] == n;
      if k < i { assert order[k] in Reached(order, i); }
    }
    assert order[i] in Reached(order, i + 1);
  }

  lemma DoneStep(spec: Spec, s: Statuses, t: Statuses, n: string, nodes: set<string>)
    requires n in t && n !in nodes && t == s[n := t[n]]
    ensures |DoneAmong(spec, t, nodes + {n})| == |DoneAmong(spec, s, nodes)| + if Done(spec, t[n]) then 1 else 0
  {
    var before := DoneAmong(spec, s, nodes);
    assert DoneAmong(spec, t, nodes + {n}) == if Done(spec, t[n]) then before + {n} else before;
  }

  lemma NoTally(spec: Spec, s: Statuses, order: seq<string>)
    ensures Tallied(spec, s, order, 0, false, 0)
  {
    assert DoneAmong(spec, s, Reached(order, 0)) == {};
  }

  /** With every entry visited the tallies decide the overall phase. */
  lemma TallyDecides(spec: Spec, s: Statuses, order: seq<string>, anyFailed: bool, completed: int)
    requires Enumerates(order, s.Keys) && Tallied(spec, s, order, |order|, anyFailed, completed)
    ensures PhaseOf(spec, s) ==
            if anyFailed then OverallFailed
            else if |s| > 0 && completed == |s| then OverallCompleted else OverallRunning
  {
    assert Reached(order, |order|) == s.Keys by {
      forall n | n in s.Keys ensures n in Reached(order, |order|) { assert n in order; }
    }
    var done := DoneAmong(spec, s, s.Keys);
    assert |s| == |s.Keys|;
    if completed == |s| {
      SameSize(done, s.Keys);
      assert forall n | n in s :: n in done;
    }
    if forall n | n in s :: Done(spec, s[n]) { assert done == s.Keys; }
  }

  /**
   * On a quiet server the entries in `done` have been brought up to date and their nodes uncordoned
   * where that was due; the others, and their nodes, are as before.
   */
  ghost predicate Refreshed(spec: Spec, w0: World, w: World, s: Statuses, t: Statuses, done: set<string>) {
    && SameFacts(w0, w) && t.Keys == s.Keys
    && forall n | n in s :: if n in done then UpToDate(spec, w0, w, n, s[n], t[n]) else AsBefore(w0, w, n, s[n], t[n])
  }

  predicate UpToDate(spec: Spec, w0: World, w: World, n: string, e: NodeStatus, f: NodeStatus) {
    && f == Refresh(spec, w0, n, e) && (ToUncordon(spec, f) ==> HasNode(w0, n))
    && NodeFollows(spec, w0, w, n, f)
  }

  predicate AsBefore(w0: World, w: World, n: string, e: NodeStatus, f: NodeStatus) {
    f == e && LookUp(w.nodes, n) == LookUp(w0.nodes, n)
  }

  /** The node has been uncordoned where its new entry calls for it. */
  predicate NodeFollows(spec: Spec, w0: World, w: World, n: string, e: NodeStatus) {
    && HasNode(w, n) == HasNode(w0, n)
    && (HasNode(w0, n) ==> LastNode(w, n) == NodeAfter(spec, e, LastNode(w0, n)))
  }

  lemma RefreshedStep(spec: Spec, w0: World, w: World, v: World, s: Statuses, t: Statuses, u: Statuses,
                      order: seq<string>, i: nat, ok: bool)
    requires i < |order| && Enumerates(order, s.Keys) && Refreshed(spec, w0, w, s, t, Reached(order, i))
    requires order[i] in s && order[i] in t && SameFacts(w, v)
    requires u == t[order[i] := Refresh(spec, w, order[i], t[order[i]])]
    requires Visited(spec, w, v, order[i], u[order[i]], ok)
    ensures ok ==> Refreshed(spec, w0, v, s, u, Reached(order, i + 1))
    ensures !ok ==> !NodesReady(spec, w0, s)
  {
    hide Refresh;
    ReachedStep(order, s.Keys, i);
    hide Reached, Enumerates, Uncordoning, ToUncordon, SameFacts;
    SameRefresh(spec, w0, w, order[i], s[order[i]]);
    FactsChain(w0, w, v);
    assert AsBefore(w0, w, order[i], s[order[i]], t[order[i]]);
    if ok {
      forall n | n in s && n != order[i]
        ensures n in Reached(order, i) ==> UpToDate(spec, w0, v, n, s[n], u[n])
        ensures n !in Reached(order, i) ==> AsBefore(w0, v, n, s[n], u[n])
      {
        assert LookUp(v.nodes, n) == LookUp(w.nodes, n);
      }
      assert UpToDate(spec, w0, v, order[i], s[order[i]], u[order[i]]);
    }
  }

  lemma SameRefresh(spec: Spec, w: World, v: World, n: string, e: NodeStatus)
    requires SameFacts(w, v)
    ensures Refresh(spec, v, n, e) == Refresh(spec, w, n, e)
  {
  }

  /** Every node of the status after the pass: uncordoned where its new entry calls for it. */
  ghost predicate NodesFollow(spec: Spec, w0: World, w: World, t: Statuses) {
    forall n | n in t :: NodeFollows(spec, w0, w, n, t[n])
  }

  /**
   * The operation on the node has ended in a way that calls for the end of its cordon: its Job is completed, and in
   * reboot mode its reboot too, or it failed and failed nodes are to be uncordoned.
   */
  predicate CordonIsOver(spec: Spec, e: NodeStatus) {
    && spec.cordon
    && match e.phase
       case Completed => e.jobName != "" && (spec.reboot ==> e.rebootStatus == RebootCompleted)
       case Failed => spec.uncordonOnFailure
       case _ => false
  }

  /** What becomes of a Node whose entry has become `e`: the own cordon is undone when it is over, anyone else's never. */
  predicate NodeDecided(spec: Spec, w0: World, w: World, n: string, e: NodeStatus) {
    HasNode(w0, n) ==>
      && HasNode(w, n)
      && (!CordonIsOver(spec, e) ==> LastNode(w, n) == LastNode(w0, n))
      && (LastNode(w0, n).unschedulable && LastNode(w0, n).cordonedBy != Some(spec.ownerRef) ==>
            LastNode(w, n) == LastNode(w0, n))
      && (CordonIsOver(spec, e) && LastNode(w0, n) == NodeObject(true, Some(spec.ownerRef)) ==>
            LastNode(w, n) == NodeObject(false, None))
      && (!LastNode(w0, n).unschedulable ==> !LastNode(w, n).unschedulable)
  }

  /** What a pass on a quiet server makes of every entry and of its Node. */
  ghost predicate StatusDecided(spec: Spec, w0: World, w: World, s: Statuses, t: Statuses) {
    t.Keys == s.Keys && forall n | n in s :: EntryDecided(spec, w0, n, s[n], t[n]) && NodeDecided(spec, w0, w, n, t[n])
  }

  lemma StatusIsDecided(spec: Spec, w0: World, w: World, version: nat)
    requires Inv(spec, w0) && version < |w0.history|
    requires NodesFollow(spec, w0, w, RefreshAll(spec, w0, w0.history[version]))
    ensures var s := w0.history[version];
            StatusDecided(spec, w0, w, s, RefreshAll(spec, w0, s))
  {
    hide Inv, Refresh, EntryDecided, NodeDecided, NodeFollows;
    var s := w0.history[version];
    var t := RefreshAll(spec, w0, s);
    forall n | n in s ensures EntryDecided(spec, w0, n, s[n], t[n]) && NodeDecided(spec, w0, w, n, t[n]) {
      NoJobNotRunning(spec, w0, version, n);
      RefreshDecided(spec, w0, n, s[n]);
      NodeIsDecided(spec, w0, w, n, t[n]);
    }
  }

  lemma NodeIsDecided(spec: Spec, w0: World, w: World, n: string, e: NodeStatus)
    requires NodeFollows(spec, w0, w, n, e)
    ensures NodeDecided(spec, w0, w, n, e)
  {
  }

  lemma NoJobNotRunning(spec: Spec, w: World, version: nat, n: string)
    requires Inv(spec, w) && version < |w.history| && n in w.history[version]
    ensures w.history[version][n].jobName == "" ==> w.history[version][n].phase != Running
  {
    hide Physical, Named;
    assert Good(spec, w, w.history[version]);
    assert GoodEntry(spec, w, n, w.history[version][n]);
  }

  lemma RefreshedAll(spec: Spec, w0: World, w: World, s: Statuses, t: Statuses, order: seq<string>)
    requires Enumerates(order, s.Keys) && Refreshed(spec, w0, w, s, t, Reached(order, |order|))
    ensures t == RefreshAll(spec, w0, s) && NodesFollow(spec, w0, w, t) && NodesReady(spec, w0, s)
  {
    forall n | n in s ensures n in Reached(order, |order|) { assert n in order; }
    hide Reached, Enumerates, Refresh, NodeAfter, ToUncordon;
  }

  /** Entries the loop has not reached are the ones it started from. */
  ghost predicate Untouched(s: Statuses, t: Statuses, order: seq<string>, i: nat)
    requires i <= |order|
  {
    t.Keys == s.Keys && forall k | i <= k < |order| && order[k] in s :: t[order[k]] == s[order[k]]
  }

  lemma UntouchedStep(s: Statuses, t: Statuses, u: Statuses, order: seq<string>, i: nat)
    requires i < |order| && Enumerates(order, s.Keys) && Untouched(s, t, order, i)
    requires order[i] in u && u == t[order[i] := u[order[i]]]
    ensures order[i] in s && u.Keys == s.Keys && Untouched(s, u, order, i + 1)
  {
    assert order[i] in order;
  }

  lemma StartOver(spec: Spec, w: World, op: NodeOp)
    requires Inv(spec, w) && op.version < |w.history| && op.statuses == w.history[op.version]
    ensures Holds(spec, w, op)
  {
  }

  lemma FactsChain(u: World, v: World, w: World)
    requires SameFacts(u, v) && SameFacts(v, w)
    ensures SameFacts(u, w)
  {
  }

  /** One iteration of the loop: the entry, and the two tallies. */
  method VisitAndTally(api: Api, op: NodeOp, n: string, anyFailed: bool, completed: int)
    returns (ok: bool, anyFailed': bool, completed': int)
    requires Inv(api.spec, api.w) && Holds(api.spec, api.w, op) && n in op.statuses
    requires Recorded(op.statuses, n) ==> Recorded(Current(api.w), n)
    modifies api, op`statuses
    ensures Inv(api.spec, api.w) && Passive(old(api.w), api.w) && Holds(api.spec, api.w, op)
    ensures n in op.statuses && op.statuses == old(op.statuses)[n := op.statuses[n]]
    ensures api.quiet ==> SameFacts(old(api.w), api.w)
    ensures api.quiet ==>
              && op.statuses[n] == Refresh(api.spec, old(api.w), n, old(op.statuses)[n])
              && Visited(api.spec, old(api.w), api.w, n, op.statuses[n], ok)
    ensures anyFailed' == (anyFailed || op.statuses[n].phase == Failed)
    ensures completed' == completed + if Done(api.spec, op.statuses[n]) then 1 else 0
  {
    hide Inv, Good, Passive, Advances, AdvancesAt, Refresh, SameFacts, Visited;
    ok := VisitEntry(api, op, n);
    anyFailed', completed' := anyFailed, completed;
    var e := op.statuses[n];
    if e.phase == Failed { anyFailed' := true; }
    if e.jobName == "" {
      if e.phase == Completed { completed' := completed' + 1; }
    } else if api.spec.reboot {
      if e.phase == Completed && e.rebootStatus == RebootCompleted { completed' := completed' + 1; }
    } else {
      if e.phase == Completed { completed' := completed' + 1; }
    }
  }

  /** The loop of updateNodeOpStatus. `order` is the order in which the map happened to be visited. */
  method VisitAll(api: Api, op: NodeOp) returns (ok: bool, anyFailed: bool, completed: int, ghost order: seq<string>)
    requires Inv(api.spec, api.w)
    requires op.version < |api.w.history| && op.statuses == api.w.history[op.version]
    modifies api, op`statuses
    ensures Inv(api.spec, api.w) && Passive(old(api.w), api.w) && Holds(api.spec, api.w, op)
    ensures op.statuses.Keys == old(op.statuses).Keys && Enumerates(order, op.statuses.Keys)
    ensures ok ==> Tallied(api.spec, op.statuses, order, |order|, anyFailed, completed)
    ensures api.quiet ==> SameFacts(old(api.w), api.w)
    ensures api.quiet ==>
              if ok then Refreshed(api.spec, old(api.w), api.w, old(op.statuses), op.statuses, Reached(order, |order|))
              else !NodesReady(api.spec, old(api.w), old(op.statuses))
  {
    hide *;
    PassiveStart(api.spec, api.w);
    StartOver(api.spec, api.w, op);
    ghost var start, version, w0 := op.statuses, op.version, api.w;
    var visiting := RangeOver(op.statuses.Keys);
    order := visiting;
    var i := 0;
    ok, anyFailed, completed := true, false, 0;
    LoopStarts(api.spec, w0, start, order);
    while i < |visiting|
      invariant 0 <= i <= |order|
      invariant Inv(api.spec, api.w) && Passive(w0, api.w) && Holds(api.spec, api.w, op)
      invariant Untouched(start, op.statuses, order, i)
      invariant Tallied(api.spec, op.statuses, order, i, anyFailed, completed)
      invariant api.quiet ==> SameFacts(w0, api.w)
      invariant api.quiet ==> Refreshed(api.spec, w0, api.w, start, op.statuses, Reached(order, i))
    {
      var n := visiting[i];
      ghost var u, s, failedBefore, completedBefore := api.w, op.statuses, anyFailed, completed;
      EntryIsRecorded(api.spec, w0, u, start, s, version, order, i);
      ok, anyFailed, completed := VisitAndTally(api, op, n, anyFailed, completed);
      PassiveChain(api.spec, w0, u, api.w);
      UntouchedStep(start, s, op.statuses, order, i);
      if api.quiet {
        FactsChain(w0, u, api.w);
        RefreshedStep(api.spec, w0, u, api.w, start, s, op.statuses, order, i, ok);
      }
      if !ok { return; }
      TallyStep(api.spec, s, op.statuses, order, i, failedBefore, completedBefore);
      i := i + 1;
    }
    UntouchedKeys(start, op.statuses, order, i);
  }

  lemma EntryIsRecorded(spec: Spec, w0: World, w: World, start: Statuses, s: Statuses, version: nat, order: seq<string>, i: nat)
    requires Inv(spec, w) && Passive(w0, w) && version < |w0.history| && w0.history[version] == start
    requires i < |order| && Enumerates(order, start.Keys) && Untouched(start, s, order, i)
    ensures s.Keys == start.Keys && order[i] in s && w.history != []
    ensures Recorded(s, order[i]) ==> Recorded(Current(w), order[i])
  {
    UntouchedAt(start, s, order, i);
    PassiveFacts(w0, w, version);
    if Recorded(s, order[i]) { RecordedStays(spec, w, version, order[i]); }
  }

  /** The overall phase, by the counters. */
  method SetOverallPhase(spec: Spec, op: NodeOp, anyFailed: bool, completed: int, ghost order: seq<string>)
    requires Enumerates(order, op.statuses.Keys) && Tallied(spec, op.statuses, order, |order|, anyFailed, completed)
    modifies op`phase
    ensures op.phase == PhaseOf(spec, op.statuses) && PhaseDecided(spec, op.statuses, op.phase)
  {
    TallyDecides(spec, op.statuses, order, anyFailed, completed);
    PhaseIsDecided(spec, op.statuses);
    hide PhaseOf, PhaseDecided, Tallied, Enumerates;
    if anyFailed {
      op.phase := OverallFailed;
    } else if |op.statuses| > 0 && completed == |op.statuses| {
      op.phase := OverallCompleted;
    } else {
      op.phase := OverallRunning;
    }
  }

  method UpdateNodeOpStatus(api: Api, op: NodeOp) returns (ok: bool)
    requires Inv(api.spec, api.w)
    requires op.version < |api.w.history| && op.statuses == api.w.history[op.version]
    modifies api, op
    ensures Inv(api.spec, api.w) && Holds(api.spec, api.w, op) && Forward(old(api.w), api.w)
    ensures op.statuses.Keys == old(op.statuses).Keys
    ensures Current(api.w) == old(Current(api.w)) || Current(api.w) == op.statuses
    ensures api.w.halted == old(api.w.halted)
    ensures old(op.version) < old(Version(api.w)) ==> !ok && Current(api.w) == old(Current(api.w))
    ensures ok ==>
              && Current(api.w) == op.statuses && op.version == Version(api.w)
              && op.phase == PhaseOf(api.spec, op.statuses)
              && PhaseDecided(api.spec, op.statuses, op.phase)
    ensures api.quiet && old(op.version) == Version(old(api.w))
            && NodesExist(old(api.w), old(op.statuses)) ==>
              ok
    ensures api.quiet && old(op.version) == Version(old(api.w)) && ok ==>
              StatusDecided(api.spec, old(api.w), api.w, old(op.statuses), op.statuses)
    ensures api.quiet && old(op.version) == Version(old(api.w)) ==>
              && (ok <==> NodesReady(api.spec, old(api.w), old(op.statuses)))
              && (ok ==>
                    && op.statuses == RefreshAll(api.spec, old(api.w), old(op.statuses))
                    && NodesFollow(api.spec, old(api.w), api.w, op.statuses))
              && api.w.history == old(api.w).history + if ok then [op.statuses] else []
  {
    hide Inv, Good, Passive, Advances, Refresh, Refreshed, Tallied, Enumerates;
    hide NodesReady, SameFacts, Forward, Reached, PhaseOf, RefreshAll, NodesFollow, StatusDecided, PhaseDecided, NodesExist;
    ghost var start, version, w0 := op.statuses, op.version, api.w;
    ExistingAreReady(api.spec, w0, start);
    var anyFailed, completed;
    ghost var order;
    ok, anyFailed, completed, order := VisitAll(api, op);
    ghost var u := api.w;
    PassiveFacts(w0, u, version);
    if api.quiet { SameHistory(w0, u); }
    if !ok { return; }
    SetOverallPhase(api.spec, op, anyFailed, completed, order);
    if api.quiet {
      PassDecided(api.spec, w0, u, version, op.statuses, order);
    }
    ok := api.UpdateStatus(op);
    PassiveThenForward(w0, u, api.w);
  }

  /** What the pass has done, once the new statuses are saved. */
  lemma PassDecided(spec: Spec, w0: World, w: World, version: nat, t: Statuses, order: seq<string>)
    requires Inv(spec, w0) && version < |w0.history| && Enumerates(order, w0.history[version].Keys)
    requires Refreshed(spec, w0, w, w0.history[version], t, Reached(order, |order|))
    ensures t == RefreshAll(spec, w0, w0.history[version]) && NodesReady(spec, w0, w0.history[version])
    ensures NodesFollow(spec, w0, WriteStatus(w, t), t)
    ensures StatusDecided(spec, w0, WriteStatus(w, t), w0.history[version], t)
  {
    hide *;
    RefreshedAll(spec, w0, w, w0.history[version], t, order);
    FollowStays(spec, w0, w, t);
    StatusIsDecided(spec, w0, WriteStatus(w, t), version);
  }

  /** Every node of the status has a Node object. */
  predicate NodesExist(w: World, s: Statuses) {
    forall n | n in s :: HasNode(w, n)
  }

  lemma ExistingAreReady(spec: Spec, w: World, s: Statuses)
    ensures NodesExist(w, s) ==> NodesReady(spec, w, s)
  {
  }

  lemma UntouchedKeys(s: Statuses, t: Statuses, order: seq<string>, i: nat)
    requires i <= |order| && Untouched(s, t, order, i)
    ensures t.Keys == s.Keys
  {
  }

  lemma FollowStays(spec: Spec, w0: World, w: World, s: Statuses)
    requires NodesFollow(spec, w0, w, s)
    ensures NodesFollow(spec, w0, WriteStatus(w, s), s)
  {
  }

  lemma SameHistory(u: World, v: World)
    requires SameFacts(u, v)
    ensures v.history == u.history
  {
  }

  lemma UntouchedAt(s: Statuses, t: Statuses, order: seq<string>, i: nat)
    requires i < |order| && Enumerates(order, s.Keys) && Untouched(s, t, order, i)
    ensures t.Keys == s.Keys && order[i] in s && t[order[i]] == s[order[i]]
  {
    assert order[i] in order;
  }

  lemma PassiveFacts(u: World, v: World, version: nat)
    requires Passive(u, v)
    ensures v.history != [] && u.history != [] && Current(v) == Current(u) && v.halted == u.halted
    ensures Forward(u, v)
    ensures version < |u.history| ==> version < |v.history| && v.history[version] == u.history[version]
  {
  }

  lemma LoopStarts(spec: Spec, w: World, s: Statuses, order: seq<string>)
    requires Enumerates(order, s.Keys)
    ensures Untouched(s, s, order, 0) && Tallied(spec, s, order, 0, false, 0)
    ensures SameFacts(w, w) && Refreshed(spec, w, w, s, s, Reached(order, 0))
  {
    NoTally(spec, s, order);
  }
}
