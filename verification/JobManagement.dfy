/** manageJobCreation: one pass over the target nodes. */
module JobManagement {
  import opened Wrappers
  import opened BootIds
  import opened NodeOpTypes
  import opened Cluster
  import opened OperatorWrites
  import opened Knowledge
  import opened ApiServer
  import opened NodeActions
  import opened StatusUpdate
  import opened RebootPodChoice
  import opened JobCreation
  import opened Preflights
  import opened Release
  import opened TargetNodes

  ghost function BusyAmong(s: Statuses, nodes: set<string>): set<string> {
    set n | n in nodes && n in s && Busy(s[n])
  }

  lemma BusyStep(s: Statuses, order: seq<string>, i: nat)
    requires i < |order| && Enumerates(order, s.Keys) && order[i] in s
    ensures |BusyAmong(s, Reached(order, i + 1))| ==
            |BusyAmong(s, Reached(order, i))| + if Busy(s[order[i]]) then 1 else 0
  {
    ReachedStep(order, s.Keys, i);
    hide Reached, Enumerates;
    var before := BusyAmong(s, Reached(order, i));
    assert BusyAmong(s, Reached(order, i + 1)) == if Busy(s[order[i]]) then before + {order[i]} else before;
  }

  lemma BusyAll(s: Statuses, order: seq<string>)
    requires Enumerates(order, s.Keys)
    ensures |BusyAmong(s, Reached(order, |order|))| == InFlight(s)
  {
    forall n | n in s ensures n in Reached(order, |order|) { assert n in order; }
    assert BusyAmong(s, Reached(order, |order|)) == BusyNodes(s);
  }

  /** countRunningJobs: what is in preflight, pending, running, or waits for its reboot. */
  method CountRunningJobs(op: NodeOp) returns (count: nat)
    ensures count == InFlight(op.statuses)
    ensures count == |set n | n in op.statuses &&
                        (|| op.statuses[n].phase in {Preflight, Pending, Running}
                         || (op.statuses[n].phase == Completed && op.statuses[n].rebootStatus == RebootPending))|
  {
    hide BusyAmong, Reached, Enumerates;
    count := 0;
    var order := RangeOver(op.statuses.Keys);
    var i := 0;
    assert BusyAmong(op.statuses, Reached(order, 0)) == {} by { NoneBusy(op.statuses, order); }
    while i < |order|
      invariant 0 <= i <= |order| && count == |BusyAmong(op.statuses, Reached(order, i))|
    {
      InOrder(order, op.statuses.Keys, i);
      BusyStep(op.statuses, order, i);
      var status := op.statuses[order[i]];
      if status.phase == Preflight || status.phase == Pending || status.phase == Running
         || (status.phase == Completed && status.rebootStatus == RebootPending) {
        count := count + 1;
      }
      i := i + 1;
    }
    BusyAll(op.statuses, order);
    InFlightMeaning(op.statuses);
  }

  lemma InFlightMeaning(s: Statuses)
    ensures InFlight(s) == |set n | n in s &&
                              (|| s[n].phase in {Preflight, Pending, Running}
                               || (s[n].phase == Completed && s[n].rebootStatus == RebootPending))|
  {
    assert BusyNodes(s) == set n | n in s &&
                             (|| s[n].phase in {Preflight, Pending, Running}
                              || (s[n].phase == Completed && s[n].rebootStatus == RebootPending));
  }

  lemma NoneBusy(s: Statuses, order: seq<string>)
    ensures BusyAmong(s, Reached(order, 0)) == {}
  {
  }

  /** hasFailedJobs */
  method HasFailedJobs(op: NodeOp) returns (failed: bool)
    ensures failed == HasFailed(op.statuses)
    ensures failed <==> exists n | n in op.statuses :: op.statuses[n].phase == Failed
  {
    var order := RangeOver(op.statuses.Keys);
    var i := 0;
    while i < |order|
      invariant 0 <= i <= |order|
      invariant forall n | n in order[..i] && n in op.statuses :: op.statuses[n].phase != Failed
    {
      InOrder(order, op.statuses.Keys, i);
      if op.statuses[order[i]].phase == Failed { return true; }
      i := i + 1;
    }
    assert order[..i] == order;
    failed := false;
  }

  /** The targets that have no entry yet, in target order. */
  function FreshOf(ns: seq<NodeInfo>, s: Statuses): seq<NodeInfo> {
    if ns == [] then []
    else if ns[0].name in s then FreshOf(ns[1..], s)
    else [ns[0]] + FreshOf(ns[1..], s)
  }

  lemma {:induction false} FreshSnoc(ns: seq<NodeInfo>, x: NodeInfo, s: Statuses)
    ensures FreshOf(ns + [x], s) == if x.name in s then FreshOf(ns, s) else FreshOf(ns, s) + [x]
  {
    if ns == [] {
      assert ns + [x] == [x];
      assert FreshOf([], s) == [];
    } else {
      assert (ns + [x])[0] == ns[0] && (ns + [x])[1..] == ns[1..] + [x];
      FreshSnoc(ns[1..], x, s);
    }
  }

  lemma {:induction false} FreshMembers(ns: seq<NodeInfo>, s: Statuses)
    requires DistinctNames(ns)
    ensures DistinctNames(FreshOf(ns, s))
    ensures forall x :: x in FreshOf(ns, s) <==> x in ns && x.name !in s
  {
    if ns != [] {
      FreshMembers(ns[1..], s);
      assert ns == [ns[0]] + ns[1..];
      forall k | 0 <= k < |FreshOf(ns[1..], s)| ensures FreshOf(ns[1..], s)[k].name != ns[0].name {
        assert FreshOf(ns[1..], s)[k] in ns[1..];
      }
    }
  }

  /** Filtering keeps the order: each fresh node has its own place among the targets. */
  lemma {:induction false} FreshInOrder(ns: seq<NodeInfo>, s: Statuses, i: nat, k: nat) returns (i': nat, k': nat)
    requires i < k < |FreshOf(ns, s)|
    ensures i' < k' < |ns| && ns[i'] == FreshOf(ns, s)[i] && ns[k'] == FreshOf(ns, s)[k]
  {
    if ns[0].name in s {
      i', k' := FreshInOrder(ns[1..], s, i, k);
      i', k' := i' + 1, k' + 1;
    } else if i > 0 {
      i', k' := FreshInOrder(ns[1..], s, i - 1, k - 1);
      i', k' := i' + 1, k' + 1;
    } else {
      k' := FreshPlace(ns[1..], s, k - 1);
      i', k' := 0, k' + 1;
    }
  }

  lemma {:induction false} FreshPlace(ns: seq<NodeInfo>, s: Statuses, k: nat) returns (k': nat)
    requires k < |FreshOf(ns, s)|
    ensures k' < |ns| && ns[k'] == FreshOf(ns, s)[k]
  {
    if ns[0].name in s {
      k' := FreshPlace(ns[1..], s, k);
      k' := k' + 1;
    } else if k > 0 {
      k' := FreshPlace(ns[1..], s, k - 1);
      k' := k' + 1;
    } else {
      k' := 0;
    }
  }

  /**
   * A pass that attempts a worker attempts every control-plane node that has no entry:
   * the attempts are a prefix of the fresh targets.
   */
  lemma ControlPlaneFirst(nodes: seq<NodeInfo>, s: Statuses, count: nat, i: nat, k: nat)
    requires count <= |FreshOf(StableSort(nodes), s)| && i < count && k < |FreshOf(StableSort(nodes), s)|
    requires !IsMasterNode(FreshOf(StableSort(nodes), s)[i]) && IsMasterNode(FreshOf(StableSort(nodes), s)[k])
    ensures k < count
  {
    if i < k {
      var i', k' := FreshInOrder(StableSort(nodes), s, i, k);
      WorkersComeLast(nodes, i', k');
    }
  }

  method FreshNodes(targets: seq<NodeInfo>, op: NodeOp) returns (result: seq<NodeInfo>)
    ensures result == FreshOf(targets, op.statuses)
  {
    result := [];
    var i := 0;
    while i < |targets|
      invariant 0 <= i <= |targets| && result == FreshOf(targets[..i], op.statuses)
    {
      assert targets[..i + 1] == targets[..i] + [targets[i]];
      FreshSnoc(targets[..i], targets[i], op.statuses);
      if targets[i].name !in op.statuses { result := result + [targets[i]]; }
      i := i + 1;
    }
    assert targets[..i] == targets;
  }

  lemma PreflightIsBusy(spec: Spec, w: World, s: Statuses, n: string)
    requires Good(spec, w, s) && n in s && (s[n].phase == Preflight || AwaitingRebootPod(s[n]))
    ensures s[n].jobName == "" && Room(spec, s, n)
  {
    assert GoodEntry(spec, w, n, s[n]);
    BusyHasRoom(spec, w, s, n);
  }

  /** What the work on a node depends on is as it was. */
  ghost predicate SameSituation(u: World, v: World, n: string) {
    && (HasLive(v, n) <==> HasLive(u, n))
    && (forall p :: Oldest(v, n, p) <==> Oldest(u, n, p))
    && (forall p | Oldest(u, n, p) :: v.pods[p] == u.pods[p])
    && FirstPreflight(v, n) == FirstPreflight(u, n)
    && (HasNode(v, n) <==> HasNode(u, n))
    && (forall p | Oldest(u, n, p) && u.pods[p].jobName != "" ::
          LookUp(v.jobs, u.pods[p].jobName) == LookUp(u.jobs, u.pods[p].jobName))
  }

  lemma SituationStays(spec: Spec, w0: World, u: World, v: World, n: string, m: string)
    requires Inv(spec, u) && SameSituation(w0, u, m) && Beside(u, v, n) && m != n
    ensures SameSituation(w0, v, m)
  {
    hide Physical, Beside;
    BesideOther(u, v, n, m);
    forall p | Oldest(u, m, p) && u.pods[p].jobName != ""
      ensures LookUp(v.jobs, u.pods[p].jobName) == LookUp(u.jobs, u.pods[p].jobName)
    {
      OldestIsThere(u, m, p);
      BesideOtherJob(spec, u, v, n, p);
    }
    hide Oldest, HasLive, Beside, FirstPreflight, HasNode, Inv;
  }

  lemma OldestIsThere(w: World, n: string, p: string)
    requires Oldest(w, n, p)
    ensures p in w.pods && w.pods[p].node == n
  {
  }

  lemma SituationCan(spec: Spec, u: World, v: World, n: string)
    requires SameSituation(u, v, n) && CanStart(spec, u, n)
    ensures CanStart(spec, v, n)
  {
    hide HasLive, FirstPreflight, HasNode, RebootPodReady;
    if spec.reboot {
      forall p | Oldest(v, n, p)
        ensures v.pods[p].jobName != ""
        ensures RebootPodReady(v.pods[p]) ==>
                  OurJob(v, v.pods[p].jobName) || (v.pods[p].jobName !in v.jobs && HasNode(v, n))
      {
        assert Oldest(u, n, p);
        assert LookUp(v.jobs, u.pods[p].jobName) == LookUp(u.jobs, u.pods[p].jobName);
      }
    }
  }

  lemma SituationStarts(spec: Spec, w0: World, w: World, s: Statuses, n: string)
    requires SameSituation(w0, w, n) && StartedFrom(spec, w, s, n)
    ensures StartedFrom(spec, w0, s, n)
  {
    hide Oldest, HasLive, FirstPreflight, WaitingMessage;
  }

  /** What the first pass makes of one node's entry if nothing fails. */
  ghost predicate Advanced(spec: Spec, w: World, s: Statuses, t: Statuses, n: string) {
    n in s && n in t &&
    if s[n].phase == Preflight then
      match PreflightVerdict(FirstPreflight(w, n))
      case Some(e) => t[n] == e
      case None =>
        if FirstPreflight(w, n).value.phase == PodSucceeded then StartedFrom(spec, w, t, n) else t[n] == s[n]
    else if AwaitingRebootPod(s[n]) then StartedFrom(spec, w, t, n)
    else t[n] == s[n]
  }

  lemma AdvancedThen(spec: Spec, w0: World, w: World, s0: Statuses, s: Statuses, t: Statuses, n: string)
    requires SameSituation(w0, w, n) && n in s0 && n in s && s[n] == s0[n] && Advanced(spec, w, s, t, n)
    ensures Advanced(spec, w0, s0, t, n)
  {
    hide StartedFrom, SameSituation;
    assert FirstPreflight(w, n) == FirstPreflight(w0, n) by { SamePreflight(w0, w, n); }
    if StartedFrom(spec, w, t, n) { SituationStarts(spec, w0, w, t, n); }
  }

  lemma SamePreflight(u: World, v: World, n: string)
    requires SameSituation(u, v, n)
    ensures FirstPreflight(v, n) == FirstPreflight(u, n)
  {
  }

  lemma AdvancedStays(spec: Spec, w: World, s: Statuses, t: Statuses, u: Statuses, n: string)
    requires Advanced(spec, w, s, t, n) && n in u && u[n] == t[n]
    ensures Advanced(spec, w, s, u, n)
  {
    hide HasLive, Oldest, RebootPodReady, FirstPreflight, WaitingMessage;
  }

  /** If nothing fails, nothing keeps the first pass from advancing the node. */
  ghost predicate CanAdvance(spec: Spec, w: World, s: Statuses, n: string) {
    n in s && (AwaitingRebootPod(s[n]) || (s[n].phase == Preflight && Proceeds(FirstPreflight(w, n)))) ==> CanStart(spec, w, n)
  }

  predicate Proceeds(pod: Option<PreflightPod>) {
    pod.Some? && pod.value.phase == PodSucceeded && pod.value.message == ""
  }

  lemma SituationCanAdvance(spec: Spec, u: World, v: World, s: Statuses, t: Statuses, n: string)
    requires SameSituation(u, v, n) && CanAdvance(spec, u, s, n) && n in s && n in t && t[n] == s[n]
    ensures CanAdvance(spec, v, t, n)
  {
    SamePreflight(u, v, n);
    if CanStart(spec, u, n) { SituationCan(spec, u, v, n); }
    hide CanStart, SameSituation, FirstPreflight;
  }

  /** The first pass on one node that has an entry. */
  method AdvanceNode(api: Api, op: NodeOp, n: string) returns (ok: bool)
    requires Inv(api.spec, api.w) && Holds(api.spec, api.w, op) && n in op.statuses
    requires Current(api.w) == op.statuses && !api.w.halted
    modifies api, op`statuses, op`version
    ensures Inv(api.spec, api.w) && Holds(api.spec, api.w, op) && Forward(old(api.w), api.w)
    ensures api.w.history != [] && !api.w.halted
    ensures n in op.statuses && op.statuses == old(op.statuses)[n := op.statuses[n]]
    ensures ok ==> Current(api.w) == op.statuses
    ensures api.quiet && old(op.version) == Version(old(api.w)) ==>
              && op.version == Version(api.w) && Beside(old(api.w), api.w, n)
              && (CanAdvance(api.spec, old(api.w), old(op.statuses), n) ==> ok)
              && (ok ==> Advanced(api.spec, old(api.w), old(op.statuses), op.statuses, n))
  {
    hide Inv, Passive, Good, Advances, Forward, Room, Started, StartedFrom, Beside, CanStart, FirstPreflight;
    ghost var w0, s := api.w, op.statuses;
    PassiveStart(api.spec, w0);
    PassiveFacts(w0, w0, 0);
    BesideSame(w0, w0, n);
    assert s == s[n := s[n]];
    var status := op.statuses[n];
    ok := true;
    if status.phase == Preflight {
      PreflightIsBusy(api.spec, w0, s, n);
      ok := AdvancePreflight(api, op, n);
    } else if AwaitingRebootPod(status) {
      PreflightIsBusy(api.spec, w0, s, n);
      ok := StartMainJob(api, op, n);
    }
  }

  /** Entries of nodes not among the first `i` targets are as they were. */
  ghost predicate OthersKept(s: Statuses, t: Statuses, targets: seq<NodeInfo>, i: nat)
    requires i <= |targets|
  {
    && t.Keys == s.Keys
    && forall m | m in s :: (forall k | 0 <= k < i :: targets[k].name != m) ==> t[m] == s[m]
  }

  /** The pass so far, if nothing fails: the targets behind it are advanced, those ahead as they were. */
  ghost predicate PassSoFar(spec: Spec, w0: World, s0: Statuses, w: World, s: Statuses, targets: seq<NodeInfo>, i: nat)
    requires i <= |targets|
  {
    && (forall k | 0 <= k < i && targets[k].name in s0 :: Advanced(spec, w0, s0, s, targets[k].name))
    && (forall k | 0 <= k < |targets| && (i <= k || targets[k].name !in s0) :: SameSituation(w0, w, targets[k].name))
  }

  lemma PassStep(spec: Spec, w0: World, s0: Statuses, u: World, s: Statuses, v: World, t: Statuses,
                 targets: seq<NodeInfo>, i: nat)
    requires i < |targets| && DistinctNames(targets) && Inv(spec, u)
    requires OthersKept(s0, s, targets, i) && PassSoFar(spec, w0, s0, u, s, targets, i)
    requires var n := targets[i].name;
             if n in s then n in t && t == s[n := t[n]] && Beside(u, v, n) && Advanced(spec, u, s, t, n) else t == s && v == u
    ensures PassSoFar(spec, w0, s0, v, t, targets, i + 1)
  {
    hide SameSituation, Advanced, Beside, Inv;
    var n := targets[i].name;
    if n in s {
      AdvancedThen(spec, w0, u, s0, s, t, n);
      forall k | 0 <= k < |targets| && (i + 1 <= k || targets[k].name !in s0)
        ensures SameSituation(w0, v, targets[k].name)
      {
        SituationStays(spec, w0, u, v, n, targets[k].name);
      }
      forall k | 0 <= k < i && targets[k].name in s0 ensures Advanced(spec, w0, s0, t, targets[k].name) {
        AdvancedStays(spec, w0, s0, s, t, targets[k].name);
      }
    }
  }

  lemma AheadCanAdvance(spec: Spec, w0: World, s0: Statuses, w: World, s: Statuses, targets: seq<NodeInfo>, i: nat)
    requires i < |targets| && DistinctNames(targets) && targets[i].name in s
    requires OthersKept(s0, s, targets, i) && PassSoFar(spec, w0, s0, w, s, targets, i)
    ensures targets[i] in targets
    ensures CanAdvance(spec, w0, s0, targets[i].name) ==> CanAdvance(spec, w, s, targets[i].name)
  {
    hide SameSituation, Advanced, CanAdvance;
    if CanAdvance(spec, w0, s0, targets[i].name) {
      SituationCanAdvance(spec, w0, w, s0, s, targets[i].name);
    }
  }

  lemma KeptStep(s0: Statuses, s: Statuses, t: Statuses, targets: seq<NodeInfo>, i: nat)
    requires i < |targets| && OthersKept(s0, s, targets, i)
    requires t == s || (targets[i].name in s && targets[i].name in t && t == s[targets[i].name := t[targets[i].name]])
    ensures OthersKept(s0, t, targets, i + 1)
  {
  }

  lemma PassStarts(spec: Spec, w: World, s: Statuses, targets: seq<NodeInfo>)
    ensures OthersKept(s, s, targets, 0) && PassSoFar(spec, w, s, w, s, targets, 0)
  {
  }

  lemma PassDone(spec: Spec, w0: World, s0: Statuses, w: World, s: Statuses, targets: seq<NodeInfo>)
    requires PassSoFar(spec, w0, s0, w, s, targets, |targets|)
    ensures forall x | x in targets && x.name in s0 :: Advanced(spec, w0, s0, s, x.name)
    ensures forall x | x in targets && x.name !in s0 :: SameSituation(w0, w, x.name)
  {
  }

  /** The first pass: nodes in preflight, and nodes waiting for their reboot Pod. */
  method AdvanceNodes(api: Api, op: NodeOp, targets: seq<NodeInfo>) returns (ok: bool)
    requires Inv(api.spec, api.w) && Holds(api.spec, api.w, op) && DistinctNames(targets)
    requires Current(api.w) == op.statuses && !api.w.halted
    modifies api, op`statuses, op`version
    ensures Inv(api.spec, api.w) && Holds(api.spec, api.w, op) && Forward(old(api.w), api.w)
    ensures api.w.history != [] && !api.w.halted
    ensures OthersKept(old(op.statuses), op.statuses, targets, |targets|)
    ensures ok ==> Current(api.w) == op.statuses
    ensures api.quiet && old(op.version) == Version(old(api.w)) ==>
              && op.version == Version(api.w)
              && ((forall x | x in targets :: CanAdvance(api.spec, old(api.w), old(op.statuses), x.name)) ==> ok)
              && (ok ==> forall x | x in targets && x.name in old(op.statuses) ::
                    Advanced(api.spec, old(api.w), old(op.statuses), op.statuses, x.name))
              && (ok ==> forall x | x in targets && x.name !in old(op.statuses) :: SameSituation(old(api.w), api.w, x.name))
  {
    hide Inv, Passive, Good, Advances, Forward, Room, Started, OthersKept, PassSoFar, Advanced, Beside, DistinctNames;
    hide CanAdvance, SameSituation;
    ghost var w0, s0 := api.w, op.statuses;
    ghost var exact := api.quiet && op.version == Version(w0);
    PassiveStart(api.spec, w0);
    PassiveFacts(w0, w0, 0);
    PassStarts(api.spec, w0, s0, targets);
    var i := 0;
    ok := true;
    while i < |targets|
      invariant 0 <= i <= |targets| && ok
      invariant Inv(api.spec, api.w) && Holds(api.spec, api.w, op) && Forward(w0, api.w)
      invariant api.w.history != [] && !api.w.halted && Current(api.w) == op.statuses
      invariant OthersKept(s0, op.statuses, targets, i)
      invariant exact ==> op.version == Version(api.w) && PassSoFar(api.spec, w0, s0, api.w, op.statuses, targets, i)
    {
      var n := targets[i].name;
      ghost var u, s := api.w, op.statuses;
      if n in op.statuses {
        if exact { AheadCanAdvance(api.spec, w0, s0, u, s, targets, i); }
        ok := AdvanceNode(api, op, n);
        ForwardTrans(w0, u, api.w);
      }
      KeptStep(s0, s, op.statuses, targets, i);
      if !ok {
        KeptMore(s0, op.statuses, targets, i + 1);
        return;
      }
      if exact { PassStep(api.spec, w0, s0, u, s, api.w, op.statuses, targets, i); }
      i := i + 1;
    }
    if exact { PassDone(api.spec, w0, s0, api.w, op.statuses, targets); }
  }

  lemma KeptMore(s: Statuses, t: Statuses, targets: seq<NodeInfo>, i: nat)
    requires i <= |targets| && OthersKept(s, t, targets, i)
    ensures OthersKept(s, t, targets, |targets|)
  {
  }

  lemma KeptKeys(s: Statuses, t: Statuses, targets: seq<NodeInfo>)
    requires OthersKept(s, t, targets, |targets|)
    ensures t.Keys == s.Keys
  {
  }

  /** The next nodes to start are untouched so far. */
  ghost predicate Untried(w: World, s: Statuses, nodes: seq<NodeInfo>, i: nat)
    requires i <= |nodes| && w.history != []
  {
    forall k | i <= k < |nodes| :: nodes[k].name !in s && nodes[k].name !in Current(w)
  }

  /** Entries present before are kept, new ones belong to the first `i` nodes. */
  ghost predicate OnlyAdds(s: Statuses, t: Statuses, nodes: seq<NodeInfo>, i: nat)
    requires i <= |nodes|
  {
    && (forall n | n in s :: n in t && t[n] == s[n])
    && (forall n | n in t && n !in s :: exists k :: 0 <= k < i && nodes[k].name == n)
  }

  ghost predicate Budget(spec: Spec, s: Statuses, more: nat) {
    spec.concurrency > 0 ==> InFlight(s) + more <= spec.concurrency
  }

  lemma StepStart(spec: Spec, u: World, v: World, s0: Statuses, s: Statuses, t: Statuses, nodes: seq<NodeInfo>,
                  i: nat, count: nat)
    requires i < count <= |nodes| && DistinctNames(nodes) && u.history != [] && v.history != []
    requires Untried(u, s, nodes, i) && OnlyAdds(s0, s, nodes, i) && Budget(spec, s, count - i)
    requires t == s || (nodes[i].name in t && t == s[nodes[i].name := t[nodes[i].name]])
    requires Current(v) == Current(u) || Current(v) == t
    ensures Untried(v, t, nodes, i + 1) && OnlyAdds(s0, t, nodes, i + 1) && Budget(spec, t, count - (i + 1))
  {
    var n := nodes[i].name;
    if t != s { InFlightUpdate(s, n, t[n]); }
    forall m | m in t && m !in s0 ensures exists k :: 0 <= k < i + 1 && nodes[k].name == m {
      if m == n { assert nodes[i].name == m; } else { assert m in s; }
    }
  }

  lemma BudgetIsRoom(spec: Spec, s: Statuses, n: string, more: nat)
    requires n !in s && more > 0 && Budget(spec, s, more)
    ensures Room(spec, s, n) && !Recorded(s, n)
  {
  }

  /** The second pass starts work on the first `count` of the nodes without an entry; a failure is passed over. */
  method StartNodes(api: Api, op: NodeOp, nodes: seq<NodeInfo>, count: nat) returns (ghost attempts: seq<NodeInfo>)
    requires Inv(api.spec, api.w) && Holds(api.spec, api.w, op)
    requires Current(api.w) == op.statuses && !api.w.halted
    requires count <= |nodes| && DistinctNames(nodes) && forall x | x in nodes :: x.name !in op.statuses
    requires Budget(api.spec, op.statuses, count)
    modifies api, op`statuses, op`version
    ensures Inv(api.spec, api.w) && Holds(api.spec, api.w, op) && Forward(old(api.w), api.w)
    ensures api.w.history != [] && !api.w.halted
    ensures attempts == nodes[..count] && OnlyAdds(old(op.statuses), op.statuses, nodes, count)
    ensures api.quiet && old(op.version) == Version(old(api.w)) ==>
              forall x | x in attempts :: Begun(api.spec, old(api.w), op.statuses, x.name)
  {
    hide Inv, Passive, Good, Advances, Forward, Room, Started, Untried, OnlyAdds, Budget, Recorded, DistinctNames;
    hide StartedFrom, CanStart, Beside, HasLive, Oldest, SameSituation, Begun, BegunSoFar;
    ghost var w0, s0 := api.w, op.statuses;
    attempts := [];
    PassiveStart(api.spec, w0);
    PassiveFacts(w0, w0, 0);
    StartsUntried(w0, s0, nodes);
    ghost var exact := api.quiet && op.version == Version(w0);
    BegunStarts(api.spec, w0, s0, nodes);
    var i := 0;
    while i < count
      invariant 0 <= i <= count && attempts == nodes[..i]
      invariant Inv(api.spec, api.w) && Holds(api.spec, api.w, op) && Forward(w0, api.w)
      invariant api.w.history != [] && !api.w.halted
      invariant Untried(api.w, op.statuses, nodes, i) && OnlyAdds(s0, op.statuses, nodes, i)
      invariant Budget(api.spec, op.statuses, count - i)
      invariant exact ==> op.version == Version(api.w) && BegunSoFar(api.spec, w0, api.w, op.statuses, nodes, i)
    {
      var n := nodes[i].name;
      ghost var u, s := api.w, op.statuses;
      UntriedNode(u, s, nodes, i);
      BudgetIsRoom(api.spec, s, n, count - i);
      attempts := attempts + [nodes[i]];
      var ok;
      if api.spec.preflight {
        ok := StartPreflight(api, op, n);
      } else {
        ok := StartMainJob(api, op, n);
      }
      ForwardTrans(w0, u, api.w);
      if exact { BegunStep(api.spec, w0, u, s, api.w, op.statuses, nodes, i, ok); }
      StepStart(api.spec, u, api.w, s0, s, op.statuses, nodes, i, count);
      i := i + 1;
    }
    if exact { BegunAll(api.spec, w0, api.w, op.statuses, nodes, count); }
  }

  /** What an attempt leaves if nothing fails. */
  ghost predicate Begun(spec: Spec, w: World, s: Statuses, n: string) {
    if spec.preflight then n in s && s[n] == InPreflight
    else (CanStart(spec, w, n) ==> n in s && StartedFrom(spec, w, s, n))
  }

  /** The node exists, and each of its live reboot Pods names a Job, which is ours if it is there. */
  predicate Unblocked(w: World, n: string) {
    && HasNode(w, n)
    && forall p | p in w.pods && LiveOn(w, n, p) ::
         && w.pods[p].jobName != ""
         && (w.pods[p].jobName in w.jobs ==> w.jobs[w.pods[p].jobName].ours)
  }

  lemma UnblockedCanStart(spec: Spec, w: World, n: string)
    requires Unblocked(w, n)
    ensures CanStart(spec, w, n)
  {
    forall p | Oldest(w, n, p) ensures p in w.pods && LiveOn(w, n, p) {
    }
  }

  /** No such node stops the first pass. */
  lemma UnblockedCanAdvance(spec: Spec, w: World, s: Statuses, n: string)
    requires Unblocked(w, n)
    ensures CanAdvance(spec, w, s, n)
  {
    UnblockedCanStart(spec, w, n);
  }

  /** The node's work has begun, whatever the Pods of the node look like: it is in preflight, or waits or runs. */
  lemma BegunMeaning(spec: Spec, w: World, s: Statuses, n: string)
    requires Begun(spec, w, s, n) && (spec.preflight || Unblocked(w, n))
    ensures n in s && s[n].phase == if spec.preflight then Preflight else Pending
  {
    if !spec.preflight {
      UnblockedCanStart(spec, w, n);
      hide CanStart;
    }
  }

  ghost predicate BegunSoFar(spec: Spec, w0: World, w: World, s: Statuses, nodes: seq<NodeInfo>, i: nat)
    requires i <= |nodes|
  {
    && (forall k | 0 <= k < i :: Begun(spec, w0, s, nodes[k].name))
    && (forall k | i <= k < |nodes| :: SameSituation(w0, w, nodes[k].name))
  }

  lemma BegunStarts(spec: Spec, w: World, s: Statuses, nodes: seq<NodeInfo>)
    ensures BegunSoFar(spec, w, w, s, nodes, 0)
  {
  }

  /** In reboot mode a node without live reboot Pods can always be started. */
  lemma NoPodNoQuestion(spec: Spec, w: World, n: string)
    ensures spec.reboot && !HasLive(w, n) ==> CanStart(spec, w, n)
  {
    assert forall p :: Oldest(w, n, p) ==> LiveOn(w, n, p);
  }

  lemma BegunStays(spec: Spec, w: World, s: Statuses, t: Statuses, n: string)
    requires Begun(spec, w, s, n) && (n in s ==> n in t && t[n] == s[n])
    ensures Begun(spec, w, t, n)
  {
    hide HasLive, Oldest, RebootPodReady, WaitingMessage, CanStart;
  }

  lemma BegunNow(spec: Spec, w0: World, u: World, t: Statuses, n: string, ok: bool)
    requires SameSituation(w0, u, n)
    requires if spec.preflight then n in t && t[n] == InPreflight
             else (ok ==> StartedFrom(spec, u, t, n)) && (CanStart(spec, u, n) ==> ok)
    ensures Begun(spec, w0, t, n)
  {
    hide StartedFrom, Oldest, RebootPodReady, WaitingMessage, CanStart, SameSituation;
    if CanStart(spec, w0, n) { SituationCan(spec, w0, u, n); }
    if StartedFrom(spec, u, t, n) {
      SituationStarts(spec, w0, u, t, n);
      StartedIsThere(spec, w0, t, n);
    }
  }

  lemma BegunFrom(spec: Spec, w0: World, w: World, s: Statuses, n: string)
    requires SameSituation(w0, w, n) && Begun(spec, w, s, n)
    ensures Begun(spec, w0, s, n)
  {
    hide StartedFrom, CanStart, SameSituation;
    if CanStart(spec, w0, n) {
      SituationCan(spec, w0, w, n);
      if !spec.preflight { SituationStarts(spec, w0, w, s, n); }
    }
  }

  /** What the second pass did, as seen from the start of the first. */
  lemma AttemptsBegun(spec: Spec, w0: World, w: World, s0: Statuses, mid: Statuses, t: Statuses, targets: seq<NodeInfo>,
                      attempts: seq<NodeInfo>)
    requires DistinctNames(targets) && mid.Keys == s0.Keys
    requires attempts == FreshOf(targets, mid)[..SlotsFor(spec, targets, mid, InFlight(mid))]
    requires forall x | x in targets && x.name !in s0 :: SameSituation(w0, w, x.name)
    requires forall x | x in attempts :: Begun(spec, w, t, x.name)
    ensures forall x | x in attempts :: Begun(spec, w0, t, x.name)
  {
    FreshMembers(targets, mid);
    hide SameSituation, Begun, DistinctNames;
    forall x | x in attempts ensures Begun(spec, w0, t, x.name) {
      assert x in FreshOf(targets, mid);
      BegunFrom(spec, w0, w, t, x.name);
    }
  }

  lemma StartedIsThere(spec: Spec, w: World, s: Statuses, n: string)
    requires StartedFrom(spec, w, s, n)
    ensures n in s
  {
  }

  lemma BegunStep(spec: Spec, w0: World, u: World, s: Statuses, v: World, t: Statuses, nodes: seq<NodeInfo>, i: nat, ok: bool)
    requires i < |nodes| && DistinctNames(nodes) && BegunSoFar(spec, w0, u, s, nodes, i) && Inv(spec, u)
    requires var n := nodes[i].name;
             && Beside(u, v, n) && (t == s || (n in t && t == s[n := t[n]]))
             && if spec.preflight then n in t && t[n] == InPreflight
                else (ok ==> StartedFrom(spec, u, t, n)) && (CanStart(spec, u, n) ==> ok)
    ensures BegunSoFar(spec, w0, v, t, nodes, i + 1)
  {
    hide SameSituation, Begun, Beside, StartedFrom, CanStart, Inv;
    var n := nodes[i].name;
    BegunNow(spec, w0, u, t, n, ok);
    forall k | i + 1 <= k < |nodes| ensures SameSituation(w0, v, nodes[k].name) {
      SituationStays(spec, w0, u, v, n, nodes[k].name);
    }
    forall k | 0 <= k < i ensures Begun(spec, w0, t, nodes[k].name) {
      BegunStays(spec, w0, s, t, nodes[k].name);
    }
  }

  lemma BegunAll(spec: Spec, w0: World, w: World, s: Statuses, nodes: seq<NodeInfo>, count: nat)
    requires count <= |nodes| && BegunSoFar(spec, w0, w, s, nodes, count)
    ensures forall x | x in nodes[..count] :: Begun(spec, w0, s, x.name)
  {
  }

  lemma StartsUntried(w: World, s: Statuses, nodes: seq<NodeInfo>)
    requires w.history != [] && Current(w) == s && forall x | x in nodes :: x.name !in s
    ensures Untried(w, s, nodes, 0) && OnlyAdds(s, s, nodes, 0)
  {
    forall k | 0 <= k < |nodes| ensures nodes[k].name !in s { assert nodes[k] in nodes; }
  }

  lemma UntriedNode(w: World, s: Statuses, nodes: seq<NodeInfo>, i: nat)
    requires w.history != [] && i < |nodes| && Untried(w, s, nodes, i)
    ensures nodes[i].name !in s && !Recorded(Current(w), nodes[i].name)
  {
  }

  /** How many nodes the second pass starts. */
  function SlotsFor(spec: Spec, targets: seq<NodeInfo>, s: Statuses, running: nat): (count: nat)
    ensures count <= |FreshOf(targets, s)|
  {
    var most := if spec.concurrency == 0 then |targets| else spec.concurrency;
    var free := if running < most then most - running else 0;
    if free < |FreshOf(targets, s)| then free else |FreshOf(targets, s)|
  }

  /** What a pass did: its target nodes, the nodes it listed, the statuses after the first pass, the attempts. */
  datatype Pass = Pass(listed: seq<NodeInfo>, targets: seq<NodeInfo>, mid: Option<Statuses>, attempts: seq<NodeInfo>)

  lemma SameOurs(w: World)
    ensures Halt(w).history == w.history && Halt(w).halted
  {
  }

  lemma ReleasedAfterHalt(spec: Spec, w: World, s: Statuses, t: Statuses)
    ensures Released(spec, Halt(w), s, t) ==> Released(spec, w, s, t)
  {
    assert forall n, j :: NamesOurJob(Halt(w), n, j) == NamesOurJob(w, n, j);
    assert forall n :: HasOurJob(Halt(w), n) == HasOurJob(w, n);
  }

  lemma HaltComesFirst(u: World, v: World, w: World)
    requires Forward(v, w)
    ensures v == Halt(u) ==> u.trace + [Halted] <= w.trace
  {
  }

  /** Notes a pass that starts, or goes on, with a failure under StopOnFailure. */
  method NoteIfStopped(api: Api, op: NodeOp)
    requires Inv(api.spec, api.w) && Holds(api.spec, api.w, op) && Current(api.w) == op.statuses
    modifies api
    ensures Inv(api.spec, api.w) && Holds(api.spec, api.w, op) && Forward(old(api.w), api.w)
    ensures api.w == if api.spec.stopOnFailure && HasFailed(op.statuses) then Halt(old(api.w)) else old(api.w)
    ensures api.w.halted <==> api.spec.stopOnFailure && HasFailed(op.statuses)
  {
    NotHalted(api.spec, api.w, op.statuses);
    hide Inv, Good, Advances, Forward, HasFailed;
    PassiveStart(api.spec, api.w);
    PassiveFacts(api.w, api.w, 0);
    if api.spec.stopOnFailure && HasFailed(op.statuses) { api.NoteHalt(); }
  }

  /** Both passes over the nodes were made, from statuses `s` to `mid` to `t`; `exact` when nothing failed on the way. */
  ghost predicate Worked(spec: Spec, w: World, s: Statuses, t: Statuses, targets: seq<NodeInfo>, mid: Statuses,
                         attempts: seq<NodeInfo>, exact: bool)
  {
    var count := SlotsFor(spec, targets, mid, InFlight(mid));
    && OthersKept(s, mid, targets, |targets|)
    && (exact ==> forall x | x in targets && x.name in s :: Advanced(spec, w, s, mid, x.name))
    && !(spec.stopOnFailure && HasFailed(mid))
    && attempts == FreshOf(targets, mid)[..count]
    && OnlyAdds(mid, t, FreshOf(targets, mid), count)
    && (exact ==> forall x | x in attempts :: Begun(spec, w, t, x.name))
  }

  /** The node is in preflight, and its first preflight Pod has failed or there is none. */
  predicate PreflightHasFailed(w: World, s: Statuses, n: string) {
    && n in s && s[n].phase == Preflight
    && (PreflightPods(w, n) == [] || PreflightPods(w, n)[0].phase == PodFailed)
  }

  lemma FailedPreflightStops(spec: Spec, w: World, s: Statuses, t: Statuses, targets: seq<NodeInfo>, mid: Statuses,
                             attempts: seq<NodeInfo>)
    requires spec.stopOnFailure && Worked(spec, w, s, t, targets, mid, attempts, true)
    ensures forall x | x in targets :: !PreflightHasFailed(w, s, x.name)
  {
    forall x | x in targets ensures !PreflightHasFailed(w, s, x.name) {
      if PreflightHasFailed(w, s, x.name) { AdvancedDecides(spec, w, s, mid, x.name); }
    }
  }

  /**
   * What the first pass makes of an entry, by the node's Pods: in preflight its preflight Pod decides, waiting for a
   * reboot Pod the oldest live one does: with its program running it leads to its Job, otherwise the node goes on
   * waiting. All other entries stay.
   */
  ghost predicate AdvanceDecided(spec: Spec, w: World, n: string, e: NodeStatus, f: NodeStatus) {
    if e.phase == Preflight then PreflightDecides(w, n, e, f)
    else if e.phase == Pending && e.jobName == "" then
      && f.phase == Pending
      && (spec.reboot ==> forall p | Oldest(w, n, p) ::
            var pod := w.pods[p];
            f.jobName == if pod.container == ContainerRunning && pod.readyConditions != []
                            && pod.readyConditions[|pod.readyConditions| - 1]
                         then pod.jobName else "")
    else f == e
  }

  lemma AdvancedDecides(spec: Spec, w: World, s: Statuses, t: Statuses, n: string)
    requires Advanced(spec, w, s, t, n)
    ensures AdvanceDecided(spec, w, n, s[n], t[n])
  {
    if s[n].phase == Preflight {
      if t[n] != s[n] && StartedFrom(spec, w, t, n) { StartedIsThere(spec, w, t, n); }
      VerdictDecides(w, n, s[n], t[n]);
    }
    hide Oldest, HasLive, FirstPreflight, PreflightPods, PreflightDecides;
  }

  /**
   * Both passes, fault-free: every target with an entry has moved on as its Pods decide, and every node attempted has
   * an entry: in preflight, or else waiting or running, unless its Node is missing or its Pods name no Job of ours.
   */
  lemma WorkDecided(spec: Spec, w: World, s: Statuses, t: Statuses, targets: seq<NodeInfo>, mid: Statuses,
                    attempts: seq<NodeInfo>)
    requires Worked(spec, w, s, t, targets, mid, attempts, true)
    ensures forall x | x in targets && x.name in s :: x.name in mid && AdvanceDecided(spec, w, x.name, s[x.name], mid[x.name])
    ensures forall x | x in attempts && (spec.preflight || Unblocked(w, x.name)) ::
              x.name in t && t[x.name].phase == if spec.preflight then Preflight else Pending
  {
    hide OthersKept, OnlyAdds, SlotsFor, FreshOf, Advanced, Begun, AdvanceDecided, Unblocked;
    forall x | x in targets && x.name in s
      ensures x.name in mid && AdvanceDecided(spec, w, x.name, s[x.name], mid[x.name])
    {
      AdvancedIsThere(spec, w, s, mid, x.name);
      AdvancedDecides(spec, w, s, mid, x.name);
    }
    forall x | x in attempts && (spec.preflight || Unblocked(w, x.name))
      ensures x.name in t && t[x.name].phase == if spec.preflight then Preflight else Pending
    {
      BegunMeaning(spec, w, t, x.name);
    }
  }

  lemma AdvancedIsThere(spec: Spec, w: World, s: Statuses, t: Statuses, n: string)
    requires Advanced(spec, w, s, t, n)
    ensures n in s && n in t
  {
  }

  /**
   * The attempts of a pass: targets without an entry, in target order. With a limit they never exceed it together with
   * what is in flight, and fewer than all fresh targets are attempted only when the limit is reached.
   */
  lemma AttemptsMeaning(spec: Spec, w: World, s: Statuses, t: Statuses, targets: seq<NodeInfo>, mid: Statuses,
                        attempts: seq<NodeInfo>, exact: bool)
    requires DistinctNames(targets) && Worked(spec, w, s, t, targets, mid, attempts, exact)
    ensures forall x | x in attempts :: x in targets && x.name !in mid
    ensures attempts <= FreshOf(targets, mid)
    ensures spec.concurrency > 0 ==> attempts == [] || InFlight(mid) + |attempts| <= spec.concurrency
    ensures (exists x | x in targets :: x.name !in mid && x !in attempts) ==>
              InFlight(mid) + |attempts| >= if spec.concurrency > 0 then spec.concurrency else |targets|
  {
    FreshMembers(targets, mid);
    assert forall x | x in attempts :: x in FreshOf(targets, mid);
    if attempts == FreshOf(targets, mid) {
      assert forall x | x in targets && x.name !in mid :: x in attempts;
    }
  }

  lemma SameWork(spec: Spec, w: World, v: World, s: Statuses, t: Statuses, targets: seq<NodeInfo>, mid: Statuses,
                 attempts: seq<NodeInfo>, exact: bool)
    requires Worked(spec, v, s, t, targets, mid, attempts, exact) && (exact ==> v == w)
    ensures Worked(spec, w, s, t, targets, mid, attempts, exact)
  {
    hide Advanced, OthersKept, OnlyAdds, FreshOf, SlotsFor, Begun;
  }

  /** The part of manageJobCreation after the first check for failures: the first pass, the second check, the second pass. */
  method WorkOnNodes(api: Api, op: NodeOp, targets: seq<NodeInfo>)
    returns (ok: bool, ghost mid: Option<Statuses>, ghost attempts: seq<NodeInfo>)
    requires Inv(api.spec, api.w) && Holds(api.spec, api.w, op) && DistinctNames(targets)
    requires Current(api.w) == op.statuses && !api.w.halted
    modifies api, op`statuses, op`version
    ensures Inv(api.spec, api.w) && Holds(api.spec, api.w, op) && Forward(old(api.w), api.w)
    ensures mid.None? ==> attempts == []
    ensures mid.Some? ==>
              Worked(api.spec, old(api.w), old(op.statuses), op.statuses, targets, mid.value, attempts,
                     api.quiet && old(op.version) == Version(old(api.w)))
    ensures ok ==> mid.Some? || api.w.halted
    ensures api.quiet && old(op.version) == Version(old(api.w))
            && (forall x | x in targets :: CanAdvance(api.spec, old(api.w), old(op.statuses), x.name)) ==>
              ok
    ensures api.quiet && old(op.version) == Version(old(api.w)) && api.spec.stopOnFailure
            && (exists x | x in targets :: PreflightHasFailed(old(api.w), old(op.statuses), x.name)) ==>
              attempts == [] && mid.None? && (ok ==> api.w.halted)
  {
    hide Inv, Good, Passive, Advances, Forward, HasLive, HasFailed, Untried, OnlyAdds, Budget, FreshOf, Released;
    hide DistinctNames, OnlyDeletions, InFlight, OthersKept, Advanced, Begun, CanAdvance, SlotsFor;
    hide PreflightHasFailed, SameSituation;
    ghost var w0, s, exact := api.w, op.statuses, api.quiet && op.version == Version(api.w);
    mid, attempts := None, [];
    ok := AdvanceNodes(api, op, targets);
    if !ok { return; }
    ghost var v := api.w;
    NoteIfStopped(api, op);
    ForwardTrans(w0, v, api.w);
    ghost var x := api.w;
    var failed := HasFailedJobs(op);
    if api.spec.stopOnFailure && failed {
      ok := ReleaseWaitingNodes(api, op);
      ForwardTrans(w0, x, api.w);
      return;
    }
    mid := Some(op.statuses);
    attempts := StartNewWork(api, op, targets);
    ForwardTrans(w0, x, api.w);
    if exact {
      KeptKeys(s, mid.value, targets);
      AttemptsBegun(api.spec, w0, v, s, mid.value, op.statuses, targets, attempts);
    }
    if exact && api.spec.stopOnFailure {
      FailedPreflightStops(api.spec, w0, s, op.statuses, targets, mid.value, attempts);
    }
    ok := true;
  }

  method ManageJobCreation(api: Api, op: NodeOp, selector: Option<NodeInfo -> bool>) returns (ok: bool, ghost pass: Pass)
    requires Inv(api.spec, api.w) && Holds(api.spec, api.w, op) && Current(api.w) == op.statuses
    modifies api, op`statuses, op`version
    ensures Inv(api.spec, api.w) && Holds(api.spec, api.w, op) && Forward(old(api.w), api.w)
    ensures pass.targets == StableSort(Matching(selector, pass.listed)) || (!ok && pass.mid.None?)
    ensures pass.mid.None? ==> pass.attempts == []
    ensures pass.mid.Some? ==>
              Worked(api.spec, old(api.w), old(op.statuses), op.statuses, pass.targets, pass.mid.value, pass.attempts,
                     api.quiet && old(op.version) == Version(old(api.w)))
    ensures ok ==> pass.mid.Some? || api.w.halted
    ensures api.quiet && old(op.version) == Version(old(api.w)) && api.spec.stopOnFailure
            && (exists x | x in pass.targets :: PreflightHasFailed(old(api.w), old(op.statuses), x.name)) ==>
              pass.attempts == [] && pass.mid.None? && (ok ==> api.w.halted)
    ensures api.quiet && old(op.version) == Version(old(api.w))
            && (forall x | x in pass.targets :: CanAdvance(api.spec, old(api.w), old(op.statuses), x.name)) ==>
              ok
    ensures api.spec.stopOnFailure && HasFailed(old(op.statuses)) ==>
              && pass.mid.None? && api.w.halted
              && old(api.w).trace + [Halted] <= api.w.trace
              && (api.quiet && old(op.version) == Version(old(api.w)) ==>
                    && ok && Current(api.w) == op.statuses
                    && Released(api.spec, old(api.w), old(op.statuses), op.statuses)
                    && forall n | n in old(op.statuses) && n !in op.statuses :: !HasLive(api.w, n))
  {
    hide Inv, Good, Passive, Advances, Forward, Released, HasLive, HasFailed, StableSort, Matching, DistinctNames;
    hide OnlyDeletions, CanAdvance, Worked, PreflightHasFailed;
    ghost var w0, s, exact := api.w, op.statuses, api.quiet && op.version == Version(api.w);
    pass := Pass([], [], None, []);
    NoteIfStopped(api, op);
    SameOurs(w0);
    ghost var h := api.w;
    ghost var all;
    var got;
    got, all := GetTargetNodes(api, selector);
    PassiveFacts(h, api.w, 0);
    StillHolds(api.spec, h, api.w, s, op.version);
    ForwardTrans(w0, h, api.w);
    HaltComesFirst(w0, h, api.w);
    if got.Err? { return false, pass; }
    var targets := got.value;
    pass := Pass(all, targets, None, []);
    ghost var u := api.w;
    var failed := HasFailedJobs(op);
    if api.spec.stopOnFailure && failed {
      ok := ReleaseWaitingNodes(api, op);
      ForwardTrans(w0, u, api.w);
      ForwardTrans(h, u, api.w);
      HaltComesFirst(w0, h, api.w);
      ReleasedAfterHalt(api.spec, w0, s, op.statuses);
      return;
    }
    ghost var mid, attempts;
    ok, mid, attempts := WorkOnNodes(api, op, targets);
    ForwardTrans(w0, u, api.w);
    if mid.Some? { SameWork(api.spec, w0, u, s, op.statuses, targets, mid.value, attempts, exact); }
    pass := Pass(all, targets, mid, attempts);
  }

  /** The second pass, up to the concurrency budget. */
  method StartNewWork(api: Api, op: NodeOp, targets: seq<NodeInfo>) returns (ghost attempts: seq<NodeInfo>)
    requires Inv(api.spec, api.w) && Holds(api.spec, api.w, op)
    requires Current(api.w) == op.statuses && !api.w.halted && DistinctNames(targets)
    modifies api, op`statuses, op`version
    ensures Inv(api.spec, api.w) && Holds(api.spec, api.w, op) && Forward(old(api.w), api.w)
    ensures var s := old(op.statuses);
            var count := SlotsFor(api.spec, targets, s, InFlight(s));
            && attempts == FreshOf(targets, s)[..count]
            && OnlyAdds(s, op.statuses, FreshOf(targets, s), count)
            && (api.quiet && old(op.version) == Version(old(api.w)) ==>
                  forall x | x in attempts :: Begun(api.spec, old(api.w), op.statuses, x.name))
  {
    hide Inv, Good, Passive, Advances, Forward, OnlyAdds, Budget, FreshOf, DistinctNames, InFlight;
    PassiveStart(api.spec, api.w);
    PassiveFacts(api.w, api.w, 0);
    attempts := [];
    var runningCount := CountRunningJobs(op);
    var maxConcurrency := if api.spec.concurrency == 0 then |targets| else api.spec.concurrency;
    var availableSlots := maxConcurrency - runningCount;
    NoAdds(op.statuses, FreshOf(targets, op.statuses));
    if availableSlots <= 0 { return; }
    var freshNodes := FreshNodes(targets, op);
    if |freshNodes| == 0 { return; }
    var toStart := availableSlots;
    if toStart > |freshNodes| { toStart := |freshNodes|; }
    FreshMembers(targets, op.statuses);
    SlotsFit(api.spec, op.statuses, toStart, availableSlots);
    attempts := StartNodes(api, op, freshNodes, toStart);
  }

  lemma NotHalted(spec: Spec, w: World, s: Statuses)
    requires Inv(spec, w) && Current(w) == s
    ensures w.halted ==> spec.stopOnFailure && HasFailed(s)
  {
  }

  lemma NoAdds(s: Statuses, nodes: seq<NodeInfo>)
    ensures OnlyAdds(s, s, nodes, 0)
  {
  }

  lemma SlotsFit(spec: Spec, s: Statuses, count: nat, slots: int)
    requires count <= slots && (spec.concurrency > 0 ==> slots == spec.concurrency - InFlight(s))
    ensures Budget(spec, s, count)
  {
  }
}
