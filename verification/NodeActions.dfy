/** cordonNode, uncordonNode and drainNode. */
module NodeActions {
  import opened Wrappers
  import opened NodeOpTypes
  import opened Cluster
  import opened OperatorWrites
  import opened Knowledge
  import opened ApiServer
  import opened Cordons

  /** What a node action leaves as it was on a quiet server. */
  predicate OnlyNodesDiffer(u: World, v: World) {
    v == u.(nodes := v.nodes, trace := v.trace)
  }

  function LastNode(w: World, n: string): NodeObject
    requires n in w.nodes && w.nodes[n] != []
  {
    w.nodes[n][|w.nodes[n]| - 1]
  }

  /** No Node but `n` has changed. */
  ghost predicate NodesBeside(u: World, v: World, n: string) {
    forall m | m != n :: LookUp(v.nodes, m) == LookUp(u.nodes, m)
  }

  predicate HasNode(w: World, n: string) {
    n in w.nodes && w.nodes[n] != []
  }

  /** Node `n` has become `o`, and no other Node has changed. */
  ghost predicate NodeBecomes(u: World, v: World, n: string, o: NodeObject) {
    && HasNode(v, n) && LastNode(v, n) == o
    && NodesBeside(u, v, n)
  }

  /** The Node, if there is one, is uncordoned when `due` and otherwise left as it is. */
  ghost predicate NodeTurns(u: World, v: World, n: string, due: bool, owner: string) {
    if HasNode(u, n)
    then NodeBecomes(u, v, n, if due then Uncordoning(owner, LastNode(u, n)) else LastNode(u, n))
    else v.nodes == u.nodes
  }

  /** The Node as it was, or made unschedulable and marked with its NodeOp: never one that someone cordoned already. */
  predicate CordonedBy(u: World, v: World, n: string, owner: string) {
    HasNode(u, n) ==>
      && HasNode(v, n)
      && LastNode(v, n) == if LastNode(u, n).unschedulable then LastNode(u, n) else NodeObject(true, Some(owner))
  }

  /** Of a cordoned Node only the own cordon is undone, and the annotation goes with it; a stale annotation goes too. */
  predicate UncordonedBy(u: World, v: World, n: string, owner: string) {
    HasNode(u, n) ==>
      && HasNode(v, n)
      && if LastNode(u, n).unschedulable && LastNode(u, n).cordonedBy != Some(owner) then LastNode(v, n) == LastNode(u, n)
         else LastNode(v, n) == NodeObject(false, None)
  }

  method CordonNode(api: Api, n: string) returns (ok: bool)
    requires Inv(api.spec, api.w) && Unbegun(api.spec, api.w, n)
    modifies api
    ensures Inv(api.spec, api.w) && Passive(old(api.w), api.w)
    ensures api.quiet ==> OnlyNodesDiffer(old(api.w), api.w) && NodesBeside(old(api.w), api.w, n)
    ensures api.quiet && n in old(api.w).nodes && old(api.w).nodes[n] != [] ==>
              var o := CordonWrite(api.spec.ownerRef, LastNode(old(api.w), n));
              && ok
              && api.w == if o.None? then old(api.w) else WriteNode(old(api.w), n, o.value, Some(Cordoned(n)))
    ensures api.quiet ==> CordonedBy(old(api.w), api.w, n, api.spec.ownerRef)
  {
    hide Inv;
    var got := api.GetNode(n);
    EnvIsPassive(old(api.w), api.w);
    if got.Err? { return false; }
    var (version, node) := got.value;
    var write := CordonWrite(api.spec.ownerRef, node);
    if write.None? { return true; }
    ghost var u := api.w;
    PassiveUnbegun(api.spec, old(api.w), u, n);
    ok := api.UpdateNode(n, version, write.value, Cordon);
    PassiveChain(api.spec, old(api.w), u, api.w);
  }

  method UncordonNode(api: Api, n: string, cause: Cause) returns (ok: bool)
    requires Inv(api.spec, api.w) && MayAct(api.spec, api.w, n, Uncordon(cause))
    modifies api
    ensures Inv(api.spec, api.w) && Passive(old(api.w), api.w)
    ensures api.quiet ==> OnlyNodesDiffer(old(api.w), api.w) && NodesBeside(old(api.w), api.w, n)
    ensures api.quiet && n in old(api.w).nodes && old(api.w).nodes[n] != [] ==>
              var last := LastNode(old(api.w), n);
              var o := UncordonWrite(api.spec.ownerRef, last);
              && ok
              && api.w == if o.None? then old(api.w)
                          else WriteNode(old(api.w), n, o.value,
                                 if last.unschedulable then Some(Uncordoned(n, cause, |Boots(old(api.w), n)|)) else None)
    ensures api.quiet ==> (ok <==> HasNode(old(api.w), n)) && (!ok ==> api.w == old(api.w))
    ensures api.quiet && HasNode(old(api.w), n) ==>
              NodeBecomes(old(api.w), api.w, n, Uncordoning(api.spec.ownerRef, LastNode(old(api.w), n)))
    ensures api.quiet ==> UncordonedBy(old(api.w), api.w, n, api.spec.ownerRef)
  {
    hide Inv, MayAct, Passive;
    var got := api.GetNode(n);
    EnvIsPassive(old(api.w), api.w);
    EnvKeepsAct(api.spec, old(api.w), api.w, n, Uncordon(cause));
    if got.Err? { return false; }
    var (version, node) := got.value;
    var write := UncordonWrite(api.spec.ownerRef, node);
    if write.None? { return true; }
    ghost var u := api.w;
    var act := if node.unschedulable then Uncordon(cause) else ClearAnnotation;
    ClearingIsAllowed(api.spec, u, n);
    ok := api.UpdateNode(n, version, write.value, act);
    PassiveChain(api.spec, old(api.w), u, api.w);
  }

  lemma ClearingIsAllowed(spec: Spec, w: World, n: string)
    ensures MayAct(spec, w, n, ClearAnnotation)
  {
  }

  lemma PassivePods(u: World, v: World)
    requires Passive(u, v)
    ensures v.pods.Keys <= u.pods.Keys
  {
  }

  /** Whether the drain of node `n` deletes this Pod. */
  predicate Evicts(n: string, options: DrainOptions, p: PodInfo) {
    && p.node == n && !p.terminating && !p.isController && !p.hasRebootLabel
    && !(options.ignoreDaemonSets && p.daemonSet)
    && (options.force || p.controlled)
  }

  function Victims(n: string, options: DrainOptions, pods: seq<PodInfo>): seq<Event> {
    if pods == [] then []
    else (if Evicts(n, options, pods[0]) then [Drained(n, pods[0].name)] else []) + Victims(n, options, pods[1..])
  }

  lemma {:induction false} VictimsSnoc(n: string, options: DrainOptions, pods: seq<PodInfo>, p: PodInfo)
    ensures Victims(n, options, pods + [p]) ==
            Victims(n, options, pods) + if Evicts(n, options, p) then [Drained(n, p.name)] else []
  {
    if pods == [] {
      assert pods + [p] == [p];
      assert [p][1..] == [];
    } else {
      assert (pods + [p])[1..] == pods[1..] + [p];
      VictimsSnoc(n, options, pods[1..], p);
    }
  }

  /**
   * The Pods to drain, from their own fields: on the node, not terminating, not the operator's own nor a reboot Pod,
   * a DaemonSet's Pod only if those are not ignored, and one without a controller only if forced.
   */
  predicate ToDrain(n: string, options: DrainOptions, p: PodInfo) {
    && p.node == n && !p.terminating && !p.isController && !p.hasRebootLabel
    && (p.daemonSet ==> !options.ignoreDaemonSets) && (!p.controlled ==> options.force)
  }

  lemma {:induction false} VictimsMeaning(n: string, options: DrainOptions, pods: seq<PodInfo>)
    ensures forall e :: e in Victims(n, options, pods) <==>
              exists p | p in pods :: e == Drained(n, p.name) && ToDrain(n, options, p)
  {
    if pods != [] {
      VictimsMeaning(n, options, pods[1..]);
      assert pods == [pods[0]] + pods[1..];
    }
  }

  /** Evicts the node's Pods one by one; reboot Pods are never touched. `seen` is the list it worked from. */
  method DrainNode(api: Api, n: string, options: DrainOptions) returns (ok: bool, ghost seen: seq<PodInfo>)
    requires Inv(api.spec, api.w) && Unbegun(api.spec, api.w, n)
    modifies api
    ensures Inv(api.spec, api.w) && Passive(old(api.w), api.w)
    ensures api.quiet ==> ok && api.w == old(api.w).(trace := old(api.w).trace + Victims(n, options, seen))
    ensures api.quiet ==>
              && old(api.w).trace <= api.w.trace
              && forall e :: e in api.w.trace[|old(api.w).trace|..] <==>
                   exists p | p in seen :: e == Drained(n, p.name) && ToDrain(n, options, p)
  {
    hide Inv, Passive, Unbegun, GoodEntry;
    seen := [];
    var all := api.ListAllPods();
    EnvIsPassive(old(api.w), api.w);
    if all.Err? { return false, seen; }
    seen := all.value;
    ghost var listed := api.w;
    var i := 0;
    while i < |all.value|
      invariant 0 <= i <= |all.value|
      invariant Inv(api.spec, api.w) && Passive(old(api.w), api.w)
      invariant forall p | p in all.value && p.name in api.w.pods :: p.hasRebootLabel
      invariant api.quiet ==> api.w == listed.(trace := listed.trace + Victims(n, options, all.value[..i]))
    {
      var pod := all.value[i];
      assert all.value[..i + 1] == all.value[..i] + [pod];
      VictimsSnoc(n, options, all.value[..i], pod);
      i := i + 1;
      if pod.node != n { continue; }
      if pod.terminating { continue; }
      if pod.isController { continue; }
      if pod.hasRebootLabel { continue; }
      if options.ignoreDaemonSets && pod.daemonSet { continue; }
      if !options.force && !pod.controlled { continue; }
      ghost var u := api.w;
      PassiveUnbegun(api.spec, old(api.w), u, n);
      var gone := api.EvictPod(n, pod.name);
      PassiveChain(api.spec, old(api.w), u, api.w);
      PassivePods(u, api.w);
      if !gone { return false, seen; }
    }
    assert all.value[..i] == all.value;
    VictimsMeaning(n, options, seen);
    ok := true;
  }
}
