/** Listing and deleting reboot Pods: deleteRebootPods and cleanupRebootPodForNode. */
module RebootPods {
  import opened NodeOpTypes
  import opened Cluster
  import opened OperatorWrites
  import opened Knowledge
  import opened ApiServer

  /** The given reboot Pods are being deleted. */
  function Marked(pods: map<string, RebootPod>, ps: seq<string>): map<string, RebootPod> {
    map p | p in pods :: if p in ps then pods[p].(deleting := true) else pods[p]
  }

  lemma MarkedNone(w: World)
    ensures w.(pods := Marked(w.pods, [])) == w
  {
    assert Marked(w.pods, []) == w.pods;
  }

  lemma MarkedStep(w: World, ps: seq<string>, p: string)
    ensures DeletePod(w.(pods := Marked(w.pods, ps)), p) == w.(pods := Marked(w.pods, ps + [p]))
  {
    assert DeletePod(w.(pods := Marked(w.pods, ps)), p).pods == Marked(w.pods, ps + [p]);
  }

  /** The names of the Pods that deleteRebootPods acts on: those not already being deleted. */
  function Deletable(ps: seq<ListedPod>): seq<string> {
    if ps == [] then []
    else if ps[0].pod.deleting then Deletable(ps[1..])
    else [ps[0].name] + Deletable(ps[1..])
  }

  lemma {:induction false} DeletableSnoc(ps: seq<ListedPod>, x: ListedPod)
    ensures Deletable(ps + [x]) == if x.pod.deleting then Deletable(ps) else Deletable(ps) + [x.name]
  {
    if ps == [] {
      assert ps + [x] == [x];
      assert [x][1..] == [];
    } else {
      assert (ps + [x])[1..] == ps[1..] + [x];
      DeletableSnoc(ps[1..], x);
    }
  }

  lemma {:induction false} DeletableMembers(ps: seq<ListedPod>)
    ensures forall s :: s in Deletable(ps) <==> exists x :: x in ps && !x.pod.deleting && x.name == s
  {
    if ps != [] {
      DeletableMembers(ps[1..]);
      assert ps == [ps[0]] + ps[1..];
      forall s | exists x :: x in ps && !x.pod.deleting && x.name == s ensures s in Deletable(ps) {
        var x :| x in ps && !x.pod.deleting && x.name == s;
        if x != ps[0] { assert x in ps[1..]; }
      }
      assert ps[0] in ps;
    }
  }

  ghost predicate AllOnNode(w: World, n: string, ps: seq<ListedPod>) {
    forall x | x in ps && x.name in w.pods :: w.pods[x.name].node == n
  }

  /** deleteRebootPods; `keep` is not among the Pods deleted. */
  method DeleteRebootPods(api: Api, n: string, ps: seq<ListedPod>, ghost keep: string) returns (ok: bool)
    requires Inv(api.spec, api.w) && SafeWithout(api.spec, api.w, n, keep)
    requires AllOnNode(api.w, n, ps) && forall x | x in ps :: x.name != keep
    modifies api
    ensures Inv(api.spec, api.w) && Passive(old(api.w), api.w) && SafeWithout(api.spec, api.w, n, keep)
    ensures ok ==> forall x | x in ps && !x.pod.deleting :: !LiveOn(api.w, n, x.name)
    ensures api.quiet ==> ok && api.w == old(api.w).(pods := Marked(old(api.w).pods, Deletable(ps)))
  {
    hide Inv, SafeWithout, Passive, Marked, LiveOn, Deletable;
    PassiveStart(api.spec, api.w);
    MarkedNone(api.w);
    NothingDeletable();
    var i := 0;
    while i < |ps|
      invariant 0 <= i <= |ps|
      invariant api.w.history != []
      invariant AllOnNode(api.w, n, ps)
      invariant Inv(api.spec, api.w) && Passive(old(api.w), api.w) && SafeWithout(api.spec, api.w, n, keep)
      invariant forall k | 0 <= k < i && !ps[k].pod.deleting :: !LiveOn(api.w, n, ps[k].name)
      invariant api.quiet ==> api.w == old(api.w).(pods := Marked(old(api.w).pods, Deletable(ps[..i])))
    {
      var pod := ps[i];
      assert ps[..i + 1] == ps[..i] + [pod];
      DeletableSnoc(ps[..i], pod);
      i := i + 1;
      if pod.pod.deleting { continue; }
      ghost var u := api.w;
      var gone := api.DeleteRebootPod(n, pod.name, keep);
      PassiveChain(api.spec, old(api.w), u, api.w);
      if !gone { return false; }
      PassiveLive(u, api.w);
      PassiveAllOnNode(u, api.w, n, ps);
      MarkedStep(old(api.w), Deletable(ps[..i - 1]), pod.name);
    }
    assert ps[..i] == ps;
    ok := true;
  }

  lemma NothingDeletable()
    ensures Deletable([]) == []
  {
  }

  /** Every reboot Pod of the node is being deleted. */
  function AllDeleted(w: World, n: string): World {
    w.(pods := map p | p in w.pods :: if w.pods[p].node == n then w.pods[p].(deleting := true) else w.pods[p])
  }

  lemma MarkedAll(w: World, n: string, ps: seq<ListedPod>)
    requires Listing(w, n, ps)
    ensures w.(pods := Marked(w.pods, Deletable(ps))) == AllDeleted(w, n)
  {
    DeletableMembers(ps);
    forall p | p in w.pods ensures Marked(w.pods, Deletable(ps))[p] == AllDeleted(w, n).pods[p] {
      assert w.pods[p].node == n ==> ListedPod(p, w.pods[p]) in ps;
    }
    assert Marked(w.pods, Deletable(ps)) == AllDeleted(w, n).pods;
  }

  /** Deletes the node's reboot Pods, as far as the local copy knows them. */
  method CleanupRebootPodForNode(api: Api, n: string) returns (ok: bool)
    requires Inv(api.spec, api.w)
    requires Recorded(Current(api.w), n) || Unbegun(api.spec, api.w, n)
    modifies api
    ensures Inv(api.spec, api.w) && Passive(old(api.w), api.w)
    ensures api.quiet ==> ok && api.w == AllDeleted(old(api.w), n)
  {
    hide Inv;
    var listed := api.ListRebootPodsCached(n);
    EnvIsPassive(old(api.w), api.w);
    if listed.Err? { return false; }
    PassiveUnbegunOr(api.spec, old(api.w), api.w, n);
    ghost var u := api.w;
    ghost var keep := NotIn(listed.value, 0);
    ok := DeleteRebootPods(api, n, listed.value, keep);
    PassiveChain(api.spec, old(api.w), u, api.w);
    if api.quiet { MarkedAll(u, n, listed.value); }
  }

  lemma {:induction false} NotIn(ps: seq<ListedPod>, least: nat) returns (s: string)
    ensures |s| >= least && forall x | x in ps :: x.name != s
  {
    if ps == [] {
      s := seq(least, _ => 'a');
    } else {
      s := NotIn(ps[1..], if |ps[0].name| < least then least else |ps[0].name| + 1);
      assert ps == [ps[0]] + ps[1..];
    }
  }

  lemma PassiveAllOnNode(u: World, v: World, n: string, ps: seq<ListedPod>)
    requires Passive(u, v) && AllOnNode(u, n, ps)
    ensures AllOnNode(v, n, ps)
  {
    PassiveLive(u, v);
  }

  lemma PassiveLive(u: World, v: World)
    requires Passive(u, v)
    ensures forall n, p :: LiveOn(v, n, p) ==> LiveOn(u, n, p)
    ensures forall p | p in v.pods :: p in u.pods && v.pods[p].node == u.pods[p].node
  {
  }

  lemma PassiveUnbegunOr(spec: Spec, u: World, v: World, n: string)
    requires Passive(u, v) && (Recorded(Current(u), n) || Unbegun(spec, u, n))
    ensures forall keep :: SafeWithout(spec, v, n, keep)
  {
    if Unbegun(spec, u, n) { PassiveUnbegun(spec, u, v, n); }
  }
}
