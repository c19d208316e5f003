/** releaseWaitingNodes: what StopOnFailure does with nodes that still wait for their reboot Pod. */
module Release {
  import opened Wrappers
  import opened NodeOpTypes
  import opened Cluster
  import opened Environment
  import opened OperatorWrites
  import opened Knowledge
  import opened ApiServer
  import opened StatusUpdate
  import opened RebootPods
  import opened JobCreation

  /** One of the node's reboot Pods names Job `j`, which exists and is ours. */
  predicate NamesOurJob(w: World, n: string, j: string) {
    j != "" && OurJob(w, j) && exists p | p in w.pods :: w.pods[p].node == n && w.pods[p].jobName == j
  }

  ghost predicate HasOurJob(w: World, n: string) {
    exists j :: NamesOurJob(w, n, j)
  }

  /** Unless the run was disturbed, no Job was created under the names of these Pods. */
  ghost predicate RuledOut(spec: Spec, w: World, n: string, ps: seq<ListedPod>) {
    spec.reboot && w.undisturbed ==> forall x | x in ps :: !Created(w, n, x.pod.jobName)
  }

  lemma RuleOutOne(spec: Spec, u: World, v: World, n: string, ps: seq<ListedPod>, x: ListedPod)
    requires Inv(spec, v) && Passive(u, v) && RuledOut(spec, u, n, ps)
    requires x.pod.jobName == "" || !OurJob(v, x.pod.jobName)
    requires !Recorded(Current(v), n)
    ensures RuledOut(spec, v, n, ps + [x])
  {
    if spec.reboot && v.undisturbed {
      forall y | y in ps + [x] ensures !Created(v, n, y.pod.jobName) {
        assert y == x || y in ps;
      }
    }
  }

  lemma CreatedIsListed(spec: Spec, w: World, n: string, ps: seq<ListedPod>)
    requires Inv(spec, w) && spec.reboot && w.undisturbed && Listing(w, n, ps) && !Recorded(Current(w), n)
    ensures forall j | Created(w, n, j) :: exists x :: x in ps && x.pod.jobName == j
  {
    forall j | Created(w, n, j) ensures exists x :: x in ps && x.pod.jobName == j {
      assert Underway(w, n, j);
      var p :| LiveOn(w, n, p);
      assert ListedPod(p, w.pods[p]) in ps;
    }
  }

  /** If no listed Pod leads to a Job, none was created. */
  lemma NoneCreated(spec: Spec, u: World, v: World, n: string, ps: seq<ListedPod>)
    requires Inv(spec, u) && Passive(u, v) && Listing(u, n, ps) && RuledOut(spec, v, n, ps)
    requires !Recorded(Current(u), n)
    ensures Unbegun(spec, v, n)
  {
    if spec.reboot && v.undisturbed {
      CreatedIsListed(spec, u, n, ps);
      assert forall j :: Created(v, n, j) == Created(u, n, j);
    }
  }

  lemma ListedNames(spec: Spec, u: World, n: string, ps: seq<ListedPod>)
    requires Inv(spec, u) && Listing(u, n, ps)
    ensures forall x | x in ps && x.pod.jobName != "" :: x.pod.jobName in u.drawn && u.drawn[x.pod.jobName] == n
  {
  }

  /** unrecordedNodeJob */
  method UnrecordedNodeJob(api: Api, n: string) returns (r: Result<string>)
    requires Inv(api.spec, api.w) && !Recorded(Current(api.w), n)
    modifies api
    ensures Inv(api.spec, api.w) && Passive(old(api.w), api.w)
    ensures r.Ok? && r.value != "" ==> Created(api.w, n, r.value)
    ensures r == Ok("") ==> Unbegun(api.spec, api.w, n)
    ensures api.quiet ==>
              && r.Ok? && api.w == old(api.w)
              && (r.value != "" ==> NamesOurJob(api.w, n, r.value))
              && (r.value == "" ==> !HasOurJob(api.w, n))
  {
    hide *;
    ghost var w0 := api.w;
    var listed := api.ListRebootPods(n);
    ghost var u := api.w;
    EnvIsPassive(w0, u);
    if listed.Err? { return Err; }
    var pods := listed.value;
    PassiveFacts(w0, u, 0);
    PassiveStart(api.spec, u);
    ListedNames(api.spec, u, n, pods);
    NothingRuledOut(api.spec, u, n);
    var i := 0;
    while i < |pods|
      invariant 0 <= i <= |pods|
      invariant Inv(api.spec, api.w) && Passive(u, api.w)
      invariant RuledOut(api.spec, api.w, n, pods[..i])
      invariant api.quiet ==> api.w == u && forall k | 0 <= k < i :: !NamesOurJob(u, n, pods[k].pod.jobName)
    {
      assert pods[..i + 1] == pods[..i] + [pods[i]];
      assert pods[i] in pods;
      ghost var v := api.w;
      PassiveFacts(u, v, 0);
      var j := pods[i].pod.jobName;
      if j == "" {
        PassiveStart(api.spec, v);
        RuleOutOne(api.spec, v, v, n, pods[..i], pods[i]);
        NotOurs(u, n, pods, i);
        i := i + 1;
        continue;
      }
      var got := api.GetJob(j);
      EnvIsPassive(v, api.w);
      PassiveChain(api.spec, u, v, api.w);
      PassiveChain(api.spec, w0, u, api.w);
      PassiveFacts(v, api.w, 0);
      if got.Err? { return Err; }
      if got.value.Some? && got.value.value.ours {
        OwnJobFound(api.spec, u, api.w, n, j, got.value);
        if api.quiet { NameFound(u, n, pods, i, got.value); }
        return Ok(j);
      }
      NotFoundHere(api.w, j, got.value);
      RuleOutOne(api.spec, v, api.w, n, pods[..i], pods[i]);
      if api.quiet { NotOurs(u, n, pods, i); }
      i := i + 1;
    }
    assert pods[..i] == pods;
    NoneCreated(api.spec, u, api.w, n, pods);
    PassiveChain(api.spec, w0, u, api.w);
    if api.quiet { NoneNamed(u, n, pods); }
    r := Ok("");
  }

  lemma NothingRuledOut(spec: Spec, w: World, n: string)
    ensures RuledOut(spec, w, n, [])
  {
  }

  lemma NotFoundHere(w: World, j: string, got: Option<Job>)
    requires got == LookUp(w.jobs, j) && !(got.Some? && got.value.ours)
    ensures !OurJob(w, j)
  {
  }

  lemma NotOurs(w: World, n: string, ps: seq<ListedPod>, i: nat)
    requires i < |ps| && (ps[i].pod.jobName == "" || !OurJob(w, ps[i].pod.jobName))
    ensures !NamesOurJob(w, n, ps[i].pod.jobName)
  {
  }

  lemma OwnJobFound(spec: Spec, u: World, v: World, n: string, j: string, got: Option<Job>)
    requires Inv(spec, v) && Passive(u, v) && j in u.drawn && u.drawn[j] == n
    requires got == LookUp(v.jobs, j) && got.Some? && got.value.ours
    ensures Created(v, n, j)
  {
    OursWasCreated(spec, v, n, j);
  }

  lemma NameFound(w: World, n: string, ps: seq<ListedPod>, i: nat, got: Option<Job>)
    requires Listing(w, n, ps) && i < |ps| && ps[i].pod.jobName != ""
    requires got == LookUp(w.jobs, ps[i].pod.jobName) && got.Some? && got.value.ours
    ensures NamesOurJob(w, n, ps[i].pod.jobName)
  {
    assert ps[i] in ps;
  }

  lemma NoneNamed(w: World, n: string, ps: seq<ListedPod>)
    requires Listing(w, n, ps) && forall k | 0 <= k < |ps| :: !NamesOurJob(w, n, ps[k].pod.jobName)
    ensures !HasOurJob(w, n)
  {
    forall j | NamesOurJob(w, n, j) ensures exists k :: 0 <= k < |ps| && ps[k].pod.jobName == j {
      var p :| p in w.pods && w.pods[p].node == n && w.pods[p].jobName == j;
      assert ListedPod(p, w.pods[p]) in ps;
    }
  }

  /** The cluster differs from `u` only in what releasing nodes changes on a quiet server. */
  ghost predicate OnlyDeletions(u: World, v: World) {
    && v.jobs == u.jobs && v.drawn == u.drawn && v.pods.Keys == u.pods.Keys
    && forall p | p in u.pods ::
         v.pods[p] == u.pods[p] || v.pods[p] == u.pods[p].(deleting := true)
  }

  lemma DeletionsChain(u: World, v: World, w: World)
    requires OnlyDeletions(u, v) && OnlyDeletions(v, w)
    ensures OnlyDeletions(u, w)
    ensures forall n, j :: NamesOurJob(w, n, j) <==> NamesOurJob(u, n, j)
  {
  }

  lemma DeletionsStart(u: World)
    ensures OnlyDeletions(u, u)
  {
  }

  /** What releaseWaitingNodes has made of one node, on a quiet server; `gone` nodes are still to be dropped. */
  ghost predicate Settled(spec: Spec, w0: World, s0: Statuses, w: World, s: Statuses, gone: seq<string>, n: string)
    requires n in s0
  {
    && n in s
    && if !AwaitingRebootPod(s0[n]) then s[n] == s0[n] && n !in gone
       else if HasOurJob(w0, n) then n !in gone && exists j :: NamesOurJob(w0, n, j) && s[n] == RecordedEntry(spec, j)
       else s[n] == s0[n] && n in gone && !HasLive(w, n)
  }

  lemma BusyHasRoom(spec: Spec, w: World, s: Statuses, n: string)
    requires Good(spec, w, s) && n in s && Busy(s[n]) && s[n].jobName == ""
    ensures Room(spec, s, n)
  {
    assert GoodEntry(spec, w, n, s[n]);
  }

  /** One entry of the loop. */
  method ReleaseOne(api: Api, op: NodeOp, n: string, gone: seq<string>) returns (ok: bool, gone': seq<string>)
    requires Inv(api.spec, api.w) && Holds(api.spec, api.w, op) && n in op.statuses && Current(api.w) == op.statuses
    modifies api, op`statuses, op`version
    ensures Inv(api.spec, api.w) && Holds(api.spec, api.w, op) && Forward(old(api.w), api.w)
    ensures api.w.history != [] && api.w.halted == old(api.w).halted
    ensures ok ==> Current(api.w) == op.statuses
    ensures n in op.statuses && op.statuses == old(op.statuses)[n := op.statuses[n]]
    ensures gone' == gone || (gone' == gone + [n] && AwaitingRebootPod(op.statuses[n]))
    ensures api.quiet && old(op.version) == Version(old(api.w)) && n !in gone ==>
              && ok && op.version == Version(api.w) && OnlyDeletions(old(api.w), api.w)
              && Settled(api.spec, old(api.w), old(op.statuses), api.w, op.statuses, gone', n)
  {
    hide Inv, Passive, Good, Advances, Forward, HasOurJob, NamesOurJob, HasLive, Room, Moved, Unbegun, OnlyDeletions;
    gone' := gone;
    ghost var w0, s, version := api.w, op.statuses, op.version;
    assert s == s[n := s[n]];
    DeletionsStart(w0);
    PassiveStart(api.spec, w0);
    PassiveFacts(w0, w0, 0);
    if !AwaitingRebootPod(op.statuses[n]) { return true, gone'; }
    var found := UnrecordedNodeJob(api, n);
    ghost var u := api.w;
    PassiveFacts(w0, u, 0);
    StillHolds(api.spec, w0, u, s, version);
    if found.Err? { return false, gone'; }
    if found.value != "" {
      BusyHasRoom(api.spec, u, s, n);
      ok := RecordNodeJob(api, op, n, found.value);
      PassiveThenMoved(w0, u, api.w, op.statuses);
      MovedParts(w0, api.w, op.statuses);
      if api.quiet {
        WriteOnly(w0, op.statuses);
        HasOne(w0, n, found.value);
      }
      return;
    }
    ok := CleanupRebootPodForNode(api, n);
    PassiveChain(api.spec, w0, u, api.w);
    PassiveFacts(w0, api.w, 0);
    StillHolds(api.spec, w0, api.w, s, version);
    if !ok { return; }
    gone' := gone + [n];
    if api.quiet { AllDeletedOnly(w0, n); }
  }

  lemma MovedParts(u: World, v: World, s: Statuses)
    requires Moved(u, v, s)
    ensures v.history != [] && Forward(u, v) && v.halted == u.halted
  {
  }

  lemma HasOne(w: World, n: string, j: string)
    requires NamesOurJob(w, n, j)
    ensures HasOurJob(w, n)
  {
  }

  lemma WriteOnly(w: World, s: Statuses)
    ensures OnlyDeletions(w, WriteStatus(w, s))
  {
  }

  lemma AllDeletedOnly(w: World, n: string)
    ensures OnlyDeletions(w, AllDeleted(w, n)) && !HasLive(AllDeleted(w, n), n)
    ensures AllDeleted(w, n).history == w.history
  {
  }

  /** The loop has settled what it has visited and left the rest alone. */
  ghost predicate Progress(spec: Spec, w0: World, s0: Statuses, w: World, s: Statuses, gone: seq<string>,
                           order: seq<string>, i: nat)
    requires i <= |order|
  {
    && (forall k | 0 <= k < i && order[k] in s0 :: Settled(spec, w0, s0, w, s, gone, order[k]))
    && (forall k | i <= k < |order| && order[k] in s0 :: order[k] in s && s[order[k]] == s0[order[k]] && order[k] !in gone)
    && s.Keys == s0.Keys && OnlyDeletions(w0, w) && (forall x | x in gone :: x in s0)
  }

  lemma ProgressStep(spec: Spec, w0: World, s0: Statuses, u: World, s: Statuses, gone: seq<string>,
                     v: World, t: Statuses, gone': seq<string>, order: seq<string>, i: nat)
    requires i < |order| && Enumerates(order, s0.Keys) && Progress(spec, w0, s0, u, s, gone, order, i)
    requires order[i] in t && order[i] in s && t == s[order[i] := t[order[i]]]
    requires gone' == gone || gone' == gone + [order[i]]
    requires OnlyDeletions(u, v) && Settled(spec, u, s, v, t, gone', order[i])
    ensures Progress(spec, w0, s0, v, t, gone', order, i + 1)
  {
    DeletionsChain(w0, u, v);
    DeletionsChain(w0, w0, u);
    assert order[i] in order;
    forall k | 0 <= k < i + 1 && order[k] in s0 ensures Settled(spec, w0, s0, v, t, gone', order[k]) {
      SettledStays(spec, w0, s0, u, s, gone, v, t, gone', order, i, k);
    }
  }

  lemma SettledStays(spec: Spec, w0: World, s0: Statuses, u: World, s: Statuses, gone: seq<string>,
                     v: World, t: Statuses, gone': seq<string>, order: seq<string>, i: nat, k: nat)
    requires i < |order| && Enumerates(order, s0.Keys) && Progress(spec, w0, s0, u, s, gone, order, i)
    requires order[i] in t && order[i] in s && t == s[order[i] := t[order[i]]]
    requires gone' == gone || gone' == gone + [order[i]]
    requires OnlyDeletions(u, v) && Settled(spec, u, s, v, t, gone', order[i])
    requires k <= i && order[k] in s0
    requires forall n, j :: NamesOurJob(u, n, j) <==> NamesOurJob(w0, n, j)
    ensures Settled(spec, w0, s0, v, t, gone', order[k])
  {
    hide NamesOurJob;
    assert HasOurJob(u, order[k]) == HasOurJob(w0, order[k]);
    if k == i {
      assert s[order[i]] == s0[order[i]];
    } else {
      assert Settled(spec, w0, s0, u, s, gone, order[k]);
      assert HasLive(v, order[k]) ==> HasLive(u, order[k]);
    }
  }

  /** What releaseWaitingNodes makes of the statuses: the waiting nodes without a Job are dropped, the others recorded. */
  ghost predicate Released(spec: Spec, w: World, s: Statuses, t: Statuses) {
    && t.Keys <= s.Keys
    && forall n | n in s ::
         if !AwaitingRebootPod(s[n]) then n in t && t[n] == s[n]
         else if HasOurJob(w, n) then n in t && exists j :: NamesOurJob(w, n, j) && t[n] == RecordedEntry(spec, j)
         else n !in t
  }

  lemma AllSettled(spec: Spec, w0: World, s0: Statuses, w: World, s: Statuses, gone: seq<string>, order: seq<string>)
    requires Enumerates(order, s0.Keys) && Progress(spec, w0, s0, w, s, gone, order, |order|)
    ensures Released(spec, w0, s0, s - (set x | x in gone))
    ensures forall x | x in gone :: !HasLive(w, x)
    ensures OnlyDeletions(w0, w)
    ensures gone == [] ==> s - (set x | x in gone) == s
  {
    forall n | n in s0 ensures Settled(spec, w0, s0, w, s, gone, n) { assert n in order; }
  }

  lemma DropGood(spec: Spec, w: World, s: Statuses, version: nat, gone: set<string>)
    requires Good(spec, w, s) && version < |w.history| && Advances(w.history[version], s)
    requires forall x | x in gone && x in s :: AwaitingRebootPod(s[x])
    ensures Good(spec, w, s - gone) && Advances(w.history[version], s - gone)
  {
    assert BusyNodes(s - gone) <= BusyNodes(s);
    SubsetSize(BusyNodes(s - gone), BusyNodes(s));
    forall n | n in w.history[version] ensures AdvancesAt(w.history[version], s - gone, n) {
      assert AdvancesAt(w.history[version], s, n);
      assert n in s ==> GoodEntry(spec, w, n, s[n]);
    }
  }

  lemma ReleaseStarts(spec: Spec, w: World, s: Statuses, order: seq<string>)
    requires Enumerates(order, s.Keys)
    ensures Progress(spec, w, s, w, s, [], order, 0)
  {
    forall k | 0 <= k < |order| ensures order[k] in s { assert order[k] in order; }
  }

  lemma InOrder(order: seq<string>, keys: set<string>, i: nat)
    requires Enumerates(order, keys) && i < |order|
    ensures order[i] in keys && order[i] !in order[..i] && order[..i + 1] == order[..i] + [order[i]]
  {
    assert order[i] in order;
  }

  lemma NothingReleased(spec: Spec, w0: World, s0: Statuses, w: World, s: Statuses, order: seq<string>)
    requires Enumerates(order, s0.Keys) && Progress(spec, w0, s0, w, s, [], order, |order|)
    ensures Released(spec, w0, s0, s) && s.Keys == s0.Keys && OnlyDeletions(w0, w)
  {
    AllSettled(spec, w0, s0, w, s, [], order);
  }

  lemma SavedOnly(u: World, v: World, s: Statuses)
    requires OnlyDeletions(u, v)
    ensures OnlyDeletions(u, WriteStatus(v, s))
    ensures forall n :: HasLive(WriteStatus(v, s), n) ==> HasLive(v, n)
  {
    WriteOnly(v, s);
    DeletionsChain(u, v, WriteStatus(v, s));
  }

  /** The end of releaseWaitingNodes: the entries of the nodes let go are dropped, and the status is saved. */
  method DropNodes(api: Api, op: NodeOp, released: seq<string>) returns (ok: bool)
    requires Inv(api.spec, api.w) && Holds(api.spec, api.w, op)
    requires forall x | x in released && x in op.statuses :: AwaitingRebootPod(op.statuses[x])
    modifies api, op`statuses, op`version
    ensures Inv(api.spec, api.w) && Holds(api.spec, api.w, op) && Forward(old(api.w), api.w)
    ensures api.w.history != [] && api.w.halted == old(api.w).halted
    ensures op.statuses == old(op.statuses) - set x | x in released
    ensures ok ==> Current(api.w) == op.statuses
    ensures api.quiet && old(op.version) == Version(old(api.w)) ==> ok && api.w == WriteStatus(old(api.w), op.statuses)
  {
    hide Inv, Passive, Good, Advances, Forward;
    var dropped := set x | x in released;
    DropGood(api.spec, api.w, op.statuses, op.version, dropped);
    op.statuses := op.statuses - dropped;
    ok := api.UpdateStatus(op);
    StillThere(api.spec, api.w);
  }

  /** releaseWaitingNodes */
  method ReleaseWaitingNodes(api: Api, op: NodeOp) returns (ok: bool)
    requires Inv(api.spec, api.w) && Holds(api.spec, api.w, op) && Current(api.w) == op.statuses
    modifies api, op`statuses, op`version
    ensures Inv(api.spec, api.w) && Holds(api.spec, api.w, op) && Forward(old(api.w), api.w)
    ensures api.w.halted == old(api.w.halted)
    ensures ok ==> Current(api.w) == op.statuses
    ensures api.quiet && old(op.version) == Version(old(api.w)) ==>
              && ok && Released(api.spec, old(api.w), old(op.statuses), op.statuses)
              && OnlyDeletions(old(api.w), api.w)
              && forall n | n in old(op.statuses) && n !in op.statuses :: !HasLive(api.w, n)
  {
    hide Inv, Passive, Good, Advances, Forward, Progress, Enumerates, OnlyDeletions, Released, HasLive;
    ghost var w0, s0 := api.w, op.statuses;
    PassiveStart(api.spec, w0);
    PassiveFacts(w0, w0, 0);
    ghost var exact := api.quiet && op.version == Version(w0);
    var order := RangeOver(op.statuses.Keys);
    var released: seq<string> := [];
    ReleaseStarts(api.spec, w0, s0, order);
    var i := 0;
    while i < |order|
      invariant 0 <= i <= |order|
      invariant Inv(api.spec, api.w) && Holds(api.spec, api.w, op) && Forward(w0, api.w)
      invariant api.w.history != [] && api.w.halted == w0.halted && Current(api.w) == op.statuses
      invariant op.statuses.Keys == s0.Keys
      invariant forall x | x in released :: x in order[..i] && x in op.statuses && AwaitingRebootPod(op.statuses[x])
      invariant exact ==> op.version == Version(api.w)
      invariant exact ==> Progress(api.spec, w0, s0, api.w, op.statuses, released, order, i)
    {
      var n := order[i];
      ghost var u, s, gone := api.w, op.statuses, released;
      InOrder(order, s0.Keys, i);
      ok, released := ReleaseOne(api, op, n, released);
      ForwardTrans(w0, u, api.w);
      if !ok { return; }
      if exact { ProgressStep(api.spec, w0, s0, u, s, gone, api.w, op.statuses, released, order, i); }
      i := i + 1;
    }
    if exact { AllSettled(api.spec, w0, s0, api.w, op.statuses, released, order); }
    ok := true;
    if |released| == 0 {
      if exact { NothingReleased(api.spec, w0, s0, api.w, op.statuses, order); }
      return;
    }
    ghost var u := api.w;
    ok := DropNodes(api, op, released);
    ForwardTrans(w0, u, api.w);
    if exact { SavedOnly(w0, u, op.statuses); }
  }
}
