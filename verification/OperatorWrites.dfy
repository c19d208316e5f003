/**
 * The writes the operator makes, as functions on the cluster, the guard under which each
 * keeps the invariant, and the proof that it does.
 */
module OperatorWrites {
  import opened Wrappers
  import opened BootIds
  import opened NodeOpTypes
  import opened Cluster

  function WriteStatus(w: World, s: Statuses): World {
    w.(history := w.history + [s])
  }

  function Log(w: World, e: Event): World {
    w.(trace := w.trace + [e])
  }

  function HandOut(w: World, n: string, j: string): World {
    w.(drawn := w.drawn[j := n])
  }

  /** The Job's name is only safe while a live reboot Pod carries it. */
  function AddJob(w: World, n: string, j: string): World {
    w.(jobs := w.jobs[j := Job(n, true, [])],
       jobNames := w.jobNames + {j},
       undisturbed := w.undisturbed && HasLive(w, n),
       trace := w.trace + [JobCreated(n, j)])
  }

  function AddRebootPod(w: World, p: string, n: string, j: string, created: nat): World {
    w.(pods := w.pods[p := RebootPod(n, j, created, PodPending, false, [], NotReported)],
       announced := w.announced + {(n, j)},
       trace := w.trace + [RebootPodCreated(n, j)])
  }

  /** Deleting is graceful: the Pod stays until its containers have stopped. */
  function DeletePod(w: World, p: string): World {
    w.(pods := MarkDeleted(w.pods, p))
  }

  function MarkDeleted(pods: map<string, RebootPod>, p: string): map<string, RebootPod> {
    if p in pods then pods[p := pods[p].(deleting := true)] else pods
  }

  function WriteNode(w: World, n: string, o: NodeObject, e: Option<Event>): World {
    w.(nodes := w.nodes[n := (if n in w.nodes then w.nodes[n] else []) + [o]],
       trace := if e.Some? then w.trace + [e.value] else w.trace)
  }

  function Halt(w: World): World {
    w.(halted := true, trace := w.trace + [Halted])
  }

  /** When an event other than a Job's creation may be logged. */
  ghost predicate Allowed(spec: Spec, w: World, e: Event) {
    && !e.JobCreated? && e != Halted
    && (Creation(e) ==> !w.halted)
    && (spec.reboot && w.undisturbed && UpgradeAct(e) ==> Unstarted(w, e.node))
    && Justified(spec, w, e)
  }

  /** The reboot Pod may go: it is not the only way back to an unrecorded Job. */
  ghost predicate Spare(spec: Spec, w: World, p: string)
    requires w.history != []
  {
    spec.reboot && w.undisturbed && p in w.pods && Live(w.pods[p]) ==>
      || Recorded(Current(w), w.pods[p].node)
      || Unstarted(w, w.pods[p].node)
      || exists q :: q != p && LiveOn(w, w.pods[p].node, q)
  }

  /** Writes that touch nothing an entry of the status speaks of. */
  ghost predicate Aside(w: World, v: World) {
    && v.jobs == w.jobs && v.jobNames == w.jobNames
    && v.reports == w.reports && v.podsSeen == w.podsSeen && v.readied == w.readied && v.boots == w.boots
    && v.undisturbed == w.undisturbed && w.trace <= v.trace && NoJobMade(w, v)
    && (forall j | j in w.drawn :: j in v.drawn && v.drawn[j] == w.drawn[j])
    && (forall n, j :: Created(v, n, j) <==> Created(w, n, j))
  }

  lemma GoodAside(spec: Spec, w: World, v: World, s: Statuses)
    requires Aside(w, v) && Good(spec, w, s)
    ensures Good(spec, v, s)
  {
    forall n | n in s ensures GoodEntry(spec, v, n, s[n]) {
      assert forall n :: Boots(v, n) == Boots(w, n);
      assert GoodEntry(spec, w, n, s[n]);
    }
  }

  lemma CreatedAfterLog(w: World, v: World, e: Event)
    requires v.trace == w.trace + [e]
    ensures forall n, j :: Created(v, n, j) <==> Created(w, n, j) || e == JobCreated(n, j)
  {
  }

  lemma TraceAfterLog(spec: Spec, w: World, e: Event)
    requires Protocol(spec, w) && Allowed(spec, w, e)
    ensures var v := Log(w, e);
            && (spec.reboot && v.undisturbed ==> OnceOnly(v.trace))
            && (Halted in v.trace ==> v.halted)
            && NothingAfterHalt(v.trace)
            && (forall x | x in v.trace :: Justified(spec, v, x))
  {
    var v := Log(w, e);
    if spec.reboot && v.undisturbed {
      forall i, k | 0 <= i < k < |v.trace| && v.trace[i].JobCreated? && UpgradeAct(v.trace[k])
        ensures v.trace[i].node != v.trace[k].node
      {
        assert w.trace[i] == JobCreated(w.trace[i].node, w.trace[i].job);
        assert Created(w, w.trace[i].node, w.trace[i].job);
      }
    }
    forall x | x in v.trace ensures Justified(spec, v, x) {
      assert x in w.trace || x == e;
      assert Justified(spec, w, x);
      assert Boots(v, if x.Uncordoned? then x.node else "") == Boots(w, if x.Uncordoned? then x.node else "");
    }
  }

  /** Most of the invariant carries over to a cluster that differs off to the side. */
  lemma FrameKeeps(spec: Spec, w: World, v: World)
    requires Inv(spec, w) && Aside(w, v) && v.history == w.history
    requires v.views == w.views && v.jobPods == w.jobPods && v.issued == w.issued
    requires w.nodes.Keys <= v.nodes.Keys && forall n | n in v.nodes :: v.nodes[n] != []
    requires w.announced <= v.announced
    requires forall a | a in v.announced :: a.1 in v.drawn && v.drawn[a.1] == a.0
    requires forall p | p in v.pods && v.pods[p].jobName != "" :: (v.pods[p].node, v.pods[p].jobName) in v.announced
    requires ReadyNoted(w, v.pods)
    ensures Physical(v)
    ensures forall i | 0 <= i < |v.history| :: Good(spec, v, v.history[i])
    ensures Named(spec, v)
    ensures v.pods == w.pods && spec.reboot && v.undisturbed ==> Pledge(v)
  {
    PhysicalFrame(w, v);
    forall i | 0 <= i < |v.history| ensures Good(spec, v, v.history[i]) {
      GoodAside(spec, w, v, w.history[i]);
    }
    if v.pods == w.pods && spec.reboot && v.undisturbed { PledgeFrame(w, v); }
  }

  lemma LogKeepsInv(spec: Spec, w: World, e: Event)
    requires Inv(spec, w) && Allowed(spec, w, e)
    ensures Inv(spec, Log(w, e)) && Aside(w, Log(w, e))
  {
    CreatedAfterLog(w, Log(w, e), e);
    TraceAfterLog(spec, w, e);
    FrameKeeps(spec, w, Log(w, e));
  }

  lemma PreflightsKeepInv(spec: Spec, w: World, preflights: map<string, seq<PreflightPod>>)
    requires Inv(spec, w)
    ensures Inv(spec, w.(preflights := preflights)) && Aside(w, w.(preflights := preflights))
  {
    hide Good, Justified, OnceOnly, NothingAfterHalt, Advances, Pledge, ReadyNoted, Plausible, Genuine, BootsFine;
    var v := w.(preflights := preflights);
    assert forall n, j :: Created(v, n, j) == Created(w, n, j);
    FrameKeeps(spec, w, v);
    JustifiedFrame(spec, w, v);
  }

  /** The boots, the reports and what is known of them are the same. */
  predicate SameReports(w: World, v: World) {
    && v.boots == w.boots && v.reports == w.reports && v.podsSeen == w.podsSeen
    && (forall j | j in w.drawn :: j in v.drawn && v.drawn[j] == w.drawn[j])
  }

  lemma GenuineFrame(w: World, v: World, j: string, pod: UpgradePod)
    requires SameReports(w, v) && Genuine(w, j, pod)
    ensures Genuine(v, j, pod)
  {
    assert forall n :: Boots(v, n) == Boots(w, n);
    forall id | id != "" && Reports(pod, id) ensures RanOn(v, j, id) {
      assert RanOn(w, j, id);
    }
  }

  lemma PlausibleFrame(w: World, v: World, n: string, view: NodeView)
    requires SameReports(w, v) && Plausible(w, n, view) && forall r | r in w.reports :: r.0 in w.drawn
    ensures Plausible(v, n, view)
  {
    assert Boots(v, n) == Boots(w, n);
  }

  lemma ReportedFrame(w: World, v: World, j: string, id: string)
    requires SameReports(w, v) && Reported(w, j, id)
    ensures Reported(v, j, id)
  {
    assert forall n :: Boots(v, n) == Boots(w, n);
  }

  /** Physical does not look at the operator's own objects. */
  lemma PhysicalFrame(w: World, v: World)
    requires Physical(w) && SameReports(w, v)
    requires v.views == w.views && v.jobPods == w.jobPods && v.issued == w.issued
    requires w.nodes.Keys <= v.nodes.Keys && forall n | n in v.nodes :: v.nodes[n] != []
    ensures Physical(v)
  {
    hide Genuine, Plausible, Reported, BootsFine;
    assert forall n :: Boots(v, n) == Boots(w, n);
    forall s | s in v.podsSeen ensures Genuine(v, s.0, s.1) {
      GenuineFrame(w, v, s.0, s.1);
    }
    forall n | n in v.views ensures Plausible(v, n, v.views[n]) {
      PlausibleFrame(w, v, n, w.views[n]);
    }
    forall i | i in v.issued ensures Reported(v, i.1, Boots(v, i.0)[i.2]) {
      ReportedFrame(w, v, i.1, Boots(w, i.0)[i.2]);
    }
  }

  lemma PledgeFrame(w: World, v: World)
    requires w.history != [] && v.history == w.history && Pledge(w)
    requires v.jobs == w.jobs && v.pods == w.pods
    requires forall n, j :: Created(v, n, j) ==> Created(w, n, j)
    ensures Pledge(v)
  {
    forall n, j | Created(v, n, j) ensures Recorded(Current(v), n) || Underway(v, n, j) {
      assert Created(w, n, j);
      if !Recorded(Current(w), n) {
        var p :| LiveOn(w, n, p);
        assert LiveOn(v, n, p);
        assert forall q :: LiveOn(v, n, q) ==> LiveOn(w, n, q);
      }
    }
  }

  lemma NodesKeepInv(spec: Spec, w: World, nodes: map<string, seq<NodeObject>>)
    requires Inv(spec, w) && w.nodes.Keys <= nodes.Keys && forall n | n in nodes :: nodes[n] != []
    ensures Inv(spec, w.(nodes := nodes)) && Aside(w, w.(nodes := nodes))
  {
    hide Good, Justified, OnceOnly, NothingAfterHalt, Advances, Pledge, ReadyNoted, Plausible, Genuine, BootsFine;
    var v := w.(nodes := nodes);
    assert forall n, j :: Created(v, n, j) == Created(w, n, j);
    FrameKeeps(spec, w, v);
    JustifiedFrame(spec, w, v);
  }

  lemma WriteNodeKeepsInv(spec: Spec, w: World, n: string, o: NodeObject, e: Option<Event>)
    requires Inv(spec, w) && (e.Some? ==> Allowed(spec, w, e.value))
    ensures Inv(spec, WriteNode(w, n, o, e)) && Aside(w, WriteNode(w, n, o, e))
  {
    hide Protocol, Plausible, Genuine, BootsFine, Allowed;
    var u := if e.Some? then Log(w, e.value) else w;
    if e.Some? { LogKeepsInv(spec, w, e.value); }
    var v := WriteNode(w, n, o, e);
    assert v == u.(nodes := v.nodes);
    NodesKeepInv(spec, u, v.nodes);
  }

  lemma JustifiedFrame(spec: Spec, w: World, v: World)
    requires forall e | e in w.trace :: Justified(spec, w, e)
    requires v.trace == w.trace && v.boots == w.boots && v.reports == w.reports && v.podsSeen == w.podsSeen
    requires forall j | j in w.drawn :: j in v.drawn && v.drawn[j] == w.drawn[j]
    ensures forall e | e in v.trace :: Justified(spec, v, e)
  {
    forall e | e in v.trace ensures Justified(spec, v, e) {
      assert Justified(spec, w, e);
      assert forall n :: Boots(v, n) == Boots(w, n);
    }
  }

  lemma HandOutKeepsInv(spec: Spec, w: World, n: string, j: string)
    requires Inv(spec, w) && j !in w.drawn && j !in w.jobNames
    ensures Inv(spec, HandOut(w, n, j)) && Aside(w, HandOut(w, n, j))
  {
    hide Good, Justified, Pledge, OnceOnly, NothingAfterHalt, Advances;
    var v := HandOut(w, n, j);
    assert forall n, j :: Created(v, n, j) == Created(w, n, j);
    FrameKeeps(spec, w, v);
    JustifiedFrame(spec, w, v);
  }

  lemma HaltKeepsInv(spec: Spec, w: World)
    requires Inv(spec, w) && spec.stopOnFailure && HasFailed(Current(w))
    ensures Inv(spec, Halt(w)) && Aside(w, Halt(w))
  {
    hide Good, Justified, Advances, Pledge, Created, Plausible;
    var v := Halt(w);
    CreatedAfterLog(w, v, Halted);
    FrameKeeps(spec, w, v);
    JustifiedHalt(spec, w);
  }

  lemma JustifiedHalt(spec: Spec, w: World)
    requires forall e | e in w.trace :: Justified(spec, w, e)
    ensures forall e | e in Halt(w).trace :: Justified(spec, Halt(w), e)
  {
    var v := Halt(w);
    assert forall n :: Boots(v, n) == Boots(w, n);
    forall e | e in v.trace ensures Justified(spec, v, e) {
      if e in w.trace { assert Justified(spec, w, e); }
    }
  }

  /** A change off to the side that logs nothing keeps the invariant, if it keeps the pledge. */
  lemma FrameInv(spec: Spec, w: World, v: World)
    requires Inv(spec, w) && Aside(w, v) && v.history == w.history && v.trace == w.trace && v.halted == w.halted
    requires v.views == w.views && v.jobPods == w.jobPods && v.issued == w.issued
    requires w.nodes.Keys <= v.nodes.Keys && forall n | n in v.nodes :: v.nodes[n] != []
    requires w.announced <= v.announced
    requires forall a | a in v.announced :: a.1 in v.drawn && v.drawn[a.1] == a.0
    requires forall p | p in v.pods && v.pods[p].jobName != "" :: (v.pods[p].node, v.pods[p].jobName) in v.announced
    requires ReadyNoted(w, v.pods)
    requires spec.reboot && v.undisturbed ==> Pledge(v)
    ensures Inv(spec, v)
  {
    hide Good, Justified, OnceOnly, NothingAfterHalt, Advances, Pledge, Plausible, Genuine, BootsFine, ReadyNoted;
    FrameKeeps(spec, w, v);
    JustifiedFrame(spec, w, v);
  }

  lemma DeletePodKeepsInv(spec: Spec, w: World, p: string)
    requires Inv(spec, w) && Spare(spec, w, p)
    ensures Inv(spec, DeletePod(w, p)) && Aside(w, DeletePod(w, p))
  {
    hide MarkDeleted, RebootPodReady, Live, Good, Justified, OnceOnly, NothingAfterHalt, Advances, Pledge;
    hide Plausible, Genuine, BootsFine, Spare;
    var v := DeletePod(w, p);
    MarkDeletedFrame(w.pods, p);
    assert forall n, j :: Created(v, n, j) == Created(w, n, j);
    if spec.reboot && v.undisturbed { DeletePodPledge(spec, w, p); }
    hide Inv;
    FrameInv(spec, w, v);
  }

  lemma MarkDeletedFrame(pods: map<string, RebootPod>, p: string)
    ensures MarkDeleted(pods, p).Keys == pods.Keys
    ensures forall q | q in pods ::
              && MarkDeleted(pods, p)[q].node == pods[q].node
              && MarkDeleted(pods, p)[q].jobName == pods[q].jobName
              && RebootPodReady(MarkDeleted(pods, p)[q]) == RebootPodReady(pods[q])
              && SightingOf(MarkDeleted(pods, p)[q]) == SightingOf(pods[q])
  {
  }

  lemma DeletePodPledge(spec: Spec, w: World, p: string)
    requires w.history != [] && Pledge(w) && Spare(spec, w, p) && spec.reboot && w.undisturbed
    ensures Pledge(DeletePod(w, p))
  {
    var v := DeletePod(w, p);
    forall n, j | Created(v, n, j) ensures Recorded(Current(v), n) || Underway(v, n, j) {
      assert Created(w, n, j);
      if !Recorded(Current(w), n) {
        assert Underway(w, n, j);
        assert forall q :: LiveOn(v, n, q) ==> LiveOn(w, n, q);
        if LiveOn(w, n, p) {
          var q :| q != p && LiveOn(w, n, q);
          assert LiveOn(v, n, q);
        } else {
          var q :| LiveOn(w, n, q);
          assert LiveOn(v, n, q);
        }
      }
    }
  }

  lemma CreationIsAllowed(spec: Spec, w: World, e: Event)
    requires !w.halted && (e.RebootPodCreated? || e.PreflightPodCreated?)
    ensures Allowed(spec, w, e)
  {
  }

  /** A reboot Pod is only created when the node has none that is live. */
  lemma AddRebootPodKeepsInv(spec: Spec, w: World, p: string, n: string, j: string, created: nat)
    requires Inv(spec, w) && !w.halted
    requires p !in w.pods && j in w.drawn && w.drawn[j] == n && !HasLive(w, n)
    ensures Inv(spec, AddRebootPod(w, p, n, j, created)) && Aside(w, AddRebootPod(w, p, n, j, created))
  {
    hide Good, Justified, OnceOnly, NothingAfterHalt, Advances, Pledge, Plausible, Genuine, BootsFine, Allowed;
    hide HasLive, Aside;
    var u, e := Log(w, RebootPodCreated(n, j)), RebootPodCreated(n, j);
    CreationIsAllowed(spec, w, e);
    LogKeepsInv(spec, w, e);
    LogKeepsLive(w, e, n);
    PodAddedKeepsInv(spec, u, p, RebootPod(n, j, created, PodPending, false, [], NotReported));
    hide Inv;
    assert AddRebootPod(w, p, n, j, created) == PodAdded(u, p, RebootPod(n, j, created, PodPending, false, [], NotReported));
    AsideTrans(w, u, AddRebootPod(w, p, n, j, created));
  }

  lemma LogKeepsLive(w: World, e: Event, n: string)
    ensures HasLive(Log(w, e), n) ==> HasLive(w, n)
  {
    assert forall p :: LiveOn(Log(w, e), n, p) <==> LiveOn(w, n, p);
  }

  lemma AsideTrans(u: World, v: World, w: World)
    requires Aside(u, v) && Aside(v, w)
    ensures Aside(u, w)
  {
    forall n, j ensures Created(w, n, j) <==> Created(u, n, j) {
      assert Created(v, n, j) <==> Created(u, n, j);
    }
  }

  function PodAdded(w: World, p: string, pod: RebootPod): World {
    w.(pods := w.pods[p := pod], announced := w.announced + {(pod.node, pod.jobName)})
  }

  lemma PodAddedKeepsInv(spec: Spec, w: World, p: string, pod: RebootPod)
    requires Inv(spec, w) && p !in w.pods && !RebootPodReady(pod) && !HasLive(w, pod.node)
    requires pod.jobName in w.drawn && w.drawn[pod.jobName] == pod.node
    ensures Inv(spec, PodAdded(w, p, pod)) && Aside(w, PodAdded(w, p, pod))
  {
    hide Good, Justified, OnceOnly, NothingAfterHalt, Advances, Pledge, Plausible, Genuine, BootsFine, RebootPodReady, HasLive;
    var v := PodAdded(w, p, pod);
    assert forall n, j :: Created(v, n, j) == Created(w, n, j);
    if spec.reboot && v.undisturbed { AddRebootPodPledge(w, p, pod); }
    FrameInv(spec, w, v);
  }

  lemma AddRebootPodPledge(w: World, p: string, pod: RebootPod)
    requires w.history != [] && Pledge(w) && p !in w.pods && !HasLive(w, pod.node)
    ensures Pledge(PodAdded(w, p, pod))
  {
    var v, n := PodAdded(w, p, pod), pod.node;
    forall m, h | Created(v, m, h) ensures Recorded(Current(v), m) || Underway(v, m, h) {
      assert Created(w, m, h);
      if !Recorded(Current(w), m) {
        var q :| LiveOn(w, m, q);
        assert m != n;
        assert LiveOn(v, m, q);
        assert forall q :: LiveOn(v, m, q) ==> LiveOn(w, m, q);
      }
    }
  }

  /** When the status may be replaced by `s`. */
  lemma WriteStatusKeepsInv(spec: Spec, w: World, s: Statuses)
    requires Inv(spec, w) && Good(spec, w, s) && Advances(Current(w), s)
    ensures Inv(spec, WriteStatus(w, s)) && Aside(w, WriteStatus(w, s))
  {
    hide Good, Justified, Pledge, OnceOnly, NothingAfterHalt, Advances;
    var v := WriteStatus(w, s);
    assert forall n, j :: Created(v, n, j) == Created(w, n, j);
    PhysicalFrame(w, v);
    forall i | 0 <= i < |v.history| ensures Good(spec, v, v.history[i]) {
      GoodAside(spec, w, v, if i < |w.history| then w.history[i] else s);
    }
    WriteStatusAdvances(w, s);
    if spec.reboot && v.undisturbed { WriteStatusPledge(w, s); }
    JustifiedFrame(spec, w, v);
  }

  lemma WriteStatusAdvances(w: World, s: Statuses)
    requires w.history != [] && Advances(Current(w), s)
    requires forall u, v | 0 <= u <= v < |w.history| :: Advances(w.history[u], w.history[v])
    ensures var h := w.history + [s]; forall u, v | 0 <= u <= v < |h| :: Advances(h[u], h[v])
    ensures HasFailed(Current(w)) ==> HasFailed(s)
  {
    var h := w.history + [s];
    forall u, v | 0 <= u <= v < |h| ensures Advances(h[u], h[v]) {
      if v == |w.history| && u < v {
        AdvancesTrans(w.history[u], Current(w), s);
      }
    }
    if HasFailed(Current(w)) {
      var n :| n in Current(w) && Current(w)[n].phase == Failed;
      assert AdvancesAt(Current(w), s, n);
    }
  }

  lemma WriteStatusPledge(w: World, s: Statuses)
    requires w.history != [] && Advances(Current(w), s) && Pledge(w)
    ensures Pledge(WriteStatus(w, s))
  {
    var v := WriteStatus(w, s);
    forall n, j | Created(v, n, j) ensures Recorded(Current(v), n) || Underway(v, n, j) {
      assert Created(w, n, j);
      if Recorded(Current(w), n) {
        assert AdvancesAt(Current(w), s, n);
      } else {
        var p :| LiveOn(w, n, p);
        assert LiveOn(v, n, p);
        assert forall q :: LiveOn(v, n, q) ==> LiveOn(w, n, q);
      }
    }
  }

  lemma AdvancesTrans(s: Statuses, t: Statuses, u: Statuses)
    requires Advances(s, t) && Advances(t, u)
    ensures Advances(s, u)
  {
    forall n | n in s ensures AdvancesAt(s, u, n) {
      assert AdvancesAt(s, t, n);
      if n in t { assert AdvancesAt(t, u, n); }
    }
  }

  /** Job `j` may be created for node `n`. */
  ghost predicate MayCreateJob(spec: Spec, w: World, n: string, j: string)
    requires w.history != []
  {
    && !w.halted && j != "" && j in w.drawn && w.drawn[j] == n
    && !Recorded(Current(w), n)
    && (spec.reboot ==> (n, j) in w.announced && WasReady(w, n, j))
    && (spec.reboot && w.undisturbed ==> Unstarted(w, n) && LiveNamed(w, n, j))
  }

  lemma GoodAfterAddJob(spec: Spec, w: World, n: string, j: string, s: Statuses)
    requires w.history != [] && MayCreateJob(spec, w, n, j) && Good(spec, w, s) && !Recorded(s, n)
    ensures Good(spec, AddJob(w, n, j), s)
  {
    var v := AddJob(w, n, j);
    CreatedAfterLog(w, v, JobCreated(n, j));
    forall m | m in s ensures GoodEntry(spec, v, m, s[m]) {
      assert GoodEntry(spec, w, m, s[m]);
      assert forall n :: Boots(v, n) == Boots(w, n);
    }
  }

  lemma AddJobKeepsInv(spec: Spec, w: World, n: string, j: string)
    requires Inv(spec, w) && MayCreateJob(spec, w, n, j) && j !in w.jobs
    ensures Inv(spec, AddJob(w, n, j))
  {
    hide Good, GoodEntry, Justified, OnceOnly, NothingAfterHalt, Pledge, Plausible, Genuine, BootsFine, Created;
    var v := AddJob(w, n, j);
    CreatedAfterLog(w, v, JobCreated(n, j));
    PhysicalFrame(w, v);
    forall i | 0 <= i < |v.history| ensures Good(spec, v, v.history[i]) {
      assert Advances(w.history[i], Current(w));
      assert n in w.history[i] ==> AdvancesAt(w.history[i], Current(w), n);
      GoodAfterAddJob(spec, w, n, j, w.history[i]);
    }
    if spec.reboot && v.undisturbed {
      AddJobOnce(w, n, j);
      AddJobPledge(w, n, j);
    }
    AddJobTrace(spec, w, n, j);
  }

  lemma AddJobOnce(w: World, n: string, j: string)
    requires OnceOnly(w.trace) && Unstarted(w, n)
    ensures OnceOnly(w.trace + [JobCreated(n, j)])
  {
    var t := w.trace + [JobCreated(n, j)];
    forall i, k | 0 <= i < k < |t| && t[i].JobCreated? && UpgradeAct(t[k]) ensures t[i].node != t[k].node {
      assert w.trace[i] == JobCreated(w.trace[i].node, w.trace[i].job);
      assert Created(w, w.trace[i].node, w.trace[i].job);
    }
  }

  lemma AddJobPledge(w: World, n: string, j: string)
    requires w.history != [] && Pledge(w) && Unstarted(w, n) && LiveNamed(w, n, j) && HasLive(w, n)
    ensures Pledge(AddJob(w, n, j))
  {
    var v := AddJob(w, n, j);
    CreatedAfterLog(w, v, JobCreated(n, j));
    forall m, h | Created(v, m, h) ensures Recorded(Current(v), m) || Underway(v, m, h) {
      assert forall q :: LiveOn(v, m, q) <==> LiveOn(w, m, q);
      assert m != n ==> Created(w, m, h);
    }
  }

  lemma AddJobTrace(spec: Spec, w: World, n: string, j: string)
    requires Protocol(spec, w) && !w.halted
    ensures var v := AddJob(w, n, j);
            && (Halted in v.trace ==> v.halted)
            && NothingAfterHalt(v.trace)
            && (forall x | x in v.trace :: Justified(spec, v, x))
  {
    var v := AddJob(w, n, j);
    assert forall n :: Boots(v, n) == Boots(w, n);
    forall x | x in v.trace ensures Justified(spec, v, x) {
      if x in w.trace { assert Justified(spec, w, x); }
    }
  }
}
