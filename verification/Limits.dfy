/**
 * Runs that show where the one-Job guarantee ends. Each is a run of the operator's own startMainJob:
 * faultless calls, with steps of the environment between them.
 */
module Limits {
  import opened Wrappers
  import opened BootIds
  import opened NodeOpTypes
  import opened Cluster
  import opened Environment
  import opened EnvironmentLemmas
  import opened Knowledge
  import opened ApiServer
  import opened NodeActions
  import opened StatusFlow
  import opened StatusUpdate
  import opened RebootPodChoice
  import opened JobCreation

  function BecomesReady(p: string): EnvStep {
    RebootPodChanges(p, PodRunning, [true], ContainerRunning)
  }

  /** Someone writes the Node. */
  function NodeWritten(w: World, n: string): World
    requires w.history != []
  {
    Next(w, NodeObjectChanges(n, NodeObject(false, None)))
  }

  /** Someone writes the Node, and its reboot Pod becomes ready. */
  function PodReady(w: World, n: string, p: string): World
    requires w.history != []
  {
    Next(NodeWritten(w, n), BecomesReady(p))
  }

  /** Someone else writes the NodeOp, or not. */
  function Touched(w: World, touch: bool): World
    requires w.history != []
  {
    if touch then Next(w, TouchNodeOp) else w
  }

  lemma NodeWrittenFacts(spec: Spec, w: World, n: string)
    requires Inv(spec, w)
    ensures var v := NodeWritten(w, n);
            && Inv(spec, v) && Forward(w, v) && v.history == w.history && v.halted == w.halted && HasNode(v, n)
            && v.drawn == w.drawn && v.pods == w.pods && v.jobs == w.jobs
  {
    StepKeepsInv(spec, w, NodeObjectChanges(n, NodeObject(false, None)));
    hide Inv, Env;
    EnvIsPassive(w, NodeWritten(w, n));
  }

  lemma PodReadyFacts(spec: Spec, w: World, n: string, p: string)
    requires Inv(spec, w) && LiveOn(w, n, p) && forall q | LiveOn(w, n, q) :: q == p
    ensures var v := PodReady(w, n, p);
            && Inv(spec, v) && Forward(w, v) && v.history == w.history && v.halted == w.halted && HasNode(v, n)
            && v.drawn == w.drawn && v.jobs == w.jobs
            && (forall q | Oldest(v, n, q) :: q == p) && Oldest(v, n, p)
            && v.pods[p].jobName == w.pods[p].jobName && RebootPodReady(v.pods[p])
  {
    NodeWrittenFacts(spec, w, n);
    hide NodeWritten, Inv, Forward, Passive, Env, Next, Oldest, RebootPodReady, LiveOn, HasNode;
    var u, v := NodeWritten(w, n), PodReady(w, n, p);
    StepKeepsInv(spec, u, BecomesReady(p));
    EnvIsPassive(u, v);
    PassiveIsForward(u, v);
    ForwardTrans(w, u, v);
    SameLive(w, u, n, p);
    ReadyStep(u, n, p);
  }

  lemma SameLive(w: World, u: World, n: string, p: string)
    requires u.pods == w.pods && LiveOn(w, n, p) && forall q | LiveOn(w, n, q) :: q == p
    ensures p in u.pods && LiveOn(u, n, p) && forall q | LiveOn(u, n, q) :: q == p
  {
    assert forall q :: LiveOn(u, n, q) ==> LiveOn(w, n, q);
  }

  lemma ReadyStep(w: World, n: string, p: string)
    requires w.history != [] && LiveOn(w, n, p) && forall q | LiveOn(w, n, q) :: q == p
    ensures var v := Next(w, BecomesReady(p));
            && v.history == w.history && v.halted == w.halted && HasNode(v, n) == HasNode(w, n)
            && v.drawn == w.drawn && v.jobs == w.jobs
            && (forall q | Oldest(v, n, q) :: q == p) && Oldest(v, n, p)
            && v.pods[p].jobName == w.pods[p].jobName && RebootPodReady(v.pods[p])
  {
    var v := Next(w, BecomesReady(p));
    assert v.pods == w.pods[p := w.pods[p].(phase := PodRunning, readyConditions := [true], container := ContainerRunning)];
    assert LiveOn(v, n, p) && forall q :: LiveOn(v, n, q) ==> LiveOn(w, n, q);
  }

  lemma TouchedFacts(spec: Spec, w: World, touch: bool)
    requires Inv(spec, w)
    ensures var v := Touched(w, touch);
            && Inv(spec, v) && Forward(w, v) && v == w.(history := v.history) && Current(v) == Current(w)
            && (touch ==> Version(v) == Version(w) + 1) && (!touch ==> v == w)
            && w.history <= v.history
  {
    if touch { StepKeepsInv(spec, w, TouchNodeOp); }
    hide Inv;
    if touch { EnvIsPassive(w, Touched(w, touch)); } else { ForwardRefl(w); }
  }

  /** An entry that waits for a reboot Pod has its slot already. */
  lemma WaitingHasRoom(spec: Spec, w: World, n: string)
    requires Inv(spec, w) && n in Current(w) && AwaitingRebootPod(Current(w)[n])
    ensures Room(spec, Current(w), n) && !Recorded(Current(w), n)
  {
    assert Good(spec, w, w.history[|w.history| - 1]);
  }

  /** startMainJob on the NodeOp's present version, or on one that someone else has written over meanwhile. */
  method StartOn(spec: Spec, start: World, n: string, outdated: bool) returns (w: World, ghost u: World)
    requires Inv(spec, start) && !start.halted && CanStart(spec, start, n)
    requires !Recorded(Current(start), n) && Room(spec, Current(start), n)
    ensures u == Touched(start, outdated) && CanStart(spec, u, n)
    ensures Inv(spec, w) && Forward(start, w) && !w.halted && u.history != [] && w.history != []
    ensures StartEffects(spec, u, w, n, !outdated)
    ensures outdated ==> !Recorded(Current(w), n) && Room(spec, Current(w), n)
    ensures spec.reboot && !HasLive(start, n) ==> !Recorded(Current(w), n) && Room(spec, Current(w), n)
    ensures !spec.reboot && !outdated ==> Recorded(Current(w), n)
  {
    hide Inv, Good, Forward, Advances, Room, CanStart, StartEffects, HasLive, Touched, Recorded;
    var before := new Api(spec, true, start);
    var got := before.GetNodeOp();
    var op := got.value.value;
    TouchedFacts(spec, start, outdated);
    SameStart(spec, start, Touched(start, outdated), n);
    var api := new Api(spec, true, Touched(start, outdated));
    u := api.w;
    StartOver(spec, u, op);
    ghost var s := op.statuses;
    var ok := StartMainJob(api, op, n);
    w := api.w;
    ForwardTrans(start, u, w);
    AfterStart(spec, start, u, w, s, op.statuses, n, outdated, ok);
  }

  lemma SameStart(spec: Spec, u: World, v: World, n: string)
    requires v == u.(history := v.history)
    ensures CanStart(spec, v, n) <==> CanStart(spec, u, n)
    ensures HasLive(v, n) <==> HasLive(u, n)
  {
    assert forall p :: LiveOn(v, n, p) <==> LiveOn(u, n, p);
    assert forall p :: Oldest(v, n, p) <==> Oldest(u, n, p);
  }

  lemma AfterStart(spec: Spec, start: World, u: World, w: World, s: Statuses, t: Statuses, n: string,
                   outdated: bool, ok: bool)
    requires Inv(spec, w) && u.history != [] && s == Current(u) && Moved(u, w, t)
    requires !Recorded(s, n) && Room(spec, s, n) && StartEffects(spec, u, w, n, !outdated)
    requires !outdated ==> ok && (t == s || Current(w) == t)
    requires ok ==> StartedFrom(spec, u, t, n)
    requires HasLive(start, n) <==> HasLive(u, n)
    ensures outdated ==> !Recorded(Current(w), n) && Room(spec, Current(w), n)
    ensures spec.reboot && !HasLive(start, n) ==> !Recorded(Current(w), n) && Room(spec, Current(w), n)
    ensures !spec.reboot && !outdated ==> Recorded(Current(w), n)
  {
    hide Forward, HasLive, Room;
    if outdated {
      assert w.history == u.history;
    } else if spec.reboot && !HasLive(start, n) && Current(w) == t {
      hide Inv;
      WaitingHasRoom(spec, w, n);
    }
  }

  /**
   * A node without a live reboot Pod, whatever Jobs it had: startMainJob makes a Pod, and once that is ready a
   * new Job. If someone else writes the NodeOp in between, the Job is created but stays unrecorded.
   */
  method StartAnew(spec: Spec, start: World, n: string, outdated: bool) returns (w: World, j: string, p: string)
    requires Inv(spec, start) && spec.reboot && !start.halted
    requires !Recorded(Current(start), n) && Room(spec, Current(start), n) && !HasLive(start, n)
    ensures Inv(spec, w) && Forward(start, w) && !w.halted
    ensures j !in start.drawn && Created(w, n, j)
    ensures forall h | Created(start, n, h) :: h != j && Created(w, n, h)
    ensures forall q | LiveOn(w, n, q) :: q == p
    ensures outdated ==> !Recorded(Current(w), n) && Room(spec, Current(w), n)
  {
    hide Inv, Forward, Room, CanStart, StartEffects, PodReady, Touched, Oldest, Created, Recorded;
    NoneBlocks(spec, start, n);
    ghost var t;
    w, t := StartOn(spec, start, n, false);
    ghost var u := w;
    TouchedFacts(spec, start, false);
    NewPodThere(spec, start, u, n);
    p :| p in w.pods && LiveOn(w, n, p);
    j := w.pods[p].jobName;
    PodReadyFacts(spec, u, n, p);
    ghost var v := PodReady(u, n, p);
    ReadyPodStarts(spec, v, n, p);
    w, t := StartOn(spec, PodReady(w, n, p), n, outdated);
    PodStarts(spec, v, t, w, n, p, outdated);
    ForwardTrans(start, u, v);
    ForwardTrans(start, v, w);
    EarlierJobs(spec, start, w, n, j);
  }

  lemma NoneBlocks(spec: Spec, w: World, n: string)
    requires spec.reboot && !HasLive(w, n)
    ensures CanStart(spec, w, n)
  {
  }

  lemma NewPodThere(spec: Spec, u: World, v: World, n: string)
    requires spec.reboot && !HasLive(u, n) && u.history != [] && StartEffects(spec, u, v, n, true) && CanStart(spec, u, n)
    ensures exists p :: p in v.pods && LiveOn(v, n, p)
    ensures forall p | LiveOn(v, n, p) :: NewLive(u, v, n, p)
  {
    var p :| NewLive(u, v, n, p);
    assert p in v.pods && LiveOn(v, n, p);
  }

  lemma ReadyPodStarts(spec: Spec, w: World, n: string, p: string)
    requires spec.reboot && HasNode(w, n) && Oldest(w, n, p) && (forall q | Oldest(w, n, q) :: q == p)
    requires w.pods[p].jobName != "" && w.pods[p].jobName !in w.jobs
    ensures CanStart(spec, w, n)
  {
  }

  lemma PodStarts(spec: Spec, u: World, t: World, w: World, n: string, p: string, outdated: bool)
    requires Inv(spec, u) && spec.reboot && t == Touched(u, outdated)
    requires Oldest(u, n, p) && RebootPodReady(u.pods[p])
    requires StartEffects(spec, t, w, n, !outdated) && CanStart(spec, t, n)
    ensures Created(w, n, u.pods[p].jobName) && forall q | LiveOn(w, n, q) :: q == p
  {
    TouchedFacts(spec, u, outdated);
    hide Inv;
    assert Oldest(t, n, p);
  }

  lemma EarlierJobs(spec: Spec, u: World, v: World, n: string, j: string)
    requires Inv(spec, u) && Forward(u, v) && j !in u.drawn
    ensures forall h | Created(u, n, h) :: h != j && Created(v, n, h)
  {
  }

  lemma CreatedStays(u: World, v: World, n: string, j: string)
    requires Forward(u, v) && Created(u, n, j)
    ensures Created(v, n, j)
  {
  }

  /** In reboot mode: the Job's name is lost with its reboot Pod before it is recorded, and the node gets a second Job. */
  method JobMadeTwice(spec: Spec, start: World, n: string) returns (w: World, j: string, h: string)
    requires Initial(spec, start) && spec.reboot && !HasLive(start, n)
    ensures Inv(spec, w) && Forward(start, w) && !w.undisturbed
    ensures j != h && Created(w, n, j) && Created(w, n, h)
  {
    hide Inv, Forward, Created, Recorded;
    InitialInv(spec, start);
    InitialRoom(spec, start, n);
    var p, last;
    w, j, p := StartAnew(spec, start, n, true);
    ghost var u := w;
    PodLost(spec, u, n, p);
    StillThere(spec, u);
    w := Next(w, RebootPodGone(p));
    ghost var v := w;
    w, h, last := StartAnew(spec, w, n, false);
    ForwardTrans(start, u, v);
    ForwardTrans(start, v, w);
    if w.undisturbed { CreatedIsUnique(spec, w, n, j, h); }
  }

  lemma InitialRoom(spec: Spec, w: World, n: string)
    requires Initial(spec, w)
    ensures Room(spec, Current(w), n) && !Recorded(Current(w), n) && !w.halted
  {
    assert BusyNodes(map[]) == {};
  }

  lemma PodLost(spec: Spec, w: World, n: string, p: string)
    requires Inv(spec, w) && forall q | LiveOn(w, n, q) :: q == p
    ensures var v := Next(w, RebootPodGone(p));
            && Inv(spec, v) && Forward(w, v) && v.history == w.history && v.halted == w.halted && !HasLive(v, n)
            && forall j :: Created(w, n, j) ==> Created(v, n, j)
  {
    StillThere(spec, w);
    hide Inv, Next, Env, Passive, Forward, LiveOn, HasLive;
    var v := Next(w, RebootPodGone(p));
    StepKeepsInv(spec, w, RebootPodGone(p));
    EnvIsPassive(w, v);
    PassiveIsForward(w, v);
    GoneStep(w, n, p);
  }

  lemma GoneStep(w: World, n: string, p: string)
    requires w.history != [] && forall q | LiveOn(w, n, q) :: q == p
    ensures var v := Next(w, RebootPodGone(p));
            && v.history == w.history && v.halted == w.halted && v.trace == w.trace && !HasLive(v, n)
  {
    var v := Next(w, RebootPodGone(p));
    assert forall q :: LiveOn(v, n, q) ==> LiveOn(w, n, q) && q != p;
  }

  /**
   * Without RebootOnSuccess nothing leads back to a Job that is not recorded: on a node without a recorded Job
   * startMainJob always creates exactly one more, and records it exactly when no one else has written the NodeOp.
   */
  method OneMoreWithoutReboot(spec: Spec, start: World, n: string, outdated: bool) returns (w: World, ghost j: string)
    requires Inv(spec, start) && !spec.reboot && !start.halted && HasNode(start, n)
    requires !Recorded(Current(start), n) && Room(spec, Current(start), n)
    ensures Inv(spec, w) && Forward(start, w) && !w.halted
    ensures j !in start.drawn && !Created(start, n, j) && OneMoreJob(start, w, n, j)
    ensures Recorded(Current(w), n) <==> !outdated
    ensures outdated ==> Room(spec, Current(w), n)
  {
    hide Inv, Forward, Created, Recorded, CanStart, StartEffects, Touched, Room;
    NodeIsEnough(spec, start, n);
    ghost var t;
    w, t := StartOn(spec, start, n, outdated);
    TouchedFacts(spec, start, outdated);
    j := NewJobThere(spec, t, w, n, !outdated);
    SameJobs(spec, start, t, w, n, j);
  }

  lemma SameJobs(spec: Spec, u: World, v: World, w: World, n: string, j: string)
    requires Inv(spec, u) && v == u.(history := v.history) && j !in v.drawn && OneMoreJob(v, w, n, j)
    ensures j !in u.drawn && !Created(u, n, j) && OneMoreJob(u, w, n, j)
  {
    assert forall h :: Created(v, n, h) <==> Created(u, n, h);
  }

  /** From a new NodeOp: a refused status write, and the next pass makes a second Job. */
  method JobMadeTwiceWithoutReboot(spec: Spec, start: World, n: string) returns (w: World, ghost j: string, ghost h: string)
    requires Initial(spec, start) && !spec.reboot && HasNode(start, n)
    ensures Inv(spec, w) && Forward(start, w)
    ensures j != h && Created(w, n, j) && Created(w, n, h)
  {
    hide Inv, Forward, Created, Recorded, Room, NodeWritten;
    InitialInv(spec, start);
    InitialRoom(spec, start, n);
    w, j := OneMoreWithoutReboot(spec, start, n, true);
    ghost var u := w;
    StillThere(spec, u);
    NodeWrittenFacts(spec, u, n);
    ghost var v := NodeWritten(u, n);
    w, h := OneMoreWithoutReboot(spec, NodeWritten(w, n), n, false);
    ForwardTrans(start, u, v);
    ForwardTrans(start, v, w);
    CreatedStays(u, v, n, j);
    CreatedStays(v, w, n, j);
  }

  lemma NodeIsEnough(spec: Spec, w: World, n: string)
    requires !spec.reboot && HasNode(w, n)
    ensures CanStart(spec, w, n)
  {
  }

  lemma NewJobThere(spec: Spec, u: World, v: World, n: string, current: bool) returns (j: string)
    requires !spec.reboot && u.history != [] && StartEffects(spec, u, v, n, current) && CanStart(spec, u, n)
    ensures j !in u.drawn && OneMoreJob(u, v, n, j)
  {
    j :| j !in u.drawn && OneMoreJob(u, v, n, j);
  }

  /** An entry whose Job is gone turns Failed, even when its node had finished. */
  lemma DeletedJobFails(spec: Spec, w: World, n: string, e: NodeStatus)
    requires !LeftAlone(e)
    ensures Refresh(spec, w, n, e).phase == Failed <==> Dead(w, e.jobName)
  {
    hide FromJobPods, RebootedSince, ViewOf, PodsOf;
  }
}
