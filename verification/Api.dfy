/**
 * The API server as the operator meets it. Before each call reaches the server the
 * environment may take any number of steps; the call may be lost, or carried out with its
 * reply lost, and a write of a versioned object is refused unless it names the current
 * version. An operator restart is a run in which every remaining call of the pass fails.
 * A `quiet` server has no faults and no interference.
 */
module ApiServer {
  import opened Wrappers
  import opened BootIds
  import opened NodeOpTypes
  import opened Cluster
  import opened Environment
  import opened EnvironmentLemmas
  import opened OperatorWrites
  import opened Knowledge

  /** The operator's copy of the NodeOp: the statuses it works on and the version they came from. */
  class NodeOp {
    var statuses: Statuses
    var version: nat
    var phase: OverallPhase

    constructor (statuses: Statuses, version: nat)
      ensures this.statuses == statuses && this.version == version && phase == OverallRunning
    {
      this.statuses := statuses;
      this.version := version;
      phase := OverallRunning;
    }
  }

  datatype CreateOutcome = CreatedOk | AlreadyExists | CreateFailed

  datatype NodeAct = Cordon | Uncordon(cause: Cause) | ClearAnnotation

  function ActEvent(w: World, n: string, act: NodeAct): Option<Event> {
    match act
    case Cordon => Some(Cordoned(n))
    case Uncordon(c) => Some(Uncordoned(n, c, |Boots(w, n)|))
    case ClearAnnotation => None
  }

  /** When a Node may be written to cordon or uncordon it. */
  ghost predicate MayAct(spec: Spec, w: World, n: string, act: NodeAct) {
    && (act.Cordon? && spec.reboot && w.undisturbed ==> Unstarted(w, n))
    && (act.Uncordon? && act.cause.AfterSuccess? && spec.reboot ==>
          RebootProven(w, n, act.cause.job, act.cause.bootId))
  }

  /** A copy of the statuses that no later version contradicts. */
  ghost predicate Holds(spec: Spec, w: World, op: NodeOp)
    reads op
  {
    && Good(spec, w, op.statuses)
    && op.version < |w.history| && Advances(w.history[op.version], op.statuses)
  }

  /** A reboot Pod as it was when it was listed. */
  datatype ListedPod = ListedPod(name: string, pod: RebootPod)

  /** The reboot Pods of a node, each once, in any order. */
  ghost predicate Listing(w: World, n: string, ps: seq<ListedPod>) {
    && (forall i, k | 0 <= i < k < |ps| :: ps[i].name != ps[k].name)
    && (forall x :: x in ps <==> x.name in w.pods && x.pod == w.pods[x.name] && x.pod.node == n)
  }

  ghost predicate Enumerates(s: seq<string>, keys: set<string>) {
    && (forall i, k | 0 <= i < k < |s| :: s[i] != s[k])
    && (forall x :: x in s <==> x in keys)
  }

  /** The keys of a Go map in the order a `range` happens to visit them. */
  method RangeOver(keys: set<string>) returns (order: seq<string>)
    ensures Enumerates(order, keys)
  {
    order := [];
    var rest := keys;
    while rest != {}
      invariant rest <= keys && Enumerates(order, keys - rest)
      decreases rest
    {
      var x :| x in rest;
      order := order + [x];
      rest := rest - {x};
    }
  }

  /** Any string that is none of the given ones and not empty. */
  method FreshName(used: set<string>) returns (s: string)
    ensures s != "" && s !in used
  {
    var n, rest := 0, used;
    while rest != {}
      invariant rest <= used
      invariant n >= 0 && forall x | x in used - rest :: |x| <= n
      decreases rest
    {
      var x :| x in rest;
      n := if |x| > n then |x| else n;
      rest := rest - {x};
    }
    s := *;
    if s == "" || s in used {
      s := seq(n + 1, _ => 'a');
      assert |s| > n;
    }
  }

  class Api {
    const spec: Spec
    const quiet: bool
    var w: World

    constructor (spec: Spec, quiet: bool, w: World)
      requires Inv(spec, w)
      ensures this.spec == spec && this.quiet == quiet && this.w == w
    {
      this.spec := spec;
      this.quiet := quiet;
      this.w := w;
    }

    /** Any number of environment steps. */
    method Interfere()
      requires Inv(spec, w)
      modifies this
      ensures Inv(spec, w) && Env(old(w), w)
      ensures quiet ==> w == old(w)
    {
      var steps: nat := *;
      if quiet { steps := 0; }
      EnvRefl(w);
      while steps > 0
        invariant Inv(spec, w) && Env(old(w), w)
        invariant quiet ==> w == old(w) && steps == 0
      {
        var s: EnvStep := *;
        StepKeepsInv(spec, w, s);
        EnvTrans(old(w), w, Next(w, s));
        w := Next(w, s);
        steps := steps - 1;
      }
    }

    /** Whether the network loses a request or a reply. */
    method Lost() returns (lost: bool)
      ensures quiet ==> !lost
    {
      lost := *;
      if quiet { lost := false; }
    }

    /** Reads the NodeOp from the controller's local copy, which may be any version so far; None when it is gone. */
    method GetNodeOp() returns (r: Result<Option<NodeOp>>)
      requires Inv(spec, w)
      modifies this
      ensures Inv(spec, w) && Env(old(w), w)
      ensures r.Ok? && r.value.Some? ==>
                && fresh(r.value.value) && r.value.value.version < |w.history|
                && r.value.value.statuses == w.history[r.value.value.version]
      ensures quiet ==> w == old(w) && r.Ok? && r.value.Some? && r.value.value.version == Version(w)
    {
      Interfere();
      assert w.history != [];
      var lost := Lost();
      if lost { return Err; }
      var gone := Lost();
      if gone { return Ok(None); }
      var version: int := *;
      if quiet || !(0 <= version < |w.history|) { version := |w.history| - 1; }
      var op := new NodeOp(w.history[version], version);
      r := Ok(Some(op));
    }

    /** r.Status().Update(ctx, nodeOp) */
    method UpdateStatus(op: NodeOp) returns (ok: bool)
      requires Inv(spec, w) && Holds(spec, w, op)
      modifies this, op`version
      ensures Inv(spec, w) && Holds(spec, w, op)
      ensures ok ==> Current(w) == op.statuses && op.version == Version(w)
      ensures !ok ==> op.version == old(op.version)
      ensures old(op.version) < old(Version(w)) ==> !ok && Current(w) == old(Current(w))
      ensures Current(w) == old(Current(w)) || Current(w) == op.statuses
      ensures w.halted == old(w.halted) && w.trace == old(w.trace) && Forward(old(w), w)
      ensures quiet ==> (ok <==> old(op.version) == old(Version(w)))
      ensures quiet ==> w == if ok then WriteStatus(old(w), op.statuses) else old(w)
    {
      hide Inv, Good, Env, Forward, Advances;
      Interfere();
      EnvFacts(old(w), w);
      ghost var u := w;
      EnvVersions(old(w), u);
      HoldsGrows(spec, old(w), u, op.statuses, op.version);
      ok := false;
      var lost := Lost();
      if lost || op.version != Version(w) { return; }
      StatusStep(spec, u, op.statuses);
      ForwardTrans(old(w), u, WriteStatus(u, op.statuses));
      w := WriteStatus(w, op.statuses);
      lost := Lost();
      if lost { return; }
      op.version := |w.history| - 1;
      ok := true;
    }

    /** Reads a Job. Job reads are current. */
    method GetJob(j: string) returns (r: Result<Option<Job>>)
      requires Inv(spec, w)
      modifies this
      ensures Inv(spec, w) && Env(old(w), w)
      ensures r.Ok? ==> r.value == LookUp(w.jobs, j)
      ensures quiet ==> r.Ok? && w == old(w)
    {
      Interfere();
      var lost := Lost();
      r := if lost then Err else Ok(LookUp(w.jobs, j));
    }

    /** r.Create(ctx, job); `s` is a copy of the statuses that stays good. */
    method CreateJob(n: string, j: string, ghost s: Statuses) returns (r: CreateOutcome)
      requires Inv(spec, w) && MayCreateJob(spec, w, n, j)
      requires Good(spec, w, s) && !Recorded(s, n)
      modifies this
      ensures Inv(spec, w) && Good(spec, w, s)
      ensures Current(w) == old(Current(w)) && w.halted == old(w.halted) && Forward(old(w), w)
      ensures PodsShrink(old(w), w)
      ensures r == CreatedOk ==> OurJob(w, j) && Created(w, n, j)
      ensures quiet ==> if j in old(w.jobs) then r == AlreadyExists && w == old(w)
                        else r == CreatedOk && w == AddJob(old(w), n, j)
    {
      hide Inv, Good, Env, Forward, PodsShrink, MayCreateJob, Recorded;
      Interfere();
      EnvFacts(old(w), w);
      GoodGrows(spec, old(w), w, s);
      var lost := Lost();
      if lost { return CreateFailed; }
      if j in w.jobs { return AlreadyExists; }
      JobStep(spec, old(w), w, n, j, s);
      w := AddJob(w, n, j);
      lost := Lost();
      r := if lost then CreateFailed else CreatedOk;
    }

    /** rand.String in newJobName: a name that was never used. */
    method DrawJobName(n: string) returns (j: string)
      requires Inv(spec, w)
      modifies this
      ensures Inv(spec, w) && Passive(old(w), w)
      ensures j != "" && j !in old(w.drawn) && j !in old(w.jobNames)
      ensures w == HandOut(old(w), n, j)
    {
      j := FreshName(w.drawn.Keys + w.jobNames);
      HandOutKeepsInv(spec, w, n, j);
      w := HandOut(w, n, j);
      assert forall n, j :: Created(w, n, j) == old(Created(w, n, j));
    }

    /** Lists the node's reboot Pods, read directly from the API server. */
    method ListRebootPods(n: string) returns (r: Result<seq<ListedPod>>)
      requires Inv(spec, w)
      modifies this
      ensures Inv(spec, w) && Env(old(w), w)
      ensures r.Ok? ==> Listing(w, n, r.value)
      ensures quiet ==> r.Ok? && w == old(w)
    {
      hide Inv, Env;
      Interfere();
      var order := RangeOver(set p | p in w.pods && w.pods[p].node == n);
      var items := ItemsOf(w.pods, order);
      ItemsListed(w, n, order);
      var lost := Lost();
      r := if lost then Err else Ok(items);
    }

    /** The same from the controller's local copy, which can lag behind: any Pods may be in it. */
    method ListRebootPodsCached(n: string) returns (r: Result<seq<ListedPod>>)
      requires Inv(spec, w)
      modifies this
      ensures Inv(spec, w) && Env(old(w), w)
      ensures r.Ok? ==> forall x | x in r.value && x.name in w.pods :: w.pods[x.name].node == n
      ensures quiet ==> r.Ok? && Listing(w, n, r.value) && w == old(w)
    {
      r := ListRebootPods(n);
      if r.Ok? && !quiet {
        var stale: seq<ListedPod> := *;
        if forall x | x in stale && x.name in w.pods :: w.pods[x.name].node == n {
          r := Ok(stale);
        }
      }
    }

    /** Creates a reboot Pod for a node that has no live one. */
    method CreateRebootPod(n: string, j: string, ghost s: Statuses) returns (r: Option<ListedPod>)
      requires Inv(spec, w) && !w.halted && Good(spec, w, s)
      requires j in w.drawn && w.drawn[j] == n && !HasLive(w, n)
      modifies this
      ensures Inv(spec, w) && Good(spec, w, s)
      ensures Current(w) == old(Current(w)) && w.halted == old(w.halted) && Forward(old(w), w)
      ensures r.Some? ==>
                && r.value.name in w.pods && r.value.name !in old(w.pods)
                && r.value.pod == w.pods[r.value.name]
                && r.value.pod == RebootPod(n, j, r.value.pod.created, PodPending, false, [], NotReported)
                && (n, j) in w.announced
                && forall q | LiveOn(w, n, q) :: q == r.value.name
      ensures quiet ==> r.Some? && w == AddRebootPod(old(w), r.value.name, n, j, r.value.pod.created)
    {
      hide Inv, Good;
      var names := w.pods.Keys;
      Interfere();
      EnvCurrent(old(w), w);
      GoodGrows(spec, old(w), w, s);
      var lost := Lost();
      if lost { return None; }
      var p := FreshName(w.pods.Keys + names);
      var created: nat := *;
      RebootPodStep(spec, old(w), w, p, n, j, created, s);
      w := AddRebootPod(w, p, n, j, created);
      lost := Lost();
      r := if lost then None else Some(ListedPod(p, w.pods[p]));
    }

    /** Deletes a reboot Pod; one that is already gone is not an error. `keep` is the one left alone. */
    method DeleteRebootPod(n: string, p: string, ghost keep: string) returns (ok: bool)
      requires Inv(spec, w) && SafeWithout(spec, w, n, keep)
      requires p != keep && (p in w.pods ==> w.pods[p].node == n)
      modifies this
      ensures Inv(spec, w) && Passive(old(w), w) && SafeWithout(spec, w, n, keep)
      ensures ok ==> !LiveOn(w, n, p)
      ensures quiet ==> ok && w == DeletePod(old(w), p)
    {
      Interfere();
      EnvKeepsSafe(spec, old(w), w, n, keep);
      var lost := Lost();
      if lost {
        EnvIsPassive(old(w), w);
        return false;
      }
      DeleteStep(spec, old(w), w, n, p, keep);
      w := DeletePod(w, p);
      lost := Lost();
      ok := !lost;
    }

    /** Reads a Node, possibly an old version of it. */
    method GetNode(n: string) returns (r: Result<(nat, NodeObject)>)
      requires Inv(spec, w)
      modifies this
      ensures Inv(spec, w) && Env(old(w), w)
      ensures r.Ok? ==> n in w.nodes && r.value.0 < |w.nodes[n]| && w.nodes[n][r.value.0] == r.value.1
      ensures quiet ==> w == old(w) && (r.Ok? <==> n in w.nodes) && (r.Ok? ==> r.value.0 == |w.nodes[n]| - 1)
    {
      Interfere();
      var lost := Lost();
      if lost || n !in w.nodes { return Err; }
      assert w.nodes[n] != [];
      var v: nat := *;
      if quiet || !(0 <= v < |w.nodes[n]|) { v := |w.nodes[n]| - 1; }
      r := Ok((v, w.nodes[n][v]));
    }

    /** r.Update(ctx, node): refused unless `version` is the Node's current one. */
    method UpdateNode(n: string, version: nat, o: NodeObject, act: NodeAct) returns (ok: bool)
      requires Inv(spec, w) && MayAct(spec, w, n, act)
      modifies this
      ensures Inv(spec, w) && Passive(old(w), w)
      ensures version < |old(NodeVersions(w, n))| - 1 ==> !ok && w.trace == old(w.trace)
      ensures ok ==> n in w.nodes && |w.nodes[n]| == version + 2 && w.nodes[n][version + 1] == o
      ensures quiet ==> (ok <==> n in old(w.nodes) && version == |old(w.nodes)[n]| - 1)
      ensures quiet ==> w == if ok then WriteNode(old(w), n, o, ActEvent(old(w), n, act)) else old(w)
    {
      hide Inv, MayAct;
      Interfere();
      var lost := Lost();
      if lost || n !in w.nodes || version != |w.nodes[n]| - 1 {
        EnvIsPassive(old(w), w);
        return false;
      }
      EnvKeepsAct(spec, old(w), w, n, act);
      var e := ActEvent(w, n, act);
      if e.Some? { ActIsAllowed(spec, w, n, act); }
      WriteNodeKeepsInv(spec, w, n, o, e);
      EnvThenAside(spec, old(w), w, WriteNode(w, n, o, e));
      w := WriteNode(w, n, o, e);
      lost := Lost();
      ok := !lost;
    }

    /** The Node's boot ID and readiness; a cached read may be old, but not older than a report. */
    method GetNodeView(n: string) returns (r: Result<NodeView>)
      requires Inv(spec, w)
      modifies this
      ensures Inv(spec, w) && Env(old(w), w)
      ensures r.Ok? ==> Plausible(w, n, r.value)
      ensures quiet ==> w == old(w) && r == Ok(if n in w.views then w.views[n] else NodeView("", false))
    {
      Interfere();
      var lost := Lost();
      if lost { return Err; }
      var old_: NodeView := *;
      var v := if n in w.views then w.views[n] else NodeView("", false);
      if !quiet && Plausible(w, n, old_) { v := old_; }
      r := Ok(v);
    }

    /** Lists the Pods of an upgrade Job, each as it was at some moment. */
    method ListUpgradePods(j: string) returns (r: Result<seq<UpgradePod>>)
      requires Inv(spec, w)
      modifies this
      ensures Inv(spec, w) && Env(old(w), w)
      ensures r.Ok? ==> forall p | p in r.value :: Genuine(w, j, p) && (j, p) in w.podsSeen
      ensures quiet ==> w == old(w) && r == Ok(if j in w.jobPods then w.jobPods[j] else [])
    {
      Interfere();
      var lost := Lost();
      if lost { return Err; }
      var ps := if j in w.jobPods then w.jobPods[j] else [];
      var stale: seq<UpgradePod> := *;
      if !quiet && forall p | p in stale :: (j, p) in w.podsSeen {
        ps := stale;
      } else {
        assert forall p | p in ps :: (j, p) in w.podsSeen;
      }
      forall p | p in ps ensures Genuine(w, j, p) && (j, p) in w.podsSeen {
        assert (j, p) in w.podsSeen;
      }
      r := Ok(ps);
    }

    /** The first preflight Pod listed for the node. */
    method FindPreflightPod(n: string) returns (r: Result<Option<PreflightPod>>)
      requires Inv(spec, w)
      modifies this
      ensures Inv(spec, w) && Env(old(w), w)
      ensures quiet ==> w == old(w) && r == Ok(FirstPreflight(w, n))
    {
      Interfere();
      var lost := Lost();
      if lost { return Err; }
      var stale: Option<PreflightPod> := *;
      r := Ok(if quiet then FirstPreflight(w, n) else stale);
    }

    method CreatePreflightPod(n: string) returns (ok: bool)
      requires Inv(spec, w) && !w.halted
      modifies this
      ensures Inv(spec, w) && Passive(old(w), w)
      ensures quiet ==> ok && w == AddPreflight(old(w), n)
    {
      Interfere();
      var lost := Lost();
      if lost {
        EnvIsPassive(old(w), w);
        return false;
      }
      AddPreflightKeepsInv(spec, w, n);
      EnvThenAside(spec, old(w), w, AddPreflight(w, n));
      w := AddPreflight(w, n);
      lost := Lost();
      ok := !lost;
    }

    /** Best effort: nothing depends on whether it works. */
    method DeletePreflightPod(n: string)
      requires Inv(spec, w)
      modifies this
      ensures Inv(spec, w) && Env(old(w), w)
      ensures quiet ==> w == old(w).(preflights := w.preflights) && PreflightsBeside(old(w), w, n)
      ensures quiet ==> PreflightPods(w, n) == AfterFirst(PreflightPods(old(w), n))
    {
      hide Inv, Env, Next;
      Interfere();
      var lost := Lost();
      if lost { return; }
      var rest := if n in w.preflights && w.preflights[n] != [] then w.preflights[n][1..] else [];
      ghost var step := PreflightPodsChange(n, rest);
      StepKeepsInv(spec, w, step);
      JobsAreNamed(spec, old(w));
      EnvTrans(old(w), w, Next(w, step));
      DropPreflightIsStep(w, n, rest);
      w := w.(preflights := w.preflights[n := rest]);
    }

    /** Lists the cluster's Nodes: any distinct Nodes, in any order. */
    method ListNodes() returns (r: Result<seq<NodeInfo>>)
      requires Inv(spec, w)
      modifies this
      ensures Inv(spec, w) && Env(old(w), w)
      ensures r.Ok? ==> DistinctNames(r.value)
      ensures quiet ==> r.Ok? && w == old(w)
    {
      Interfere();
      var lost := Lost();
      var nodes: seq<NodeInfo> := *;
      if !DistinctNames(nodes) { nodes := []; }
      r := if lost then Err else Ok(nodes);
    }

    /** Lists all Pods of the cluster; reboot Pods carry the reboot label. */
    method ListAllPods() returns (r: Result<seq<PodInfo>>)
      requires Inv(spec, w)
      modifies this
      ensures Inv(spec, w) && Env(old(w), w)
      ensures r.Ok? ==> forall i | i in r.value && i.name in w.pods :: i.hasRebootLabel
      ensures quiet ==> r.Ok? && w == old(w)
    {
      Interfere();
      var lost := Lost();
      var all: seq<PodInfo> := *;
      if exists i | i in all :: i.name in w.pods && !i.hasRebootLabel { all := []; }
      r := if lost then Err else Ok(all);
    }

    /** Evicts a Pod that is not a reboot Pod. */
    method EvictPod(n: string, p: string) returns (ok: bool)
      requires Inv(spec, w) && p !in w.pods
      requires spec.reboot && w.undisturbed ==> Unstarted(w, n)
      modifies this
      ensures Inv(spec, w) && Passive(old(w), w)
      ensures quiet ==> ok && w == Log(old(w), Drained(n, p))
    {
      hide Inv, Env, Passive, Aside, Unstarted;
      Interfere();
      var lost := Lost();
      if lost {
        EnvIsPassive(old(w), w);
        return false;
      }
      DrainIsAllowed(spec, old(w), w, n, p);
      LogKeepsInv(spec, w, Drained(n, p));
      EnvThenAside(spec, old(w), w, Log(w, Drained(n, p)));
      w := Log(w, Drained(n, p));
      lost := Lost();
      ok := !lost;
    }

    /** Notes that StopOnFailure has stopped the operation. */
    method NoteHalt()
      requires Inv(spec, w) && spec.stopOnFailure && HasFailed(Current(w))
      modifies this
      ensures Inv(spec, w) && w == Halt(old(w)) && Forward(old(w), w)
      ensures forall s | old(Good(spec, w, s)) :: Good(spec, w, s)
    {
      HaltKeepsInv(spec, w);
      forall s | Good(spec, w, s) ensures Good(spec, Halt(w), s) {
        GoodAside(spec, w, Halt(w), s);
      }
      assert forall n :: Boots(Halt(w), n) == Boots(w, n);
      w := Halt(w);
    }
  }

  function ItemsOf(pods: map<string, RebootPod>, names: seq<string>): seq<ListedPod>
    requires forall p | p in names :: p in pods
  {
    seq(|names|, i requires 0 <= i < |names| => assert names[i] in names; ListedPod(names[i], pods[names[i]]))
  }

  lemma ItemsListed(w: World, n: string, order: seq<string>)
    requires Enumerates(order, set p | p in w.pods && w.pods[p].node == n)
    ensures Listing(w, n, ItemsOf(w.pods, order))
  {
    var items := ItemsOf(w.pods, order);
    forall x: ListedPod | x.name in w.pods && x.pod == w.pods[x.name] && x.pod.node == n ensures x in items {
      assert x.name in order;
      var i :| 0 <= i < |order| && order[i] == x.name;
      assert items[i] == x;
    }
  }

  /** The preflight Pods of other nodes are as they were. */
  ghost predicate PreflightsBeside(u: World, v: World, n: string) {
    forall m | m != n :: LookUp(v.preflights, m) == LookUp(u.preflights, m)
  }

  function PreflightPods(w: World, n: string): seq<PreflightPod> {
    if n in w.preflights then w.preflights[n] else []
  }

  function AfterFirst<T>(s: seq<T>): seq<T> {
    if s == [] then [] else s[1..]
  }

  function FirstPreflight(w: World, n: string): Option<PreflightPod> {
    if n in w.preflights && w.preflights[n] != [] then Some(w.preflights[n][0]) else None
  }

  function AddPreflight(w: World, n: string): World {
    Log(w, PreflightPodCreated(n)).(
      preflights := w.preflights[n := (if n in w.preflights then w.preflights[n] else []) + [PreflightPod(PodPending, "", "")]])
  }

  predicate DistinctNames(nodes: seq<NodeInfo>) {
    forall i, k | 0 <= i < k < |nodes| :: nodes[i].name != nodes[k].name
  }

  lemma HoldsGrows(spec: Spec, u: World, v: World, s: Statuses, version: nat)
    requires Env(u, v) && Good(spec, u, s)
    requires version < |u.history| && Advances(u.history[version], s)
    ensures Good(spec, v, s) && version < |v.history| && v.history[version] == u.history[version]
    ensures Current(v) == Current(u)
  {
    EnvCurrent(u, v);
    GoodGrows(spec, u, v, s);
  }

  lemma EnvVersions(u: World, v: World)
    requires Env(u, v)
    ensures |u.history| <= |v.history|
  {
  }

  lemma StatusStep(spec: Spec, w: World, s: Statuses)
    requires Inv(spec, w) && Good(spec, w, s) && Advances(Current(w), s)
    ensures Inv(spec, WriteStatus(w, s)) && Good(spec, WriteStatus(w, s), s)
    ensures Forward(w, WriteStatus(w, s)) && Advances(s, s)
  {
    WriteStatusKeepsInv(spec, w, s);
    GoodAside(spec, w, WriteStatus(w, s), s);
  }

  lemma EnvFacts(u: World, v: World)
    requires Env(u, v)
    ensures Forward(u, v) && PodsShrink(u, v) && u.history != [] && v.history != []
    ensures Current(v) == Current(u) && v.halted == u.halted && v.trace == u.trace
  {
    EnvIsPassive(u, v);
  }

  lemma JobStep(spec: Spec, u: World, v: World, n: string, j: string, s: Statuses)
    requires Inv(spec, v) && Env(u, v) && MayCreateJob(spec, u, n, j) && j !in v.jobs
    requires Good(spec, v, s) && !Recorded(s, n)
    ensures Inv(spec, AddJob(v, n, j)) && Good(spec, AddJob(v, n, j), s)
    ensures PodsShrink(u, AddJob(v, n, j)) && Forward(u, AddJob(v, n, j))
    ensures Created(AddJob(v, n, j), n, j)
  {
    hide Inv, Good, Forward, Env, PodsShrink;
    EnvFacts(u, v);
    assert MayCreateJob(spec, v, n, j) by { EnvKeepsGuard(spec, u, v, n, j); }
    AddJobKeepsInv(spec, v, n, j);
    GoodAfterAddJob(spec, v, n, j, s);
    AddJobForward(spec, v, n, j);
    ForwardTrans(u, v, AddJob(v, n, j));
    SamePods(u, v, AddJob(v, n, j));
  }

  lemma SamePods(u: World, v: World, w: World)
    requires PodsShrink(u, v) && w.pods == v.pods
    ensures PodsShrink(u, w)
  {
  }

  lemma EnvKeepsGuard(spec: Spec, u: World, v: World, n: string, j: string)
    requires Env(u, v) && MayCreateJob(spec, u, n, j)
    ensures v.history != [] && MayCreateJob(spec, v, n, j)
  {
    EnvCurrent(u, v);
    if Unstarted(u, n) { EnvKeepsUnstarted(u, v, n); }
    assert LiveNamed(u, n, j) ==> LiveNamed(v, n, j) by {
      assert forall p :: LiveOn(v, n, p) ==> LiveOn(u, n, p);
    }
  }

  lemma AddJobForward(spec: Spec, w: World, n: string, j: string)
    requires w.history != [] && MayCreateJob(spec, w, n, j)
    ensures Forward(w, AddJob(w, n, j)) && Created(AddJob(w, n, j), n, j)
  {
    var v := AddJob(w, n, j);
    assert forall m :: Boots(v, m) == Boots(w, m);
    CreatedAfterLog(w, v, JobCreated(n, j));
  }

  lemma RebootPodStep(spec: Spec, u: World, v: World, p: string, n: string, j: string, created: nat, s: Statuses)
    requires Inv(spec, v) && Env(u, v) && Good(spec, v, s)
    requires !u.halted && j in u.drawn && u.drawn[j] == n && !HasLive(u, n) && p !in v.pods
    ensures var w := AddRebootPod(v, p, n, j, created);
            && Inv(spec, w) && Good(spec, w, s) && BootsGrow(u, w)
            && (forall q | LiveOn(w, n, q) :: q == p)
  {
    hide Inv, Good;
    var w := AddRebootPod(v, p, n, j, created);
    assert forall q :: LiveOn(v, n, q) ==> LiveOn(u, n, q);
    AddRebootPodKeepsInv(spec, v, p, n, j, created);
    GoodAside(spec, v, w, s);
    assert forall m :: Boots(w, m) == Boots(v, m);
    assert forall q | LiveOn(w, n, q) :: q != p ==> LiveOn(v, n, q);
  }

  lemma DeleteStep(spec: Spec, u: World, v: World, n: string, p: string, keep: string)
    requires Inv(spec, u) && Inv(spec, v) && Env(u, v) && SafeWithout(spec, v, n, keep)
    requires p != keep && (p in v.pods ==> v.pods[p].node == n)
    ensures var w := DeletePod(v, p);
            && Inv(spec, w) && Passive(u, w) && SafeWithout(spec, w, n, keep) && !LiveOn(w, n, p)
  {
    hide Inv;
    SafeIsSpare(spec, v, n, p, keep);
    DeletePodKeepsInv(spec, v, p);
    DeleteKeepsSafe(spec, v, n, p, keep);
    EnvThenAside(spec, u, v, DeletePod(v, p));
  }

  lemma AddPreflightKeepsInv(spec: Spec, w: World, n: string)
    requires Inv(spec, w) && !w.halted
    ensures Inv(spec, AddPreflight(w, n)) && Aside(w, AddPreflight(w, n))
  {
    hide Inv, Aside, Allowed;
    var u, v := Log(w, PreflightPodCreated(n)), AddPreflight(w, n);
    CreationIsAllowed(spec, w, PreflightPodCreated(n));
    LogKeepsInv(spec, w, PreflightPodCreated(n));
    PreflightsKeepInv(spec, u, v.preflights);
    AsideTrans(w, u, v);
  }

  lemma JobsAreNamed(spec: Spec, w: World)
    requires Inv(spec, w)
    ensures forall j | j in w.jobs :: j in w.jobNames
  {
  }

  lemma DropPreflightIsStep(w: World, n: string, rest: seq<PreflightPod>)
    requires w.history != []
    ensures Next(w, PreflightPodsChange(n, rest)) == w.(preflights := w.preflights[n := rest])
  {
  }

  lemma ActIsAllowed(spec: Spec, w: World, n: string, act: NodeAct)
    requires MayAct(spec, w, n, act) && ActEvent(w, n, act).Some?
    ensures Allowed(spec, w, ActEvent(w, n, act).value)
  {
  }

  lemma DrainIsAllowed(spec: Spec, u: World, v: World, n: string, p: string)
    requires Env(u, v) && (spec.reboot && u.undisturbed ==> Unstarted(u, n))
    ensures Allowed(spec, v, Drained(n, p))
  {
    if Unstarted(u, n) { EnvKeepsUnstarted(u, v, n); }
  }

  lemma EnvKeepsAct(spec: Spec, u: World, v: World, n: string, act: NodeAct)
    requires Env(u, v) && MayAct(spec, u, n, act)
    ensures MayAct(spec, v, n, act)
  {
    if Unstarted(u, n) { EnvKeepsUnstarted(u, v, n); }
    if act.Uncordon? && act.cause.AfterSuccess? {
      EnvIsPassive(u, v);
      PassiveReported(u, v, n, act.cause.job, act.cause.bootId);
    }
  }
}
