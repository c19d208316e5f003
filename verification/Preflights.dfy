/** startPreflight and advancePreflight. */
module Preflights {
  import opened Wrappers
  import opened BootIds
  import opened NodeOpTypes
  import opened Cluster
  import opened OperatorWrites
  import opened Knowledge
  import opened ApiServer
  import opened StatusUpdate
  import opened RebootPodChoice
  import opened JobCreation

  const InPreflight := NodeStatus(Preflight, "", PreflightInProgress, NotRequested, "")

  /** The final entry a finished preflight leads to; None when it says proceed or is not finished. */
  function PreflightVerdict(pod: Option<PreflightPod>): Option<NodeStatus> {
    match pod
    case None => Some(NodeStatus(Failed, "", PreflightPodNotFound, NotRequested, ""))
    case Some(p) =>
      if p.phase == PodFailed then Some(NodeStatus(Failed, "", PreflightFailed(p.reason), NotRequested, ""))
      else if p.phase == PodSucceeded && p.message != "" then
        Some(NodeStatus(Completed, "", SkippedByPreflight(p.message), NotRequested, ""))
      else None
  }

  /**
   * How a node in preflight comes out, by its first preflight Pod: failed exactly when there is none or it failed,
   * completed without a Job exactly when it succeeded with a message, and the reason or the message is kept. With a
   * Pod that has not ended nothing changes.
   */
  ghost predicate PreflightDecides(w: World, n: string, e: NodeStatus, f: NodeStatus) {
    var pods := PreflightPods(w, n);
    && (f.phase == Failed <==> pods == [] || pods[0].phase == PodFailed)
    && (f.phase == Completed <==> pods != [] && pods[0].phase == PodSucceeded && pods[0].message != "")
    && (f.phase == Failed ==>
          f.message == if pods == [] then PreflightPodNotFound else PreflightFailed(pods[0].reason))
    && (f.phase == Completed ==> f.message == SkippedByPreflight(pods[0].message))
    && (f.phase == Failed || f.phase == Completed ==>
          f.jobName == "" && f.rebootStatus == NotRequested && f.bootId == "")
    && (pods != [] && pods[0].phase != PodSucceeded && pods[0].phase != PodFailed ==> f == e)
  }

  lemma VerdictDecides(w: World, n: string, e: NodeStatus, f: NodeStatus)
    requires e.phase == Preflight
    requires match PreflightVerdict(FirstPreflight(w, n))
             case Some(v) => f == v
             case None => f == e || (FirstPreflight(w, n).value.phase == PodSucceeded && f.phase == Pending)
    ensures PreflightDecides(w, n, e, f)
    ensures FirstPreflight(w, n).None? ==> AfterFirst(PreflightPods(w, n)) == PreflightPods(w, n)
  {
  }

  lemma PreflightEntriesGood(spec: Spec, w: World, n: string, pod: Option<PreflightPod>)
    ensures GoodEntry(spec, w, n, InPreflight)
    ensures PreflightVerdict(pod).Some? ==> GoodEntry(spec, w, n, PreflightVerdict(pod).value)
  {
  }

  /** A preflight Pod of the node that is there already is used again. */
  method HavePreflightPod(api: Api, n: string) returns (ok: bool)
    requires Inv(api.spec, api.w) && !api.w.halted
    modifies api
    ensures Inv(api.spec, api.w) && Passive(old(api.w), api.w)
    ensures api.quiet ==>
              ok && api.w == if FirstPreflight(old(api.w), n).None? then AddPreflight(old(api.w), n) else old(api.w)
  {
    hide Inv, Passive, FirstPreflight;
    var found := api.FindPreflightPod(n);
    EnvIsPassive(old(api.w), api.w);
    if found.Err? { return false; }
    if found.value.Some? { return true; }
    ghost var u := api.w;
    StillRunning(old(api.w), u);
    ok := api.CreatePreflightPod(n);
    PassiveChain(api.spec, old(api.w), u, api.w);
  }

  lemma StillRunning(u: World, v: World)
    requires Passive(u, v)
    ensures v.halted == u.halted
  {
  }

  /** startPreflight: a preflight Pod left by an earlier pass is used again. */
  method StartPreflight(api: Api, op: NodeOp, n: string) returns (ok: bool)
    requires Inv(api.spec, api.w) && Holds(api.spec, api.w, op) && Room(api.spec, op.statuses, n) && !api.w.halted
    modifies api, op`statuses, op`version
    ensures Inv(api.spec, api.w) && Holds(api.spec, api.w, op)
    ensures op.statuses == old(op.statuses) || op.statuses == old(op.statuses)[n := InPreflight]
    ensures Moved(old(api.w), api.w, op.statuses)
    ensures ok ==> op.statuses == old(op.statuses)[n := InPreflight] && Current(api.w) == op.statuses
    ensures ok ==>
              && op.statuses[n].phase == Preflight && op.statuses[n].jobName == ""
              && op.statuses[n].rebootStatus == NotRequested
    ensures api.quiet && old(op.version) == Version(old(api.w)) ==>
              && ok && op.version == Version(api.w) && Beside(old(api.w), api.w, n)
              && api.w == WriteStatus(
                   if FirstPreflight(old(api.w), n).None? then AddPreflight(old(api.w), n) else old(api.w), op.statuses)
  {
    hide Inv, Good, Passive, Forward, Advances, Room, Beside, GoodEntry, FirstPreflight;
    ghost var s, version, w0 := op.statuses, op.version, api.w;
    ok := HavePreflightPod(api, n);
    ghost var v := api.w;
    StillHolds(api.spec, w0, v, s, version);
    PassiveMoved(w0, v, s);
    if !ok { return; }
    PreflightEntriesGood(api.spec, v, n, None);
    ok := WriteEntry(api, op, n, NodeStatus(Preflight, "", PreflightInProgress, NotRequested, ""));
    PassiveThenMoved(w0, v, api.w, op.statuses);
    PreflightBeside(w0, n, op.statuses);
  }

  lemma PreflightBeside(w: World, n: string, s: Statuses)
    ensures Beside(w, WriteStatus(w, s), n) && Beside(w, WriteStatus(AddPreflight(w, n), s), n)
  {
  }

  /** The verdict is recorded before the preflight Pod goes; deleting it is best effort. */
  method Conclude(api: Api, op: NodeOp, n: string, e: NodeStatus, podIsThere: bool) returns (ok: bool)
    requires Inv(api.spec, api.w) && Holds(api.spec, api.w, op) && Room(api.spec, op.statuses, n)
    requires GoodEntry(api.spec, api.w, n, e)
    modifies api, op`statuses, op`version
    ensures Inv(api.spec, api.w) && Holds(api.spec, api.w, op)
    ensures op.statuses == old(op.statuses)[n := e]
    ensures Moved(old(api.w), api.w, op.statuses)
    ensures ok ==> Current(api.w) == op.statuses
    ensures api.quiet && old(op.version) == Version(old(api.w)) ==>
              && ok && op.version == Version(api.w) && Beside(old(api.w), api.w, n)
              && api.w == WriteStatus(old(api.w), op.statuses).(preflights := api.w.preflights)
              && PreflightPods(api.w, n) ==
                 if podIsThere then AfterFirst(PreflightPods(old(api.w), n)) else PreflightPods(old(api.w), n)
  {
    hide Inv, Good, Passive, Forward, Advances, Room, GoodEntry, PreflightsBeside;
    ghost var w0 := api.w;
    PreflightBeside(w0, n, op.statuses[n := e]);
    ok := WriteEntry(api, op, n, e);
    if !ok || !podIsThere { return; }
    ghost var v := api.w;
    api.DeletePreflightPod(n);
    if api.quiet && Beside(w0, v, n) { DropBeside(w0, v, api.w, n); }
    EnvIsPassive(v, api.w);
    StillHolds(api.spec, v, api.w, op.statuses, op.version);
    MovedThenPassive(w0, v, api.w, op.statuses);
  }

  /** Deleting the node's preflight Pod touches nothing of other nodes. */
  lemma DropBeside(u: World, v: World, w: World, n: string)
    requires Beside(u, v, n) && PreflightsBeside(v, w, n)
    requires w.pods == v.pods && w.nodes == v.nodes && w.jobs == v.jobs && w.drawn == v.drawn
    ensures Beside(u, w, n)
  {
  }

  lemma MovedThenPassive(u: World, v: World, w: World, s: Statuses)
    requires Moved(u, v, s) && Passive(v, w)
    ensures Moved(u, w, s) && Current(w) == Current(v)
  {
    ForwardThenPassive(u, v, w);
  }

  /** advancePreflight. A preflight Pod that says proceed hands the node over to startMainJob. */
  method AdvancePreflight(api: Api, op: NodeOp, n: string) returns (ok: bool)
    requires Inv(api.spec, api.w) && Holds(api.spec, api.w, op) && Room(api.spec, op.statuses, n)
    requires n in op.statuses && op.statuses[n].phase == Preflight
    requires !api.w.halted && !Recorded(Current(api.w), n)
    modifies api, op`statuses, op`version
    ensures Inv(api.spec, api.w) && Holds(api.spec, api.w, op)
    ensures n in op.statuses && op.statuses == old(op.statuses)[n := op.statuses[n]]
    ensures Moved(old(api.w), api.w, op.statuses)
    ensures ok ==> op.statuses == old(op.statuses) || Current(api.w) == op.statuses
    ensures api.quiet && old(op.version) == Version(old(api.w)) ==>
              && op.version == Version(api.w) && Beside(old(api.w), api.w, n)
              && var pod := FirstPreflight(old(api.w), n);
                 match PreflightVerdict(pod)
                 case Some(e) => ok && op.statuses[n] == e && Current(api.w) == op.statuses
                 case None =>
                   if pod.value.phase == PodSucceeded
                   then (CanStart(api.spec, old(api.w), n) ==> ok) && (ok ==> StartedFrom(api.spec, old(api.w), op.statuses, n))
                   else ok && op.statuses == old(op.statuses) && api.w == old(api.w)
    ensures api.quiet && old(op.version) == Version(old(api.w)) ==>
              && PreflightDecides(old(api.w), n, old(op.statuses)[n], op.statuses[n])
              && (op.statuses[n].phase == Failed || op.statuses[n].phase == Completed ==>
                    && ok && Current(api.w) == op.statuses
                    && PreflightPods(api.w, n) == AfterFirst(PreflightPods(old(api.w), n)))
  {
    hide Inv, Good, Passive, Forward, Advances, Room, FirstPreflight, GoodEntry, Recorded, Started, StartedFrom, Beside;
    hide CanStart, PreflightsBeside, PreflightDecides, PreflightPods, AfterFirst, Current;
    ghost var s, version, w0 := op.statuses, op.version, api.w;
    ghost var exact := api.quiet && version == Version(w0);
    var found := api.FindPreflightPod(n);
    ghost var u := api.w;
    EnvIsPassive(w0, u);
    StillHolds(api.spec, w0, u, s, version);
    PassiveFacts(w0, u, version);
    PassiveMoved(w0, u, s);
    BesideSame(w0, w0, n);
    assert s == s[n := s[n]];
    if found.Err? { return false; }
    PreflightEntriesGood(api.spec, u, n, found.value);
    if found.value.None? {
      ok := Conclude(api, op, n, NodeStatus(Failed, "", PreflightPodNotFound, NotRequested, ""), false);
      if exact { VerdictDecides(w0, n, s[n], op.statuses[n]); }
      PassiveThenMoved(w0, u, api.w, op.statuses);
      return;
    }
    var pod := found.value.value;
    if pod.phase == PodSucceeded {
      if pod.message == "" {
        ok := ProceedToJob(api, op, n);
        if exact { VerdictDecides(w0, n, s[n], op.statuses[n]); }
        PassiveThenMoved(w0, u, api.w, op.statuses);
        return;
      }
      ok := Conclude(api, op, n, NodeStatus(Completed, "", SkippedByPreflight(pod.message), NotRequested, ""), true);
      if exact { VerdictDecides(w0, n, s[n], op.statuses[n]); }
      PassiveThenMoved(w0, u, api.w, op.statuses);
      return;
    }
    if pod.phase == PodFailed {
      ok := Conclude(api, op, n, NodeStatus(Failed, "", PreflightFailed(pod.reason), NotRequested, ""), true);
      if exact { VerdictDecides(w0, n, s[n], op.statuses[n]); }
      PassiveThenMoved(w0, u, api.w, op.statuses);
      return;
    }
    if exact { VerdictDecides(w0, n, s[n], s[n]); }
    ok := true;
  }

  lemma StartedPending(spec: Spec, s: Statuses, n: string)
    requires Started(spec, s, n)
    ensures n in s && s[n].phase == Pending
  {
  }

  /** The upgrade is started before the preflight Pod goes. */
  method ProceedToJob(api: Api, op: NodeOp, n: string) returns (ok: bool)
    requires Inv(api.spec, api.w) && Holds(api.spec, api.w, op) && Room(api.spec, op.statuses, n) && n in op.statuses
    requires !api.w.halted && !Recorded(Current(api.w), n)
    modifies api, op`statuses, op`version
    ensures Inv(api.spec, api.w) && Holds(api.spec, api.w, op)
    ensures n in op.statuses && op.statuses == old(op.statuses)[n := op.statuses[n]]
    ensures op.statuses[n] == old(op.statuses)[n] || op.statuses[n].phase == Pending
    ensures Moved(old(api.w), api.w, op.statuses)
    ensures ok ==> op.statuses == old(op.statuses) || Current(api.w) == op.statuses
    ensures api.quiet && old(op.version) == Version(old(api.w)) ==>
              && op.version == Version(api.w) && Beside(old(api.w), api.w, n)
              && (CanStart(api.spec, old(api.w), n) ==> ok) && (ok ==> StartedFrom(api.spec, old(api.w), op.statuses, n))
  {
    hide Inv, Good, Passive, Forward, Advances, Room, Recorded, Started, StartedFrom, Beside, CanStart, PreflightsBeside;
    ghost var w0 := api.w;
    assert op.statuses == op.statuses[n := op.statuses[n]];
    ghost var s := op.statuses;
    ok := StartMainJob(api, op, n);
    if op.statuses != s { StartedPending(api.spec, op.statuses, n); }
    if !ok { return; }
    ghost var v := api.w;
    api.DeletePreflightPod(n);
    EnvIsPassive(v, api.w);
    StillHolds(api.spec, v, api.w, op.statuses, op.version);
    MovedThenPassive(w0, v, api.w, op.statuses);
    if api.quiet { DropBeside(w0, v, api.w, n); }
  }
}
