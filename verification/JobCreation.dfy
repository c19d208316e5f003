/** createNodeJob, recordNodeJob, awaitRebootPod and startMainJob. */
module JobCreation {
  import opened Wrappers
  import opened BootIds
  import opened NodeOpTypes
  import opened Cluster
  import opened Environment
  import opened OperatorWrites
  import opened Knowledge
  import opened ApiServer
  import opened Cordons
  import opened NodeActions
  import opened RebootPods
  import opened RebootPodChoice
  import opened StatusUpdate

  /** The node's entry may become one that waits or runs, without taking a slot too many. */
  ghost predicate Room(spec: Spec, s: Statuses, n: string) {
    && (n in s ==> s[n].jobName == "" && s[n].phase != Failed)
    && (spec.concurrency > 0 ==> InFlight(s) + (if n in s && Busy(s[n]) then 0 else 1) <= spec.concurrency)
  }

  /** What one status write, tried or made, leaves of the persisted statuses. */
  ghost predicate Moved(u: World, v: World, s: Statuses) {
    && u.history != [] && v.history != [] && Forward(u, v) && v.halted == u.halted
    && (Current(v) == Current(u) || Current(v) == s)
  }

  lemma RoomUpdate(spec: Spec, w: World, s: Statuses, version: nat, n: string, e: NodeStatus)
    requires Good(spec, w, s) && Room(spec, s, n) && GoodEntry(spec, w, n, e)
    requires version < |w.history| && Advances(w.history[version], s)
    ensures Good(spec, w, s[n := e]) && Advances(w.history[version], s[n := e])
  {
    assert n in s ==> GoodEntry(spec, w, n, s[n]);
    InFlightUpdate(s, n, e);
    GoodUpdate(spec, w, s, n, e);
    AdvancesUpdate(w.history[version], s, n, e);
  }

  lemma PassiveMoved(u: World, v: World, s: Statuses)
    requires Passive(u, v)
    ensures Moved(u, v, s)
  {
  }

  lemma PassiveThenMoved(u: World, v: World, w: World, s: Statuses)
    requires Passive(u, v) && Moved(v, w, s)
    ensures Moved(u, w, s)
  {
    PassiveThenForward(u, v, w);
  }

  lemma MovedKeeps(u: World, v: World, s: Statuses, n: string)
    requires Moved(u, v, s)
    ensures forall h | Created(u, n, h) :: Created(v, n, h)
  {
  }

  lemma MovedSame(u: World, v: World, w: World, s: Statuses)
    requires Forward(u, v) && v.halted == u.halted && u.history != [] && v.history != [] && Current(v) == Current(u)
    requires Moved(v, w, s)
    ensures Moved(u, w, s)
  {
    ForwardTrans(u, v, w);
  }

  /** Sets the node's entry and saves the status. */
  method WriteEntry(api: Api, op: NodeOp, n: string, e: NodeStatus) returns (ok: bool)
    requires Inv(api.spec, api.w) && Holds(api.spec, api.w, op) && Room(api.spec, op.statuses, n)
    requires GoodEntry(api.spec, api.w, n, e)
    modifies api, op`statuses, op`version
    ensures Inv(api.spec, api.w) && Holds(api.spec, api.w, op)
    ensures op.statuses == old(op.statuses)[n := e]
    ensures Moved(old(api.w), api.w, op.statuses)
    ensures ok ==> Current(api.w) == op.statuses && op.version == Version(api.w)
    ensures api.quiet ==>
              && (ok <==> old(op.version) == Version(old(api.w)))
              && api.w == if ok then WriteStatus(old(api.w), op.statuses) else old(api.w)
  {
    hide Inv, Good, Advances, Room, Forward, GoodEntry;
    RoomUpdate(api.spec, api.w, op.statuses, op.version, n, e);
    op.statuses := op.statuses[n := e];
    ok := api.UpdateStatus(op);
  }

  /** recordNodeJob */
  method RecordNodeJob(api: Api, op: NodeOp, n: string, j: string) returns (ok: bool)
    requires Inv(api.spec, api.w) && Holds(api.spec, api.w, op) && Room(api.spec, op.statuses, n)
    requires Created(api.w, n, j)
    modifies api, op`statuses, op`version
    ensures Inv(api.spec, api.w) && Holds(api.spec, api.w, op)
    ensures op.statuses == old(op.statuses)[n := RecordedEntry(api.spec, j)]
    ensures op.statuses[n].phase == Pending && op.statuses[n].jobName == j && op.statuses[n].bootId == ""
    ensures op.statuses[n].rebootStatus == if api.spec.reboot then RebootPending else NotRequested
    ensures Moved(old(api.w), api.w, op.statuses)
    ensures ok ==> Current(api.w) == op.statuses && op.version == Version(api.w)
    ensures api.quiet ==>
              && (ok <==> old(op.version) == Version(old(api.w)))
              && api.w == if ok then WriteStatus(old(api.w), op.statuses) else old(api.w)
  {
    hide Inv, Good, Advances, Room, Forward, GoodEntry;
    RecordedIsGood(api.spec, api.w, n, j);
    var rebootStatus := NotRequested;
    if api.spec.reboot { rebootStatus := RebootPending; }
    ok := WriteEntry(api, op, n, NodeStatus(Pending, j, JobCreatedMessage, rebootStatus, ""));
  }

  /** The message tells the Pod's phase once it is past Pending, and the reason its container waits for. */
  predicate TellsWhy(m: Message, pod: RebootPod) {
    && m.WaitingForRebootPod?
    && (m.podPhase == None <==> pod.phase == PodPending)
    && (m.podPhase != None ==> m.podPhase == Some(pod.phase))
    && (m.reason != "" ==> pod.container == ContainerWaiting(m.reason))
    && (pod.container.ContainerWaiting? ==> m.reason == pod.container.reason)
  }

  lemma WaitingTellsWhy(pod: RebootPod)
    ensures TellsWhy(WaitingMessage(pod), pod)
  {
  }

  /** awaitRebootPod: a waiting entry is only written when its message changes. */
  method AwaitRebootPod(api: Api, op: NodeOp, n: string, pod: RebootPod) returns (ok: bool)
    requires Inv(api.spec, api.w) && Holds(api.spec, api.w, op) && Room(api.spec, op.statuses, n)
    modifies api, op`statuses, op`version
    ensures Inv(api.spec, api.w) && Holds(api.spec, api.w, op)
    ensures Moved(old(api.w), api.w, op.statuses)
    ensures ok ==>
              && n in op.statuses && op.statuses[n].phase == Pending && op.statuses[n].jobName == ""
              && TellsWhy(op.statuses[n].message, pod)
    ensures op.statuses != old(op.statuses) ==>
              n in op.statuses && op.statuses[n].rebootStatus == RebootPending && op.statuses[n].bootId == ""
    ensures if n in old(op.statuses) && AwaitingRebootPod(old(op.statuses)[n]) &&
               old(op.statuses)[n].message == WaitingMessage(pod)
            then ok && op.statuses == old(op.statuses) && op.version == old(op.version) && api.w == old(api.w)
            else op.statuses == old(op.statuses)[n := WaitingEntry(pod)] &&
                 (ok ==> Current(api.w) == op.statuses && op.version == Version(api.w)) &&
                 (api.quiet ==>
                    && (ok <==> old(op.version) == Version(old(api.w)))
                    && api.w == if ok then WriteStatus(old(api.w), op.statuses) else old(api.w))
  {
    hide Inv, Good, Advances, Room, Forward, GoodEntry, TellsWhy;
    WaitingTellsWhy(pod);
    var message := WaitingMessage(pod);
    if n in op.statuses && AwaitingRebootPod(op.statuses[n]) && op.statuses[n].message == message {
      PassiveStart(api.spec, api.w);
      PassiveIsForward(api.w, api.w);
      return true;
    }
    WaitingIsGood(api.spec, api.w, n, pod);
    ok := WriteEntry(api, op, n, NodeStatus(Pending, "", message, RebootPending, ""));
  }

  lemma WaitingIsGood(spec: Spec, w: World, n: string, pod: RebootPod)
    ensures GoodEntry(spec, w, n, WaitingEntry(pod))
  {
  }

  /** Job `j` is the one to create for the node, or to adopt if it is there. */
  ghost predicate JobReady(spec: Spec, w: World, n: string, j: string) {
    && w.history != [] && !w.halted && j != "" && j in w.drawn && w.drawn[j] == n
    && !Recorded(Current(w), n)
    && (spec.reboot ==> (n, j) in w.announced && WasReady(w, n, j) && LiveNamed(w, n, j))
  }

  lemma PassiveJobReady(spec: Spec, u: World, v: World, n: string, j: string)
    requires Passive(u, v) && JobReady(spec, u, n, j)
    ensures JobReady(spec, v, n, j)
  {
    forall p | LiveOn(v, n, p) ensures LiveOn(u, n, p) && v.pods[p].jobName == u.pods[p].jobName {
    }
  }

  /** While Job `j` is absent no Job of the node was created. */
  lemma ReadyIsUnbegun(spec: Spec, w: World, n: string, j: string)
    requires Inv(spec, w) && JobReady(spec, w, n, j) && !OurJob(w, j)
    ensures Unbegun(spec, w, n)
  {
    if spec.reboot { MissingJobIsUnstarted(spec, w, n, j); }
  }

  lemma ReadyMayCreate(spec: Spec, w: World, n: string, j: string)
    requires Inv(spec, w) && JobReady(spec, w, n, j) && Unbegun(spec, w, n)
    ensures MayCreateJob(spec, w, n, j)
  {
  }

  /** A Job of ours under the name chosen for the node is that node's Job. */
  lemma OursWasCreated(spec: Spec, w: World, n: string, j: string)
    requires Inv(spec, w) && OurJob(w, j) && j in w.drawn && w.drawn[j] == n
    ensures Created(w, n, j)
  {
    assert Created(w, w.jobs[j].node, j);
  }

  lemma NotRecordedHere(s: Statuses, n: string, spec: Spec)
    requires Room(spec, s, n)
    ensures !Recorded(s, n)
  {
  }

  /** The cluster after cordonNode on a quiet server. */
  function AfterCordon(spec: Spec, w: World, n: string): World
    requires HasNode(w, n)
  {
    match CordonWrite(spec.ownerRef, LastNode(w, n))
    case Some(o) => WriteNode(w, n, o, Some(Cordoned(n)))
    case None => w
  }

  /** The cluster before the node's Job is created, on a quiet server: cordoned and drained as asked. */
  function Prepared(spec: Spec, w: World, n: string, pods: seq<PodInfo>): World
    requires HasNode(w, n)
  {
    if !spec.cordon then w
    else if spec.drain.None? then AfterCordon(spec, w, n)
    else AfterCordon(spec, w, n).(trace := AfterCordon(spec, w, n).trace + Victims(n, spec.drain.value, pods))
  }

  /**
   * What the node has gone through when its Job is created, by what was done (`events`) and the Node it leads to: with
   * Cordon the node is unschedulable, cordoned now if it was not, and with draining exactly the Pods to drain were
   * evicted; without Cordon nothing was done.
   */
  ghost predicate MadeReady(spec: Spec, before: NodeObject, after: NodeObject, n: string, seen: seq<PodInfo>,
                            events: seq<Event>)
  {
    && (!spec.cordon ==> events == [] && after == before)
    && (spec.cordon && before.unschedulable ==> after == before)
    && (spec.cordon && !before.unschedulable ==>
          after == NodeObject(true, Some(spec.ownerRef)) && events != [] && events[0] == Cordoned(n))
    && (spec.cordon ==> forall e :: e in events <==>
          || (e == Cordoned(n) && !before.unschedulable)
          || (spec.drain.Some? && exists p | p in seen :: e == Drained(n, p.name) && ToDrain(n, spec.drain.value, p)))
  }

  /** The events logged between two moments. */
  function Since(u: World, v: World): seq<Event> {
    if u.trace <= v.trace then v.trace[|u.trace|..] else []
  }

  lemma SinceIs(u: World, v: World, events: seq<Event>)
    requires v.trace == u.trace + events
    ensures u.trace <= v.trace && Since(u, v) == events
  {
  }

  lemma CordonedNow(spec: Spec, u: World, n: string)
    requires HasNode(u, n)
    ensures var c := AfterCordon(spec, u, n);
            && HasNode(c, n)
            && c.trace == u.trace + (if LastNode(u, n).unschedulable then [] else [Cordoned(n)])
            && LastNode(c, n) == if LastNode(u, n).unschedulable then LastNode(u, n) else NodeObject(true, Some(spec.ownerRef))
  {
  }

  /** What preparing logs: the cordon if there was one to make, then the evictions. */
  function PrepareEvents(spec: Spec, o: NodeObject, n: string, seen: seq<PodInfo>): seq<Event> {
    if !spec.cordon then []
    else (if o.unschedulable then [] else [Cordoned(n)]) +
         if spec.drain.Some? then Victims(n, spec.drain.value, seen) else []
  }

  lemma EventsMakeReady(spec: Spec, o: NodeObject, n: string, seen: seq<PodInfo>)
    ensures var after := if spec.cordon && !o.unschedulable then NodeObject(true, Some(spec.ownerRef)) else o;
            MadeReady(spec, o, after, n, seen, PrepareEvents(spec, o, n, seen))
  {
    if spec.cordon && spec.drain.Some? { VictimsMeaning(n, spec.drain.value, seen); }
    hide Victims, ToDrain;
  }

  lemma Joined<T>(a: seq<T>, b: seq<T>, c: seq<T>)
    ensures (a + b) + c == a + (b + c) && a + [] == a
  {
  }

  lemma PreparedFrom(spec: Spec, u: World, n: string, seen: seq<PodInfo>)
    requires HasNode(u, n)
    ensures var v := Prepared(spec, u, n, seen);
            if !spec.cordon then v == u
            else
              var c := AfterCordon(spec, u, n);
              && v.nodes == c.nodes
              && v.trace == c.trace + if spec.drain.Some? then Victims(n, spec.drain.value, seen) else []
  {
    hide AfterCordon, Victims;
    if spec.cordon { Joined(AfterCordon(spec, u, n).trace, [], []); }
  }

  lemma PreparedEvents(spec: Spec, u: World, n: string, seen: seq<PodInfo>)
    requires HasNode(u, n)
    ensures var v, o := Prepared(spec, u, n, seen), LastNode(u, n);
            && HasNode(v, n) && v.trace == u.trace + PrepareEvents(spec, o, n, seen)
            && LastNode(v, n) == if spec.cordon && !o.unschedulable then NodeObject(true, Some(spec.ownerRef)) else o
  {
    CordonedNow(spec, u, n);
    PreparedFrom(spec, u, n, seen);
    hide AfterCordon, Victims, Prepared;
    Joined(u.trace, if LastNode(u, n).unschedulable then [] else [Cordoned(n)],
           if spec.drain.Some? then Victims(n, spec.drain.value, seen) else []);
  }

  lemma PreparedIsReady(spec: Spec, u: World, n: string, seen: seq<PodInfo>)
    requires HasNode(u, n)
    ensures var v := Prepared(spec, u, n, seen);
            && u.trace <= v.trace && HasNode(v, n)
            && MadeReady(spec, LastNode(u, n), LastNode(v, n), n, seen, Since(u, v))
  {
    PreparedEvents(spec, u, n, seen);
    hide Prepared, MadeReady, PrepareEvents, Since;
    SinceIs(u, Prepared(spec, u, n, seen), PrepareEvents(spec, LastNode(u, n), n, seen));
    EventsMakeReady(spec, LastNode(u, n), n, seen);
  }

  lemma PreparedReady(spec: Spec, u: World, n: string)
    requires HasNode(u, n)
    ensures forall seen :: HasNode(Prepared(spec, u, n, seen), n) &&
              MadeReady(spec, LastNode(u, n), LastNode(Prepared(spec, u, n, seen), n), n, seen,
                        Since(u, Prepared(spec, u, n, seen)))
  {
    hide MadeReady, Since;
    forall seen ensures HasNode(Prepared(spec, u, n, seen), n) &&
                        MadeReady(spec, LastNode(u, n), LastNode(Prepared(spec, u, n, seen), n), n, seen,
                                  Since(u, Prepared(spec, u, n, seen)))
    {
      PreparedIsReady(spec, u, n, seen);
    }
  }

  /** The node was made ready, and then, as the last thing, its Job was created. */
  ghost predicate JobAfterPreparing(spec: Spec, u: World, v: World, n: string, j: string, seen: seq<PodInfo>)
    requires HasNode(u, n)
  {
    && HasNode(v, n) && Since(u, v) != [] && Since(u, v)[|Since(u, v)| - 1] == JobCreated(n, j)
    && MadeReady(spec, LastNode(u, n), LastNode(v, n), n, seen, Since(u, v)[..|Since(u, v)| - 1])
  }

  lemma MadeFacts(spec: Spec, u: World, v: World, n: string, j: string, seen: seq<PodInfo>, s: Statuses)
    requires HasNode(u, n) && JobMade(spec, u, v, n, j, seen, s)
    ensures var p := Prepared(spec, u, n, seen);
            v.trace == p.trace + [JobCreated(n, j)] && (HasNode(p, n) ==> HasNode(v, n) && LastNode(v, n) == LastNode(p, n))
  {
    hide Prepared;
  }

  lemma MadeAfterPreparing(spec: Spec, u: World, v: World, n: string, j: string, seen: seq<PodInfo>, s: Statuses)
    requires HasNode(u, n) && JobMade(spec, u, v, n, j, seen, s)
    ensures JobAfterPreparing(spec, u, v, n, j, seen)
  {
    MadeFacts(spec, u, v, n, j, seen, s);
    var p, events := Prepared(spec, u, n, seen), PrepareEvents(spec, LastNode(u, n), n, seen);
    PreparedEvents(spec, u, n, seen);
    hide Prepared, MadeReady, PrepareEvents, JobMade, Since, LastNode, HasNode;
    assert v.trace == u.trace + (events + [JobCreated(n, j)]);
    SinceIs(u, v, events + [JobCreated(n, j)]);
    EventsMakeReady(spec, LastNode(u, n), n, seen);
    assert Since(u, v)[..|Since(u, v)| - 1] == events;
  }

  /** The part of createNodeJob before the Job is created. */
  method PrepareNode(api: Api, n: string) returns (ok: bool, ghost seen: seq<PodInfo>)
    requires Inv(api.spec, api.w) && Unbegun(api.spec, api.w, n)
    modifies api
    ensures Inv(api.spec, api.w) && Passive(old(api.w), api.w)
    ensures api.quiet ==> OnlyNodesDiffer(old(api.w), api.w) && NodesBeside(old(api.w), api.w, n)
    ensures api.quiet && HasNode(old(api.w), n) ==> ok && api.w == Prepared(api.spec, old(api.w), n, seen)
    ensures api.quiet && HasNode(old(api.w), n) ==>
              && HasNode(api.w, n)
              && MadeReady(api.spec, LastNode(old(api.w), n), LastNode(api.w, n), n, seen, Since(old(api.w), api.w))
  {
    hide Inv, Passive, Unbegun, Victims, CordonWrite, MadeReady, Since;
    PassiveStart(api.spec, api.w);
    seen := [];
    ghost var w0 := api.w;
    if HasNode(w0, n) { PreparedReady(api.spec, w0, n); }
    if !api.spec.cordon { return true, seen; }
    ok := CordonNode(api, n);
    if !ok { return; }
    if api.spec.drain.None? { return; }
    ghost var u := api.w;
    PassiveUnbegun(api.spec, old(api.w), u, n);
    ok, seen := DrainNode(api, n, api.spec.drain.value);
    PassiveChain(api.spec, old(api.w), u, api.w);
    if !ok {
      ghost var v := api.w;
      var uncordoned := UncordonNode(api, n, AfterDrainFailure);
      PassiveChain(api.spec, old(api.w), v, api.w);
    }
  }

  /** adoptExistingJob: after a refused creation, is the Job that is there ours? */
  method AdoptExistingJob(api: Api, n: string, j: string, outcome: CreateOutcome) returns (adopted: bool)
    requires Inv(api.spec, api.w) && JobReady(api.spec, api.w, n, j)
    modifies api
    ensures Inv(api.spec, api.w) && Passive(old(api.w), api.w)
    ensures adopted ==> outcome == AlreadyExists && Created(api.w, n, j)
    ensures outcome == CreateFailed ==> api.w == old(api.w)
    ensures api.quiet ==> api.w == old(api.w) && (adopted <==> outcome == AlreadyExists && OurJob(old(api.w), j))
  {
    hide Inv;
    PassiveStart(api.spec, api.w);
    if outcome != AlreadyExists { return false; }
    var got := api.GetJob(j);
    EnvIsPassive(old(api.w), api.w);
    PassiveJobReady(api.spec, old(api.w), api.w, n, j);
    if got.Err? || got.value.None? || !got.value.value.ours { return false; }
    OursWasCreated(api.spec, api.w, n, j);
    adopted := true;
  }

  /** The statuses after createNodeJob on a quiet server, and the cluster around them. */
  ghost predicate JobMade(spec: Spec, u: World, v: World, n: string, j: string, seen: seq<PodInfo>, s: Statuses)
    requires HasNode(u, n)
  {
    v == WriteStatus(AddJob(Prepared(spec, u, n, seen), n, j), s)
  }

  /** The creation of the Job, once the node is prepared; the Job may also turn out to be there already. */
  method MakeJob(api: Api, n: string, j: string, ghost s: Statuses) returns (ok: bool)
    requires Inv(api.spec, api.w) && JobReady(api.spec, api.w, n, j) && Unbegun(api.spec, api.w, n)
    requires Good(api.spec, api.w, s) && !Recorded(s, n)
    modifies api
    ensures Inv(api.spec, api.w) && Good(api.spec, api.w, s)
    ensures api.w.history != [] && Current(api.w) == old(Current(api.w)) && api.w.halted == old(api.w.halted)
    ensures Forward(old(api.w), api.w)
    ensures ok ==> Created(api.w, n, j)
    ensures api.quiet ==> if j in old(api.w).jobs then api.w == old(api.w) else ok && api.w == AddJob(old(api.w), n, j)
  {
    hide Inv, Good, Forward, JobReady, Unbegun, Recorded;
    ReadyMayCreate(api.spec, api.w, n, j);
    var outcome := api.CreateJob(n, j, s);
    ghost var u := api.w;
    StillThere(api.spec, u);
    if outcome == CreatedOk { return true; }
    if outcome == CreateFailed { return false; }
    assert JobReady(api.spec, u, n, j) by { ReadyAfterRefusal(api.spec, old(api.w), u, n, j); }
    ok := AdoptExistingJob(api, n, j, outcome);
    PassiveGood(api.spec, u, api.w, s);
    ForwardThenPassive(old(api.w), u, api.w);
  }

  lemma StillThere(spec: Spec, w: World)
    requires Inv(spec, w)
    ensures w.history != []
  {
  }

  lemma ReadyAfterRefusal(spec: Spec, u: World, v: World, n: string, j: string)
    requires JobReady(spec, u, n, j) && Forward(u, v) && PodsShrink(u, v) && v.history != []
    requires Current(v) == Current(u) && v.halted == u.halted
    ensures JobReady(spec, v, n, j)
  {
    forall p | LiveOn(v, n, p) ensures LiveOn(u, n, p) && v.pods[p].jobName == u.pods[p].jobName {
    }
  }

  /**
   * What createNodeJob does on a quiet server, from the current version or not: the reboot Pods stay, the
   * Job exists afterwards if it was ours or could be created, and only the current version is written over.
   */
  ghost predicate JobSettled(u: World, v: World, n: string, j: string, current: bool) {
    && v.pods == u.pods
    && (OurJob(u, j) || (j !in u.jobs && HasNode(u, n)) ==> Created(v, n, j))
    && (forall h | Created(v, n, h) :: h == j || Created(u, n, h))
    && (!current ==> v.history == u.history)
  }

  lemma SettledSame(u: World, n: string, j: string, current: bool)
    requires j in u.jobs && !u.jobs[j].ours
    ensures JobSettled(u, u, n, j, current)
  {
  }

  lemma SettledRecorded(u: World, v: World, n: string, j: string, current: bool, s: Statuses)
    requires Created(u, n, j) && v == if current then WriteStatus(u, s) else u
    ensures JobSettled(u, v, n, j, current)
  {
  }

  lemma SettledUnprepared(u: World, v: World, n: string, j: string, current: bool)
    requires OnlyNodesDiffer(u, v) && j !in u.jobs && !HasNode(u, n) && Passive(u, v)
    ensures JobSettled(u, v, n, j, current)
  {
  }

  lemma SettledMade(u: World, v: World, w: World, n: string, j: string, current: bool, s: Statuses)
    requires OnlyNodesDiffer(u, v) && Passive(u, v)
    requires w == if current then WriteStatus(AddJob(v, n, j), s) else AddJob(v, n, j)
    ensures JobSettled(u, w, n, j, current)
  {
    CreatedAfterLog(v, w, JobCreated(n, j));
  }

  /** createNodeJob: a Job that is there already is only recorded, neither cordoned nor drained for. */
  method CreateNodeJob(api: Api, op: NodeOp, n: string, j: string) returns (ok: bool, ghost seen: seq<PodInfo>)
    requires Inv(api.spec, api.w) && Holds(api.spec, api.w, op) && Room(api.spec, op.statuses, n)
    requires JobReady(api.spec, api.w, n, j)
    modifies api, op`statuses, op`version
    ensures Inv(api.spec, api.w) && Holds(api.spec, api.w, op)
    ensures Moved(old(api.w), api.w, op.statuses)
    ensures op.statuses == old(op.statuses) || op.statuses == old(op.statuses)[n := RecordedEntry(api.spec, j)]
    ensures ok ==>
              && op.statuses == old(op.statuses)[n := RecordedEntry(api.spec, j)]
              && Current(api.w) == op.statuses && op.version == Version(api.w)
    ensures api.quiet && old(op.version) == Version(old(api.w)) && OurJob(old(api.w), j) ==>
              ok && api.w == WriteStatus(old(api.w), op.statuses)
    ensures api.quiet && j in old(api.w).jobs && !old(api.w).jobs[j].ours ==> !ok && api.w == old(api.w)
    ensures api.quiet ==> Beside(old(api.w), api.w, n)
    ensures api.quiet ==> JobSettled(old(api.w), api.w, n, j, old(op.version) == Version(old(api.w)))
    ensures api.quiet && old(op.version) == Version(old(api.w)) ==> op.version == Version(api.w)
    ensures api.quiet && old(op.version) == Version(old(api.w)) && j !in old(api.w).jobs && HasNode(old(api.w), n) ==>
              ok && JobMade(api.spec, old(api.w), api.w, n, j, seen, op.statuses)
              && JobAfterPreparing(api.spec, old(api.w), api.w, n, j, seen)
  {
    hide Inv, Good, Passive, Forward, Advances, JobReady, Unbegun, Room, Recorded, Prepared, Beside, NodesBeside;
    hide JobSettled, JobAfterPreparing;
    seen := [];
    ghost var s, version, w0 := op.statuses, op.version, api.w;
    var got := api.GetJob(j);
    EnvIsPassive(w0, api.w);
    StillHolds(api.spec, w0, api.w, s, version);
    PassiveMoved(w0, api.w, s);
    if got.Err? { return false, seen; }
    ghost var u := api.w;
    BesideSame(w0, w0, n);
    PassiveJobReady(api.spec, w0, u, n, j);
    ghost var current := version == Version(w0);
    if got.value.Some? {
      if !got.value.value.ours {
        if api.quiet { SettledSame(w0, n, j, current); }
        return false, seen;
      }
      JobReadyParts(api.spec, u, n, j);
      OursWasCreated(api.spec, u, n, j);
      ok := RecordNodeJob(api, op, n, j);
      PassiveThenMoved(w0, u, api.w, op.statuses);
      BesideSave(w0, n, op.statuses);
      if api.quiet { SettledRecorded(w0, api.w, n, j, current, op.statuses); }
      return;
    }
    ReadyIsUnbegun(api.spec, u, n, j);
    ok, seen := PrepareNode(api, n);
    PassiveChain(api.spec, w0, u, api.w);
    StillHolds(api.spec, w0, api.w, s, version);
    PassiveMoved(w0, api.w, s);
    if api.quiet { BesideNodes(w0, api.w, n); }
    if !ok {
      if api.quiet { SettledUnprepared(w0, api.w, n, j, current); }
      return;
    }
    ghost var v := api.w;
    PassiveJobReady(api.spec, u, v, n, j);
    PassiveUnbegun(api.spec, u, v, n);
    NotRecordedHere(s, n, api.spec);
    if api.quiet && HasNode(w0, n) { PreparedFrame(api.spec, w0, n, seen); }
    ok := MakeJob(api, n, j, s);
    MadeHolds(api.spec, w0, v, api.w, s, version);
    JobReadyParts(api.spec, v, n, j);
    ghost var x := api.w;
    if api.quiet {
      BesideJob(v, n, j);
      BesideChain(w0, v, x, n);
    }
    if !ok { return; }
    ok := RecordNodeJob(api, op, n, j);
    if api.quiet {
      if HasNode(w0, n) && current { MadeAfterPreparing(api.spec, w0, api.w, n, j, seen, op.statuses); }
      BesideSave(x, n, op.statuses);
      BesideChain(w0, x, api.w, n);
      SettledMade(w0, v, api.w, n, j, current, op.statuses);
    }
    MovedSame(w0, x, api.w, op.statuses);
  }

  lemma JobReadyParts(spec: Spec, w: World, n: string, j: string)
    requires JobReady(spec, w, n, j)
    ensures j in w.drawn && w.drawn[j] == n && j != ""
  {
  }

  lemma CordonFrame(spec: Spec, w: World, n: string)
    requires HasNode(w, n)
    ensures AfterCordon(spec, w, n).jobs == w.jobs && AfterCordon(spec, w, n).history == w.history
  {
  }

  lemma PreparedFrame(spec: Spec, w: World, n: string, seen: seq<PodInfo>)
    requires HasNode(w, n)
    ensures Prepared(spec, w, n, seen).jobs == w.jobs && Prepared(spec, w, n, seen).history == w.history
  {
    CordonFrame(spec, w, n);
    hide AfterCordon, Victims;
  }

  lemma MadeHolds(spec: Spec, u: World, v: World, w: World, s: Statuses, version: nat)
    requires Passive(u, v) && Forward(v, w) && w.history != [] && Current(w) == Current(v) && w.halted == v.halted
    requires Good(spec, w, s) && version < |u.history| && Advances(u.history[version], s)
    ensures version < |w.history| && Advances(w.history[version], s)
    ensures Moved(u, w, s) && Forward(u, w) && w.halted == u.halted && Current(w) == Current(u)
  {
    PassiveThenForward(u, v, w);
  }

  /** All reboot Pods of the node are being deleted, and `x` is a new one that names a new Job. */
  predicate FreshPod(u: World, v: World, n: string, x: ListedPod) {
    var j := x.pod.jobName;
    && j != "" && j !in u.drawn && j !in u.jobs
    && x.pod == RebootPod(n, j, x.pod.created, PodPending, false, [], NotReported)
    && v == AddRebootPod(HandOut(AllDeleted(u, n), n, j), x.name, n, j, x.pod.created)
  }

  /** The first half of startMainJob in reboot mode: the Pod kept, or a new one that names a new Job. */
  method ChooseRebootPod(api: Api, n: string, ghost s: Statuses) returns (r: Option<ListedPod>)
    requires Inv(api.spec, api.w) && Good(api.spec, api.w, s) && !api.w.halted
    modifies api
    ensures Inv(api.spec, api.w) && Good(api.spec, api.w, s) && Forward(old(api.w), api.w)
    ensures api.w.history != [] && Current(api.w) == old(Current(api.w)) && api.w.halted == old(api.w.halted)
    ensures r.Some? ==> Chosen(api.w, n, r.value)
    ensures api.quiet ==> r.Some? && api.w.history == old(api.w).history && api.w.jobs == old(api.w).jobs
                          && api.w.nodes == old(api.w).nodes
    ensures api.quiet ==> Beside(old(api.w), api.w, n)
    ensures api.quiet && HasLive(old(api.w), n) ==>
              && r.Some? && Oldest(old(api.w), n, r.value.name) && r.value.pod == old(api.w).pods[r.value.name]
              && api.w == KeepOnly(old(api.w), n, r.value.name)
    ensures api.quiet && !HasLive(old(api.w), n) ==> r.Some? && FreshPod(old(api.w), api.w, n, r.value)
  {
    hide Inv, Good, Passive, Forward, HasLive, Chosen, Oldest, KeepOnly, AllDeleted, AddRebootPod, FreshPod;
    ghost var w0 := api.w;
    PassiveStart(api.spec, w0);
    var kept := KeepOneRebootPod(api, n);
    if api.quiet && kept.Ok? && kept.value.Some? { KeepOnlyFrame(w0, n, kept.value.value.name); }
    PassiveFacts(w0, api.w, 0);
    PassiveGood(api.spec, w0, api.w, s);
    if kept.Err? { return None; }
    if kept.value.Some? { return kept.value; }
    ghost var u := api.w;
    JobsAreNamed(api.spec, w0);
    var j := api.DrawJobName(n);
    PassiveChain(api.spec, w0, u, api.w);
    PassiveGood(api.spec, u, api.w, s);
    StillNoLive(u, api.w, n);
    ghost var v := api.w;
    PassiveFacts(w0, v, 0);
    r := api.CreateRebootPod(n, j, s);
    ForwardTrans(w0, v, api.w);
    StillThere(api.spec, api.w);
    if r.Some? {
      NewPodIsChosen(api.w, n, r.value);
      if api.quiet {
        AllDeletedKeys(w0, n, j);
        NewPodFrame(w0, n, j, r.value.name, r.value.pod.created);
        NewPodIsFresh(w0, n, r.value);
      }
    }
  }

  lemma KeepOnlyFrame(w: World, n: string, keep: string)
    ensures var v := KeepOnly(w, n, keep);
            v.history == w.history && v.jobs == w.jobs && v.nodes == w.nodes && Beside(w, v, n)
  {
    KeepOnlyBeside(w, n, keep);
  }

  lemma NewPodFrame(w: World, n: string, j: string, p: string, created: nat)
    requires p !in w.pods && j !in w.drawn
    ensures var v := AddRebootPod(HandOut(AllDeleted(w, n), n, j), p, n, j, created);
            && v.history == w.history && v.jobs == w.jobs && v.nodes == w.nodes && AllDeleted(w, n).drawn == w.drawn
            && AllDeleted(w, n).jobNames == w.jobNames && Beside(w, v, n)
  {
  }

  lemma NewPodIsFresh(w: World, n: string, x: ListedPod)
    requires x.pod.jobName != "" && x.pod.jobName !in w.drawn && x.pod.jobName !in w.jobs
    requires x.pod == RebootPod(n, x.pod.jobName, x.pod.created, PodPending, false, [], NotReported)
    ensures var v := AddRebootPod(HandOut(AllDeleted(w, n), n, x.pod.jobName), x.name, n, x.pod.jobName, x.pod.created);
            FreshPod(w, v, n, x)
  {
  }

  lemma FreshPodFacts(u: World, v: World, n: string, x: ListedPod)
    requires FreshPod(u, v, n, x)
    ensures !RebootPodReady(x.pod) && WaitingMessage(x.pod) == WaitingForRebootPod(None, "") && Live(x.pod)
    ensures x.name in v.pods && x.pod == v.pods[x.name] && x.pod.node == n
    ensures x.pod.jobName != "" && x.pod.jobName !in u.drawn && x.pod.jobName !in v.jobs && v.history == u.history
  {
    hide AllDeleted, HandOut;
    AllDeletedFrame(u, n, x.pod.jobName);
  }

  lemma AllDeletedFrame(w: World, n: string, j: string)
    ensures var v := HandOut(AllDeleted(w, n), n, j);
            v.history == w.history && v.jobs == w.jobs
  {
  }

  lemma AllDeletedKeys(w: World, n: string, j: string)
    ensures HandOut(AllDeleted(w, n), n, j).pods.Keys == w.pods.Keys
  {
  }

  lemma NewPodIsChosen(w: World, n: string, x: ListedPod)
    requires x.name in w.pods && x.pod == w.pods[x.name] && (n, x.pod.jobName) in w.announced
    requires !RebootPodReady(x.pod) && forall q | LiveOn(w, n, q) :: q == x.name
    ensures Chosen(w, n, x)
  {
  }

  lemma ChosenIsReady(spec: Spec, w: World, n: string, x: ListedPod)
    requires Inv(spec, w) && Chosen(w, n, x) && x.pod.jobName != "" && RebootPodReady(x.pod)
    requires !w.halted && !Recorded(Current(w), n)
    ensures JobReady(spec, w, n, x.pod.jobName)
  {
  }

  lemma DrawnIsReady(spec: Spec, w: World, n: string, j: string)
    requires Inv(spec, w) && !spec.reboot && j in w.drawn && w.drawn[j] == n && j != ""
    requires !w.halted && !Recorded(Current(w), n)
    ensures JobReady(spec, w, n, j)
  {
  }

  /** The entry a successful startMainJob leaves. */
  predicate Started(spec: Spec, s: Statuses, n: string) {
    && n in s
    && if s[n].jobName == "" then spec.reboot && AwaitingRebootPod(s[n]) else s[n] == RecordedEntry(spec, s[n].jobName)
  }

  /** Fault-free it depends on the node's oldest live reboot Pod: on whether that is ready, and on the Job it names. */
  ghost predicate StartedFrom(spec: Spec, w: World, s: Statuses, n: string) {
    && Started(spec, s, n)
    && (spec.reboot && !HasLive(w, n) ==> s[n].jobName == "" && s[n].message == WaitingForRebootPod(None, ""))
    && (spec.reboot ==> forall p | Oldest(w, n, p) ::
          if RebootPodReady(w.pods[p]) then s[n].jobName == w.pods[p].jobName
          else s[n].jobName == "" && s[n].message == WaitingMessage(w.pods[p]))
  }

  /** When startMainJob succeeds if nothing fails. */
  ghost predicate CanStart(spec: Spec, w: World, n: string) {
    if !spec.reboot then HasNode(w, n)
    else forall p | Oldest(w, n, p) ::
           && w.pods[p].jobName != ""
           && (RebootPodReady(w.pods[p]) ==>
                 OurJob(w, w.pods[p].jobName) || (w.pods[p].jobName !in w.jobs && HasNode(w, n)))
  }

  /** Fault-free, from the current version or not: wait for the Pod and change nothing else, or have the Job it names. */
  ghost predicate PodFollowed(u: World, v: World, n: string, x: ListedPod, current: bool) {
    if x.pod.jobName != "" && RebootPodReady(x.pod) then JobSettled(u, v, n, x.pod.jobName, current)
    else v == u.(history := v.history) && (!current ==> v.history == u.history)
  }

  lemma FollowedWaiting(u: World, v: World, n: string, x: ListedPod, current: bool)
    requires x.pod.jobName == "" || !RebootPodReady(x.pod)
    requires v == u || (current && v == u.(history := v.history))
    ensures PodFollowed(u, v, n, x, current)
  {
  }

  lemma FollowedReady(u: World, v: World, n: string, x: ListedPod, current: bool)
    requires x.pod.jobName != "" && RebootPodReady(x.pod) && JobSettled(u, v, n, x.pod.jobName, current)
    ensures PodFollowed(u, v, n, x, current)
  {
  }

  /** rebootPodReady: the last Ready condition counts, and the container has to run as well. */
  method IsRebootPodReady(pod: RebootPod) returns (ready: bool)
    ensures ready == RebootPodReady(pod)
    ensures ready <==> pod.container == ContainerRunning && exists earlier :: pod.readyConditions == earlier + [true]
  {
    ready := false;
    var i := 0;
    while i < |pod.readyConditions|
      invariant 0 <= i <= |pod.readyConditions|
      invariant ready <==> i > 0 && pod.readyConditions[i - 1]
    {
      ready := pod.readyConditions[i];
      i := i + 1;
    }
    if !ready { return; }
    assert pod.readyConditions == pod.readyConditions[..i - 1] + [true];
    ready := pod.container == ContainerRunning;
  }

  /** The second half of startMainJob in reboot mode: wait for the Pod, or create the Job it names. */
  method FollowRebootPod(api: Api, op: NodeOp, n: string, x: ListedPod) returns (ok: bool)
    requires Inv(api.spec, api.w) && Holds(api.spec, api.w, op) && Room(api.spec, op.statuses, n) && api.spec.reboot
    requires !api.w.halted && !Recorded(Current(api.w), n) && Chosen(api.w, n, x)
    modifies api, op`statuses, op`version
    ensures Inv(api.spec, api.w) && Holds(api.spec, api.w, op)
    ensures Moved(old(api.w), api.w, op.statuses)
    ensures op.statuses == old(op.statuses) || (Started(api.spec, op.statuses, n) &&
              op.statuses == old(op.statuses)[n := op.statuses[n]])
    ensures ok ==> Started(api.spec, op.statuses, n) && (op.statuses == old(op.statuses) || Current(api.w) == op.statuses)
    ensures ok ==> if RebootPodReady(x.pod) then op.statuses[n].jobName == x.pod.jobName
                   else op.statuses[n].jobName == "" && op.statuses[n].message == WaitingMessage(x.pod)
    ensures api.quiet ==> Beside(old(api.w), api.w, n)
    ensures api.quiet ==> PodFollowed(old(api.w), api.w, n, x, old(op.version) == Version(old(api.w)))
    ensures api.quiet && old(op.version) == Version(old(api.w)) ==> op.version == Version(api.w)
    ensures api.quiet && old(op.version) == Version(old(api.w)) && x.pod.jobName != ""
            && (RebootPodReady(x.pod) ==>
                  || OurJob(old(api.w), x.pod.jobName)
                  || (x.pod.jobName !in old(api.w).jobs && HasNode(old(api.w), n))) ==>
              ok
  {
    hide Inv, Good, Forward, Advances, Room, Recorded, JobReady, Chosen, JobMade, RebootPodReady, WaitingMessage;
    hide Moved, Started, WaitingEntry, RecordedEntry, AwaitingRebootPod, GoodEntry, OurJob, HasNode, Beside;
    hide JobSettled, PodFollowed;
    ghost var s, w0, current := op.statuses, api.w, op.version == Version(api.w);
    var pod := x.pod;
    NotRecordedHere(op.statuses, n, api.spec);
    PassiveStart(api.spec, api.w);
    PassiveMoved(api.w, api.w, op.statuses);
    BesideSame(api.w, api.w, n);
    if pod.jobName == "" {
      FollowedWaiting(w0, w0, n, x, current);
      return false;
    }
    var ready := IsRebootPodReady(pod);
    if !ready {
      WaitingIsStarted(api.spec, s, n, pod);
      SavedVersion(api.w, s[n := WaitingEntry(pod)]);
      BesideSave(api.w, n, s[n := WaitingEntry(pod)]);
      ok := AwaitRebootPod(api, op, n, pod);
      if api.quiet { FollowedWaiting(w0, api.w, n, x, current); }
    } else {
      ChosenIsReady(api.spec, api.w, n, x);
      RecordedIsStarted(api.spec, s, n, pod.jobName);
      ghost var seen;
      ok, seen := CreateNodeJob(api, op, n, pod.jobName);
      if api.quiet { FollowedReady(w0, api.w, n, x, current); }
    }
  }

  /** `p` is the node's only live reboot Pod, and names a Job that is new. */
  ghost predicate NewLive(u: World, v: World, n: string, p: string) {
    && LiveOn(v, n, p) && (forall q | LiveOn(v, n, q) :: q == p)
    && v.pods[p].jobName != "" && v.pods[p].jobName !in u.drawn && v.pods[p].jobName !in v.jobs
  }

  /** Job `j` and no other has been created for the node in between. */
  ghost predicate OneMoreJob(u: World, v: World, n: string, j: string) {
    forall h :: Created(v, n, h) <==> h == j || Created(u, n, h)
  }

  /**
   * What startMainJob does fault-free, from the current version or not: a new Job, a new reboot Pod, or the
   * Job of the oldest reboot Pod. A status write from an old version is refused after that.
   */
  ghost predicate StartEffects(spec: Spec, u: World, v: World, n: string, current: bool) {
    && (!current ==> v.history == u.history)
    && (CanStart(spec, u, n) ==>
          if !spec.reboot then exists j :: j !in u.drawn && OneMoreJob(u, v, n, j)
          else if !HasLive(u, n) then exists p :: NewLive(u, v, n, p)
          else forall p | Oldest(u, n, p) ::
                 && (forall q | LiveOn(v, n, q) :: q == p)
                 && (RebootPodReady(u.pods[p]) ==> Created(v, n, u.pods[p].jobName)))
    && (spec.reboot ==> forall p | Oldest(u, n, p) && !RebootPodReady(u.pods[p]) ::
          v.jobs == u.jobs && v.nodes == u.nodes && v.trace == u.trace)
  }

  /**
   * What the node's oldest live reboot Pod decides, from the Pod's own fields. Its program runs: the Job it names
   * is there afterwards, and recorded. It does not: no Job, no write to any Node, nothing evicted, and the node waits.
   */
  ghost predicate PodDecides(u: World, v: World, n: string, t: Statuses, current: bool, ok: bool) {
    forall p | Oldest(u, n, p) ::
      var pod := u.pods[p];
      if pod.container == ContainerRunning && pod.readyConditions != [] && pod.readyConditions[|pod.readyConditions| - 1]
      then
        && (ok ==> n in t && t[n].jobName == pod.jobName)
        && (pod.jobName != "" && (OurJob(u, pod.jobName) || (pod.jobName !in u.jobs && HasNode(u, n))) ==>
              Created(v, n, pod.jobName) && (current ==> ok))
      else
        && v.jobs == u.jobs && v.nodes == u.nodes && v.trace == u.trace
        && (ok ==> n in t && t[n].phase == Pending && t[n].jobName == "")
        && (pod.jobName != "" && current ==> ok)
  }

  lemma EffectsDecide(spec: Spec, u: World, v: World, n: string, t: Statuses, current: bool, ok: bool)
    requires spec.reboot && StartEffects(spec, u, v, n, current)
    requires ok ==> StartedFrom(spec, u, t, n)
    requires current && CanStart(spec, u, n) ==> ok
    ensures PodDecides(u, v, n, t, current, ok)
  {
    forall p | Oldest(u, n, p) ensures HasLive(u, n) && forall q | Oldest(u, n, q) :: q == p {
      forall q | Oldest(u, n, q) ensures q == p { OldestIsUnique(u, n, p, q); }
    }
    hide Created, Oldest, HasLive;
  }

  lemma EffectsWithoutReboot(spec: Spec, u: World, v: World, n: string, j: string, current: bool)
    requires !spec.reboot && j !in u.drawn && j !in u.jobs && JobSettled(HandOut(u, n, j), v, n, j, current)
    requires forall h | Created(u, n, h) :: Created(v, n, h)
    ensures StartEffects(spec, u, v, n, current)
  {
    if CanStart(spec, u, n) {
      assert forall h :: Created(HandOut(u, n, j), n, h) <==> Created(u, n, h);
      assert OneMoreJob(u, v, n, j);
    }
  }

  lemma EffectsNewPod(spec: Spec, u: World, v: World, w: World, n: string, x: ListedPod, current: bool)
    requires spec.reboot && !HasLive(u, n) && Chosen(v, n, x) && PodFollowed(v, w, n, x, current)
    requires x.name in v.pods && x.pod == v.pods[x.name] && x.pod.node == n && Live(x.pod) && !RebootPodReady(x.pod)
    requires x.pod.jobName != "" && x.pod.jobName !in u.drawn && x.pod.jobName !in v.jobs && v.history == u.history
    ensures StartEffects(spec, u, w, n, current)
  {
    assert NewLive(u, w, n, x.name) by {
      assert w.pods == v.pods && w.jobs == v.jobs;
      assert forall q :: LiveOn(w, n, q) <==> LiveOn(v, n, q);
    }
  }

  lemma EffectsOldPod(spec: Spec, u: World, w: World, n: string, x: ListedPod, current: bool)
    requires spec.reboot && HasLive(u, n) && Oldest(u, n, x.name) && x.pod == u.pods[x.name]
    requires PodFollowed(KeepOnly(u, n, x.name), w, n, x, current)
    ensures StartEffects(spec, u, w, n, current)
  {
    var v := KeepOnly(u, n, x.name);
    assert w.pods == v.pods;
    assert forall q :: LiveOn(w, n, q) ==> q == x.name;
    forall p | Oldest(u, n, p) ensures p == x.name {
      OldestIsUnique(u, n, p, x.name);
    }
    assert HasNode(v, n) == HasNode(u, n);
  }

  lemma SavedVersion(w: World, s: Statuses)
    ensures WriteStatus(w, s).history != [] && Version(WriteStatus(w, s)) == |w.history|
  {
  }

  lemma WaitingIsStarted(spec: Spec, s: Statuses, n: string, pod: RebootPod)
    requires spec.reboot
    ensures var t := s[n := WaitingEntry(pod)];
            Started(spec, t, n) && t[n].jobName == "" && t[n].message == WaitingMessage(pod) && t == s[n := t[n]]
    ensures n in s && AwaitingRebootPod(s[n]) ==> Started(spec, s, n) && s[n].jobName == ""
  {
  }

  /** startMainJob without reboot mode: every call draws a new Job name. */
  method StartWithoutReboot(api: Api, op: NodeOp, n: string) returns (ok: bool)
    requires Inv(api.spec, api.w) && Holds(api.spec, api.w, op) && Room(api.spec, op.statuses, n)
    requires !api.w.halted && !Recorded(Current(api.w), n) && !api.spec.reboot
    modifies api, op`statuses, op`version
    ensures Inv(api.spec, api.w) && Holds(api.spec, api.w, op)
    ensures Moved(old(api.w), api.w, op.statuses)
    ensures op.statuses == old(op.statuses) || (Started(api.spec, op.statuses, n) &&
              op.statuses == old(op.statuses)[n := op.statuses[n]])
    ensures ok ==> Started(api.spec, op.statuses, n) && Current(api.w) == op.statuses
    ensures api.quiet ==> Beside(old(api.w), api.w, n)
    ensures api.quiet && old(op.version) == Version(old(api.w)) ==> op.version == Version(api.w)
    ensures api.quiet && old(op.version) == Version(old(api.w)) && CanStart(api.spec, old(api.w), n) ==> ok
    ensures api.quiet && ok ==> StartedFrom(api.spec, old(api.w), op.statuses, n)
    ensures api.quiet ==> StartEffects(api.spec, old(api.w), api.w, n, old(op.version) == Version(old(api.w)))
  {
    hide Inv, Good, Passive, Forward, Advances, Room, Recorded, JobReady, JobMade;
    hide Beside, StartedFrom, CanStart, Started, StartEffects, JobSettled;
    ghost var s, version, w0 := op.statuses, op.version, api.w;
    var j := api.DrawJobName(n);
    ghost var u := api.w;
    PassiveMoved(w0, u, s);
    StillHolds(api.spec, w0, u, s, version);
    DrawnIsReady(api.spec, u, n, j);
    JobsAreNamed(api.spec, w0);
    BesideHandOut(w0, n, j);
    ghost var seen;
    ok, seen := CreateNodeJob(api, op, n, j);
    PassiveThenMoved(w0, u, api.w, op.statuses);
    RecordedIsStarted(api.spec, s, n, j);
    if api.quiet {
      BesideChain(w0, u, api.w, n);
      MovedKeeps(w0, api.w, op.statuses, n);
      EffectsWithoutReboot(api.spec, w0, api.w, n, j, version == Version(w0));
    }
    StartsWithoutPod(api.spec, w0, op.statuses, n);
  }

  method StartMainJob(api: Api, op: NodeOp, n: string) returns (ok: bool)
    requires Inv(api.spec, api.w) && Holds(api.spec, api.w, op) && Room(api.spec, op.statuses, n)
    requires !api.w.halted && !Recorded(Current(api.w), n)
    modifies api, op`statuses, op`version
    ensures Inv(api.spec, api.w) && Holds(api.spec, api.w, op)
    ensures Moved(old(api.w), api.w, op.statuses)
    ensures op.statuses == old(op.statuses) || (Started(api.spec, op.statuses, n) &&
              op.statuses == old(op.statuses)[n := op.statuses[n]])
    ensures ok ==> Started(api.spec, op.statuses, n) && (op.statuses == old(op.statuses) || Current(api.w) == op.statuses)
    ensures api.quiet ==> Beside(old(api.w), api.w, n)
    ensures api.quiet && old(op.version) == Version(old(api.w)) ==> op.version == Version(api.w)
    ensures api.quiet && old(op.version) == Version(old(api.w)) && CanStart(api.spec, old(api.w), n) ==> ok
    ensures api.quiet && ok ==> StartedFrom(api.spec, old(api.w), op.statuses, n)
    ensures api.quiet ==> StartEffects(api.spec, old(api.w), api.w, n, old(op.version) == Version(old(api.w)))
    ensures api.quiet && api.spec.reboot ==>
              PodDecides(old(api.w), api.w, n, op.statuses, old(op.version) == Version(old(api.w)), ok)
    ensures api.quiet && old(op.version) == Version(old(api.w)) && api.spec.reboot && !HasLive(old(api.w), n) ==> ok
    ensures api.quiet && old(op.version) == Version(old(api.w)) && !api.spec.reboot && HasNode(old(api.w), n) ==> ok
  {
    hide Inv, Good, Passive, Forward, Advances, Room, Recorded, JobReady, Chosen, HasLive, Oldest, JobMade;
    hide AllDeleted, KeepOnly, AddRebootPod, RebootPodReady, Beside, StartedFrom, CanStart, WaitingMessage, Started;
    hide StartEffects, PodFollowed, FreshPod, ByRule, PodDecides;
    ghost var s, version, w0 := op.statuses, op.version, api.w;
    MeansCanStart(api.spec, w0, n);
    if !api.spec.reboot {
      ok := StartWithoutReboot(api, op, n);
      return;
    }
    var chosen := ChooseRebootPod(api, n, s);
    ghost var u := api.w;
    ForwardHolds(w0, u, s, version);
    if chosen.None? { return false; }
    if api.quiet {
      ChosenByRule(w0, u, n, chosen.value);
      StartsByPod(api.spec, w0, n, chosen.value);
    }
    ok := FollowRebootPod(api, op, n, chosen.value);
    MovedSame(w0, u, api.w, op.statuses);
    if api.quiet {
      BesideChain(w0, u, api.w, n);
      StartsWith(api.spec, w0, u, api.w, n, chosen.value, version == Version(w0));
      if ok { StartedByPod(api.spec, w0, op.statuses, n, chosen.value); }
      EffectsDecide(api.spec, w0, api.w, n, op.statuses, version == Version(w0), ok);
    }
  }

  lemma MeansCanStart(spec: Spec, w: World, n: string)
    ensures (if spec.reboot then !HasLive(w, n) else HasNode(w, n)) ==> CanStart(spec, w, n)
  {
    assert forall p :: Oldest(w, n, p) ==> LiveOn(w, n, p);
  }

  lemma StartsWith(spec: Spec, u: World, v: World, w: World, n: string, x: ListedPod, current: bool)
    requires spec.reboot && Chosen(v, n, x) && PodFollowed(v, w, n, x, current)
    requires HasLive(u, n) ==> Oldest(u, n, x.name) && x.pod == u.pods[x.name] && v == KeepOnly(u, n, x.name)
    requires !HasLive(u, n) ==> FreshPod(u, v, n, x)
    ensures StartEffects(spec, u, w, n, current)
  {
    if HasLive(u, n) {
      EffectsOldPod(spec, u, w, n, x, current);
    } else {
      FreshPodFacts(u, v, n, x);
      EffectsNewPod(spec, u, v, w, n, x, current);
    }
  }

  lemma RecordedIsStarted(spec: Spec, s: Statuses, n: string, j: string)
    requires j != ""
    ensures var t := s[n := RecordedEntry(spec, j)];
            Started(spec, t, n) && t[n].jobName == j && t == s[n := t[n]]
  {
  }

  lemma StartsWithoutPod(spec: Spec, w: World, s: Statuses, n: string)
    requires !spec.reboot
    ensures CanStart(spec, w, n) ==> HasNode(w, n)
    ensures Started(spec, s, n) ==> StartedFrom(spec, w, s, n)
  {
  }

  /** `x` is the Pod that the node's state determines: the oldest live one, or else a new one. */
  ghost predicate ByRule(w: World, n: string, x: ListedPod) {
    if HasLive(w, n) then Oldest(w, n, x.name) && x.pod == w.pods[x.name]
    else !RebootPodReady(x.pod) && x.pod.jobName != "" && WaitingMessage(x.pod) == WaitingForRebootPod(None, "")
  }

  lemma ChosenByRule(u: World, v: World, n: string, x: ListedPod)
    requires if HasLive(u, n) then Oldest(u, n, x.name) && x.pod == u.pods[x.name] else FreshPod(u, v, n, x)
    ensures ByRule(u, n, x)
  {
    if !HasLive(u, n) { FreshPodFacts(u, v, n, x); }
  }

  lemma StartsByPod(spec: Spec, w: World, n: string, x: ListedPod)
    requires spec.reboot && ByRule(w, n, x)
    ensures CanStart(spec, w, n) ==>
              && x.pod.jobName != ""
              && (RebootPodReady(x.pod) ==>
                    OurJob(w, x.pod.jobName) || (x.pod.jobName !in w.jobs && HasNode(w, n)))
  {
  }

  lemma StartedByPod(spec: Spec, w: World, s: Statuses, n: string, x: ListedPod)
    requires spec.reboot && ByRule(w, n, x) && Started(spec, s, n)
    requires if RebootPodReady(x.pod) then s[n].jobName == x.pod.jobName
             else s[n].jobName == "" && s[n].message == WaitingMessage(x.pod)
    ensures StartedFrom(spec, w, s, n)
  {
    forall p | Oldest(w, n, p) ensures HasLive(w, n) && p == x.name {
      OldestIsUnique(w, n, p, x.name);
    }
  }

  lemma ForwardHolds(u: World, v: World, s: Statuses, version: nat)
    requires Forward(u, v) && version < |u.history| && Advances(u.history[version], s)
    requires u.history != [] && v.history != [] && Current(v) == Current(u) && v.halted == u.halted
    ensures version < |v.history| && Advances(v.history[version], s) && Moved(u, v, s)
  {
  }
}
