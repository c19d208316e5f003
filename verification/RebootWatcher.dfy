/** The reboot Pod's program: internal/rebootwatcher. */
module RebootWatcher {
  import opened Wrappers
  import opened BootIds
  import opened NodeOpTypes
  import opened Cluster
  import opened Environment
  import opened Knowledge
  import opened StatusFlow

  /** How a run of the program ends; `Killed` is a container stopped from outside, as when its node goes down. */
  datatype Outcome = AlreadyRebooted | MissingJobName | ContextDone | RebootFailed | DidNotGoDown | Killed

  /** The world as it changes while the program runs: any behaviour the operator, other watchers and the environment have. */
  ghost predicate Behaviour(spec: Spec, moments: nat -> World) {
    forall t: nat :: Inv(spec, moments(t)) && Forward(moments(t), moments(t + 1))
  }

  lemma {:induction false} LaterIsForward(spec: Spec, moments: nat -> World, a: nat, b: nat)
    requires Behaviour(spec, moments) && a <= b
    ensures Forward(moments(a), moments(b))
    decreases b - a
  {
    hide Forward, Inv;
    assert Forward(moments(a), moments(a + 1));
    if a == b {
      ForwardRefl(moments(a));
    } else if a + 1 < b {
      LaterIsForward(spec, moments, a + 1, b);
      ForwardTrans(moments(a), moments(a + 1), moments(b));
    }
  }

  /** jobComplete: some condition says so, whatever comes before it. */
  predicate Complete(conditions: seq<Condition>) {
    exists c | c in conditions :: c.kind == JobComplete && c.isTrue
  }

  method IsComplete(job: Job) returns (complete: bool)
    ensures complete == Complete(job.conditions)
    ensures complete <==> exists c | c in job.conditions :: c.kind == JobComplete && c.isTrue
  {
    var i := 0;
    while i < |job.conditions|
      invariant 0 <= i <= |job.conditions|
      invariant !Complete(job.conditions[..i])
    {
      var c := job.conditions[i];
      if c.kind == JobComplete && c.isTrue { return true; }
      assert job.conditions[..i + 1] == job.conditions[..i] + [c];
      i := i + 1;
    }
    assert job.conditions[..i] == job.conditions;
    complete := false;
  }

  /** What the program reaches from its container, on one node, over all its restarts. */
  class Machine {
    const spec: Spec
    const node: string
    const moments: nat -> World
    const quiet: bool        // no read fails, and nothing happens while it runs
    var now: nat
    var issued: seq<nat>     // the boots on which it called Reboot
    var sawComplete: bool    // a read showed the upgrade Job Complete

    constructor (spec: Spec, node: string, moments: nat -> World, quiet: bool)
      requires Behaviour(spec, moments)
      ensures this.spec == spec && this.node == node && this.moments == moments && this.quiet == quiet
      ensures now == 0 && issued == [] && !sawComplete
    {
      this.spec := spec;
      this.node := node;
      this.moments := moments;
      this.quiet := quiet;
      now := 0;
      issued := [];
      sawComplete := false;
    }

    function Now(): World
      reads this
    {
      moments(now)
    }

    /** The program was started for this node and this Job, in a possible world. */
    ghost predicate Valid(j: string)
      reads this
    {
      Behaviour(spec, moments) && (node, j) in Now().announced
    }

    /** Time passes; a boot of the node ends the program. */
    method Wait(j: string) returns (alive: bool)
      requires Valid(j)
      modifies this`now
      ensures Valid(j) && Forward(old(Now()), Now())
      ensures alive ==> Boots(Now(), node) == Boots(old(Now()), node)
      ensures quiet ==> alive && now == old(now)
    {
      hide Behaviour, Forward, Boots;
      var ticks: int := *;
      if ticks < 0 || quiet { ticks := 0; }
      LaterIsForward(spec, moments, now, now + ticks);
      StillAnnounced(moments(now), moments(now + ticks), node, j);
      alive := *;
      if quiet { alive := true; }
      if Boots(moments(now + ticks), node) != Boots(moments(now), node) { alive := false; }
      now := now + ticks;
    }

    /** Reads the Job from the API server. */
    method GetJob(j: string) returns (r: Result<Option<Job>>, alive: bool)
      requires Valid(j)
      modifies this`now, this`sawComplete
      ensures Valid(j) && Forward(old(Now()), Now())
      ensures alive ==> Boots(Now(), node) == Boots(old(Now()), node)
      ensures r.Ok? ==> r.value == LookUp(Now().jobs, j)
      ensures quiet ==> alive && now == old(now) && r.Ok?
      ensures sawComplete ==
              (old(sawComplete) || (r.Ok? && r.value.Some? && Complete(r.value.value.conditions)))
    {
      alive := Wait(j);
      var fails: bool := *;
      r := if fails && !quiet then Err else Ok(LookUp(moments(now).jobs, j));
      if r.Ok? && r.value.Some? && Complete(r.value.value.conditions) { sawComplete := true; }
    }

    /** The Job's Pods, each as it was at some moment. */
    method ListPods(j: string) returns (r: Result<seq<UpgradePod>>, alive: bool)
      requires Valid(j)
      modifies this`now
      ensures Valid(j) && Forward(old(Now()), Now())
      ensures alive ==> Boots(Now(), node) == Boots(old(Now()), node)
      ensures r.Ok? ==> forall p | p in r.value :: Genuine(Now(), j, p) && (j, p) in Now().podsSeen
      ensures quiet ==> alive && now == old(now) && r == Ok(PodsOf(Now(), j))
    {
      alive := Wait(j);
      SeenIsGenuine(spec, moments(now), j);
      if quiet { return Ok(PodsOf(moments(now), j)), alive; }
      var fails: bool := *;
      if fails { return Err, alive; }
      var pods: seq<UpgradePod> := *;
      if exists p | p in pods :: (j, p) !in moments(now).podsSeen { pods := []; }
      r := Ok(pods);
    }

    /** The kernel's boot ID; anything that is not a boot ID stands for a read that failed. */
    method ReadBootID(j: string) returns (id: string, alive: bool)
      requires Valid(j)
      modifies this`now
      ensures Valid(j) && Forward(old(Now()), Now())
      ensures alive ==> Boots(Now(), node) == Boots(old(Now()), node)
      ensures quiet ==> alive && now == old(now) && BootIds.Valid(id) == (Boots(Now(), node) != [])
      ensures BootIds.Valid(id) ==> Boots(Now(), node) != [] && id == Boots(Now(), node)[LastBoot(Now(), node)]
    {
      hide Behaviour, Forward, Boots, BootIds.Valid;
      alive := Wait(j);
      id := *;
      var boots := Boots(moments(now), node);
      NoBootId();
      if boots != [] { LastIsValid(spec, moments, now, node); }
      if BootIds.Valid(id) || quiet { id := if boots == [] then "" else boots[|boots| - 1]; }
    }

    /** Reboots the node: the step that the cluster's environment knows as WatcherReboots. */
    method Reboot(j: string) returns (ok: bool)
      requires Valid(j) && sawComplete && Enabled(Now(), WatcherReboots(node, j))
      modifies this`issued
      ensures issued == old(issued) + [LastBoot(Now(), node)] && (quiet ==> ok)
    {
      issued := issued + [|Boots(moments(now), node)| - 1];
      ok := *;
      if quiet { ok := true; }
    }
  }

  lemma StillAnnounced(u: World, v: World, n: string, j: string)
    requires Forward(u, v) && (n, j) in u.announced
    ensures (n, j) in v.announced
  {
  }

  lemma LastIsValid(spec: Spec, moments: nat -> World, t: nat, n: string)
    requires Behaviour(spec, moments) && Boots(moments(t), n) != []
    ensures BootIds.Valid(Boots(moments(t), n)[LastBoot(moments(t), n)])
  {
    InvAt(spec, moments, t);
    assert BootsFine(moments(t).boots[n]);
  }

  lemma NoBootId()
    ensures !BootIds.Valid("")
  {
  }

  lemma SeenIsGenuine(spec: Spec, w: World, j: string)
    requires Inv(spec, w)
    ensures forall p | (j, p) in w.podsSeen :: Genuine(w, j, p)
    ensures forall p | p in PodsOf(w, j) :: Genuine(w, j, p) && (j, p) in w.podsSeen
  {
    forall p | (j, p) in w.podsSeen ensures Genuine(w, j, p) {
      assert Genuine(w, (j, p).0, (j, p).1);
    }
    assert forall p | p in PodsOf(w, j) :: (j, p) in w.podsSeen;
  }

  /** The two boot IDs decide: equal is the reported boot, different is a later one. */
  lemma ReportedBoot(spec: Spec, w: World, n: string, j: string, id: string)
    requires Inv(spec, w) && (n, j) in w.announced && Reported(w, j, id) && Boots(w, n) != []
    ensures if RunsOn(w, n, id) then Enabled(w, WatcherReboots(n, j)) else RebootProven(w, n, j, id)
  {
    assert w.drawn[j] == n;
    var r :| r in w.reports && r.0 == j && r.1 < |Boots(w, n)| && Boots(w, n)[r.1] == id;
    assert 0 <= r.1 < |Boots(w, n)| && Boots(w, n)[r.1] == id;
  }

  lemma StillReported(u: World, v: World, n: string, j: string, id: string)
    requires Forward(u, v) && Reported(u, j, id)
    ensures Reported(v, j, id)
  {
    assert Boots(u, u.drawn[j]) <= Boots(v, v.drawn[j]);
  }

  /** The Job is complete and has reported, and the node is up. */
  predicate Due(w: World, n: string, j: string) {
    && j in w.jobs && Complete(w.jobs[j].conditions)
    && FromJobPods(PodsOf(w, j)) != "" && Boots(w, n) != []
  }

  /** The same by the Job's own conditions and its Pods: what the program waits for. */
  ghost predicate HasEnded(w: World, n: string, j: string) {
    && j in w.jobs && (exists c | c in w.jobs[j].conditions :: c.kind == JobComplete && c.isTrue)
    && j in w.jobPods
    && (exists p, c | p in w.jobPods[j] && p.phase == PodSucceeded && c in p.containers :: ContainerReport(c) != "")
    && n in w.boots && w.boots[n] != []
  }

  lemma DueMeaning(w: World, n: string, j: string)
    ensures Due(w, n, j) <==> HasEnded(w, n, j)
  {
    FromJobPodsMeaning(PodsOf(w, j));
    hide FromJobPods, ContainerReport;
  }

  /**
   * What a run does when nothing fails: it waits for the Job to be complete and to report, then reboots the node when
   * its current boot has the reported ID, and otherwise ends well.
   */
  ghost predicate RunFollows(w: World, n: string, j: string, id: string, before: seq<nat>, after: seq<nat>, r: Outcome) {
    if !HasEnded(w, n, j) then r == ContextDone && after == before
    else if w.boots[n][|w.boots[n]| - 1] == id then after == before + [|w.boots[n]| - 1]
    else r == AlreadyRebooted && after == before
  }

  lemma RunByDue(w: World, n: string, j: string, id: string, before: seq<nat>, after: seq<nat>, r: Outcome)
    requires if !Due(w, n, j) then r == ContextDone && after == before
             else if RunsOn(w, n, id) then after == before + [LastBoot(w, n)]
             else r == AlreadyRebooted && after == before
    ensures RunFollows(w, n, j, id, before, after, r)
  {
    DueMeaning(w, n, j);
    hide Due;
  }

  /** check: one attempt to collect both boot IDs. */
  method Check(m: Machine, j: string) returns (baseline: string, current: string, ready: bool, alive: bool)
    requires m.Valid(j)
    modifies m`now, m`sawComplete
    ensures m.Valid(j) && Forward(old(m.Now()), m.Now())
    ensures ready ==>
              && alive && m.sawComplete && Reported(m.Now(), j, baseline) && RunsOn(m.Now(), m.node, current)
    ensures m.quiet ==> alive && m.now == old(m.now) && (ready <==> Due(m.Now(), m.node, j))
    ensures m.quiet && ready ==> baseline == FromJobPods(PodsOf(m.Now(), j))
  {
    hide Behaviour, Forward, Boots, Inv, Genuine, Reported, Complete;
    baseline, current, ready := "", "", false;
    ghost var w0 := m.Now();
    var job;
    job, alive := m.GetJob(j);
    if !alive || job.Err? || job.value.None? { return; }
    var complete := IsComplete(job.value.value);
    if !complete { return; }
    ghost var w1 := m.Now();
    var pods;
    pods, alive := m.ListPods(j);
    ForwardTrans(w0, w1, m.Now());
    if !alive || pods.Err? { return; }
    var id := FromJobPods(pods.value);
    ReportFromPods(m.Now(), j, pods.value);
    if id == "" { return; }
    ghost var w2 := m.Now();
    var here;
    here, alive := m.ReadBootID(j);
    ForwardTrans(w0, w2, m.Now());
    if !alive || !BootIds.Valid(here) { return; }
    StillReported(w2, m.Now(), m.node, j, id);
    return id, here, true, true;
  }

  /** Node `n` is past the boot that a succeeded Pod of Job `j` reports as `id`: it booted again and runs on another. */
  predicate LeftBoot(w: World, n: string, j: string, id: string) {
    RebootProven(w, n, j, id) && !RunsOn(w, n, id)
  }

  /** At most one more reboot was issued, on the very boot that a succeeded Pod of Job `j` reports as `id`. */
  ghost predicate IssuedOn(w: World, n: string, j: string, id: string, before: seq<nat>, after: seq<nat>) {
    after == before ||
    exists boot: nat :: after == before + [boot] && boot < |Boots(w, n)| && Boots(w, n)[boot] == id && Reported(w, j, id)
  }

  /** act: reboots the node only when it is still on the reported boot. */
  method Act(m: Machine, j: string, baseline: string, current: string) returns (r: Outcome)
    requires m.Valid(j) && m.sawComplete && Reported(m.Now(), j, baseline)
    requires RunsOn(m.Now(), m.node, current)
    modifies m`now, m`issued
    ensures m.Valid(j) && Forward(old(m.Now()), m.Now())
    ensures r == AlreadyRebooted ==> LeftBoot(m.Now(), m.node, j, baseline) && m.issued == old(m.issued)
    ensures IssuedOn(m.Now(), m.node, j, baseline, old(m.issued), m.issued)
    ensures m.quiet ==>
              && m.now == old(m.now)
              && if baseline == current then m.issued == old(m.issued) + [LastBoot(m.Now(), m.node)] && r != RebootFailed
                 else r == AlreadyRebooted
  {
    hide Behaviour, Forward, Boots, Inv, Reported, RebootProven, RunsOn, LeftBoot, IssuedOn;
    ghost var w0 := m.Now();
    InvAt(m.spec, m.moments, m.now);
    NothingIssued(w0, m.node, j, baseline, m.issued);
    ForwardRefl(w0);
    OneCurrentBoot(w0, m.node, baseline, current);
    if baseline != current {
      BootLeft(m.spec, w0, m.node, j, baseline);
      return AlreadyRebooted;
    }
    var alive := m.Wait(j);
    NothingIssued(m.Now(), m.node, j, baseline, m.issued);
    if !alive { return Killed; }
    ghost var w1, before := m.Now(), m.issued;
    InvAt(m.spec, m.moments, m.now);
    StillReported(w0, w1, m.node, j, baseline);
    SameBoots(w0, w1, m.node, baseline);
    ReportedBoot(m.spec, w1, m.node, j, baseline);
    var started := m.Reboot(j);
    IssuedNow(w1, m.node, j, baseline, before);
    if !started { return RebootFailed; }
    alive := m.Wait(j);
    ForwardTrans(w0, w1, m.Now());
    StillIssued(m.spec, w1, m.Now(), m.node, j, baseline, before, m.issued);
    if !alive { return Killed; }
    var done: bool := *;
    r := if done then ContextDone else DidNotGoDown;
  }

  lemma NothingIssued(w: World, n: string, j: string, id: string, issued: seq<nat>)
    ensures IssuedOn(w, n, j, id, issued, issued)
  {
  }

  lemma OneCurrentBoot(w: World, n: string, id: string, current: string)
    requires RunsOn(w, n, current)
    ensures RunsOn(w, n, id) <==> id == current
    ensures Boots(w, n) != [] && current == Boots(w, n)[LastBoot(w, n)]
  {
  }

  lemma SameBoots(u: World, v: World, n: string, id: string)
    requires Boots(u, n) == Boots(v, n) && RunsOn(u, n, id)
    ensures RunsOn(v, n, id) && Boots(v, n) != []
  {
  }

  lemma BootLeft(spec: Spec, w: World, n: string, j: string, id: string)
    requires Inv(spec, w) && (n, j) in w.announced && Reported(w, j, id) && Boots(w, n) != [] && !RunsOn(w, n, id)
    ensures LeftBoot(w, n, j, id)
  {
    ReportedBoot(spec, w, n, j, id);
  }

  lemma IssuedNow(w: World, n: string, j: string, id: string, before: seq<nat>)
    requires RunsOn(w, n, id) && Reported(w, j, id)
    ensures IssuedOn(w, n, j, id, before, before + [LastBoot(w, n)])
  {
  }

  lemma StillIssued(spec: Spec, u: World, v: World, n: string, j: string, id: string, before: seq<nat>, after: seq<nat>)
    requires Forward(u, v) && IssuedOn(u, n, j, id, before, after)
    ensures IssuedOn(v, n, j, id, before, after)
  {
    assert Boots(u, n) <= Boots(v, n);
    if after != before {
      StillReported(u, v, n, j, id);
      var boot: nat :| after == before + [boot] && boot < |Boots(u, n)| && Boots(u, n)[boot] == id && Reported(u, j, id);
      assert boot < |Boots(v, n)| && Boots(v, n)[boot] == id;
    }
  }

  lemma InvAt(spec: Spec, moments: nat -> World, t: nat)
    requires Behaviour(spec, moments)
    ensures Inv(spec, moments(t))
  {
  }

  /**
   * Run: polls until both boot IDs are there. `polls` is how often before the context is done,
   * `id` the boot ID read from the Job's Pods.
   */
  method Run(m: Machine, j: string, polls: nat) returns (r: Outcome, ghost id: string)
    requires j != "" ==> m.Valid(j)
    modifies m
    ensures j != "" ==> m.Valid(j) && Forward(old(m.Now()), m.Now())
    ensures r == AlreadyRebooted ==> j != "" && LeftBoot(m.Now(), m.node, j, id) && m.issued == old(m.issued)
    ensures IssuedOn(m.Now(), m.node, j, id, old(m.issued), m.issued) && (j == "" ==> m.issued == old(m.issued))
    ensures m.quiet && j != "" && polls > 0 ==>
              && m.now == old(m.now)
              && if !Due(m.Now(), m.node, j) then r == ContextDone && m.issued == old(m.issued)
                 else
                   && id == FromJobPods(PodsOf(m.Now(), j))
                   && if RunsOn(m.Now(), m.node, id) then m.issued == old(m.issued) + [LastBoot(m.Now(), m.node)]
                      else r == AlreadyRebooted
    ensures m.quiet && j != "" && polls > 0 ==> RunFollows(m.Now(), m.node, j, id, old(m.issued), m.issued, r)
  {
    hide RunFollows;
    hide Behaviour, Forward, Boots, Inv, Reported, RebootProven, RunsOn, LeftBoot, IssuedOn, Due;
    ghost var w0 := m.Now();
    id := "";
    NothingIssued(w0, m.node, j, id, m.issued);
    if j == "" { return MissingJobName, id; }
    ForwardRefl(w0);
    var left := polls;
    while left > 0
      invariant m.Valid(j) && Forward(w0, m.Now()) && m.issued == old(m.issued)
      invariant m.quiet ==> m.now == old(m.now) && (left < polls ==> !Due(m.Now(), m.node, j))
    {
      ghost var u := m.Now();
      var baseline, current, ready, alive := Check(m, j);
      ForwardTrans(w0, u, m.Now());
      NothingIssued(m.Now(), m.node, j, id, m.issued);
      if !alive { return Killed, id; }
      if ready {
        ghost var v := m.Now();
        id := baseline;
        OneCurrentBoot(v, m.node, baseline, current);
        r := Act(m, j, baseline, current);
        ForwardTrans(w0, v, m.Now());
        if m.quiet { RunByDue(m.Now(), m.node, j, id, old(m.issued), m.issued, r); }
        return;
      }
      left := left - 1;
    }
    NothingIssued(m.Now(), m.node, j, id, m.issued);
    r := ContextDone;
    if m.quiet && polls > 0 { RunByDue(m.Now(), m.node, j, id, old(m.issued), m.issued, r); }
  }

  /** The succeeded Pods of Job `j` all report the same boot ID. */
  ghost predicate FixedReport(w: World, j: string) {
    forall a, b | SeenReport(w, j, a) && SeenReport(w, j, b) :: a == b
  }

  /** Every one of these boots is one that a succeeded Pod of Job `j` reports. */
  ghost predicate AllReported(w: World, n: string, j: string, issued: seq<nat>) {
    forall boot | boot in issued :: boot < |Boots(w, n)| && Reported(w, j, Boots(w, n)[boot])
  }

  /**
   * Kubernetes runs the program again after every way out but success. Over all its runs it
   * reboots the node only from a boot that a succeeded Pod reports: when those reports agree,
   * from a single one.
   */
  method RunAgain(m: Machine, j: string, polls: nat, restarts: nat) returns (r: Outcome, ghost id: string)
    requires j != "" && m.Valid(j) && m.issued == []
    modifies m
    ensures m.Valid(j) && Forward(old(m.Now()), m.Now())
    ensures r == AlreadyRebooted ==> LeftBoot(m.Now(), m.node, j, id)
    ensures AllReported(m.Now(), m.node, j, m.issued)
    ensures FixedReport(m.Now(), j) ==> forall a, b | a in m.issued && b in m.issued :: a == b
  {
    hide Behaviour, Forward, Boots, Inv, Reported, LeftBoot, FixedReport, AllReported, IssuedOn;
    ghost var w0 := m.Now();
    NoneIssued(w0, m.node, j);
    r, id := Run(m, j, polls);
    IssuedReported(w0, m.Now(), m.node, j, id, [], m.issued);
    var left := restarts;
    while r != AlreadyRebooted && left > 0
      invariant m.Valid(j) && Forward(w0, m.Now())
      invariant r == AlreadyRebooted ==> LeftBoot(m.Now(), m.node, j, id)
      invariant AllReported(m.Now(), m.node, j, m.issued)
    {
      ghost var u, before := m.Now(), m.issued;
      var alive := m.Wait(j);
      ForwardTrans(w0, u, m.Now());
      ghost var v := m.Now();
      r, id := Run(m, j, polls);
      ForwardTrans(u, v, m.Now());
      IssuedReported(u, m.Now(), m.node, j, id, before, m.issued);
      ForwardTrans(w0, v, m.Now());
      left := left - 1;
    }
    InvAt(m.spec, m.moments, m.now);
    OneBootOnly(m.spec, m.Now(), m.node, j, m.issued);
  }

  lemma NoneIssued(w: World, n: string, j: string)
    ensures AllReported(w, n, j, [])
  {
  }

  lemma IssuedReported(u: World, v: World, n: string, j: string, id: string, before: seq<nat>, after: seq<nat>)
    requires Forward(u, v) && AllReported(u, n, j, before) && IssuedOn(v, n, j, id, before, after)
    ensures AllReported(v, n, j, after)
  {
    assert Boots(u, n) <= Boots(v, n);
    forall boot | boot in before ensures boot < |Boots(v, n)| && Reported(v, j, Boots(v, n)[boot]) {
      StillReported(u, v, n, j, Boots(u, n)[boot]);
    }
  }

  lemma OneBootOnly(spec: Spec, w: World, n: string, j: string, issued: seq<nat>)
    requires Inv(spec, w) && AllReported(w, n, j, issued)
    ensures FixedReport(w, j) ==> forall a, b | a in issued && b in issued :: a == b
  {
    if FixedReport(w, j) {
      forall a, b | a in issued && b in issued ensures a == b {
        assert SeenReport(w, j, Boots(w, n)[a]) && SeenReport(w, j, Boots(w, n)[b]);
        assert BootsFine(w.boots[n]);
      }
    }
  }

  /** Any number of watchers of one Job: if its Pods' reports agree they reboot the node from one boot only. */
  lemma WatchersCauseOneBoot(spec: Spec, w: World, a: (string, string, nat), b: (string, string, nat))
    requires Inv(spec, w) && a in w.issued && b in w.issued && a.1 == b.1 && FixedReport(w, a.1)
    ensures a == b
    ensures a.2 < |Boots(w, a.0)| && Reported(w, a.1, Boots(w, a.0)[a.2])
  {
    assert SeenReport(w, a.1, Boots(w, a.0)[a.2]) && SeenReport(w, a.1, Boots(w, a.0)[b.2]);
    assert BootsFine(w.boots[a.0]);
  }

  /** When the operator takes a node for rebooted, the watcher sees another boot than the reported one. */
  lemma OperatorAndWatcherAgree(spec: Spec, w: World, n: string, j: string, id: string, v: NodeView)
    requires Inv(spec, w) && Reported(w, j, id) && w.drawn[j] == n && Plausible(w, n, v) && RebootedSince(v, id)
    ensures Boots(w, n) != [] && LeftBoot(w, n, j, id)
  {
    OtherBootProves(spec, w, n, j, id, v);
    LaterBootDiffers(w, n, id, |Boots(w, n)|);
  }

  /**
   * Once the status says that the reboot is completed, no watcher that reads the stored boot ID reboots
   * the node, and none does at all if the Job's Pods' reports agree.
   */
  lemma NoRebootAfterCompleted(spec: Spec, w: World, version: nat, n: string)
    requires Inv(spec, w) && version < |w.history| && n in w.history[version]
    requires w.history[version][n].rebootStatus == RebootCompleted
    ensures LeftBoot(w, n, w.history[version][n].jobName, w.history[version][n].bootId)
    ensures FixedReport(w, w.history[version][n].jobName) ==> !Enabled(w, WatcherReboots(n, w.history[version][n].jobName))
  {
    var e := w.history[version][n];
    assert Good(spec, w, w.history[version]);
    assert GoodEntry(spec, w, n, e);
    LaterBootDiffers(w, n, e.bootId, |Boots(w, n)|);
  }
}
