/** Environment steps keep the invariant, and what the operator knows stays true across them. */
module EnvironmentLemmas {
  import opened BootIds
  import opened NodeOpTypes
  import opened Cluster
  import opened Environment

  lemma StepJobs(w: World, s: EnvStep)
    requires Enabled(w, s) && forall j | j in w.jobs :: j in w.jobNames
    ensures JobsFrom(w.jobs, w.jobNames, JobsAfter(w, s))
    ensures w.jobNames <= JobNamesAfter(w, s)
    ensures forall j | j in JobsAfter(w, s) :: j in JobNamesAfter(w, s)
  {
  }

  lemma StepPods(w: World, s: EnvStep)
    requires Enabled(w, s)
    ensures PodsFrom(w.pods, PodsAfter(w, s)) && w.readied <= ReadiedAfter(w, s)
  {
  }

  /** A step notes a reboot Pod as ready only when its last Ready condition is true and its container runs. */
  lemma StepReady(w: World, s: EnvStep)
    requires w.history != [] && Enabled(w, s) && ReadyNoted(w, w.pods)
    ensures ReadyNoted(Next(w, s), Next(w, s).pods)
    ensures ReadyMeansRunning(w) ==> ReadyMeansRunning(Next(w, s))
    ensures forall x | x in Next(w, s).readied && x !in w.readied ::
              && x.container == ContainerRunning && x.readyConditions != [] && x.readyConditions[|x.readyConditions| - 1]
              && exists p :: p in w.pods && w.pods[p].node == x.node && w.pods[p].jobName == x.job
  {
  }

  lemma StepBoots(w: World, s: EnvStep)
    requires Enabled(w, s)
    ensures forall n :: Boots(w, n) <= (if n in BootsAfter(w, s) then BootsAfter(w, s)[n] else [])
    ensures w.reports <= ReportsAfter(w, s) && w.podsSeen <= PodsSeenAfter(w, s) && w.issued <= IssuedAfter(w, s)
  {
  }

  lemma StepNodes(w: World, s: EnvStep)
    requires w.history != [] && Enabled(w, s)
    ensures NodesGrow(w, Next(w, s))
  {
    hide JobsAfter, PodsAfter, ReadiedAfter, BootsAfter, ViewsAfter, ReportsAfter, PodsSeenAfter, IssuedAfter, Disturbs;
  }

  lemma StepKeeps(w: World, s: EnvStep)
    requires w.history != [] && Enabled(w, s) && !Disturbs(w, s)
    ensures forall j | j in w.jobs && UnrecordedJob(w, j) :: j in JobsAfter(w, s)
    ensures forall p | p in w.pods && CarriesUnrecordedJob(w, p) :: p in PodsAfter(w, s) && Live(PodsAfter(w, s)[p])
  {
  }

  lemma StepIsEnv(w: World, s: EnvStep)
    requires w.history != [] && ReadyNoted(w, w.pods) && forall j | j in w.jobs :: j in w.jobNames
    ensures Env(w, Next(w, s)) && ReadyNoted(Next(w, s), Next(w, s).pods)
    ensures ReadyMeansRunning(w) ==> ReadyMeansRunning(Next(w, s))
    ensures forall j | j in Next(w, s).jobs :: j in Next(w, s).jobNames
  {
    if Enabled(w, s) {
      StepJobs(w, s);
      StepPods(w, s);
      StepReady(w, s);
      StepBoots(w, s);
      StepNodes(w, s);
      if !Disturbs(w, s) { StepKeeps(w, s); }
    } else {
      EnvRefl(w);
    }
  }

  lemma ReportedGrows(w: World, v: World, j: string, id: string)
    requires BootsGrow(w, v) && v.drawn == w.drawn
    ensures RanOn(w, j, id) ==> RanOn(v, j, id)
    ensures Reported(w, j, id) ==> Reported(v, j, id)
    ensures forall n :: RebootProven(w, n, j, id) ==> RebootProven(v, n, j, id)
  {
    if RanOn(w, j, id) {
      var k :| (j, k) in w.reports && k < |Boots(w, w.drawn[j])| && Boots(w, w.drawn[j])[k] == id;
      assert Boots(w, w.drawn[j]) <= Boots(v, w.drawn[j]);
      assert (j, k) in v.reports;
    }
    forall n | RebootProven(w, n, j, id) ensures RebootProven(v, n, j, id) {
      BootedSinceGrows(w, v, n, id, |Boots(w, n)|);
    }
  }

  lemma BootedSinceGrows(w: World, v: World, n: string, id: string, boots: nat)
    requires BootsGrow(w, v) && BootedSince(w, n, id, boots)
    ensures forall more: nat | boots <= more :: BootedSince(v, n, id, more)
    ensures |Boots(w, n)| <= |Boots(v, n)|
  {
    var k :| 0 <= k < |Boots(w, n)| && k + 1 < boots && Boots(w, n)[k] == id;
    assert Boots(w, n) <= Boots(v, n);
    assert Boots(v, n)[k] == id;
  }

  lemma GenuineGrows(w: World, v: World, j: string, pod: UpgradePod)
    requires BootsGrow(w, v) && v.drawn == w.drawn && Genuine(w, j, pod)
    ensures Genuine(v, j, pod)
  {
    forall id | id != "" && Reports(pod, id) ensures RanOn(v, j, id) {
      ReportedGrows(w, v, j, id);
    }
  }

  lemma GoodEntryGrows(spec: Spec, w: World, v: World, n: string, e: NodeStatus)
    requires Env(w, v) && GoodEntry(spec, w, n, e)
    ensures GoodEntry(spec, v, n, e)
  {
    ReportedGrows(w, v, e.jobName, e.bootId);
    assert forall j :: Created(v, n, j) == Created(w, n, j);
  }

  lemma GoodGrows(spec: Spec, w: World, v: World, s: Statuses)
    requires Env(w, v) && Good(spec, w, s)
    ensures Good(spec, v, s)
  {
    forall n | n in s ensures GoodEntry(spec, v, n, s[n]) {
      GoodEntryGrows(spec, w, v, n, s[n]);
    }
  }

  lemma NextBoots(w: World, s: EnvStep)
    requires w.history != []
    ensures BootsGrow(w, Next(w, s)) && Next(w, s).drawn == w.drawn
  {
    if Enabled(w, s) {
      StepPods(w, s);
      StepBoots(w, s);
    }
  }

  lemma BootsStep(w: World, s: EnvStep)
    requires Physical(w) && Enabled(w, s)
    ensures forall n | n in BootsAfter(w, s) :: BootsFine(BootsAfter(w, s)[n])
  {
    if s.NodeBoots? {
      assert BootsFine(Boots(w, s.node));
      assert BootsFine(Boots(w, s.node) + [s.bootId]);
    }
  }

  lemma ReportsStep(w: World, s: EnvStep)
    requires Physical(w) && w.history != []
    ensures var v := Next(w, s);
            (forall r | r in v.reports :: r.0 in v.drawn && r.1 < |Boots(v, v.drawn[r.0])|)
  {
    NextBoots(w, s);
    var v := Next(w, s);
    forall r | r in v.reports ensures r.0 in v.drawn && r.1 < |Boots(v, v.drawn[r.0])| {
      if r in w.reports { assert Boots(w, w.drawn[r.0]) <= Boots(v, v.drawn[r.0]); }
    }
  }

  lemma IssuedStep(w: World, s: EnvStep)
    requires Physical(w) && w.history != []
    ensures var v := Next(w, s);
            forall i | i in v.issued ::
              && i.1 in v.drawn && v.drawn[i.1] == i.0
              && i.2 < |Boots(v, i.0)| && Reported(v, i.1, Boots(v, i.0)[i.2])
  {
    NextBoots(w, s);
    hide Reported;
    var v := Next(w, s);
    forall i | i in v.issued
      ensures i.1 in v.drawn && v.drawn[i.1] == i.0 && i.2 < |Boots(v, i.0)| && Reported(v, i.1, Boots(v, i.0)[i.2])
    {
      assert Boots(w, i.0) <= Boots(v, i.0);
      ReportedGrows(w, v, i.1, Boots(w, i.0)[i.2]);
    }
  }

  lemma ListedStep(w: World, s: EnvStep)
    requires Physical(w) && w.history != []
    ensures var v := Next(w, s);
            forall j, p | j in v.jobPods && p in v.jobPods[j] :: (j, p) in v.podsSeen
  {
    hide Genuine, Reported, Plausible, BootsFine;
    hide JobsAfter, PodsAfter, ReadiedAfter, NodesAfter, FormerAfter, BootsAfter, ViewsAfter, ReportsAfter, IssuedAfter, Disturbs;
  }

  lemma NodesStep(w: World, s: EnvStep)
    requires Physical(w) && w.history != []
    ensures var v := Next(w, s);
            && (forall n | n in v.nodes :: v.nodes[n] != [])
            && (forall n | n in v.views :: n in v.nodes)
  {
    hide Genuine, Reported, Plausible, BootsFine, PodsSeenAfter;
    hide JobsAfter, PodsAfter, ReadiedAfter, BootsAfter, ReportsAfter, IssuedAfter, Disturbs;
  }

  lemma PodsSeenStep(w: World, s: EnvStep)
    requires Physical(w) && w.history != []
    ensures var v := Next(w, s);
            forall i | i in v.podsSeen :: Genuine(v, i.0, i.1)
  {
    NextBoots(w, s);
    hide Genuine, Reported, Plausible, BootsFine;
    hide JobsAfter, PodsAfter, ReadiedAfter, BootsAfter, ViewsAfter, ReportsAfter, IssuedAfter, Disturbs, BootsGrow;
    var v := Next(w, s);
    forall i | i in v.podsSeen ensures Genuine(v, i.0, i.1) {
      if i !in w.podsSeen {
        assert i.0 == s.job && i.1 in s.pods;
      }
      GenuineGrows(w, v, i.0, i.1);
    }
  }

  lemma ViewsStep(w: World, s: EnvStep)
    requires Physical(w) && w.history != []
    ensures forall n | n in Next(w, s).views :: Plausible(Next(w, s), n, Next(w, s).views[n])
  {
    NextBoots(w, s);
    forall n | n in Next(w, s).views ensures Plausible(Next(w, s), n, Next(w, s).views[n]) {
      if Enabled(w, s) && s.KubeletReports? && s.node == n {
        FreshViewPlausible(w, s);
      } else {
        assert Next(w, s).views[n] == w.views[n];
        OldViewPlausible(w, s, n);
      }
    }
  }

  lemma FreshViewPlausible(w: World, s: EnvStep)
    requires Physical(w) && w.history != [] && s.KubeletReports? && Enabled(w, s)
    ensures Plausible(Next(w, s), s.node, Next(w, s).views[s.node])
  {
    var v := Next(w, s);
    assert v.boots == w.boots && v.reports == w.reports && v.drawn == w.drawn;
    if Boots(w, s.node) != [] {
      var k := |Boots(w, s.node)| - 1;
      assert Boots(v, s.node)[k] == v.views[s.node].bootId;
    }
  }

  lemma OldViewPlausible(w: World, s: EnvStep, n: string)
    requires Physical(w) && w.history != [] && n in w.views
    requires Next(w, s).drawn == w.drawn && BootsGrow(w, Next(w, s))
    ensures Plausible(Next(w, s), n, w.views[n])
  {
    hide Reported, Genuine, BootsFine, Next, BootsGrow, Plausible;
    NewReports(w, s);
    ViewStays(w, Next(w, s), n, w.views[n]);
  }

  /** A reporter only runs while its node's view shows the current boot. */
  lemma NewReports(w: World, s: EnvStep)
    requires w.history != []
    ensures forall r | r in Next(w, s).reports && r !in w.reports ::
              && r.0 in w.drawn && Boots(w, w.drawn[r.0]) != [] && r.1 == LastBoot(w, w.drawn[r.0])
              && w.drawn[r.0] in w.views
              && w.views[w.drawn[r.0]].bootId == Boots(w, w.drawn[r.0])[r.1]
  {
    hide JobsAfter, PodsAfter, ReadiedAfter, NodesAfter, FormerAfter, BootsAfter, ViewsAfter, PodsSeenAfter, IssuedAfter;
    hide Disturbs;
  }

  lemma ViewStays(w: World, v: World, n: string, view: NodeView)
    requires Plausible(w, n, view) && BootsGrow(w, v) && v.drawn == w.drawn && (n in w.boots ==> BootsFine(w.boots[n]))
    requires forall r | r in v.reports && r !in w.reports && r.0 in w.drawn && w.drawn[r.0] == n ::
               r.1 == |Boots(w, n)| - 1 && Boots(w, n) != [] && Boots(w, n)[r.1] == view.bootId
    ensures Plausible(v, n, view)
  {
    if view.bootId != "" {
      var k :| 0 <= k < |Boots(w, n)| && Boots(w, n)[k] == view.bootId &&
               forall r | r in w.reports && r.0 in w.drawn && w.drawn[r.0] == n :: r.1 <= k;
      assert Boots(w, n) <= Boots(v, n);
      assert Boots(v, n)[k] == view.bootId;
    }
  }

  lemma PhysicalStep(w: World, s: EnvStep)
    requires Physical(w) && w.history != []
    ensures Physical(Next(w, s))
  {
    if Enabled(w, s) { BootsStep(w, s); }
    ReportsStep(w, s);
    IssuedStep(w, s);
    ListedStep(w, s);
    NodesStep(w, s);
    PodsSeenStep(w, s);
    ViewsStep(w, s);
  }

  lemma NamedGrows(spec: Spec, w: World, v: World)
    requires Env(w, v) && Named(spec, w) && ReadyNoted(v, v.pods) && ReadyMeansRunning(v)
    requires forall j | j in v.jobs :: j in v.jobNames
    ensures Named(spec, v)
  {
    assert forall n, j :: Created(v, n, j) == Created(w, n, j);
  }

  lemma PledgeGrows(spec: Spec, w: World, v: World)
    requires Env(w, v) && Named(spec, w) && Pledge(w) && v.undisturbed
    ensures v.history != [] && Pledge(v)
  {
    EnvCurrent(w, v);
    forall n, j | Created(v, n, j) ensures Recorded(Current(v), n) || Underway(v, n, j) {
      assert Created(w, n, j);
      if !Recorded(Current(w), n) {
        assert Underway(w, n, j);
        assert Created(w, w.jobs[j].node, j);
        assert UnrecordedJob(w, j);
        var p :| LiveOn(w, n, p);
        assert CarriesUnrecordedJob(w, p);
        assert LiveOn(v, n, p);
      }
    }
  }

  lemma ProtocolGrows(spec: Spec, w: World, v: World)
    requires Env(w, v) && Protocol(spec, w) && ReadyNoted(v, v.pods) && ReadyMeansRunning(v)
    requires forall j | j in v.jobs :: j in v.jobNames
    ensures Protocol(spec, v)
  {
    EnvCurrent(w, v);
    forall i | 0 <= i < |v.history| ensures Good(spec, v, v.history[i]) {
      var s := if i < |w.history| then w.history[i] else Current(w);
      assert v.history[i] == s;
      GoodGrows(spec, w, v, s);
    }
    forall i, k | 0 <= i <= k < |v.history| ensures Advances(v.history[i], v.history[k]) {
      var a := if i < |w.history| then i else |w.history| - 1;
      var b := if k < |w.history| then k else |w.history| - 1;
      assert v.history[i] == w.history[a] && v.history[k] == w.history[b];
    }
    NamedGrows(spec, w, v);
    if spec.reboot && v.undisturbed { PledgeGrows(spec, w, v); }
    forall e | e in v.trace ensures Justified(spec, v, e) {
      if e.Uncordoned? && e.cause.AfterSuccess? && spec.reboot {
        assert Justified(spec, w, e);
        ReportedGrows(w, v, e.cause.job, e.cause.bootId);
        BootedSinceGrows(w, v, e.node, e.cause.bootId, e.boots);
      }
    }
  }

  /** Every environment step keeps the invariant. */
  lemma StepKeepsInv(spec: Spec, w: World, s: EnvStep)
    requires Inv(spec, w)
    ensures Inv(spec, Next(w, s)) && Env(w, Next(w, s))
  {
    StepIsEnv(w, s);
    PhysicalStep(w, s);
    ProtocolGrows(spec, w, Next(w, s));
  }
}
