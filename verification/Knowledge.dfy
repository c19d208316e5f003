/** What the operator may keep relying on between its calls. */
module Knowledge {
  import opened NodeOpTypes
  import opened Cluster
  import opened Environment
  import opened EnvironmentLemmas
  import opened OperatorWrites

  /**
   * The cluster moved on without a status write, a new Job of ours or a new reboot Pod:
   * by environment steps, or by the operator's other writes.
   */
  ghost predicate Passive(u: World, v: World) {
    && u.history != [] && u.history <= v.history && Current(v) == Current(u)
    && (forall j | j in u.drawn :: j in v.drawn && v.drawn[j] == u.drawn[j])
    && u.announced <= v.announced
    && u.trace <= v.trace && NoJobMade(u, v) && (forall n, j :: Created(v, n, j) <==> Created(u, n, j))
    && v.halted == u.halted && u.jobNames <= v.jobNames
    && JobsEvolve(u, v) && PodsShrink(u, v) && BootsGrow(u, v)
    && (v.undisturbed ==> u.undisturbed)
  }

  lemma PassiveRefl(u: World)
    requires u.history != []
    ensures Passive(u, u)
  {
  }

  lemma PassiveTrans(u: World, v: World, w: World)
    requires Passive(u, v) && Passive(v, w)
    requires forall j | j in u.jobs :: j in u.jobNames
    ensures Passive(u, w)
  {
    assert BootsGrow(u, w) by {
      forall n ensures Boots(u, n) <= Boots(w, n) {
        assert Boots(u, n) <= Boots(v, n) <= Boots(w, n);
      }
    }
    forall n, j ensures Created(w, n, j) <==> Created(u, n, j) {
      assert Created(v, n, j) <==> Created(u, n, j);
    }
  }

  lemma PassiveStart(spec: Spec, u: World)
    requires Inv(spec, u)
    ensures Passive(u, u) && u.history != []
  {
    PassiveRefl(u);
  }

  lemma PassiveChain(spec: Spec, u: World, v: World, w: World)
    requires Inv(spec, u) && Passive(u, v) && Passive(v, w)
    ensures Passive(u, w) && w.history != []
  {
    PassiveTrans(u, v, w);
  }

  lemma EnvIsPassive(u: World, v: World)
    requires Env(u, v)
    ensures Passive(u, v)
  {
    EnvCurrent(u, v);
    assert forall n, j :: Created(v, n, j) == Created(u, n, j);
  }

  lemma AsideIsPassive(u: World, v: World)
    requires u.history != [] && v.history == u.history && Aside(u, v)
    requires u.announced <= v.announced && v.halted == u.halted && PodsShrink(u, v)
    requires v.issued == u.issued
    ensures Passive(u, v)
  {
    assert forall n :: Boots(v, n) == Boots(u, n);
  }

  lemma EnvThenAside(spec: Spec, u: World, v: World, w: World)
    requires Inv(spec, u) && Env(u, v) && w.history == v.history && Aside(v, w)
    requires v.announced <= w.announced && w.halted == v.halted && PodsShrink(v, w)
    requires w.issued == v.issued
    ensures Passive(u, w)
  {
    EnvIsPassive(u, v);
    AsideIsPassive(v, w);
    PassiveTrans(u, v, w);
  }

  /** A Job that is recorded for a node stays recorded, and no further Job is created for that node. */
  ghost predicate RecordStops(u: World, v: World) {
    u.history != [] && v.history != [] ==>
      forall n | Recorded(Current(u), n) :: Recorded(Current(v), n) && !MadeSince(u, v, n)
  }

  /** What every call keeps, whoever made it: nothing recorded is taken back. */
  ghost predicate Forward(u: World, v: World) {
    && u.history <= v.history && u.trace <= v.trace
    && (forall j | j in u.drawn :: j in v.drawn && v.drawn[j] == u.drawn[j])
    && u.announced <= v.announced && u.jobNames <= v.jobNames
    && BootsGrow(u, v) && RecordStops(u, v)
    && (v.undisturbed ==> u.undisturbed)
  }

  lemma PassiveIsForward(u: World, v: World)
    requires Passive(u, v)
    ensures Forward(u, v)
  {
  }

  lemma ForwardRefl(w: World)
    ensures Forward(w, w)
  {
  }

  lemma ForwardTrans(u: World, v: World, w: World)
    requires Forward(u, v) && Forward(v, w)
    ensures Forward(u, w)
  {
    assert BootsGrow(u, w) by {
      forall n ensures Boots(u, n) <= Boots(w, n) {
        assert Boots(u, n) <= Boots(v, n) <= Boots(w, n);
      }
    }
  }

  /** A Forward step with a Passive one before and after it. */
  lemma ForwardThenPassive(u: World, v: World, w: World)
    requires Forward(u, v) && Passive(v, w)
    ensures Forward(u, w)
  {
    PassiveIsForward(v, w);
    ForwardTrans(u, v, w);
  }

  lemma PassiveThenForward(u: World, v: World, w: World)
    requires Passive(u, v) && Forward(v, w)
    ensures Forward(u, w)
  {
    PassiveIsForward(u, v);
    ForwardTrans(u, v, w);
  }

  lemma PassiveEntry(spec: Spec, u: World, v: World, n: string, e: NodeStatus)
    requires Passive(u, v) && GoodEntry(spec, u, n, e)
    ensures GoodEntry(spec, v, n, e)
  {
    assert forall j :: Created(v, n, j) == Created(u, n, j);
    PassiveReported(u, v, n, e.jobName, e.bootId);
  }

  lemma PassiveReported(u: World, v: World, n: string, j: string, id: string)
    requires Passive(u, v)
    ensures Reported(u, j, id) ==> Reported(v, j, id)
    ensures RebootProven(u, n, j, id) ==> RebootProven(v, n, j, id)
  {
    if j in u.drawn {
      assert Boots(u, u.drawn[j]) <= Boots(v, u.drawn[j]);
    }
    if RebootProven(u, n, j, id) { BootedSinceGrows(u, v, n, id, |Boots(u, n)|); }
  }

  lemma PassiveGood(spec: Spec, u: World, v: World, s: Statuses)
    requires Passive(u, v) && Good(spec, u, s)
    ensures Good(spec, v, s)
  {
    forall n | n in s ensures GoodEntry(spec, v, n, s[n]) {
      PassiveEntry(spec, u, v, n, s[n]);
    }
  }

  /** The operator can do without the node's reboot Pods other than `keep`. */
  ghost predicate SafeWithout(spec: Spec, w: World, n: string, keep: string)
    requires w.history != []
  {
    spec.reboot && w.undisturbed ==>
      Recorded(Current(w), n) || Unstarted(w, n) || LiveOn(w, n, keep)
  }

  lemma EnvKeepsSafe(spec: Spec, u: World, v: World, n: string, keep: string)
    requires Inv(spec, u) && Env(u, v) && SafeWithout(spec, u, n, keep)
    ensures v.history != [] && SafeWithout(spec, v, n, keep)
  {
    EnvCurrent(u, v);
    if spec.reboot && v.undisturbed && !Recorded(Current(u), n) && !Unstarted(v, n) {
      var j :| Created(v, n, j);
      assert Created(u, n, j);
      assert Underway(u, n, j);
      assert Created(u, u.jobs[j].node, j);
      assert u.pods[keep].jobName == j;
      assert CarriesUnrecordedJob(u, keep);
    }
  }

  lemma SafeIsSpare(spec: Spec, w: World, n: string, p: string, keep: string)
    requires w.history != [] && SafeWithout(spec, w, n, keep)
    requires p != keep && (p in w.pods ==> w.pods[p].node == n)
    ensures Spare(spec, w, p)
  {
  }

  lemma DeleteKeepsSafe(spec: Spec, w: World, n: string, p: string, keep: string)
    requires w.history != [] && SafeWithout(spec, w, n, keep) && p != keep
    ensures SafeWithout(spec, DeletePod(w, p), n, keep)
    ensures !LiveOn(DeletePod(w, p), n, p)
  {
    var v := DeletePod(w, p);
    assert LiveOn(w, n, keep) ==> LiveOn(v, n, keep);
    assert forall h :: Created(v, n, h) == Created(w, n, h);
  }

  lemma EnvKeepsUnstarted(u: World, v: World, n: string)
    requires Env(u, v) && Unstarted(u, n)
    ensures Unstarted(v, n)
  {
    assert forall h :: Created(v, n, h) == Created(u, n, h);
  }

  /** No upgrade Job of the node was created, unless the run was disturbed. */
  ghost predicate Unbegun(spec: Spec, w: World, n: string) {
    spec.reboot && w.undisturbed ==> Unstarted(w, n)
  }

  lemma PassiveUnbegun(spec: Spec, u: World, v: World, n: string)
    requires Passive(u, v) && Unbegun(spec, u, n)
    ensures Unbegun(spec, v, n)
  {
    assert forall h :: Created(v, n, h) == Created(u, n, h);
  }

  /** With no live reboot Pod, a Job that was created is recorded. */
  lemma NoLiveIsSafe(spec: Spec, w: World, n: string, keep: string)
    requires Inv(spec, w) && !HasLive(w, n)
    ensures SafeWithout(spec, w, n, keep)
  {
  }

  /** If a Job of the node was created and is not recorded, the live reboot Pods lead to it. */
  lemma LivePodsLeadToJob(spec: Spec, w: World, n: string, j: string)
    requires Inv(spec, w) && LiveNamed(w, n, j) && !Recorded(Current(w), n)
    requires spec.reboot && w.undisturbed
    ensures forall h | Created(w, n, h) :: h == j && OurJob(w, j)
  {
    forall h | Created(w, n, h) ensures h == j && OurJob(w, j) {
      assert Underway(w, n, h);
      var p :| LiveOn(w, n, p);
      assert w.pods[p].jobName == h == j;
    }
  }

  /** The live reboot Pods name a Job that does not exist: none was ever created. */
  lemma MissingJobIsUnstarted(spec: Spec, w: World, n: string, j: string)
    requires Inv(spec, w) && LiveNamed(w, n, j) && !OurJob(w, j) && !Recorded(Current(w), n)
    ensures Unbegun(spec, w, n)
  {
    if spec.reboot && w.undisturbed {
      LivePodsLeadToJob(spec, w, n, j);
    }
  }

  /** At most one Job of a node is ever created in reboot mode. */
  lemma CreatedIsUnique(spec: Spec, w: World, n: string, j: string, h: string)
    requires Inv(spec, w) && spec.reboot && w.undisturbed
    requires Created(w, n, j) && Created(w, n, h)
    ensures j == h
  {
    var i :| 0 <= i < |w.trace| && w.trace[i] == JobCreated(n, j);
    var k :| 0 <= k < |w.trace| && w.trace[k] == JobCreated(n, h);
    if i < k {
      assert UpgradeAct(w.trace[k]);
    } else if k < i {
      assert UpgradeAct(w.trace[i]);
    }
  }

  /** The entry recordNodeJob writes for a Job that was created is a good one. */
  lemma RecordedIsGood(spec: Spec, w: World, n: string, j: string)
    requires Inv(spec, w) && Created(w, n, j)
    ensures GoodEntry(spec, w, n, RecordedEntry(spec, j))
  {
    if spec.reboot && w.undisturbed {
      forall h | Created(w, n, h) ensures h == j {
        CreatedIsUnique(spec, w, n, j, h);
      }
    }
  }

  lemma GoodUpdate(spec: Spec, w: World, s: Statuses, n: string, e: NodeStatus)
    requires Good(spec, w, s) && GoodEntry(spec, w, n, e)
    requires spec.concurrency > 0 ==> InFlight(s[n := e]) <= spec.concurrency
    ensures Good(spec, w, s[n := e])
  {
  }

  /** An entry may be replaced by one that keeps its Job, a failure and a stored boot ID. */
  lemma AdvancesUpdate(s: Statuses, t: Statuses, n: string, e: NodeStatus)
    requires Advances(s, t)
    requires n in t ==>
               && (t[n].jobName != "" ==> e.jobName == t[n].jobName)
               && (t[n].phase == Failed ==> e.phase == Failed)
               && (t[n].bootId != "" ==> e.bootId == t[n].bootId)
    ensures Advances(s, t[n := e])
  {
    forall m | m in s ensures AdvancesAt(s, t[n := e], m) {
      assert AdvancesAt(s, t, m);
    }
  }
}
