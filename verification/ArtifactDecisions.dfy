/**
 * What the OSArtifact controller decides from the Pods and Jobs it lists: checkBuild and checkExport in
 * internal/controller/osartifact_controller.go.
 */
module ArtifactDecisions {
  import opened Wrappers
  import opened BootIds

  datatype ArtifactPhase = Unset | Pending | Building | Exporting | Ready | Error

  /** `own`: this OSArtifact's Pod, and not one of a namesake in another namespace. */
  datatype LabelledPod = LabelledPod(own: bool, phase: PodPhase)

  /** `hasFailed`: the Job has a true Failed or FailureTarget condition. */
  datatype ExportJob = ExportJob(completions: Option<nat>, backoffLimit: nat, succeeded: nat, failed: nat, hasFailed: bool)

  /** A Job with the label; `index` is what its export-index annotation says, if it has one that names an exporter. */
  datatype LabelledJob = LabelledJob(index: Option<nat>, job: ExportJob)

  /** What happened to this OSArtifact's own objects. */
  datatype Event = BuildStarted | Made(i: nat) | Removed(i: nat)

  function Rank(p: ArtifactPhase): nat {
    match p
    case Unset => 0
    case Pending => 0
    case Building => 1
    case Exporting => 2
    case Ready => 3
    case Error => 3
  }

  /** Phases only move forward, and the last two are never left. */
  predicate MovesTo(p: ArtifactPhase, q: ArtifactPhase) {
    p == q || Rank(p) < Rank(q)
  }

  predicate Single(completions: Option<nat>) {
    completions.None? || completions.value == 1
  }

  predicate Exported(j: ExportJob) {
    Single(j.completions) && j.succeeded > 0
  }

  /** An export that is given up. */
  predicate GivenUp(j: ExportJob) {
    if Single(j.completions) then j.succeeded == 0 && j.hasFailed else j.backoffLimit <= j.failed
  }

  /** What checkBuild decides from the builder Pods it lists: the first one that tells decides. */
  datatype Decision = Wait | ExportNow | Fail | Start

  function BuildDecision(pods: seq<LabelledPod>): Decision {
    if pods == [] then Start
    else match pods[0].phase
      case PodSucceeded => ExportNow
      case PodFailed => Fail
      case PodPending => Wait
      case PodRunning => Wait
      case PodUnknown => BuildDecision(pods[1..])
  }

  /** The first Pod whose phase is known. */
  predicate Tells(pods: seq<LabelledPod>, k: int) {
    0 <= k < |pods| && pods[k].phase != PodUnknown && forall h | 0 <= h < k :: pods[h].phase == PodUnknown
  }

  /** There is such a Pod, and it has this phase. */
  ghost predicate FirstIs(pods: seq<LabelledPod>, phase: PodPhase) {
    exists k :: Tells(pods, k) && pods[k].phase == phase
  }

  lemma {:induction false} BuildDecisionMeaning(pods: seq<LabelledPod>)
    ensures BuildDecision(pods) == ExportNow <==> FirstIs(pods, PodSucceeded)
    ensures BuildDecision(pods) == Fail <==> FirstIs(pods, PodFailed)
    ensures BuildDecision(pods) == Wait <==> FirstIs(pods, PodPending) || FirstIs(pods, PodRunning)
    ensures BuildDecision(pods) == Start <==> forall p | p in pods :: p.phase == PodUnknown
  {
    if pods != [] {
      assert pods == [pods[0]] + pods[1..];
      if pods[0].phase == PodUnknown {
        BuildDecisionMeaning(pods[1..]);
        forall phase ensures FirstIs(pods, phase) <==> FirstIs(pods[1..], phase) { SkipUnknown(pods, phase); }
      } else {
        assert Tells(pods, 0) && pods[0] in pods;
        assert forall k :: Tells(pods, k) ==> k == 0;
      }
    }
  }

  lemma SkipUnknown(pods: seq<LabelledPod>, phase: PodPhase)
    requires pods != [] && pods[0].phase == PodUnknown
    ensures FirstIs(pods, phase) <==> FirstIs(pods[1..], phase)
  {
    if FirstIs(pods, phase) {
      var k :| Tells(pods, k) && pods[k].phase == phase;
      assert Tells(pods[1..], k - 1);
    }
    if FirstIs(pods[1..], phase) {
      var k :| Tells(pods[1..], k) && pods[1..][k].phase == phase;
      forall h | 0 <= h < k + 1 ensures pods[h].phase == PodUnknown {
        if h > 0 { assert pods[h] == pods[1..][h - 1]; }
      }
      assert Tells(pods, k + 1);
    }
  }

  /** The phases a pass may add after it has listed these builder Pods. */
  ghost predicate BuildAllows(pods: seq<LabelledPod>, h: seq<ArtifactPhase>, t: seq<ArtifactPhase>) {
    || t == h
    || (t == h + [Exporting] && FirstIs(pods, PodSucceeded))
    || (t == h + [Error] && FirstIs(pods, PodFailed))
    || (t == h + [Building] && forall p | p in pods :: p.phase == PodUnknown)
  }

  /**
   * What a pass does when nothing fails: the first Pod whose phase is known decides. A success leads on to the exports,
   * a failure to Error, a Pod that is under way to nothing at all, and without such a Pod a build is started.
   */
  ghost predicate BuildFollows(pods: seq<LabelledPod>, valid: bool, h: seq<ArtifactPhase>, t: seq<ArtifactPhase>,
                               log: seq<Event>, more: seq<Event>)
  {
    var untold := forall p | p in pods :: p.phase == PodUnknown;
    && (t == h + [Exporting] <==> FirstIs(pods, PodSucceeded))
    && (t == h + [Error] <==> FirstIs(pods, PodFailed))
    && (t == h + [Building] <==> untold && valid)
    && (t == h <==> FirstIs(pods, PodPending) || FirstIs(pods, PodRunning) || (untold && !valid))
    && more == log + if untold && valid then [BuildStarted] else []
  }

  lemma DecisionFollows(pods: seq<LabelledPod>, valid: bool, h: seq<ArtifactPhase>, t: seq<ArtifactPhase>,
                        log: seq<Event>, more: seq<Event>)
    requires match BuildDecision(pods)
             case ExportNow => t == h + [Exporting] && more == log
             case Fail => t == h + [Error] && more == log
             case Start => if valid then t == h + [Building] && more == log + [BuildStarted] else t == h && more == log
             case Wait => t == h && more == log
    ensures BuildFollows(pods, valid, h, t, log, more)
  {
    BuildDecisionMeaning(pods);
    assert forall p, q :: h + [p] == h + [q] ==> p == q by {
      forall p, q | h + [p] == h + [q] ensures p == q { assert (h + [p])[|h|] == (h + [q])[|h|]; }
    }
    hide FirstIs;
  }

  lemma FirstIsThere(pods: seq<LabelledPod>, phase: PodPhase)
    ensures FirstIs(pods, phase) ==> exists p | p in pods :: p.phase == phase
  {
    if FirstIs(pods, phase) {
      var k :| Tells(pods, k) && pods[k].phase == phase;
      assert pods[k] in pods;
    }
  }

  lemma DecisionAllows(pods: seq<LabelledPod>, h: seq<ArtifactPhase>, t: seq<ArtifactPhase>)
    requires t == h || match BuildDecision(pods)
                       case ExportNow => t == h + [Exporting]
                       case Fail => t == h + [Error]
                       case Start => t == h + [Building]
                       case Wait => false
    ensures BuildAllows(pods, h, t)
  {
    BuildDecisionMeaning(pods);
  }

  /** The listed Job that stands for exporter `i`: the last one with that annotation. */
  function Indexed(listing: seq<LabelledJob>, i: nat): Option<ExportJob> {
    if listing == [] then None
    else
      var last := listing[|listing| - 1];
      if last.index == Some(i) then Some(last.job) else Indexed(listing[..|listing| - 1], i)
  }

  lemma {:induction false} IndexedMeaning(listing: seq<LabelledJob>, i: nat)
    ensures Indexed(listing, i).Some? <==> exists o | o in listing :: o.index == Some(i)
    ensures Indexed(listing, i).Some? ==> LabelledJob(Some(i), Indexed(listing, i).value) in listing
  {
    if listing != [] {
      var last := listing[|listing| - 1];
      IndexedMeaning(listing[..|listing| - 1], i);
      assert listing == listing[..|listing| - 1] + [last];
      assert last in listing;
    }
  }

  predicate AllExported(listing: seq<LabelledJob>, n: nat) {
    forall i | 0 <= i < n :: Indexed(listing, i).Some? && Exported(Indexed(listing, i).value)
  }

  predicate SomeGivenUp(listing: seq<LabelledJob>, n: nat) {
    exists i | 0 <= i < n :: Indexed(listing, i).Some? && GivenUp(Indexed(listing, i).value)
  }

  /** The Jobs made for exporters i to n: for those that are not listed, up to the first that is given up. */
  function Creations(listing: seq<LabelledJob>, i: nat, n: nat): seq<Event>
    decreases n - i
  {
    if i >= n then []
    else match Indexed(listing, i)
      case None => [Made(i)] + Creations(listing, i + 1, n)
      case Some(job) => if GivenUp(job) then [] else Creations(listing, i + 1, n)
  }

  lemma {:induction false} CreationsMembers(listing: seq<LabelledJob>, i: nat, n: nat, x: nat)
    ensures Made(x) in Creations(listing, i, n) <==>
              && i <= x < n && Indexed(listing, x).None?
              && forall g | i <= g < x && Indexed(listing, g).Some? :: !GivenUp(Indexed(listing, g).value)
    decreases n - i
  {
    if i < n {
      CreationsMembers(listing, i + 1, n, x);
      hide GivenUp;
      if Indexed(listing, i).None? {
        assert Made(x) in [Made(i)] + Creations(listing, i + 1, n) <==> x == i || Made(x) in Creations(listing, i + 1, n);
      } else if GivenUp(Indexed(listing, i).value) {
        assert x > i ==> exists g | i <= g < x && Indexed(listing, g).Some? :: GivenUp(Indexed(listing, g).value) by {
          assert GivenUp(Indexed(listing, i).value);
        }
      }
    }
  }

  /** The last listed Job with exporter i's annotation. */
  predicate Shows(listing: seq<LabelledJob>, i: nat, k: int) {
    && 0 <= k < |listing| && listing[k].index == Some(i)
    && forall h | k < h < |listing| :: listing[h].index != Some(i)
  }

  lemma {:induction false} IndexedShows(listing: seq<LabelledJob>, i: nat)
    ensures Indexed(listing, i).None? <==> forall o | o in listing :: o.index != Some(i)
    ensures Indexed(listing, i).Some? ==> exists k :: Shows(listing, i, k)
    ensures forall k | Shows(listing, i, k) :: Indexed(listing, i) == Some(listing[k].job)
  {
    if listing != [] {
      var init, last := listing[..|listing| - 1], listing[|listing| - 1];
      IndexedShows(init, i);
      assert listing == init + [last];
      if last.index == Some(i) {
        assert Shows(listing, i, |listing| - 1);
      } else {
        forall k | Shows(init, i, k) ensures Shows(listing, i, k) {
        }
        forall k | Shows(listing, i, k) ensures Shows(init, i, k) {
        }
      }
    }
  }

  /** The Job that the list shows for exporter `i` has done its one export. */
  ghost predicate ShownDone(listing: seq<LabelledJob>, i: nat) {
    exists k :: Shows(listing, i, k) && listing[k].job.succeeded > 0
      && (listing[k].job.completions.None? || listing[k].job.completions == Some(1))
  }

  /** It has failed for good: its one export failed, or of several exports as many failed as may be tried again. */
  ghost predicate ShownLost(listing: seq<LabelledJob>, i: nat) {
    exists k :: Shows(listing, i, k) &&
      if listing[k].job.completions.None? || listing[k].job.completions == Some(1)
      then listing[k].job.succeeded == 0 && listing[k].job.hasFailed
      else listing[k].job.failed >= listing[k].job.backoffLimit
  }

  /**
   * What a pass does about `n` exports when nothing fails: Ready when the list shows each one done, Error when it
   * shows one lost, and a Job for each one it does not show, in order, up to the first one lost.
   */
  ghost predicate ExportFollows(n: nat, listing: seq<LabelledJob>, h: seq<ArtifactPhase>, t: seq<ArtifactPhase>,
                                log: seq<Event>, more: seq<Event>)
  {
    && (t == h + [Ready] <==> forall i | 0 <= i < n :: ShownDone(listing, i))
    && (t == h + [Error] <==> exists i | 0 <= i < n :: ShownLost(listing, i))
    && (t == h || t == h + [Ready] || t == h + [Error])
    && log <= more
    && forall i: nat :: Made(i) in more[|log|..] <==> ShownMissing(listing, n, i)
  }

  /** The list shows no Job for exporter `i`, and none lost before it. */
  ghost predicate ShownMissing(listing: seq<LabelledJob>, n: nat, i: nat) {
    && i < n && (forall o | o in listing :: o.index != Some(i))
    && forall g: nat | g < i :: !ShownLost(listing, g)
  }

  lemma ShownMeaning(listing: seq<LabelledJob>, i: nat)
    ensures ShownDone(listing, i) <==> Indexed(listing, i).Some? && Exported(Indexed(listing, i).value)
    ensures ShownLost(listing, i) <==> Indexed(listing, i).Some? && GivenUp(Indexed(listing, i).value)
  {
    IndexedShows(listing, i);
    if Indexed(listing, i).Some? {
      var k :| Shows(listing, i, k);
      OneShown(listing, i, k);
    }
    hide *;
  }

  lemma OneShown(listing: seq<LabelledJob>, i: nat, k: int)
    requires Shows(listing, i, k)
    ensures ShownDone(listing, i) <==> Exported(listing[k].job)
    ensures ShownLost(listing, i) <==> GivenUp(listing[k].job)
  {
    assert forall h :: Shows(listing, i, h) ==> h == k;
  }

  lemma CreationsFollow(n: nat, listing: seq<LabelledJob>, h: seq<ArtifactPhase>, t: seq<ArtifactPhase>,
                        log: seq<Event>, more: seq<Event>)
    requires more == log + Creations(listing, 0, n)
    requires t == h + if AllExported(listing, n) then [Ready] else if SomeGivenUp(listing, n) then [Error] else []
    ensures ExportFollows(n, listing, h, t, log, more)
  {
    assert more[|log|..] == Creations(listing, 0, n);
    AllShown(listing, n);
    assert (h + [Ready])[|h|] == Ready && (h + [Error])[|h|] == Error;
    hide AllExported, SomeGivenUp, ShownMissing, ShownDone, ShownLost, Creations;
    forall i: nat ensures Made(i) in more[|log|..] <==> ShownMissing(listing, n, i) { MadeShown(listing, n, i); }
  }

  lemma AllShown(listing: seq<LabelledJob>, n: nat)
    ensures AllExported(listing, n) <==> forall i | 0 <= i < n :: ShownDone(listing, i)
    ensures SomeGivenUp(listing, n) <==> exists i | 0 <= i < n :: ShownLost(listing, i)
    ensures !(AllExported(listing, n) && SomeGivenUp(listing, n))
  {
    forall i | 0 <= i < n
      ensures ShownDone(listing, i) <==> Indexed(listing, i).Some? && Exported(Indexed(listing, i).value)
      ensures ShownLost(listing, i) <==> Indexed(listing, i).Some? && GivenUp(Indexed(listing, i).value)
    {
      ShownMeaning(listing, i);
    }
    NotBoth(listing, n);
    hide ShownDone, ShownLost, Indexed, Exported, GivenUp;
  }

  lemma MadeShown(listing: seq<LabelledJob>, n: nat, i: nat)
    ensures Made(i) in Creations(listing, 0, n) <==> ShownMissing(listing, n, i)
  {
    CreationsMembers(listing, 0, n, i);
    IndexedShows(listing, i);
    if ShownMissing(listing, n, i) {
      forall g: nat | g < i && Indexed(listing, g).Some? ensures !GivenUp(Indexed(listing, g).value) {
        ShownMeaning(listing, g);
      }
    }
    if Made(i) in Creations(listing, 0, n) {
      forall g: nat | g < i ensures !ShownLost(listing, g) { ShownMeaning(listing, g); }
    }
  }

  lemma NotBoth(listing: seq<LabelledJob>, n: nat)
    ensures !(AllExported(listing, n) && SomeGivenUp(listing, n))
  {
  }
}
