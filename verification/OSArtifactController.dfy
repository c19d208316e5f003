/**
 * The OSArtifact controller's phases: internal/controller/osartifact_controller.go. It finds its builder Pods
 * and export Jobs by a label that holds the OSArtifact's name, in all namespaces, and reads them from a cache.
 */
module OSArtifactController {
  import opened Wrappers
  import opened BootIds
  import opened ArtifactDecisions

  /** The Job this OSArtifact names after exporter `i`, or someone else's Job. */
  datatype JobKey = Own(i: nat) | Foreign(id: nat)

  /** What spec.exporters says of one export. */
  datatype Exporter = Exporter(completions: Option<nat>, backoffLimit: Option<nat>)

  /** A failed export is not tried again unless the spec says so. */
  function NewJob(e: Exporter): ExportJob {
    ExportJob(e.completions, if e.backoffLimit.Some? then e.backoffLimit.value else 0, 0, 0, false)
  }

  /** Whether exporter i's own Job is there after these events. */
  predicate Present(log: seq<Event>, i: nat) {
    log != [] &&
    var last := log[|log| - 1];
    last == Made(i) || (last != Removed(i) && Present(log[..|log| - 1], i))
  }

  /** A Job is only made while there is none of its name. */
  ghost predicate Orderly(log: seq<Event>) {
    forall k | 0 <= k < |log| && log[k].Made? :: !Present(log[..k], log[k].i)
  }

  lemma {:induction false} StaysPresent(log: seq<Event>, i: nat, a: nat, b: nat)
    requires a < b <= |log| && log[a] == Made(i) && forall c | a < c < b :: log[c] != Removed(i)
    ensures Present(log[..b], i)
  {
    assert log[..b][..b - 1] == log[..b - 1];
    if a < b - 1 { StaysPresent(log, i, a, b - 1); }
  }

  /** An exporter gets a second Job only after the first one was removed. */
  lemma SecondJobNeedsRemoval(log: seq<Event>, i: nat, a: nat, b: nat)
    requires Orderly(log) && a < b < |log| && log[a] == Made(i) && log[b] == Made(i)
    ensures exists c | a < c < b :: log[c] == Removed(i)
  {
    assert !Present(log[..b], log[b].i);
    if forall c | a < c < b :: log[c] != Removed(i) { StaysPresent(log, i, a, b); }
  }

  lemma OneMore(log: seq<Event>, e: Event)
    requires Orderly(log) && (e.Made? ==> !Present(log, e.i))
    ensures Orderly(log + [e])
    ensures forall i :: Present(log + [e], i) <==> e == Made(i) || (e != Removed(i) && Present(log, i))
  {
    var more := log + [e];
    assert more[..|log|] == log;
    forall k | 0 <= k < |more| && more[k].Made? ensures !Present(more[..k], more[k].i) {
      assert more[..k] == log[..k];
      assert k == |log| ==> log[..k] == log;
    }
    forall i ensures Present(more, i) <==> e == Made(i) || (e != Removed(i) && Present(log, i)) {
      assert more[..|more| - 1] == log;
    }
  }

  /** Some Job with exporter i's annotation was once there with a success. */
  predicate ExportSeen(seen: set<(JobKey, LabelledJob)>, i: nat) {
    exists s | s in seen :: s.1.index == Some(i) && Exported(s.1.job)
  }

  predicate OwnExportSeen(seen: set<(JobKey, LabelledJob)>, i: nat) {
    exists s | s in seen :: s.0 == Own(i) && Exported(s.1.job)
  }

  predicate IsCurrent(history: seq<ArtifactPhase>, version: nat) {
    version == |history| - 1
  }

  ghost predicate Forwards(history: seq<ArtifactPhase>) {
    forall i, k | 0 <= i <= k < |history| :: MovesTo(history[i], history[k])
  }

  /** A phase may come after another, some time later. */
  predicate MayFollow(p: ArtifactPhase, q: ArtifactPhase) {
    match p
    case Unset => q != Pending
    case Pending => q != Unset
    case Building => q != Unset && q != Pending
    case Exporting => q == Exporting || q == Ready || q == Error
    case Ready => q == Ready
    case Error => q == Error
  }

  lemma ForwardsMeaning(history: seq<ArtifactPhase>)
    ensures Forwards(history) <==> forall i, k | 0 <= i < k < |history| :: MayFollow(history[i], history[k])
  {
    if Forwards(history) {
      forall i, k | 0 <= i < k < |history| ensures MayFollow(history[i], history[k]) {
        assert MovesTo(history[i], history[k]);
      }
    }
    if forall i, k | 0 <= i < k < |history| :: MayFollow(history[i], history[k]) {
      forall i, k | 0 <= i <= k < |history| ensures MovesTo(history[i], history[k]) {
        if i < k { assert MayFollow(history[i], history[k]); }
      }
    }
  }

  lemma OneForward(history: seq<ArtifactPhase>, p: ArtifactPhase)
    requires Forwards(history) && history != [] && MovesTo(history[|history| - 1], p)
    ensures Forwards(history + [p])
  {
  }

  /** A build may be started over the current version exactly when that shows no phase past Building. */
  lemma BuildingFits(history: seq<ArtifactPhase>)
    requires history != []
    ensures Forwards(history + [Building]) <==> Forwards(history) && Rank(history[|history| - 1]) <= 1
  {
    var more := history + [Building];
    if Forwards(more) {
      assert MovesTo(more[|history| - 1], more[|history|]);
      forall i, k | 0 <= i <= k < |history| ensures MovesTo(history[i], history[k]) {
        assert MovesTo(more[i], more[k]);
      }
    }
    if Forwards(history) && Rank(history[|history| - 1]) <= 1 { OneForward(history, Building); }
  }

  /** The listing shows all these Jobs, in any order. */
  predicate ListsAll(jobs: map<JobKey, LabelledJob>, listing: seq<LabelledJob>) {
    && (forall k | k in jobs :: jobs[k] in listing)
    && (forall o | o in listing :: exists k | k in jobs :: jobs[k] == o)
  }

  /** Nothing but new Jobs for the first `n` exporters has come to the Jobs. */
  predicate OnlyAdded(before: map<JobKey, LabelledJob>, now: map<JobKey, LabelledJob>, exporters: seq<Exporter>, n: nat) {
    && (forall k | k in before :: k in now && now[k] == before[k])
    && (forall k | k in now && k !in before ::
          k.Own? && k.i < n && k.i < |exporters| && now[k] == LabelledJob(Some(k.i), NewJob(exporters[k.i])))
  }

  lemma OneAdded(before: map<JobKey, LabelledJob>, now: map<JobKey, LabelledJob>, after: map<JobKey, LabelledJob>,
                 exporters: seq<Exporter>, i: nat)
    requires OnlyAdded(before, now, exporters, i) && i < |exporters|
    requires after == now || (Own(i) !in now && after == now[Own(i) := LabelledJob(Some(i), NewJob(exporters[i]))])
    ensures OnlyAdded(before, after, exporters, i + 1)
  {
  }

  lemma MoreAllowed(before: map<JobKey, LabelledJob>, now: map<JobKey, LabelledJob>, exporters: seq<Exporter>,
                    i: nat, n: nat)
    requires i <= n
    ensures OnlyAdded(before, now, exporters, i) ==> OnlyAdded(before, now, exporters, n)
  {
  }

  /** An exporter that the current list does not show has no own Job, nor has the pass made one. */
  lemma NotListed(before: map<JobKey, LabelledJob>, now: map<JobKey, LabelledJob>, exporters: seq<Exporter>,
                  listing: seq<LabelledJob>, i: nat)
    requires ListsAll(before, listing) && Indexed(listing, i).None?
    requires Own(i) in before ==> before[Own(i)].index == Some(i)
    requires OnlyAdded(before, now, exporters, i)
    ensures Own(i) !in now
  {
    IndexedMeaning(listing, i);
  }

  /** Everything listed was there at some moment. */
  predicate AllSeen(listing: seq<LabelledJob>, seen: set<(JobKey, LabelledJob)>) {
    forall o | o in listing :: exists s | s in seen :: s.1 == o
  }

  /** One and the same list showed every export done. */
  predicate DoneInOneList(lists: seq<seq<LabelledJob>>, n: nat) {
    exists l | l in lists :: AllExported(l, n)
  }

  lemma ListedWereSeen(listing: seq<LabelledJob>, seen: set<(JobKey, LabelledJob)>, n: nat)
    requires AllExported(listing, n) && AllSeen(listing, seen)
    ensures forall i | 0 <= i < n :: ExportSeen(seen, i)
  {
    forall i | 0 <= i < n ensures ExportSeen(seen, i) {
      IndexedMeaning(listing, i);
      var o := LabelledJob(Some(i), Indexed(listing, i).value);
      var s :| s in seen && s.1 == o;
    }
  }

  lemma SeenGrows(before: set<(JobKey, LabelledJob)>, after: set<(JobKey, LabelledJob)>, lists: seq<seq<LabelledJob>>)
    requires before <= after && forall l | l in lists :: AllSeen(l, before)
    ensures forall l | l in lists :: AllSeen(l, after)
  {
    forall l | l in lists ensures AllSeen(l, after) {
      forall o | o in l ensures exists s | s in after :: s.1 == o {
        var s :| s in before && s.1 == o;
        assert s in after;
      }
    }
  }

  lemma NothingYet(seen: set<(JobKey, LabelledJob)>, jobs: map<JobKey, LabelledJob>, exporters: seq<Exporter>)
    ensures AllSeen([], seen) && forall n :: OnlyAdded(jobs, jobs, exporters, n)
  {
  }

  lemma AtStart(listing: seq<LabelledJob>)
    ensures AllExported(listing, 0) && !SomeGivenUp(listing, 0)
  {
  }

  /** What exporter i's listed Job means for the rest of the loop. */
  lemma AtExporter(listing: seq<LabelledJob>, i: nat, n: nat)
    requires i < n
    ensures Indexed(listing, i).None? ==>
              && Creations(listing, i, n) == [Made(i)] + Creations(listing, i + 1, n)
              && !AllExported(listing, i + 1) && !AllExported(listing, n)
              && SomeGivenUp(listing, i + 1) == SomeGivenUp(listing, i)
    ensures Indexed(listing, i).Some? && !GivenUp(Indexed(listing, i).value) ==>
              && Creations(listing, i, n) == Creations(listing, i + 1, n)
              && (AllExported(listing, i + 1) <==> AllExported(listing, i) && Exported(Indexed(listing, i).value))
              && SomeGivenUp(listing, i + 1) == SomeGivenUp(listing, i)
    ensures Indexed(listing, i).Some? && GivenUp(Indexed(listing, i).value) ==>
              && Creations(listing, i, n) == [] && SomeGivenUp(listing, n) && !AllExported(listing, n)
  {
  }

  lemma AtEnd(listing: seq<LabelledJob>, n: nat)
    ensures Creations(listing, n, n) == []
  {
  }

  lemma Verdict(j: ExportJob)
    ensures if j.completions.None? || j.completions.value == 1
            then (Exported(j) <==> j.succeeded > 0) && (GivenUp(j) <==> j.succeeded == 0 && j.hasFailed)
            else !Exported(j) && (GivenUp(j) <==> j.backoffLimit <= j.failed)
  {
  }

  lemma CanBeReady(p: ArtifactPhase)
    ensures p == Exporting ==> MovesTo(p, Ready) && MovesTo(p, Error)
  {
  }

  lemma ListKept(lists: seq<seq<LabelledJob>>, listing: seq<LabelledJob>, n: nat)
    ensures DoneInOneList(lists, n) ==> DoneInOneList(lists + [listing], n)
  {
    if DoneInOneList(lists, n) {
      var l :| l in lists && AllExported(l, n);
      assert l in lists + [listing];
    }
  }

  lemma ListCounts(lists: seq<seq<LabelledJob>>, listing: seq<LabelledJob>, n: nat)
    requires AllExported(listing, n)
    ensures DoneInOneList(lists + [listing], n)
  {
    assert (lists + [listing])[|lists|] == listing;
  }

  lemma OwnJobsAreNamed(store: Store)
    requires store.Valid()
    ensures forall i: nat | Own(i) in store.jobs :: i < |store.exporters| && store.jobs[Own(i)].index == Some(i)
    ensures Exporting in store.history ==> store.BuildSeen()
  {
    forall i: nat | Own(i) in store.jobs ensures i < |store.exporters| && store.jobs[Own(i)].index == Some(i) {
      assert (Own(i), store.jobs[Own(i)]) in store.seen;
    }
  }

  /** The OSArtifact and everything with its label. */
  class Store {
    const exporters: seq<Exporter>
    const specIsValid: bool
    const quiet: bool                      // no call fails, and lists are current
    var history: seq<ArtifactPhase>        // the artifact's phase, version by version
    var overtaken: bool                    // startBuild went on although its second read showed a phase past Building
    var pods: seq<LabelledPod>
    var jobs: map<JobKey, LabelledJob>
    var podsSeen: set<LabelledPod>         // what the Pods and Jobs ever looked like
    var seen: set<(JobKey, LabelledJob)>
    var log: seq<Event>
    ghost var lists: seq<seq<LabelledJob>> // the lists of Jobs that checkExport worked from

    constructor (exporters: seq<Exporter>, specIsValid: bool, quiet: bool)
      ensures this.exporters == exporters && this.specIsValid == specIsValid && this.quiet == quiet
      ensures history == [Unset] && !overtaken && pods == [] && jobs == map[] && log == [] && Valid()
    {
      this.quiet := quiet;
      this.exporters := exporters;
      this.specIsValid := specIsValid;
      history, overtaken, pods, jobs, podsSeen, seen, log := [Unset], false, [], map[], {}, {}, [];
      lists := [];
    }

    /** An own Job carries its exporter's index and completions. */
    predicate OwnIsNamed()
      reads this
    {
      forall s | s in seen && s.0.Own? ::
        s.0.i < |exporters| && s.1.index == Some(s.0.i) && s.1.job.completions == exporters[s.0.i].completions
    }

    ghost predicate Valid()
      reads this
    {
      && history != []
      && (!overtaken ==> Forwards(history))
      && (forall p | p in pods :: p in podsSeen)
      && (forall p | p in podsSeen && p.own :: BuildStarted in log)
      && (forall k | k in jobs :: (k, jobs[k]) in seen)
      && OwnIsNamed()
      && Orderly(log) && (forall i :: Own(i) in jobs <==> Present(log, i))
      && (Exporting in history || Ready in history ==> BuildSeen())
      && (forall l | l in lists :: AllSeen(l, seen))
      && (Ready in history ==> DoneInOneList(lists, |exporters|))
    }

    predicate BuildSeen()
      reads this
    {
      exists p | p in podsSeen :: p.phase == PodSucceeded
    }

    /** r.Status().Update: refused unless `version` is the current one; the write, or its reply, may be lost. */
    method UpdatePhase(version: nat, p: ArtifactPhase) returns (ok: bool)
      requires Valid() && version < |history| && (overtaken || MovesTo(history[version], p))
      requires p == Exporting || p == Ready ==> BuildSeen()
      requires p == Ready ==> DoneInOneList(lists, |exporters|)
      modifies this`history
      ensures Valid() && (quiet ==> (ok <==> IsCurrent(old(history), version)))
      ensures history == old(history) || (IsCurrent(old(history), version) && history == old(history) + [p])
      ensures ok ==> history == old(history) + [p]
    {
      var lost := Lost();
      if lost || version != |history| - 1 { return false; }
      if !overtaken { OneForward(history, p); }
      history := history + [p];
      lost := Lost();
      ok := !lost;
    }

    /** Whether the network loses a request or a reply. */
    method Lost() returns (lost: bool)
      ensures quiet ==> !lost
    {
      lost := *;
      if quiet { lost := false; }
    }

    /** r.List of the Jobs: in any order, and each possibly as it was some time ago. */
    method ListJobs() returns (r: Result<seq<LabelledJob>>)
      requires Valid()
      modifies this`lists
      ensures Valid() && lists == old(lists) + if r.Ok? then [r.value] else []
      ensures r.Ok? ==> AllSeen(r.value, seen)
      ensures quiet ==> r.Ok? && ListsAll(jobs, r.value)
    {
      var lost := Lost();
      if lost { return Err; }
      var listing: seq<LabelledJob> := *;
      if !quiet && AllSeen(listing, seen) {
        ListKept(lists, listing, |exporters|);
        lists := lists + [listing];
        return Ok(listing);
      }
      listing := [];
      var rest := jobs.Keys;
      while rest != {}
        invariant rest <= jobs.Keys
        invariant forall k | k in jobs && k !in rest :: jobs[k] in listing
        invariant forall o | o in listing :: exists k | k in jobs :: jobs[k] == o
        decreases rest
      {
        var k :| k in rest;
        listing := listing + [jobs[k]];
        rest := rest - {k};
      }
      forall o | o in listing ensures exists s | s in seen :: s.1 == o {
        var k :| k in jobs && jobs[k] == o;
        assert (k, jobs[k]) in seen;
      }
      ListKept(lists, listing, |exporters|);
      lists := lists + [listing];
      r := Ok(listing);
    }

    /** r.List of the builder Pods. */
    method ListPods() returns (r: Result<seq<LabelledPod>>)
      requires Valid()
      ensures r.Ok? ==> forall p | p in r.value :: p in podsSeen
      ensures quiet ==> r == Ok(pods)
    {
      var lost := Lost();
      if lost { return Err; }
      var listing: seq<LabelledPod> := *;
      r := Ok(if !quiet && forall p | p in listing :: p in podsSeen then listing else pods);
    }

    /** r.Create of an export Job: refused when the name is taken. */
    method CreateJob(i: nat) returns (ok: bool)
      requires Valid() && i < |exporters|
      modifies this`jobs, this`seen, this`log
      ensures Valid() && (quiet && Own(i) !in old(jobs) ==> ok) && old(seen) <= seen
      ensures if log == old(log) + [Made(i)]
              then
                && Own(i) !in old(jobs)
                && jobs == old(jobs)[Own(i) := LabelledJob(Some(i), NewJob(exporters[i]))]
              else !ok && log == old(log) && jobs == old(jobs)
    {
      var lost := Lost();
      if lost || Own(i) in jobs { return false; }
      OneMore(log, Made(i));
      SeenGrows(seen, seen + {(Own(i), LabelledJob(Some(i), NewJob(exporters[i])))}, lists);
      jobs := jobs[Own(i) := LabelledJob(Some(i), NewJob(exporters[i]))];
      seen := seen + {(Own(i), jobs[Own(i)])};
      log := log + [Made(i)];
      lost := Lost();
      ok := !lost;
    }

    /** startBuild, decided on one version of the artifact and saved over the one that a second read gives. */
    method StartBuild(version: nat, later: nat) returns (ok: bool)
      requires Valid() && version <= later < |history| && Rank(history[version]) <= 1
      modifies this
      ensures Valid() && jobs == old(jobs) && seen == old(seen)
      ensures history != old(history) ==>
                IsCurrent(old(history), later) && specIsValid && history == old(history) + [Building]
      ensures ok ==> history == old(history) + [Building]
      ensures overtaken ==> old(overtaken) || Rank(old(history)[later]) > 1
      ensures if log == old(log) then pods == old(pods) && !ok
              else specIsValid && log == old(log) + [BuildStarted] && pods == old(pods) + [LabelledPod(true, PodPending)]
      ensures quiet && specIsValid ==> log != old(log) && (ok <==> IsCurrent(old(history), later))
    {
      if !specIsValid { return false; }
      var lost := Lost();
      if lost { return false; }
      OneMore(log, BuildStarted);
      log := log + [BuildStarted];
      pods := pods + [LabelledPod(true, PodPending)];
      podsSeen := podsSeen + {LabelledPod(true, PodPending)};
      lost := Lost();
      if lost { return false; }
      overtaken := overtaken || Rank(history[later]) > 1;
      ok := UpdatePhase(later, Building);
    }

    /** checkBuild. `listing` is the list of Pods it worked from. */
    method CheckBuild(version: nat, later: nat) returns (ok: bool, ghost listing: seq<LabelledPod>)
      requires Valid() && version <= later < |history| && Rank(history[version]) <= 1
      modifies this
      ensures Valid() && jobs == old(jobs) && seen == old(seen)
      ensures (forall p | p in listing :: p in old(podsSeen)) && (quiet ==> listing == old(pods))
      ensures history == old(history) ||
              match BuildDecision(listing)
              case ExportNow => IsCurrent(old(history), version) && history == old(history) + [Exporting]
              case Fail => IsCurrent(old(history), version) && history == old(history) + [Error]
              case Start => IsCurrent(old(history), later) && history == old(history) + [Building]
              case Wait => false
      ensures ok ==> (history == old(history) <==> BuildDecision(listing) == Wait)
      ensures overtaken ==> old(overtaken) || (Rank(old(history)[later]) > 1 && BuildDecision(listing) == Start)
      ensures BuildDecision(listing) != Start ==> log == old(log) && pods == old(pods)
      ensures BuildDecision(listing) == Start && ok ==>
                log == old(log) + [BuildStarted] && pods == old(pods) + [LabelledPod(true, PodPending)]
      ensures log == old(log) || log == old(log) + [BuildStarted]
      ensures quiet && specIsValid ==>
                match BuildDecision(listing)
                case Wait => ok
                case Start => ok <==> IsCurrent(old(history), later)
                case _ => ok <==> IsCurrent(old(history), version)
      ensures BuildAllows(listing, old(history), history)
      ensures quiet && IsCurrent(old(history), version) ==>
                BuildFollows(old(pods), specIsValid, old(history), history, old(log), log)
    {
      hide BuildFollows, BuildAllows, FirstIs;
      listing := [];
      DecisionAllows(listing, history, history);
      var got := ListPods();
      if got.Err? { return false, listing; }
      var items := got.value;
      listing := items;
      BuildDecisionMeaning(items);
      FirstIsThere(items, PodSucceeded);
      ghost var exact := quiet && IsCurrent(history, version);
      var i := 0;
      while i < |items|
        invariant 0 <= i <= |items| && BuildDecision(items) == BuildDecision(items[i..])
        invariant pods == old(pods) && jobs == old(jobs) && seen == old(seen) && podsSeen == old(podsSeen)
        invariant history == old(history) && overtaken == old(overtaken) && log == old(log) && Valid()
      {
        match items[i].phase {
          case PodSucceeded =>
            ok := UpdatePhase(version, Exporting);
            DecisionAllows(items, old(history), history);
            if exact { DecisionFollows(items, specIsValid, old(history), history, old(log), log); }
            return;
          case PodFailed =>
            ok := UpdatePhase(version, Error);
            DecisionAllows(items, old(history), history);
            if exact { DecisionFollows(items, specIsValid, old(history), history, old(log), log); }
            return;
          case PodPending | PodRunning =>
            DecisionAllows(items, old(history), history);
            DecisionFollows(items, specIsValid, old(history), history, old(log), log);
            return true, listing;
          case PodUnknown =>
        }
        assert items[i..][1..] == items[i + 1..];
        i := i + 1;
      }
      ok := StartBuild(version, later);
      DecisionAllows(items, old(history), history);
      if exact { DecisionFollows(items, specIsValid, old(history), history, old(log), log); }
    }

    /** The Jobs by exporter index; a later Job in the list replaces an earlier one. */
    method IndexJobs(items: seq<LabelledJob>) returns (indexed: map<nat, ExportJob>)
      ensures forall i :: i in indexed <==> Indexed(items, i).Some?
      ensures forall i | i in indexed :: Indexed(items, i) == Some(indexed[i])
    {
      indexed := map[];
      var k := 0;
      while k < |items|
        invariant 0 <= k <= |items| && forall i :: i in indexed <==> Indexed(items[..k], i).Some?
        invariant forall i | i in indexed :: Indexed(items[..k], i) == Some(indexed[i])
      {
        var item := items[k];
        assert items[..k + 1][..k] == items[..k];
        if item.index.Some? { indexed := indexed[item.index.value := item.job]; }
        k := k + 1;
      }
      assert items[..k] == items;
    }

    /** checkExport. `listing` is the list of Jobs it worked from. */
    method CheckExport(version: nat) returns (ok: bool, ghost listing: seq<LabelledJob>)
      requires Valid() && version < |history| && history[version] == Exporting
      modifies this
      ensures Valid() && pods == old(pods) && old(seen) <= seen
      ensures AllSeen(listing, old(seen)) && (quiet ==> ListsAll(old(jobs), listing))
      ensures lists == old(lists) || lists == old(lists) + [listing]
      ensures history != old(history) ==>
              && IsCurrent(old(history), version)
              && ((history == old(history) + [Ready] && AllExported(listing, |exporters|))
                  || (history == old(history) + [Error] && SomeGivenUp(listing, |exporters|)))
      ensures ok && AllExported(listing, |exporters|) ==> history == old(history) + [Ready]
      ensures ok && SomeGivenUp(listing, |exporters|) ==> history == old(history) + [Error]
      ensures overtaken == old(overtaken)
      ensures quiet && IsCurrent(old(history), version) ==> ok
      ensures log <= old(log) + Creations(listing, 0, |exporters|)
      ensures ok ==> log == old(log) + Creations(listing, 0, |exporters|)
      ensures OnlyAdded(old(jobs), jobs, exporters, |exporters|)
    {
      hide *;
      OwnJobsAreNamed(this);
      NothingYet(seen, jobs, exporters);
      listing := [];
      var got := ListJobs();
      if got.Err? { return false, listing; }
      var items := got.value;
      listing := items;
      var indexed := IndexJobs(items);
      var lost := Lost();
      if lost { return false, listing; } // the artifacts volume is not found
      var succeeded := 0;
      var i := 0;
      AtStart(items);
      while i < |exporters|
        invariant 0 <= i <= |exporters| && 0 <= succeeded <= i
        invariant Valid() && lists == old(lists) + [items]
        invariant history == old(history) && overtaken == old(overtaken) && pods == old(pods) && old(seen) <= seen
        invariant log + Creations(items, i, |exporters|) == old(log) + Creations(items, 0, |exporters|)
        invariant OnlyAdded(old(jobs), jobs, exporters, i)
        invariant !SomeGivenUp(items, i)
        invariant succeeded == i <==> AllExported(items, i)
      {
        AtExporter(items, i, |exporters|);
        MoreAllowed(old(jobs), jobs, exporters, i, |exporters|);
        if i !in indexed {
          if quiet { NotListed(old(jobs), jobs, exporters, items, i); }
          ghost var now := jobs;
          ok := CreateJob(i);
          OneAdded(old(jobs), now, jobs, exporters, i);
          MoreAllowed(old(jobs), jobs, exporters, i + 1, |exporters|);
          if !ok { return; }
        } else {
          var job := indexed[i];
          Verdict(job);
          if job.completions.None? || job.completions.value == 1 {
            if job.succeeded > 0 {
              succeeded := succeeded + 1;
            } else if job.hasFailed {
              CanBeReady(history[version]);
              ok := UpdatePhase(version, Error);
              return;
            }
          } else if job.backoffLimit <= job.failed {
            CanBeReady(history[version]);
            ok := UpdatePhase(version, Error);
            return;
          }
        }
        i := i + 1;
        MoreAllowed(old(jobs), jobs, exporters, i - 1, i);
      }
      ok := true;
      AtEnd(items, |exporters|);
      if succeeded == |exporters| {
        CanBeReady(history[version]);
        OwnJobsAreNamed(this);
        ListCounts(old(lists), items, |exporters|);
        ok := UpdatePhase(version, Ready);
      }
    }

    /**
     * Reconcile, on an artifact that is not being deleted. The reads of the artifact give the versions
     * `version` and, in startBuild, `later`; `podList` and `jobList` are what it listed.
     */
    method Reconcile(version: nat, later: nat)
      returns (ok: bool, ghost podList: seq<LabelledPod>, ghost jobList: seq<LabelledJob>)
      requires Valid() && version <= later < |history|
      modifies this
      ensures Valid() && old(seen) <= seen && old(history) <= history
      ensures overtaken ==> old(overtaken) || (Rank(old(history)[version]) <= 1 && Rank(old(history)[later]) > 1)
      ensures OnlyAdded(old(jobs), jobs, exporters, |exporters|)
      ensures Rank(old(history)[version]) == 3 ==>
                ok && history == old(history) && log == old(log) && pods == old(pods) && jobs == old(jobs)
      ensures Rank(old(history)[version]) <= 1 ==> jobs == old(jobs) && seen == old(seen)
      ensures quiet && specIsValid && IsCurrent(old(history), later) && Rank(old(history)[version]) <= 1 ==>
                match BuildDecision(old(pods))
                case ExportNow =>
                  log == old(log) && pods == old(pods)
                  && history == old(history) + if version == later then [Exporting] else []
                case Fail =>
                  log == old(log) && pods == old(pods)
                  && history == old(history) + if version == later then [Error] else []
                case Start =>
                  && history == old(history) + [Building]
                  && log == old(log) + [BuildStarted] && pods == old(pods) + [LabelledPod(true, PodPending)]
                case Wait => history == old(history) && log == old(log) && pods == old(pods)
      ensures old(history)[version] in {Unset, Pending, Building} ==> BuildAllows(podList, old(history), history)
      ensures quiet && IsCurrent(old(history), version) && old(history)[version] in {Unset, Pending, Building} ==>
                BuildFollows(old(pods), specIsValid, old(history), history, old(log), log)
      ensures quiet && specIsValid && IsCurrent(old(history), later) && Rank(old(history)[version]) <= 1
              && BuildDecision(old(pods)) == Start ==>
                (Forwards(history) <==> Forwards(old(history)) && Rank(old(history)[later]) <= 1)
      ensures quiet && IsCurrent(old(history), version) && old(history)[version] == Exporting ==>
                && ListsAll(old(jobs), jobList) && log == old(log) + Creations(jobList, 0, |exporters|) && pods == old(pods)
                && history == old(history) +
                     if AllExported(jobList, |exporters|) then [Ready]
                     else if SomeGivenUp(jobList, |exporters|) then [Error] else []
      ensures quiet && IsCurrent(old(history), version) && old(history)[version] == Exporting ==>
                ExportFollows(|exporters|, jobList, old(history), history, old(log), log)
    {
      hide BuildFollows, BuildAllows, ExportFollows;
      podList, jobList := [], [];
      BuildingFits(history);
      match history[version] {
        case Exporting =>
          ok, jobList := CheckExport(version);
          if quiet && IsCurrent(old(history), version) {
            CreationsFollow(|exporters|, jobList, old(history), history, old(log), log);
          }
        case Ready => ok := true;
        case Error => ok := true;
        case _ => ok, podList := CheckBuild(version, later);
      }
    }

    /** What may happen outside: own Pods and Jobs go on, a Job's successes stay, others' Pods and Jobs do anything. */
    predicate MayBecome(pods: seq<LabelledPod>, jobs: map<JobKey, LabelledJob>)
      reads this
    {
      && (forall p | p in pods && p.own :: BuildStarted in log)
      && (forall k | k in jobs && k.Own? ::
            && k in this.jobs && jobs[k].index == this.jobs[k].index
            && jobs[k].job.completions == this.jobs[k].job.completions
            && jobs[k].job.backoffLimit == this.jobs[k].job.backoffLimit
            && jobs[k].job.succeeded >= this.jobs[k].job.succeeded)
      && (forall k | k in this.jobs && k.Own? :: k in jobs)
    }

    method Others(pods: seq<LabelledPod>, jobs: map<JobKey, LabelledJob>)
      requires Valid()
      modifies this`pods, this`jobs, this`podsSeen, this`seen
      ensures Valid()
      ensures if old(MayBecome(pods, jobs)) then this.pods == pods && this.jobs == jobs
              else this.pods == old(this.pods) && this.jobs == old(this.jobs)
    {
      if !MayBecome(pods, jobs) { return; }
      var more := set k | k in jobs :: (k, jobs[k]);
      SeenGrows(seen, seen + more, lists);
      assert forall k | k in jobs && k.Own? :: (k, this.jobs[k]) in seen;
      this.pods, this.jobs := pods, jobs;
      podsSeen := podsSeen + set p | p in pods;
      seen := seen + more;
    }

    /** An own Job goes: by hand, or because its time to live after finishing is over. */
    method RemoveJob(i: nat)
      requires Valid()
      modifies this`jobs, this`log
      ensures Valid() && jobs == old(jobs) - {Own(i)}
      ensures log == if Own(i) in old(jobs) then old(log) + [Removed(i)] else old(log)
    {
      if Own(i) !in jobs { return; }
      OneMore(log, Removed(i));
      jobs := jobs - {Own(i)};
      log := log + [Removed(i)];
    }

    /** No other object ever had the label. */
    ghost predicate Alone()
      reads this
    {
      (forall p | p in podsSeen :: p.own) && forall s | s in seen :: s.0.Own?
    }
  }

  datatype Turn =
    | Pass(version: nat, later: nat)
    | Progress(pods: seq<LabelledPod>, jobs: map<JobKey, LabelledJob>)
    | JobGoes(i: nat)

  /** A pass whose first read lets it start a build. */
  predicate MayStart(t: Turn, history: seq<ArtifactPhase>) {
    t.Pass? && t.version <= t.later < |history| && Rank(history[t.version]) <= 1
  }

  /**
   * Any run: phases only move forward, as long as startBuild's second read shows no phase past Building
   * (Store.Reconcile has the converse, pass by pass); Ready means that each exporter's annotation was seen on
   * a Job that succeeded, and a builder Pod with the label succeeded; an exporter gets a second Job only after
   * its first one was removed.
   */
  method RunController(exporters: seq<Exporter>, specIsValid: bool, quiet: bool, turns: seq<Turn>) returns (store: Store)
    ensures store.Valid() && store.exporters == exporters
    ensures Ready in store.history ==> DoneInOneList(store.lists, |exporters|)
    ensures (forall t | t in turns && MayStart(t, store.history) :: Rank(store.history[t.later]) <= 1) ==> Forwards(store.history)
    ensures Ready in store.history ==> store.BuildSeen() && forall i | 0 <= i < |exporters| :: ExportSeen(store.seen, i)
    ensures Ready in store.history && store.Alone() ==>
              && BuildStarted in store.log
              && (forall i | 0 <= i < |exporters| :: OwnExportSeen(store.seen, i))
              && forall e | e in exporters :: Single(e.completions)
    ensures forall i, a, b | 0 <= a < b < |store.log| && store.log[a] == Made(i) && store.log[b] == Made(i) ::
              exists c | a < c < b :: store.log[c] == Removed(i)
  {
    store := new Store(exporters, specIsValid, quiet);
    var i := 0;
    while i < |turns|
      invariant 0 <= i <= |turns| && store.Valid() && store.exporters == exporters && fresh(store)
      invariant store.overtaken ==> exists t | t in turns :: MayStart(t, store.history) && Rank(store.history[t.later]) > 1
    {
      match turns[i] {
        case Pass(version, later) =>
          if version <= later < |store.history| {
            ghost var podList, jobList;
            var ok;
            assert turns[i] in turns;
            ok, podList, jobList := store.Reconcile(version, later);
          }
        case Progress(pods, jobs) => store.Others(pods, jobs);
        case JobGoes(index) => store.RemoveJob(index);
      }
      i := i + 1;
    }
    if Ready in store.history { ReadyWasExported(store); }
    if Ready in store.history && store.Alone() { AloneIsOwn(store); }
    forall i, a, b | 0 <= a < b < |store.log| && store.log[a] == Made(i) && store.log[b] == Made(i)
      ensures exists c | a < c < b :: store.log[c] == Removed(i)
    {
      SecondJobNeedsRemoval(store.log, i, a, b);
    }
  }

  lemma ReadyWasExported(store: Store)
    requires store.Valid() && Ready in store.history
    ensures forall i | 0 <= i < |store.exporters| :: ExportSeen(store.seen, i)
  {
    var l :| l in store.lists && AllExported(l, |store.exporters|);
    ListedWereSeen(l, store.seen, |store.exporters|);
  }

  /** Without namesakes the Jobs that count are the artifact's own, and each has completions unset or 1. */
  lemma AloneIsOwn(store: Store)
    requires store.Valid() && Ready in store.history && store.Alone()
    ensures BuildStarted in store.log
    ensures forall i | 0 <= i < |store.exporters| :: OwnExportSeen(store.seen, i)
    ensures forall e | e in store.exporters :: Single(e.completions)
  {
    ReadyWasExported(store);
    var p :| p in store.podsSeen && p.phase == PodSucceeded;
    forall i | 0 <= i < |store.exporters| ensures OwnExportSeen(store.seen, i) && Single(store.exporters[i].completions) {
      assert ExportSeen(store.seen, i);
      var s :| s in store.seen && s.1.index == Some(i) && Exported(s.1.job);
      assert s.0 == Own(i);
    }
  }

  /** An export with several completions is given up as soon as it is made, unless its spec allows a retry. */
  lemma SeveralCompletions(e: Exporter)
    ensures GivenUp(NewJob(e)) <==> !Single(e.completions) && (e.backoffLimit.None? || e.backoffLimit == Some(0))
    ensures !Single(e.completions) ==> forall j: ExportJob | j.completions == e.completions :: !Exported(j)
  {
  }

  lemma NothingListed(jobs: map<JobKey, LabelledJob>, listing: seq<LabelledJob>)
    requires ListsAll(jobs, listing)
    ensures jobs == map[] ==> listing == []
  {
    if listing != [] {
      assert listing[0] in listing;
      var k :| k in jobs && jobs[k] == listing[0];
    }
  }

  /** What a list decides that shows one Job only. */
  lemma OneListed(k: JobKey, o: LabelledJob, listing: seq<LabelledJob>, i: nat)
    requires ListsAll(map[k := o], listing)
    ensures Indexed(listing, i) == if o.index == Some(i) then Some(o.job) else None
  {
    IndexedMeaning(listing, i);
    assert map[k := o][k] in listing;
  }

  /** The Jobs that a pass makes for two exporters, none of which is given up. */
  lemma ForTwo(listing: seq<LabelledJob>)
    requires !SomeGivenUp(listing, 2)
    ensures Creations(listing, 0, 2) ==
            (if Indexed(listing, 0).None? then [Made(0)] else []) + if Indexed(listing, 1).None? then [Made(1)] else []
  {
    AtExporter(listing, 0, 2);
    AtExporter(listing, 1, 2);
    AtEnd(listing, 2);
  }

  lemma NowMade(store: Store, first: Exporter, second: Exporter)
    requires store.Valid() && store.log == [BuildStarted, Made(0), Made(1)]
    requires store.exporters == [first, second] && OnlyAdded(map[], store.jobs, [first, second], 2)
    ensures store.jobs.Keys == {Own(0), Own(1)}
    ensures store.jobs[Own(0)] == LabelledJob(Some(0), NewJob(first))
    ensures store.jobs[Own(1)] == LabelledJob(Some(1), NewJob(second))
  {
    assert store.log[..2] == [BuildStarted, Made(0)];
    assert Present(store.log, 0) && Present(store.log, 1);
  }

  /** The first passes: the build is started and succeeds, and both export Jobs are made. */
  method TwoExportsMade(first: Exporter, second: Exporter) returns (store: Store)
    requires Single(first.completions) && Single(second.completions)
    ensures fresh(store) && store.Valid() && store.exporters == [first, second] && store.quiet
    ensures store.history == [Unset, Building, Exporting] && store.log == [BuildStarted, Made(0), Made(1)]
    ensures Own(0) in store.jobs && store.jobs[Own(0)] == LabelledJob(Some(0), NewJob(first))
    ensures Own(1) in store.jobs && store.jobs[Own(1)] == LabelledJob(Some(1), NewJob(second))
    ensures store.jobs.Keys == {Own(0), Own(1)}
  {
    hide BuildFollows, BuildAllows, ExportFollows, OnlyAdded;
    hide Store.Valid, Orderly, Present, OwnExportSeen, ExportSeen, Creations, Store.BuildSeen, AllSeen, DoneInOneList;
    store := new Store([first, second], true, true);
    var ok;
    ghost var podList, jobList;
    ok, podList, jobList := store.Reconcile(0, 0);
    store.Others([LabelledPod(true, PodSucceeded)], map[]);
    ok, podList, jobList := store.Reconcile(1, 1);
    ok, podList, jobList := store.Reconcile(2, 2);
    NothingListed(map[], jobList);
    ForTwo(jobList);
    NowMade(store, first, second);
  }

  lemma WasDone(store: Store, i: nat)
    requires store.Valid() && Own(i) in store.jobs && Exported(store.jobs[Own(i)].job)
    ensures OwnExportSeen(store.seen, i)
  {
    assert (Own(i), store.jobs[Own(i)]) in store.seen;
  }

  lemma StillDone(before: set<(JobKey, LabelledJob)>, after: set<(JobKey, LabelledJob)>, i: nat)
    requires before <= after && OwnExportSeen(before, i)
    ensures OwnExportSeen(after, i)
  {
  }

  lemma OnlySecondListed(running: LabelledJob, listing: seq<LabelledJob>)
    requires ListsAll(map[Own(1) := running], listing) && running.index == Some(1) && !GivenUp(running.job)
    ensures Creations(listing, 0, 2) == [Made(0)]
  {
    OneListed(Own(1), running, listing, 0);
    OneListed(Own(1), running, listing, 1);
    ForTwo(listing);
  }

  /** While one export is still running, another one's finished Job is removed, and the export is done again. */
  method ExportedTwice(first: Exporter, second: Exporter) returns (store: Store)
    requires Single(first.completions) && Single(second.completions)
    ensures store.Valid() && store.exporters == [first, second]
    ensures store.log == [BuildStarted, Made(0), Made(1), Removed(0), Made(0)] && OwnExportSeen(store.seen, 0)
  {
    hide BuildFollows, BuildAllows, ExportFollows, OnlyAdded;
    hide Store.Valid, Orderly, Present, OwnExportSeen, ExportSeen, Creations, Store.BuildSeen, ListsAll, Indexed, MovesTo;
    store := TwoExportsMade(first, second);
    var done := LabelledJob(Some(0), NewJob(first).(succeeded := 1));
    var running := LabelledJob(Some(1), NewJob(second));
    store.Others([LabelledPod(true, PodSucceeded)], map[Own(0) := done, Own(1) := running]);
    WasDone(store, 0);
    ghost var seen := store.seen;
    store.RemoveJob(0);
    assert store.jobs == map[Own(1) := running];
    var ok;
    ghost var podList, jobList;
    ok, podList, jobList := store.Reconcile(2, 2);
    OnlySecondListed(running, jobList);
    StillDone(seen, store.seen, 0);
  }

  /** With a namesake in another namespace that has built and exported, Ready comes without a build or an export. */
  method ReadyWithoutExports(exporter: Exporter) returns (store: Store)
    ensures store.Valid() && store.exporters == [exporter]
    ensures store.history == [Unset, Exporting, Ready] && store.log == []
  {
    hide BuildFollows, BuildAllows, ExportFollows, OnlyAdded;
    hide Store.Valid, Orderly, Present, OwnExportSeen, ExportSeen, Store.BuildSeen;
    store := new Store([exporter], true, true);
    var theirs := LabelledJob(Some(0), ExportJob(None, 0, 1, 0, false));
    var ok;
    ghost var podList, jobList;
    store.Others([LabelledPod(false, PodSucceeded)], map[Foreign(0) := theirs]);
    ok, podList, jobList := store.Reconcile(0, 0);
    ok, podList, jobList := store.Reconcile(1, 1);
    OneListed(Foreign(0), theirs, jobList, 0);
    AtEnd(jobList, 1);
    AtExporter(jobList, 0, 1);
  }

  /** The builder Pod goes while a pass works on an old copy of the artifact: the exporting artifact is building again. */
  method BackToBuilding(exporter: Exporter) returns (store: Store)
    ensures store.Valid() && store.history == [Unset, Building, Exporting, Building] && !Forwards(store.history)
  {
    hide BuildFollows, BuildAllows, ExportFollows, OnlyAdded;
    hide Store.Valid, Orderly, Present, OwnExportSeen, ExportSeen, Store.BuildSeen, Forwards;
    store := new Store([exporter], true, true);
    var ok;
    ghost var podList, jobList;
    ok, podList, jobList := store.Reconcile(0, 0);
    store.Others([LabelledPod(true, PodSucceeded)], map[]);
    ok, podList, jobList := store.Reconcile(1, 1);
    store.Others([], map[]);
    ok, podList, jobList := store.Reconcile(1, 2);
    NotForwards(store.history);
  }

  lemma NotForwards(history: seq<ArtifactPhase>)
    requires history == [Unset, Building, Exporting, Building]
    ensures !Forwards(history)
  {
    assert !MovesTo(history[2], history[3]);
  }
}
