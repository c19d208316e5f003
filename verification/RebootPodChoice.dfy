/** keepOneRebootPod: of a node's live reboot Pods the oldest stays. */
module RebootPodChoice {
  import opened Wrappers
  import opened BootIds
  import opened NodeOpTypes
  import opened Cluster
  import opened OperatorWrites
  import opened Knowledge
  import opened ApiServer
  import opened NodeActions
  import opened RebootPods

  /** Go's order on strings. */
  predicate StringLess(a: string, b: string) {
    b != "" && (a == "" || a[0] < b[0] || (a[0] == b[0] && StringLess(a[1..], b[1..])))
  }

  lemma {:induction false} StringLessIsTotal(a: string, b: string)
    ensures a != b ==> StringLess(a, b) || StringLess(b, a)
    ensures !(StringLess(a, b) && StringLess(b, a))
  {
    if a != "" && b != "" {
      assert a == [a[0]] + a[1..] && b == [b[0]] + b[1..];
      StringLessIsTotal(a[1..], b[1..]);
    }
  }

  lemma {:induction false} StringLessIsTransitive(a: string, b: string, c: string)
    requires StringLess(a, b) && StringLess(b, c)
    ensures StringLess(a, c)
  {
    if a != "" && a[0] == b[0] && b[0] == c[0] {
      StringLessIsTransitive(a[1..], b[1..], c[1..]);
    }
  }

  /** The order the live Pods are sorted by: creation time, then name. */
  predicate Before(a: ListedPod, b: ListedPod) {
    a.pod.created < b.pod.created || (a.pod.created == b.pod.created && StringLess(a.name, b.name))
  }

  lemma BeforeIsOrder(a: ListedPod, b: ListedPod, c: ListedPod)
    ensures a.name != b.name ==> Before(a, b) || Before(b, a)
    ensures !(Before(a, b) && Before(b, a))
    ensures Before(a, b) && Before(b, c) ==> Before(a, c)
  {
    StringLessIsTotal(a.name, b.name);
    if StringLess(a.name, b.name) && StringLess(b.name, c.name) {
      StringLessIsTransitive(a.name, b.name, c.name);
    }
  }

  /** sort.Slice on Pods with distinct names. */
  function SortPods(ps: seq<ListedPod>): seq<ListedPod> {
    if ps == [] then [] else InsertPod(ps[0], SortPods(ps[1..]))
  }

  function InsertPod(x: ListedPod, ps: seq<ListedPod>): seq<ListedPod> {
    if ps == [] || Before(x, ps[0]) then [x] + ps else [ps[0]] + InsertPod(x, ps[1..])
  }

  ghost predicate Ascending(ps: seq<ListedPod>) {
    forall i, k | 0 <= i < k < |ps| :: Before(ps[i], ps[k])
  }

  predicate DistinctPods(ps: seq<ListedPod>) {
    forall i, k | 0 <= i < k < |ps| :: ps[i].name != ps[k].name
  }

  lemma {:induction false} InsertSorts(x: ListedPod, ps: seq<ListedPod>)
    requires Ascending(ps) && forall p | p in ps :: p.name != x.name
    ensures Ascending(InsertPod(x, ps)) && |InsertPod(x, ps)| == |ps| + 1
    ensures forall p :: p in InsertPod(x, ps) <==> p == x || p in ps
  {
    if ps == [] {
    } else if Before(x, ps[0]) {
      forall k | 0 <= k < |ps| ensures Before(x, ps[k]) {
        BeforeIsOrder(x, ps[0], ps[k]);
      }
    } else {
      BeforeIsOrder(x, ps[0], ps[0]);
      InsertSorts(x, ps[1..]);
      var rest := InsertPod(x, ps[1..]);
      assert ps == [ps[0]] + ps[1..];
      forall k | 0 <= k < |rest| ensures Before(ps[0], rest[k]) {
        assert rest[k] in rest;
      }
    }
  }

  lemma {:induction false} SortSorts(ps: seq<ListedPod>)
    requires DistinctPods(ps)
    ensures Ascending(SortPods(ps)) && |SortPods(ps)| == |ps|
    ensures forall p :: p in SortPods(ps) <==> p in ps
  {
    if ps != [] {
      SortSorts(ps[1..]);
      assert ps == [ps[0]] + ps[1..];
      forall p | p in SortPods(ps[1..]) ensures p.name != ps[0].name {
        assert p in ps[1..];
      }
      InsertSorts(ps[0], SortPods(ps[1..]));
    }
  }

  /** `p` is the live reboot Pod of the node that comes before all its others. */
  ghost predicate Oldest(w: World, n: string, p: string) {
    && LiveOn(w, n, p)
    && forall q | LiveOn(w, n, q) && q != p :: Before(ListedPod(p, w.pods[p]), ListedPod(q, w.pods[q]))
  }

  /** Go's order: the first difference decides, and a proper prefix comes first. */
  lemma {:induction false} StringLessMeaning(a: string, b: string)
    ensures StringLess(a, b) <==>
              exists k :: 0 <= k <= |a| && k < |b| && a[..k] == b[..k] && (k == |a| || a[k] < b[k])
  {
    if a != "" && b != "" && a[0] == b[0] {
      StringLessMeaning(a[1..], b[1..]);
      if StringLess(a, b) {
        var k :| 0 <= k <= |a[1..]| && k < |b[1..]| && a[1..][..k] == b[1..][..k] && (k == |a[1..]| || a[1..][k] < b[1..][k]);
        assert a[..k + 1] == [a[0]] + a[1..][..k] && b[..k + 1] == [b[0]] + b[1..][..k];
      }
      if k :| 0 <= k <= |a| && k < |b| && a[..k] == b[..k] && (k == |a| || a[k] < b[k]) {
        assert k > 0;
        assert a[1..][..k - 1] == a[..k][1..] && b[1..][..k - 1] == b[..k][1..];
      }
    } else if b != "" {
      assert a[..0] == b[..0];
      assert forall k | 0 < k <= |a| && k < |b| :: a[..k][0] == a[0] && b[..k][0] == b[0];
    }
  }

  /**
   * The choice in terms of the Pods' own fields: not being deleted and not stopped, and no other such Pod of the
   * node was created earlier, or at the same time with a name that is smaller or a prefix.
   */
  lemma OldestMeaning(w: World, n: string, p: string)
    ensures Oldest(w, n, p) <==>
              && p in w.pods && w.pods[p].node == n
              && !w.pods[p].deleting && w.pods[p].phase !in {PodSucceeded, PodFailed}
              && forall q | q in w.pods && q != p && w.pods[q].node == n
                            && !w.pods[q].deleting && w.pods[q].phase !in {PodSucceeded, PodFailed} ::
                   && w.pods[p].created <= w.pods[q].created
                   && (w.pods[p].created == w.pods[q].created ==>
                         exists k :: 0 <= k <= |p| && k < |q| && p[..k] == q[..k] && (k == |p| || p[k] < q[k]))
  {
    forall q | LiveOn(w, n, p) && LiveOn(w, n, q) && q != p
      ensures Before(ListedPod(p, w.pods[p]), ListedPod(q, w.pods[q])) <==>
                && w.pods[p].created <= w.pods[q].created
                && (w.pods[p].created == w.pods[q].created ==>
                      exists k :: 0 <= k <= |p| && k < |q| && p[..k] == q[..k] && (k == |p| || p[k] < q[k]))
    {
      StringLessMeaning(p, q);
    }
    hide StringLess, Before;
  }

  lemma OldestIsUnique(w: World, n: string, p: string, q: string)
    requires Oldest(w, n, p) && Oldest(w, n, q)
    ensures p == q
  {
    BeforeIsOrder(ListedPod(p, w.pods[p]), ListedPod(q, w.pods[q]), ListedPod(p, w.pods[p]));
  }

  /** All reboot Pods of the node but `keep` are being deleted. */
  function KeepOnly(w: World, n: string, keep: string): World {
    w.(pods := map p | p in w.pods ::
                 if w.pods[p].node == n && p != keep then w.pods[p].(deleting := true) else w.pods[p])
  }

  ghost predicate PodsBeside(u: World, v: World, n: string) {
    && (forall p | p in u.pods && u.pods[p].node != n :: p in v.pods && v.pods[p] == u.pods[p])
    && (forall p | p in v.pods && v.pods[p].node != n :: p in u.pods && v.pods[p] == u.pods[p])
  }

  /** Only Jobs under names handed out for `n` have changed. */
  ghost predicate JobsBeside(u: World, v: World, n: string) {
    && (forall j | j in u.drawn :: j in v.drawn && v.drawn[j] == u.drawn[j])
    && (forall j | LookUp(v.drawn, j) != Some(n) :: LookUp(v.jobs, j) == LookUp(u.jobs, j))
  }

  /** All nodes but `n` have their Node, their Jobs, their reboot Pods and preflight Pods as they were. */
  ghost predicate Beside(u: World, v: World, n: string) {
    PodsBeside(u, v, n) && PreflightsBeside(u, v, n) && NodesBeside(u, v, n) && JobsBeside(u, v, n)
  }

  lemma BesideChain(u: World, v: World, w: World, n: string)
    requires Beside(u, v, n) && Beside(v, w, n)
    ensures Beside(u, w, n)
  {
  }

  lemma BesideSame(u: World, v: World, n: string)
    requires v.pods == u.pods && v.preflights == u.preflights && v.nodes == u.nodes && v.jobs == u.jobs && v.drawn == u.drawn
    ensures Beside(u, v, n)
  {
  }

  /** Cordoning and draining a node touch no other. */
  lemma BesideNodes(u: World, v: World, n: string)
    requires OnlyNodesDiffer(u, v) && NodesBeside(u, v, n)
    ensures Beside(u, v, n)
  {
  }

  lemma BesideHandOut(w: World, n: string, j: string)
    requires j !in w.drawn
    ensures Beside(w, HandOut(w, n, j), n)
  {
  }

  lemma BesideJob(w: World, n: string, j: string)
    requires j in w.drawn && w.drawn[j] == n
    ensures Beside(w, AddJob(w, n, j), n)
  {
  }

  lemma BesideSave(w: World, n: string, s: Statuses)
    ensures Beside(w, WriteStatus(w, s), n)
  {
  }

  /** Work on one node does not change what another node's work depends on. */
  lemma BesideOther(u: World, v: World, n: string, m: string)
    requires Beside(u, v, n) && m != n
    ensures HasLive(v, m) <==> HasLive(u, m)
    ensures forall p :: Oldest(v, m, p) <==> Oldest(u, m, p)
    ensures forall p | Oldest(u, m, p) :: v.pods[p] == u.pods[p]
    ensures FirstPreflight(v, m) == FirstPreflight(u, m) && (HasNode(v, m) <==> HasNode(u, m))
  {
    assert forall p :: LiveOn(v, m, p) <==> LiveOn(u, m, p);
    assert forall p | LiveOn(u, m, p) :: v.pods[p] == u.pods[p];
    assert LookUp(v.preflights, m) == LookUp(u.preflights, m);
    assert LookUp(v.nodes, m) == LookUp(u.nodes, m);
  }

  /** The Job that a Pod of another node names is as it was. */
  lemma BesideOtherJob(spec: Spec, u: World, v: World, n: string, p: string)
    requires Inv(spec, u) && Beside(u, v, n) && p in u.pods && u.pods[p].node != n && u.pods[p].jobName != ""
    ensures LookUp(v.jobs, u.pods[p].jobName) == LookUp(u.jobs, u.pods[p].jobName)
  {
    assert (u.pods[p].node, u.pods[p].jobName) in u.announced;
  }

  lemma KeepOnlyBeside(w: World, n: string, keep: string)
    ensures Beside(w, KeepOnly(w, n, keep), n)
  {
  }

  /** A repeated call keeps the same Pod and deletes nothing more. */
  lemma KeepOnlyAgain(w: World, n: string, p: string)
    requires Oldest(w, n, p)
    ensures Oldest(KeepOnly(w, n, p), n, p)
    ensures forall q | LiveOn(KeepOnly(w, n, p), n, q) :: q == p
    ensures forall q | Oldest(KeepOnly(w, n, p), n, q) :: q == p && KeepOnly(KeepOnly(w, n, p), n, q) == KeepOnly(w, n, p)
  {
    var v := KeepOnly(w, n, p);
    assert KeepOnly(v, n, p).pods == v.pods;
  }

  /** The listed Pods that are not being deleted and are live, or are not. */
  function Pick(ps: seq<ListedPod>, live: bool): seq<ListedPod> {
    if ps == [] then []
    else if !ps[0].pod.deleting && Live(ps[0].pod) == live then [ps[0]] + Pick(ps[1..], live)
    else Pick(ps[1..], live)
  }

  function LivePods(ps: seq<ListedPod>): seq<ListedPod> {
    Pick(ps, true)
  }

  function FinishedPods(ps: seq<ListedPod>): seq<ListedPod> {
    Pick(ps, false)
  }

  lemma {:induction false} PickSnoc(ps: seq<ListedPod>, x: ListedPod, live: bool)
    ensures Pick(ps + [x], live) ==
            if !x.pod.deleting && Live(x.pod) == live then Pick(ps, live) + [x] else Pick(ps, live)
  {
    if ps == [] {
      assert ps + [x] == [x];
      assert Pick([], live) == [];
    } else {
      assert (ps + [x])[0] == ps[0] && (ps + [x])[1..] == ps[1..] + [x];
      PickSnoc(ps[1..], x, live);
    }
  }

  lemma {:induction false} PickMembers(ps: seq<ListedPod>, live: bool)
    requires DistinctPods(ps)
    ensures forall x :: x in Pick(ps, live) <==> x in ps && !x.pod.deleting && Live(x.pod) == live
    ensures DistinctPods(Pick(ps, live))
  {
    if ps != [] {
      PickMembers(ps[1..], live);
      assert ps == [ps[0]] + ps[1..];
      forall k | 0 <= k < |Pick(ps[1..], live)| ensures Pick(ps[1..], live)[k].name != ps[0].name {
        assert Pick(ps[1..], live)[k] in ps[1..];
      }
    }
  }

  lemma SplitMembers(ps: seq<ListedPod>)
    requires DistinctPods(ps)
    ensures forall x :: x in LivePods(ps) <==> x in ps && Live(x.pod)
    ensures forall x :: x in FinishedPods(ps) <==> x in ps && !x.pod.deleting && !Live(x.pod)
    ensures DistinctPods(LivePods(ps))
  {
    PickMembers(ps, true);
    PickMembers(ps, false);
  }

  /** The loop that sorts the listed Pods into live and finished ones. */
  method SplitPods(ps: seq<ListedPod>) returns (live: seq<ListedPod>, finished: seq<ListedPod>)
    ensures live == LivePods(ps) && finished == FinishedPods(ps)
  {
    live, finished := [], [];
    var i := 0;
    while i < |ps|
      invariant 0 <= i <= |ps|
      invariant live == LivePods(ps[..i]) && finished == FinishedPods(ps[..i])
    {
      var pod := ps[i];
      if pod.pod.deleting {
      } else if pod.pod.phase == PodSucceeded || pod.pod.phase == PodFailed {
        finished := finished + [pod];
      } else {
        live := live + [pod];
      }
      assert ps[..i + 1] == ps[..i] + [pod];
      PickSnoc(ps[..i], pod, true);
      PickSnoc(ps[..i], pod, false);
      i := i + 1;
    }
    assert ps[..i] == ps;
  }

  /** What the listing says about the node's live Pods. */
  lemma ListedLive(w: World, n: string, ps: seq<ListedPod>, sorted: seq<ListedPod>)
    requires Listing(w, n, ps) && sorted == SortPods(LivePods(ps))
    ensures |sorted| == |LivePods(ps)| && (sorted == [] <==> !HasLive(w, n))
    ensures forall q :: LiveOn(w, n, q) <==> q in w.pods && ListedPod(q, w.pods[q]) in sorted
    ensures forall x | x in sorted :: LiveOn(w, n, x.name) && x.pod == w.pods[x.name]
    ensures DistinctPods(sorted) && Ascending(sorted)
    ensures forall x | x in FinishedPods(ps) :: x in ps && !LiveOn(w, n, x.name)
  {
    SplitMembers(ps);
    SortSorts(LivePods(ps));
    assert forall q | LiveOn(w, n, q) :: ListedPod(q, w.pods[q]) in ps;
    if sorted != [] { assert sorted[0] in sorted; }
    forall i, k | 0 <= i < k < |sorted| ensures sorted[i].name != sorted[k].name {
      assert sorted[i] in sorted && sorted[k] in sorted;
      BeforeIsOrder(sorted[i], sorted[k], sorted[i]);
    }
  }

  lemma FirstIsOldest(w: World, n: string, ps: seq<ListedPod>, sorted: seq<ListedPod>)
    requires Listing(w, n, ps) && sorted == SortPods(LivePods(ps)) && sorted != []
    ensures Oldest(w, n, sorted[0].name) && sorted[0].pod == w.pods[sorted[0].name] && sorted[0].pod.node == n
  {
    ListedLive(w, n, ps, sorted);
    assert sorted[0] in sorted;
    forall q | LiveOn(w, n, q) && q != sorted[0].name ensures Before(sorted[0], ListedPod(q, w.pods[q])) {
      var k :| 0 <= k < |sorted| && sorted[k] == ListedPod(q, w.pods[q]);
    }
  }

  /** Which Pods the two calls of deleteRebootPods act on. */
  lemma DeletedNames(w: World, n: string, ps: seq<ListedPod>, sorted: seq<ListedPod>, p: string)
    requires Listing(w, n, ps) && sorted == SortPods(LivePods(ps)) && sorted != [] && p in w.pods
    ensures p in Deletable(FinishedPods(ps)) || p in Deletable(sorted[1..]) ==> w.pods[p].node == n && p != sorted[0].name
    ensures w.pods[p].node == n && p != sorted[0].name && !w.pods[p].deleting ==>
              p in Deletable(FinishedPods(ps)) || p in Deletable(sorted[1..])
  {
    ListedLive(w, n, ps, sorted);
    SplitMembers(ps);
    DeletableMembers(FinishedPods(ps));
    DeletableMembers(sorted[1..]);
    assert sorted == [sorted[0]] + sorted[1..];
    var x := ListedPod(p, w.pods[p]);
    if x.pod.node == n && p != sorted[0].name && !x.pod.deleting {
      assert x in ps;
      if Live(x.pod) { assert x in sorted[1..]; }
    }
    if p in Deletable(sorted[1..]) {
      var y :| y in sorted[1..] && y.name == p;
      assert y in sorted;
    } else if p in Deletable(FinishedPods(ps)) {
      var y :| y in FinishedPods(ps) && y.name == p;
      assert sorted[0] in sorted;
    }
  }

  /** The Pods deleted one after the other are all but the first live one. */
  lemma MarkedTwice(w: World, n: string, keep: string, some: seq<string>, more: seq<string>)
    requires forall p | p in w.pods && (p in some || p in more) :: w.pods[p].node == n && p != keep
    requires forall p | p in w.pods && w.pods[p].node == n && p != keep && !w.pods[p].deleting :: p in some || p in more
    ensures Marked(Marked(w.pods, some), more) == KeepOnly(w, n, keep).pods
  {
  }

  lemma DeletedAllButOne(w: World, n: string, ps: seq<ListedPod>, sorted: seq<ListedPod>)
    requires Listing(w, n, ps) && sorted == SortPods(LivePods(ps)) && sorted != []
    ensures var v := w.(pods := Marked(w.pods, Deletable(FinishedPods(ps))));
            v.(pods := Marked(v.pods, Deletable(sorted[1..]))) == KeepOnly(w, n, sorted[0].name)
  {
    hide Deletable, FinishedPods, LivePods, SortPods, Listing, Marked;
    forall p | p in w.pods
      ensures p in Deletable(FinishedPods(ps)) || p in Deletable(sorted[1..]) ==> w.pods[p].node == n && p != sorted[0].name
      ensures w.pods[p].node == n && p != sorted[0].name && !w.pods[p].deleting ==>
                p in Deletable(FinishedPods(ps)) || p in Deletable(sorted[1..])
    {
      DeletedNames(w, n, ps, sorted, p);
    }
    MarkedTwice(w, n, sorted[0].name, Deletable(FinishedPods(ps)), Deletable(sorted[1..]));
  }

  lemma DeletedAll(w: World, n: string, ps: seq<ListedPod>)
    requires Listing(w, n, ps) && !HasLive(w, n)
    ensures w.(pods := Marked(w.pods, Deletable(FinishedPods(ps)))) == AllDeleted(w, n)
  {
    SplitMembers(ps);
    DeletableMembers(FinishedPods(ps));
    var finished := Deletable(FinishedPods(ps));
    forall p | p in w.pods && w.pods[p].node == n ensures p in finished || w.pods[p].deleting {
      assert ListedPod(p, w.pods[p]) in ps;
      assert !LiveOn(w, n, p);
    }
    assert Marked(w.pods, finished) == AllDeleted(w, n).pods;
  }

  /** What the caller knows about the Pod it was given: it alone can be live, and its Job name was announced. */
  ghost predicate Chosen(w: World, n: string, x: ListedPod) {
    && (forall q | LiveOn(w, n, q) :: q == x.name && w.pods[q].jobName == x.pod.jobName)
    && (x.pod.jobName != "" ==> (n, x.pod.jobName) in w.announced)
    && (RebootPodReady(x.pod) ==> WasReady(w, n, x.pod.jobName))
  }

  lemma OnlyChosenIsLive(spec: Spec, u: World, w: World, n: string, ps: seq<ListedPod>, sorted: seq<ListedPod>)
    requires Inv(spec, u) && Passive(u, w) && Listing(u, n, ps) && sorted == SortPods(LivePods(ps)) && sorted != []
    requires forall x | x in sorted[1..] && !x.pod.deleting :: !LiveOn(w, n, x.name)
    ensures Chosen(w, n, sorted[0])
  {
    ListedLive(u, n, ps, sorted);
    assert sorted == [sorted[0]] + sorted[1..];
    assert sorted[0] in sorted;
    forall q | LiveOn(w, n, q) ensures q == sorted[0].name && w.pods[q].jobName == sorted[0].pod.jobName {
      assert LiveOn(u, n, q);
      var x := ListedPod(q, u.pods[q]);
      assert x in sorted && !x.pod.deleting;
    }
  }

  /**
   * Of the node's Pods that are not being deleted and have not stopped, one created first is kept as it is, and all
   * other reboot Pods of the node are being deleted; without such a Pod none is kept. Other nodes' Pods are left alone.
   */
  ghost predicate OneIsKept(u: World, v: World, n: string, kept: Option<ListedPod>) {
    && v.pods.Keys == u.pods.Keys
    && (forall p | p in u.pods :: v.pods[p] ==
          if u.pods[p].node == n && !(kept.Some? && kept.value.name == p) then u.pods[p].(deleting := true) else u.pods[p])
    && match kept
       case None =>
         forall q | q in u.pods && u.pods[q].node == n ::
           u.pods[q].deleting || u.pods[q].phase in {PodSucceeded, PodFailed}
       case Some(x) =>
         && x.name in u.pods && x.pod == u.pods[x.name] && x.pod.node == n
         && !x.pod.deleting && x.pod.phase !in {PodSucceeded, PodFailed}
         && forall q | q in u.pods && u.pods[q].node == n && !u.pods[q].deleting
                       && u.pods[q].phase !in {PodSucceeded, PodFailed} ::
              x.pod.created <= u.pods[q].created
  }

  lemma OldestIsKept(w: World, n: string, x: ListedPod)
    requires Oldest(w, n, x.name) && x.pod == w.pods[x.name]
    ensures OneIsKept(w, KeepOnly(w, n, x.name), n, Some(x))
  {
    OldestMeaning(w, n, x.name);
  }

  lemma NoneIsKept(w: World, n: string)
    requires !HasLive(w, n)
    ensures OneIsKept(w, AllDeleted(w, n), n, None)
  {
    forall q | q in w.pods && w.pods[q].node == n ensures w.pods[q].deleting || w.pods[q].phase in {PodSucceeded, PodFailed} {
      assert !LiveOn(w, n, q);
    }
  }

  method KeepOneRebootPod(api: Api, n: string) returns (r: Result<Option<ListedPod>>)
    requires Inv(api.spec, api.w)
    modifies api
    ensures Inv(api.spec, api.w) && Passive(old(api.w), api.w)
    ensures r == Ok(None) ==> !HasLive(api.w, n)
    ensures r.Ok? && r.value.Some? ==> Chosen(api.w, n, r.value.value)
    ensures api.quiet && !HasLive(old(api.w), n) ==> r == Ok(None) && api.w == AllDeleted(old(api.w), n)
    ensures api.quiet && HasLive(old(api.w), n) ==>
              && r.Ok? && r.value.Some?
              && var kept := r.value.value;
                 && Oldest(old(api.w), n, kept.name) && kept.pod == old(api.w).pods[kept.name]
                 && api.w == KeepOnly(old(api.w), n, kept.name)
    ensures api.quiet ==> r.Ok? && OneIsKept(old(api.w), api.w, n, r.value)
  {
    hide *;
    var listed := api.ListRebootPods(n);
    EnvIsPassive(old(api.w), api.w);
    if listed.Err? { return Err; }
    ghost var u := api.w;
    PassiveStart(api.spec, u);
    var live, finished := SplitPods(listed.value);
    var sorted := SortPods(live);
    ghost var keep := KeptName(api.spec, u, n, listed.value, sorted);
    var ok := DeleteRebootPods(api, n, finished, keep);
    PassiveChain(api.spec, old(api.w), u, api.w);
    if !ok { return Err; }
    ListedLive(u, n, listed.value, sorted);
    if |live| == 0 {
      assert sorted == [];
      StillNoLive(u, api.w, n);
      if api.quiet {
        DeletedAll(u, n, listed.value);
        NoneIsKept(u, n);
      }
      return Ok(None);
    }
    ghost var v := api.w;
    OthersOnNode(u, v, n, listed.value, sorted);
    ok := DeleteRebootPods(api, n, sorted[1..], keep);
    PassiveChain(api.spec, u, v, api.w);
    PassiveChain(api.spec, old(api.w), u, api.w);
    if !ok { return Err; }
    OnlyChosenIsLive(api.spec, u, api.w, n, listed.value, sorted);
    if api.quiet {
      FirstIsOldest(u, n, listed.value, sorted);
      DeletedAllButOne(u, n, listed.value, sorted);
      OldestIsKept(u, n, sorted[0]);
    }
    r := Ok(Some(sorted[0]));
  }

  lemma KeptName(spec: Spec, w: World, n: string, ps: seq<ListedPod>, sorted: seq<ListedPod>) returns (keep: string)
    requires Inv(spec, w) && Listing(w, n, ps) && sorted == SortPods(LivePods(ps))
    ensures w.history != [] && SafeWithout(spec, w, n, keep) && AllOnNode(w, n, FinishedPods(ps))
    ensures forall x | x in FinishedPods(ps) :: x.name != keep
    ensures sorted != [] ==> keep == sorted[0].name
  {
    ListedLive(w, n, ps, sorted);
    if sorted != [] {
      keep := sorted[0].name;
      assert sorted[0] in sorted;
    } else {
      keep := NotIn(FinishedPods(ps), 0);
      NoLiveIsSafe(spec, w, n, keep);
    }
  }

  lemma OthersOnNode(u: World, v: World, n: string, ps: seq<ListedPod>, sorted: seq<ListedPod>)
    requires Passive(u, v) && Listing(u, n, ps) && sorted == SortPods(LivePods(ps)) && sorted != []
    ensures AllOnNode(v, n, sorted[1..]) && forall x | x in sorted[1..] :: x.name != sorted[0].name
  {
    ListedLive(u, n, ps, sorted);
    PassiveLive(u, v);
  }

  lemma StillNoLive(u: World, v: World, n: string)
    requires Passive(u, v) && !HasLive(u, n)
    ensures !HasLive(v, n)
  {
    PassiveLive(u, v);
  }
}
