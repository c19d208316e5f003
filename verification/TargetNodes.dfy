/** getTargetNodes: the matching nodes, control-plane nodes first, otherwise in listing order. */
module TargetNodes {
  import opened Wrappers
  import opened NodeOpTypes
  import opened Cluster
  import opened Environment
  import opened Knowledge
  import opened ApiServer

  /** The comparison given to sort.SliceStable. */
  predicate SortsBefore(a: NodeInfo, b: NodeInfo) {
    IsMasterNode(a) && !IsMasterNode(b)
  }

  /** A stable sort by insertion: an element goes before the first one that does not sort before it. */
  function Insert(x: NodeInfo, ns: seq<NodeInfo>): seq<NodeInfo> {
    if ns != [] && SortsBefore(ns[0], x) then [ns[0]] + Insert(x, ns[1..]) else [x] + ns
  }

  function StableSort(ns: seq<NodeInfo>): seq<NodeInfo> {
    if ns == [] then [] else Insert(ns[0], StableSort(ns[1..]))
  }

  function Select(ns: seq<NodeInfo>, keep: NodeInfo -> bool): seq<NodeInfo> {
    if ns == [] then [] else (if keep(ns[0]) then [ns[0]] else []) + Select(ns[1..], keep)
  }

  function Masters(ns: seq<NodeInfo>): seq<NodeInfo> {
    Select(ns, n => IsMasterNode(n))
  }

  function Workers(ns: seq<NodeInfo>): seq<NodeInfo> {
    Select(ns, n => !IsMasterNode(n))
  }

  lemma {:induction false} InsertPlaces(x: NodeInfo, masters: seq<NodeInfo>, workers: seq<NodeInfo>)
    requires (forall m | m in masters :: IsMasterNode(m)) && (forall m | m in workers :: !IsMasterNode(m))
    ensures Insert(x, masters + workers) ==
            if IsMasterNode(x) then [x] + masters + workers else masters + ([x] + workers)
  {
    var ns := masters + workers;
    if masters == [] {
      assert ns == workers;
      if workers != [] { assert workers[0] in workers; }
    } else {
      assert masters[0] in masters && ns[0] == masters[0] && ns[1..] == masters[1..] + workers;
      if !IsMasterNode(x) {
        InsertPlaces(x, masters[1..], workers);
        assert [masters[0]] + (masters[1..] + ([x] + workers)) == masters + ([x] + workers);
      }
    }
  }

  lemma {:induction false} SelectKeeps(ns: seq<NodeInfo>, keep: NodeInfo -> bool)
    ensures forall x :: x in Select(ns, keep) <==> x in ns && keep(x)
    ensures DistinctNames(ns) ==> DistinctNames(Select(ns, keep))
  {
    if ns != [] {
      SelectKeeps(ns[1..], keep);
      assert ns == [ns[0]] + ns[1..];
      if DistinctNames(ns) {
        forall k | 0 <= k < |Select(ns[1..], keep)| ensures Select(ns[1..], keep)[k].name != ns[0].name {
          assert Select(ns[1..], keep)[k] in ns[1..];
        }
      }
    }
  }

  /** The stable sort puts all control-plane nodes first and keeps the listing order on both sides. */
  lemma {:induction false} StableSortSplits(ns: seq<NodeInfo>)
    ensures StableSort(ns) == Masters(ns) + Workers(ns)
  {
    if ns != [] {
      StableSortSplits(ns[1..]);
      SelectKeeps(ns[1..], n => IsMasterNode(n));
      SelectKeeps(ns[1..], n => !IsMasterNode(n));
      InsertPlaces(ns[0], Masters(ns[1..]), Workers(ns[1..]));
    }
  }

  /** Every node of `front` that is a worker comes after all control-plane nodes of the whole list. */
  lemma WorkersComeLast(ns: seq<NodeInfo>, i: nat, k: nat)
    requires i < |StableSort(ns)| && k < |StableSort(ns)|
    requires !IsMasterNode(StableSort(ns)[i]) && IsMasterNode(StableSort(ns)[k])
    ensures k < i
  {
    StableSortSplits(ns);
    SelectKeeps(ns, n => IsMasterNode(n));
    SelectKeeps(ns, n => !IsMasterNode(n));
    var sorted, m := StableSort(ns), |Masters(ns)|;
    forall j | 0 <= j < |sorted| ensures IsMasterNode(sorted[j]) <==> j < m {
      if j < m { assert sorted[j] in Masters(ns); } else { assert sorted[j] in Workers(ns); }
    }
  }

  lemma SortedDistinct(ns: seq<NodeInfo>)
    requires DistinctNames(ns)
    ensures DistinctNames(StableSort(ns))
    ensures forall x :: x in StableSort(ns) <==> x in ns
  {
    StableSortSplits(ns);
    SelectKeeps(ns, n => IsMasterNode(n));
    SelectKeeps(ns, n => !IsMasterNode(n));
    var a, b := Masters(ns), Workers(ns);
    forall i, k | 0 <= i < |a| && 0 <= k < |b| ensures a[i].name != b[k].name {
      assert a[i] in ns && b[k] in ns;
    }
  }

  /** No worker comes before a node with one of the two control-plane labels. */
  predicate ControlPlaneLeads(ns: seq<NodeInfo>) {
    forall i, k | 0 <= i < k < |ns| && (ns[k].master || ns[k].controlPlane) :: ns[i].master || ns[i].controlPlane
  }

  lemma SortedLeads(ns: seq<NodeInfo>)
    ensures ControlPlaneLeads(StableSort(ns))
  {
    var sorted := StableSort(ns);
    forall i, k | 0 <= i < k < |sorted| && (sorted[k].master || sorted[k].controlPlane)
      ensures sorted[i].master || sorted[i].controlPlane
    {
      if !IsMasterNode(sorted[i]) { WorkersComeLast(ns, i, k); }
    }
  }

  lemma {:induction false} SelectSnoc(ns: seq<NodeInfo>, x: NodeInfo, keep: NodeInfo -> bool)
    ensures Select(ns + [x], keep) == if keep(x) then Select(ns, keep) + [x] else Select(ns, keep)
  {
    if ns == [] {
      assert ns + [x] == [x];
      assert Select([], keep) == [];
    } else {
      assert (ns + [x])[0] == ns[0] && (ns + [x])[1..] == ns[1..] + [x];
      SelectSnoc(ns[1..], x, keep);
      var front := if keep(ns[0]) then [ns[0]] else [];
      assert front + (Select(ns[1..], keep) + [x]) == (front + Select(ns[1..], keep)) + [x];
    }
  }

  /** The listed nodes that the selector matches; without one, all of them. */
  function Matching(selector: Option<NodeInfo -> bool>, ns: seq<NodeInfo>): seq<NodeInfo> {
    if selector.None? then ns else Select(ns, selector.value)
  }

  /** `selector` is None when the NodeOp has none; `all` is the listing it worked from. */
  method GetTargetNodes(api: Api, selector: Option<NodeInfo -> bool>) returns (r: Result<seq<NodeInfo>>, ghost all: seq<NodeInfo>)
    requires Inv(api.spec, api.w)
    modifies api
    ensures Inv(api.spec, api.w) && Passive(old(api.w), api.w)
    ensures r.Ok? ==>
              && DistinctNames(all) && DistinctNames(r.value)
              && r.value == StableSort(Matching(selector, all))
    ensures r.Ok? ==> forall x :: x in r.value <==> x in all && (selector.None? || selector.value(x))
    ensures r.Ok? ==> ControlPlaneLeads(r.value)
    ensures api.quiet ==> r.Ok? && api.w == old(api.w)
  {
    hide Inv, Passive, Env, DistinctNames, StableSort, ControlPlaneLeads;
    all := [];
    var listed := api.ListNodes();
    EnvIsPassive(old(api.w), api.w);
    ghost var u := api.w;
    if listed.Err? { return Err, all; }
    var nodes := listed.value;
    all := nodes;
    var targets: seq<NodeInfo> := [];
    if selector.None? {
      targets := nodes;
    } else {
      var i := 0;
      while i < |nodes|
        invariant 0 <= i <= |nodes| && api.w == u
        invariant targets == Select(nodes[..i], selector.value)
      {
        if selector.value(nodes[i]) { targets := targets + [nodes[i]]; }
        assert nodes[..i + 1] == nodes[..i] + [nodes[i]];
        SelectSnoc(nodes[..i], nodes[i], selector.value);
        i := i + 1;
      }
      assert nodes[..i] == nodes;
      SelectKeeps(nodes, selector.value);
    }
    SortedDistinct(targets);
    SortedLeads(targets);
    r := Ok(StableSort(targets));
  }
}
