/** Many NodeOps and outside actors cordon and uncordon one Node: whose cordon does a NodeOp undo? */
module CordonOwnership {
  import opened Wrappers
  import opened NodeOpTypes
  import opened Cordons

  datatype Identity = Identity(namespace: string, name: string, uid: string)

  /** Kubernetes allows neither '/' nor '@' in these names. */
  predicate WellFormed(id: Identity) {
    '/' !in id.namespace && '@' !in id.name
  }

  /** nodeOpOwnerRef */
  function OwnerRef(id: Identity): string {
    id.namespace + "/" + id.name + "@" + id.uid
  }

  /** What comes before the first separator. */
  function Head(s: string, sep: char): string {
    if s == "" || s[0] == sep then "" else [s[0]] + Head(s[1..], sep)
  }

  lemma {:induction false} HeadOfJoin(a: string, b: string, sep: char)
    requires sep !in a
    ensures Head(a + [sep] + b, sep) == a
  {
    if a == "" {
      assert "" + [sep] + b == [sep] + b;
    } else {
      assert a + [sep] + b == [a[0]] + (a[1..] + [sep] + b);
      HeadOfJoin(a[1..], b, sep);
    }
  }

  lemma CutIsUnique(a: string, b: string, c: string, d: string, sep: char)
    requires a + [sep] + b == c + [sep] + d && sep !in a && sep !in c
    ensures a == c && b == d
  {
    HeadOfJoin(a, b, sep);
    HeadOfJoin(c, d, sep);
    assert (a + [sep] + b)[|a| + 1..] == b && (c + [sep] + d)[|c| + 1..] == d;
  }

  /** Two NodeOps never share an owner reference. */
  lemma OwnerRefIsInjective(a: Identity, b: Identity)
    requires WellFormed(a) && WellFormed(b) && OwnerRef(a) == OwnerRef(b)
    ensures a == b
  {
    assert OwnerRef(a) == a.namespace + ['/'] + (a.name + ['@'] + a.uid);
    assert OwnerRef(b) == b.namespace + ['/'] + (b.name + ['@'] + b.uid);
    CutIsUnique(a.namespace, a.name + ['@'] + a.uid, b.namespace, b.name + ['@'] + b.uid, '/');
    CutIsUnique(a.name, a.uid, b.name, b.uid, '@');
  }

  datatype Actor = Outside | Op(id: Identity)

  /** A change from unschedulable to schedulable: who made it, and whose cordon it undid. */
  datatype Undoing = Undoing(actor: Actor, undone: Actor)

  /** The Node object, version by version. */
  class NodeStore {
    var versions: seq<NodeObject>
    ghost var cordoner: Actor        // who made the latest change from schedulable to unschedulable
    ghost var undoings: seq<Undoing>
    ghost var orderly: bool          // no outside actor cordoned a Node that still carried an annotation

    constructor (o: NodeObject)
      requires !(o.unschedulable && o.cordonedBy.Some?)
      ensures Valid() && orderly && undoings == [] && Current() == o
    {
      versions := [o];
      cordoner := Outside;
      undoings := [];
      orderly := true;
    }

    function Current(): NodeObject
      reads this
      requires versions != []
    {
      versions[|versions| - 1]
    }

    /** The annotation on a cordoned Node tells who cordoned it. */
    ghost predicate Truthful()
      reads this
      requires versions != []
    {
      Current().unschedulable && Current().cordonedBy.Some? ==>
        cordoner.Op? && WellFormed(cordoner.id) && Current().cordonedBy == Some(OwnerRef(cordoner.id))
    }

    ghost predicate Valid()
      reads this
    {
      versions != [] && (orderly ==> Truthful() && forall u | u in undoings && u.actor.Op? :: u.undone == u.actor)
    }

    /** Stores a version and notes what the change means. */
    method Put(o: NodeObject, ghost actor: Actor)
      requires versions != []
      modifies this`versions, this`cordoner, this`undoings
      ensures versions == old(versions) + [o]
      ensures cordoner == if o.unschedulable && !old(Current()).unschedulable then actor else old(cordoner)
      ensures undoings ==
              if !o.unschedulable && old(Current()).unschedulable
              then old(undoings) + [Undoing(actor, old(cordoner))]
              else old(undoings)
    {
      if o.unschedulable && !Current().unschedulable { cordoner := actor; }
      if !o.unschedulable && Current().unschedulable { undoings := undoings + [Undoing(actor, cordoner)]; }
      versions := versions + [o];
    }

    /** r.Update: a write based on an old version is refused. */
    method Update(version: nat, o: NodeObject, ghost actor: Actor) returns (ok: bool)
      requires versions != []
      modifies this`versions, this`cordoner, this`undoings
      ensures ok ==> version == |old(versions)| - 1 && versions == old(versions) + [o]
      ensures ok ==> cordoner == if o.unschedulable && !old(Current()).unschedulable then actor else old(cordoner)
      ensures ok ==>
                undoings == if !o.unschedulable && old(Current()).unschedulable
                            then old(undoings) + [Undoing(actor, old(cordoner))]
                            else old(undoings)
      ensures !ok ==> version != |old(versions)| - 1
                      && versions == old(versions) && cordoner == old(cordoner) && undoings == old(undoings)
    {
      if version != |versions| - 1 { return false; }
      Put(o, actor);
      ok := true;
    }

    /** cordonNode, on whatever version it read. */
    method CordonBy(id: Identity, version: nat) returns (ok: bool)
      requires Valid() && WellFormed(id) && version < |versions|
      modifies this
      ensures Valid() && orderly == old(orderly) && undoings == old(undoings)
      ensures ok && version == |old(versions)| - 1 && !old(Current()).unschedulable ==>
                Current() == NodeObject(true, Some(OwnerRef(id))) && cordoner == Op(id)
      ensures ok && version == |old(versions)| - 1 ==>
                match CordonWrite(OwnerRef(id), old(Current()))
                case Some(o) => versions == old(versions) + [o]
                case None => versions == old(versions)
      ensures old(Current()).unschedulable ==> versions == old(versions)
    {
      var node := versions[version];
      if node.unschedulable { return true; }
      ok := Update(version, NodeObject(true, Some(OwnerRef(id))), Op(id));
    }

    /** uncordonNode, on whatever version it read. */
    method UncordonBy(id: Identity, version: nat) returns (ok: bool)
      requires Valid() && WellFormed(id) && version < |versions|
      modifies this
      ensures Valid() && orderly == old(orderly)
      ensures undoings == old(undoings) || undoings == old(undoings) + [Undoing(Op(id), old(cordoner))]
      ensures version == |old(versions)| - 1 && old(Current()) == NodeObject(true, Some(OwnerRef(id))) ==>
                ok && Current() == NodeObject(false, None) && undoings == old(undoings) + [Undoing(Op(id), old(cordoner))]
      ensures ok && version == |old(versions)| - 1 ==> Current() == Uncordoning(OwnerRef(id), old(Current()))
      ensures old(Current()).unschedulable && old(Current()).cordonedBy != Some(OwnerRef(id)) ==>
                versions == old(versions)
    {
      var node := versions[version];
      if !node.unschedulable {
        if node.cordonedBy.Some? {
          ok := Update(version, NodeObject(false, None), Op(id));
          return;
        }
        return true;
      }
      if node.cordonedBy.None? { return true; }
      if node.cordonedBy.value != OwnerRef(id) { return true; }
      if orderly && version == |versions| - 1 { OwnerRefIsInjective(id, cordoner.id); }
      ok := Update(version, NodeObject(false, None), Op(id));
    }

    /** A human or another controller: it sets spec.unschedulable and leaves the annotation as it is. */
    method SetOutside(unschedulable: bool)
      requires Valid()
      modifies this
      ensures Valid()
      ensures orderly == (old(orderly)
                          && !(unschedulable && !old(Current()).unschedulable && old(Current()).cordonedBy.Some?))
      ensures Current() == old(Current()).(unschedulable := unschedulable)
      ensures unschedulable && !old(Current()).unschedulable ==> cordoner == Outside
      ensures undoings == if !unschedulable && old(Current()).unschedulable
                          then old(undoings) + [Undoing(Outside, old(cordoner))]
                          else old(undoings)
    {
      if unschedulable && !Current().unschedulable && Current().cordonedBy.Some? { orderly := false; }
      Put(Current().(unschedulable := unschedulable), Outside);
    }
  }

  datatype Move = Cordons(id: Identity, version: nat) | Uncordons(id: Identity, version: nat) | Sets(unschedulable: bool)

  /**
   * Any run of any NodeOps and outside actors, each on whatever version it last read: while no
   * outside actor cordons a Node that still carries an annotation, a NodeOp makes the Node
   * schedulable only when the cordon it undoes is its own.
   */
  method RunMoves(o: NodeObject, moves: seq<Move>) returns (store: NodeStore)
    requires !(o.unschedulable && o.cordonedBy.Some?)
    requires forall m | m in moves && !m.Sets? :: WellFormed(m.id)
    ensures store.Valid()
    ensures store.orderly ==> forall u | u in store.undoings && u.actor.Op? :: u.undone == u.actor
  {
    store := new NodeStore(o);
    var i := 0;
    while i < |moves|
      invariant 0 <= i <= |moves| && store.Valid() && fresh(store)
    {
      assert moves[i] in moves;
      match moves[i] {
        case Cordons(id, version) =>
          if version < |store.versions| { var ok := store.CordonBy(id, version); }
        case Uncordons(id, version) =>
          if version < |store.versions| { var ok := store.UncordonBy(id, version); }
        case Sets(unschedulable) => store.SetOutside(unschedulable);
      }
      i := i + 1;
    }
  }

  /**
   * The condition is needed: whenever an outside actor cordons a Node that still carries the
   * annotation of a NodeOp, that NodeOp's next uncordon undoes the outside cordon.
   */
  method RecordonIsUndone(store: NodeStore, id: Identity)
    requires store.Valid() && WellFormed(id)
    requires store.Current() == NodeObject(false, Some(OwnerRef(id)))
    modifies store
    ensures store.Valid() && store.Current() == NodeObject(false, None)
    ensures store.undoings == old(store.undoings) + [Undoing(Op(id), Outside)]
  {
    store.SetOutside(true);
    var ok := store.UncordonBy(id, |store.versions| - 1);
  }
}
