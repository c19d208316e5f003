/** What cordonNode and uncordonNode write, given the Node they read. */
module Cordons {
  import opened Wrappers
  import opened NodeOpTypes

  /** cordonNode leaves a Node that is already unschedulable alone. */
  function CordonWrite(owner: string, o: NodeObject): Option<NodeObject> {
    if o.unschedulable then None else Some(NodeObject(true, Some(owner)))
  }

  /** uncordonNode only makes a Node schedulable whose annotation names its NodeOp. */
  function UncordonWrite(owner: string, o: NodeObject): Option<NodeObject> {
    if !o.unschedulable then
      if o.cordonedBy.Some? then Some(NodeObject(false, None)) else None
    else if o.cordonedBy == Some(owner) then Some(NodeObject(false, None))
    else None
  }

  /** The Node after uncordonNode. */
  function Uncordoning(owner: string, o: NodeObject): NodeObject {
    match UncordonWrite(owner, o)
    case Some(written) => written
    case None => o
  }

  /** Whether updateNodeOpStatus uncordons a node whose entry has become `e`. */
  predicate ToUncordon(spec: Spec, e: NodeStatus) {
    && spec.cordon
    && ((e.phase == Completed && e.jobName != "" && (!spec.reboot || e.rebootStatus == RebootCompleted))
        || (e.phase == Failed && spec.uncordonOnFailure))
  }

  function NodeAfter(spec: Spec, e: NodeStatus, o: NodeObject): NodeObject {
    if ToUncordon(spec, e) then Uncordoning(spec.ownerRef, o) else o
  }
}
