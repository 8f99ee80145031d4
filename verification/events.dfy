/**
  Interruption events. Each constructor reports one interruption signal about
  a claimed instance: one event for the claim, attributed to its legacy
  Machine view when the claim is a converted Machine and to the NodeClaim
  otherwise, followed by one event for the Node when the node is known. Every
  event deduplicates on the UID of its own involved object.
 */
module InterruptionEvents {
  import opened Wrappers

  datatype Node = Node(name: string, uid: string)

  datatype NodeClaim = NodeClaim(name: string, uid: string, isMachine: bool)

  /** The legacy representation of a claim. */
  datatype Machine = Machine(name: string, uid: string)

  /** The Machine view of a claim keeps its identity. */
  function MachineOf(nodeClaim: NodeClaim): Machine {
    Machine(nodeClaim.name, nodeClaim.uid)
  }

  /** The object an event is attributed to. */
  datatype InvolvedObject = MachineObject(machine: Machine) | NodeClaimObject(nodeClaim: NodeClaim) | NodeObject(node: Node)
  {
    function Uid(): string {
      match this
      case MachineObject(m) => m.uid
      case NodeClaimObject(c) => c.uid
      case NodeObject(n) => n.uid
    }

    function KindName(): string {
      match this
      case MachineObject(_) => "Machine"
      case NodeClaimObject(_) => "NodeClaim"
      case NodeObject(_) => "Node"
    }
  }

  datatype EventType = Normal | Warning

  datatype Event = Event(involvedObject: InvolvedObject, eventType: EventType, reason: string, message: string,
                         dedupeValues: seq<string>)

  /** The object the claim's event is attributed to. */
  function ClaimObject(nodeClaim: NodeClaim): InvolvedObject {
    if nodeClaim.isMachine then MachineObject(MachineOf(nodeClaim)) else NodeClaimObject(nodeClaim)
  }

  /**
    The shape every constructor produces: the claim's event first, the node's
    event second and only when there is a node, each deduplicated on its own
    object's UID.
   */
  ghost predicate Shaped(evts: seq<Event>, node: Option<Node>, nodeClaim: NodeClaim) {
    && |evts| == (if node.Some? then 2 else 1)
    && evts[0].involvedObject == ClaimObject(nodeClaim)
    && (node.Some? ==> evts[1].involvedObject == NodeObject(node.value))
    && (forall i :: 0 <= i < |evts| ==> evts[i].dedupeValues == [evts[i].involvedObject.Uid()])
  }

  /** Every event carries the same type and reason. */
  ghost predicate Uniform(evts: seq<Event>, eventType: EventType, reason: string) {
    forall i :: 0 <= i < |evts| ==> evts[i].eventType == eventType && evts[i].reason == reason
  }

  /** Every event carries the same message. */
  ghost predicate SameMessage(evts: seq<Event>, message: string) {
    forall i :: 0 <= i < |evts| ==> evts[i].message == message
  }

  function EventAbout(o: InvolvedObject, eventType: EventType, reason: string, message: string): (e: Event)
    ensures e.involvedObject == o && e.dedupeValues == [o.Uid()]
    ensures e.eventType == eventType && e.reason == reason && e.message == message
  {
    Event(o, eventType, reason, message, [o.Uid()])
  }

  /** The common construction, with the message chosen per involved object. */
  function Emit(node: Option<Node>, nodeClaim: NodeClaim, eventType: EventType, reason: string,
                message: InvolvedObject -> string): (evts: seq<Event>)
    ensures Shaped(evts, node, nodeClaim)
    ensures Uniform(evts, eventType, reason)
    ensures forall i :: 0 <= i < |evts| ==> evts[i].message == message(evts[i].involvedObject)
  {
    var first := EventAbout(ClaimObject(nodeClaim), eventType, reason, message(ClaimObject(nodeClaim)));
    match node
    case None => [first]
    case Some(n) => [first, EventAbout(NodeObject(n), eventType, reason, message(NodeObject(n)))]
  }

  function SpotInterrupted(node: Option<Node>, nodeClaim: NodeClaim): (evts: seq<Event>)
    ensures Shaped(evts, node, nodeClaim)
    ensures Uniform(evts, Warning, "SpotInterrupted")
    ensures SameMessage(evts, "Spot interruption warning was triggered")
  {
    Emit(node, nodeClaim, Warning, "SpotInterrupted", _ => "Spot interruption warning was triggered")
  }

  function RebalanceRecommendation(node: Option<Node>, nodeClaim: NodeClaim): (evts: seq<Event>)
    ensures Shaped(evts, node, nodeClaim)
    ensures Uniform(evts, Normal, "SpotRebalanceRecommendation")
    ensures SameMessage(evts, "Spot rebalance recommendation was triggered")
  {
    Emit(node, nodeClaim, Normal, "SpotRebalanceRecommendation", _ => "Spot rebalance recommendation was triggered")
  }

  function Stopping(node: Option<Node>, nodeClaim: NodeClaim): (evts: seq<Event>)
    ensures Shaped(evts, node, nodeClaim)
    ensures Uniform(evts, Warning, "InstanceStopping")
    ensures SameMessage(evts, "Instance is stopping")
  {
    Emit(node, nodeClaim, Warning, "InstanceStopping", _ => "Instance is stopping")
  }

  function Terminating(node: Option<Node>, nodeClaim: NodeClaim): (evts: seq<Event>)
    ensures Shaped(evts, node, nodeClaim)
    ensures Uniform(evts, Warning, "InstanceTerminating")
    ensures SameMessage(evts, "Instance is terminating")
  {
    Emit(node, nodeClaim, Warning, "InstanceTerminating", _ => "Instance is terminating")
  }

  function Unhealthy(node: Option<Node>, nodeClaim: NodeClaim): (evts: seq<Event>)
    ensures Shaped(evts, node, nodeClaim)
    ensures Uniform(evts, Warning, "InstanceUnhealthy")
    ensures SameMessage(evts, "An unhealthy warning was triggered for the instance")
  {
    Emit(node, nodeClaim, Warning, "InstanceUnhealthy", _ => "An unhealthy warning was triggered for the instance")
  }

  /** The message names the kind of object each event is about. */
  function TerminatingOnInterruption(node: Option<Node>, nodeClaim: NodeClaim): (evts: seq<Event>)
    ensures Shaped(evts, node, nodeClaim)
    ensures Uniform(evts, Warning, "TerminatingOnInterruption")
    ensures forall i :: 0 <= i < |evts| ==>
              evts[i].message == "Interruption triggered termination for the " + evts[i].involvedObject.KindName()
  {
    Emit(node, nodeClaim, Warning, "TerminatingOnInterruption",
         (o: InvolvedObject) => "Interruption triggered termination for the " + o.KindName())
  }

  /** The concrete messages of `TerminatingOnInterruption` for each kind of claim, with a node. */
  lemma TerminatingOnInterruptionMessages(node: Node, nodeClaim: NodeClaim)
    ensures var evts := TerminatingOnInterruption(Some(node), nodeClaim);
            && evts[0].message == (if nodeClaim.isMachine then "Interruption triggered termination for the Machine"
                                   else "Interruption triggered termination for the NodeClaim")
            && evts[1].message == "Interruption triggered termination for the Node"
  {
    var evts := TerminatingOnInterruption(Some(node), nodeClaim);
    assert evts[0].involvedObject == ClaimObject(nodeClaim);
    assert evts[1].involvedObject == NodeObject(node);
  }

  /** The constructors use six distinct reasons, so an event's reason names the signal it reports. */
  lemma ReasonsDistinct(node: Option<Node>, nodeClaim: NodeClaim)
    ensures var reasons := [SpotInterrupted(node, nodeClaim)[0].reason, RebalanceRecommendation(node, nodeClaim)[0].reason,
                            Stopping(node, nodeClaim)[0].reason, Terminating(node, nodeClaim)[0].reason,
                            Unhealthy(node, nodeClaim)[0].reason, TerminatingOnInterruption(node, nodeClaim)[0].reason];
            forall i, j :: 0 <= i < j < |reasons| ==> reasons[i] != reasons[j]
  {
  }

  /** The claim's and the node's events never collapse into one when their UIDs differ. */
  lemma DedupeSeparatesNodeAndClaim(node: Node, nodeClaim: NodeClaim)
    requires node.uid != nodeClaim.uid
    ensures var evts := SpotInterrupted(Some(node), nodeClaim); evts[0].dedupeValues != evts[1].dedupeValues
  {
    var evts := SpotInterrupted(Some(node), nodeClaim);
    assert evts[0].involvedObject.Uid() == nodeClaim.uid;
  }
}
