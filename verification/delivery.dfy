/** From the network to the executor: an envelope that has arrived stays. */
module Delivery {
  import opened ClusterState
  import opened Network
  import opened NetworkTheorems
  import opened ExecutorState
  import opened ExecutorFacts

  /** In every run of the cluster, an envelope that a node has received from the network is at its own node, and
      when that node's executor routes it, it goes to the executor, a process, a service, or is dropped, but not
      back to the cluster server, unless it is addressed to that. */
  lemma DeliveredIsNotForwarded<P>(net: Net, note: Note, behave: Behavior<P, Payload>, x: Exec<P, Payload>, depth: nat)
    requires Reachable(net) && note in net.log && note.Delivered?
    requires x.node == note.node && x.buffer == [] && Route(behave, x, note.envelope, depth).Running?
    ensures note.envelope.to.node == x.node
    ensures x.placed + [Placed(note.envelope, PlaceOf(x, note.envelope.to))] <=
              Route(behave, x, note.envelope, depth).exec.placed
    ensures PlaceOf(x, note.envelope.to) == ToCluster <==> ForClusterServer(note.envelope.to)
  {
    EnvelopesArriveAtHome(net, note);
    RoutePlaces(behave, x, note.envelope, depth);
  }
}
