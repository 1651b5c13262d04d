/** A node's part of a run of the cluster is a run of its server. */
module NodeRuns {
  import opened Ids
  import opened ClusterState
  import opened ClusterTimeouts
  import opened Network
  import opened NetworkInvariant

  /** What this action makes the server of `m` handle: one event, or nothing. */
  ghost function EventsOf(net: Net, a: Action, m: NodeId): seq<Event>
    requires Enabled(net, a)
  {
    if a.at != m then []
    else
      match a
      case Accepting(_, id, _, ok) => [Accept(id, ok)]
      case Acting(_, ev) => [ev]
      case Reading(_, _, _) => []
      case Handling(_, fails, connected) => [HandlingEvent(net.nodes[m], fails, connected)]
  }

  ghost function EventsIn(net: Net, actions: seq<Action>, m: NodeId): seq<Event>
    requires IsNetRun(net, actions)
    decreases |actions|
  {
    if actions == [] then []
    else EventsOf(net, actions[0], m) + EventsIn(Do(net, actions[0]), actions[1..], m)
  }

  lemma ActionIsEvents(net: Net, a: Action, m: NodeId)
    requires Inv(net) && Enabled(net, a) && m in net.nodes
    ensures m in Do(net, a).nodes && Valid(net.nodes[m].world.server) && Sound(net.nodes[m].world.server)
    ensures var evs := EventsOf(net, a, m);
            && |evs| <= 1
            && (evs == [] ==> Do(net, a).nodes[m].world == net.nodes[m].world)
            && (evs != [] ==>
                  && Allowed(net.nodes[m].world.server, evs[0])
                  && Do(net, a).nodes[m].world == Apply(net.nodes[m].world, evs[0]))
  {
    hide Inv, Valid, Sound, Step, Apply, NodeFits, LinksFit, LogFits;
    InvFacts(net, m);
    if a.Handling? {
      HandlingAllowed(net, a.at, a.fails, a.connected);
    }
    InvFacts(net, a.at);
  }

  /** The run of one server that a run of the cluster contains. */
  lemma {:induction false} RunProjects(net: Net, actions: seq<Action>, m: NodeId)
    requires Inv(net) && IsNetRun(net, actions) && m in net.nodes
    ensures m in NetRun(net, actions).nodes && Valid(net.nodes[m].world.server)
    ensures IsRun(net.nodes[m].world, EventsIn(net, actions, m))
    ensures Run(net.nodes[m].world, EventsIn(net, actions, m)) == NetRun(net, actions).nodes[m].world
    decreases |actions|
  {
    hide Inv, Enabled, Do, Valid, Sound, Apply, Allowed, EventsOf;
    InvValid(net, m);
    if actions != [] {
      var next := Do(net, actions[0]);
      ActionIsEvents(net, actions[0], m);
      ActionKeeps(net, actions[0]);
      RunProjects(next, actions[1..], m);
      var now, later := EventsOf(net, actions[0], m), EventsIn(next, actions[1..], m);
      if now == [] {
        assert now + later == later;
      } else {
        assert (now + later)[0] == now[0] && (now + later)[1..] == later;
      }
    }
  }

  lemma InvValid(net: Net, m: NodeId)
    requires Inv(net) && m in net.nodes
    ensures Valid(net.nodes[m].world.server) && Sound(net.nodes[m].world.server) && net.nodes[m].world.server.node == m
  {
    InvFacts(net, m);
  }
}
