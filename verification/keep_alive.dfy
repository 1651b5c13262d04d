/** Pings keep a connection alive: a node whose peer ticks, and that handles the pings in time, never times the
    connection out. */
module KeepAlive {
  import opened Ids
  import opened ClusterState
  import opened ClusterSteps
  import opened ClusterLemmas
  import opened ClusterSends
  import opened ClusterTimeouts
  import opened Network
  import opened NetworkInvariant
  import opened Envelopes
  import opened NodeRuns

  /** The node of `far` ticks in this action, and can write to the connection of `far`, which it has greeted on and
      which does not expire. */
  ghost predicate PingsOn(net: Net, a: Action, far: End) {
    && a.Acting? && a.at == far.node && a.ev.Tick? && far.node in net.nodes
    && var s := net.nodes[far.node].world.server;
       && Valid(s) && WritesTo(s, far.id) && far.id !in s.wheel.data[s.wheel.read] && far.id !in a.ev.fails
  }

  /** At these places among what was sent on `far` there are pings. */
  ghost predicate ArePings(net: Net, far: End, pings: set<nat>) {
    forall p | p in pings :: p < |Sent(net, far)| && Sent(net, far)[p] == Ping
  }

  /** The node of `e` handles a frame of the far end, at one of these places. */
  ghost predicate HandlesPing(net: Net, a: Action, e: End, pings: set<nat>) {
    && a.Handling? && a.at == e.node && e.node in net.nodes
    && net.nodes[e.node].inbox != [] && net.nodes[e.node].inboxId == e.id
    && net.nodes[e.node].Done(e.id) in pings
  }

  predicate Ticking(a: Action, m: NodeId) {
    a.Acting? && a.at == m && a.ev.Tick?
  }

  /** Never are `slots` ticks of the node of `e` in a row without it handling in between a ping that the node of `far`
      sent at a tick of its own; `c` ticks have passed already, and there are pings at the places `pings`. */
  ghost predicate Fed(net: Net, actions: seq<Action>, e: End, far: End, slots: nat, c: nat, pings: set<nat>)
    requires IsNetRun(net, actions)
    decreases |actions|
  {
    actions == [] ||
    (var a := actions[0];
     var c' := if HandlesPing(net, a, e, pings) then 0 else if Ticking(a, e.node) then c + 1 else c;
     c' < slots && Fed(Do(net, a), actions[1..], e, far, slots, c', PingsAfter(net, a, far, pings)))
  }

  ghost function PingsAfter(net: Net, a: Action, far: End, pings: set<nat>): set<nat> {
    if PingsOn(net, a, far) then pings + {|Sent(net, far)|} else pings
  }

  /** A tick of the far node queues a ping, and what was queued before stays where it was. */
  lemma TickQueuesPing(net: Net, a: Action, far: End, pings: set<nat>)
    requires Inv(net) && Enabled(net, a) && ArePings(net, far, pings)
    ensures ArePings(Do(net, a), far, PingsAfter(net, a, far, pings))
  {
    hide Inv, Enabled, Do, Valid, Sound, Apply, EventsOf, PingsOn, Step;
    ActionKeepsSent(net, a, far);
    if PingsOn(net, a, far) {
      PingQueued(net, a, far);
    }
  }

  lemma PingQueued(net: Net, a: Action, far: End)
    requires Inv(net) && Enabled(net, a) && PingsOn(net, a, far)
    ensures Sent(Do(net, a), far) == Sent(net, far) + [Ping]
  {
    hide Inv, Valid, Sound, Apply, Step, TickStep;
    InvFacts(net, far.node);
    var w := net.nodes[far.node].world;
    TickPings(w.server, a.ev.fails, a.ev.connected, far.id);
    AppendsOne(w, a.ev, far.id);
    TickIs(w.server, a.ev);
  }

  lemma TickIs(s: Server, ev: Event)
    requires Sound(s) && ev.Tick?
    ensures Step(s, ev) == TickStep(s, ev.fails, ev.connected)
  {
    hide TickStep;
  }

  /** Handling a frame at the place of a ping is handling a ping, which resets the timer. */
  lemma PingResets(net: Net, a: Action, e: End, far: End, pings: set<nat>)
    requires Inv(net) && Enabled(net, a) && HandlesPing(net, a, e, pings)
    requires e in net.peer && net.peer[e] == far && ArePings(net, far, pings)
    ensures EventsOf(net, a, e.node) != [] && Resets(EventsOf(net, a, e.node)[0], e.id)
  {
    hide Valid, Sound, ConnsFit, SentFitsAll, EstFits, LinksFit, LogFits;
    assert NodeFits(net, e.node);
    var node := net.nodes[e.node];
    var sent := Sent(net, far);
    assert node.inbox[0] == sent[node.Done(e.id)];
  }

  lemma EventsTick(net: Net, a: Action, m: NodeId)
    requires Enabled(net, a)
    ensures var evs := EventsOf(net, a, m);
            && |evs| <= 1
            && (evs == [] ==> !Ticking(a, m) && !(a.Handling? && a.at == m))
            && (evs != [] ==> (evs[0].Tick? <==> Ticking(a, m)))
  {
    hide Valid;
  }

  /** What the run of the cluster feeds is regular in the run of the server. */
  lemma {:induction false} FedIsRegular(net: Net, actions: seq<Action>, e: End, far: End, slots: nat, c: nat,
      pings: set<nat>, d: nat)
    requires Inv(net) && IsNetRun(net, actions) && Fed(net, actions, e, far, slots, c, pings) && d <= c
    requires e in net.peer && net.peer[e] == far && ArePings(net, far, pings)
    ensures Regular(EventsIn(net, actions, e.node), e.id, slots, d)
    decreases |actions|
  {
    hide Inv, Enabled, Do, ArePings, HandlesPing, PingsAfter, Ticking, EventsOf, Resets;
    if actions != [] {
      var a := actions[0];
      var c' := if HandlesPing(net, a, e, pings) then 0 else if Ticking(a, e.node) then c + 1 else c;
      var now, later := EventsOf(net, a, e.node), EventsIn(Do(net, a), actions[1..], e.node);
      ActionKeeps(net, a);
      ActionKeepsPeer(net, a, e);
      TickQueuesPing(net, a, far, pings);
      EventsTick(net, a, e.node);
      HandlesIsHandling(net, a, e, pings);
      if HandlesPing(net, a, e, pings) {
        PingResets(net, a, e, far, pings);
      }
      var d' := if now == [] then d else if Resets(now[0], e.id) then 0 else if now[0].Tick? then d + 1 else d;
      FedIsRegular(Do(net, a), actions[1..], e, far, slots, c', PingsAfter(net, a, far, pings), d');
      if now == [] {
        assert now + later == later;
      } else {
        assert (now + later)[0] == now[0] && (now + later)[1..] == later;
      }
    }
  }

  lemma HandlesIsHandling(net: Net, a: Action, e: End, pings: set<nat>)
    ensures HandlesPing(net, a, e, pings) ==> a.Handling? && a.at == e.node
  {
  }

  /** From any point of any run of the cluster on: a node that in every window of as many of its ticks as there are
      slots handles some ping, sent by its peer at a tick and written without an error, never times the connection
      out. */
  lemma FedNeverExpires(net: Net, actions: seq<Action>, e: End, far: End, c: nat)
    requires Inv(net) && IsNetRun(net, actions) && e in net.peer && net.peer[e] == far && e.node in net.nodes
    requires Valid(net.nodes[e.node].world.server)
    requires var s := net.nodes[e.node].world.server;
             && (e.id in s.conns ==> Idle(s)[e.id] <= c)
             && Fed(net, actions, e, far, |s.wheel.data|, c, {})
    ensures IsRun(net.nodes[e.node].world, EventsIn(net, actions, e.node))
    ensures NeverExpires(net.nodes[e.node].world, EventsIn(net, actions, e.node), e.id)
  {
    hide Inv, IsNetRun, Fed, Regular, NeverExpires, EventsIn, IsRun, Valid;
    var w := net.nodes[e.node].world;
    FedIsRegular(net, actions, e, far, |w.server.wheel.data|, c, {}, c);
    RunProjects(net, actions, e.node);
    RegularNeverExpires(w, EventsIn(net, actions, e.node), e.id, c);
  }
}
