/** Envelopes across the cluster: what is sent on a working connection arrives, and what arrives is passed on. */
module Envelopes {
  import opened Base
  import opened Ids
  import opened Messages
  import opened ClusterState
  import opened ClusterSteps
  import opened ClusterSends
  import opened Network
  import opened NetworkInvariant
  import opened Flooding
  import opened Neighbours
  import opened NodeRuns

  // ----- what a node passes on to its executor

  /** An envelope that a node passes on to its executor: one that a peer has sent, or its own answer to a metrics
      request. */
  datatype Passage = FromPeer(envelope: Envelope<Payload>) | Answer(envelope: Envelope<Payload>)

  function PassagesOf(node: NodeId, ev: Event): seq<Passage> {
    var up := PassedUp(node, ev);
    seq(|up|, i requires 0 <= i < |up| => if ev.Got? then FromPeer(up[i]) else Answer(up[i]))
  }

  function Passages(node: NodeId, evs: seq<Event>): seq<Passage> {
    if evs == [] then [] else PassagesOf(node, evs[0]) + Passages(node, evs[1..])
  }

  function All(ps: seq<Passage>): seq<Envelope<Payload>> {
    seq(|ps|, i requires 0 <= i < |ps| => ps[i].envelope)
  }

  function IsFromPeer(): Passage -> bool {
    (p: Passage) => p.FromPeer?
  }

  /** The envelopes from peers among them. */
  function FromPeers(ps: seq<Passage>): seq<Envelope<Payload>> {
    All(Filter(ps, IsFromPeer()))
  }

  /** The envelopes that the log says were delivered at `m`, in order. */
  function DeliveredAt(log: seq<Note>, m: NodeId): seq<Envelope<Payload>> {
    if log == [] then []
    else
      DeliveredAt(log[..|log| - 1], m) +
      var last := log[|log| - 1];
      if last.Delivered? && last.node == m then [last.envelope] else []
  }

  lemma {:induction false} DeliveredConcat(a: seq<Note>, b: seq<Note>, m: NodeId)
    ensures DeliveredAt(a + b, m) == DeliveredAt(a, m) + DeliveredAt(b, m)
    decreases |b|
  {
    if b == [] {
      assert a + b == a;
    } else {
      DeliveredConcat(a, b[..|b| - 1], m);
      assert (a + b)[..|a + b| - 1] == a + b[..|b| - 1];
    }
  }

  lemma {:induction false} PassagesConcat(node: NodeId, a: seq<Event>, b: seq<Event>)
    ensures Passages(node, a + b) == Passages(node, a) + Passages(node, b)
  {
    hide PassagesOf;
    if a == [] {
      assert a + b == b;
    } else {
      PassagesConcat(node, a[1..], b);
      assert (a + b)[1..] == a[1..] + b;
      var first, rest, last := PassagesOf(node, a[0]), Passages(node, a[1..]), Passages(node, b);
      assert first + (rest + last) == (first + rest) + last;
    }
  }

  lemma AllConcat(a: seq<Passage>, b: seq<Passage>)
    ensures All(a + b) == All(a) + All(b)
  {
  }

  lemma FromPeersConcat(a: seq<Passage>, b: seq<Passage>)
    ensures FromPeers(a + b) == FromPeers(a) + FromPeers(b)
  {
    FilterConcat(a, b, IsFromPeer());
    hide Filter;
  }

  lemma OnePassage(node: NodeId, ev: Event)
    ensures All(Passages(node, [ev])) == PassedUp(node, ev)
    ensures FromPeers(Passages(node, [ev])) == if ev.Got? && ev.frame.EnvelopeFrame? then [ev.frame.envelope] else []
  {
    hide FromPeers;
    PassagesOne(node, ev);
    var ps := PassagesOf(node, ev);
    if ps == [] {
      NonePassed();
    } else {
      OnePassed(ps[0]);
      assert ps == [ps[0]];
    }
  }

  lemma PassagesOne(node: NodeId, ev: Event)
    ensures Passages(node, [ev]) == PassagesOf(node, ev)
  {
    hide PassagesOf;
    assert [ev][1..] == [];
    assert PassagesOf(node, ev) + [] == PassagesOf(node, ev);
  }

  lemma OnePassed(p: Passage)
    ensures FromPeers([p]) == if p.FromPeer? then [p.envelope] else []
  {
    FilterOne(p, IsFromPeer());
    hide Filter;
  }

  lemma NonePassed()
    ensures FromPeers([]) == [] && All([]) == []
  {
  }

  lemma ApplyPassesUp(w: World, ev: Event)
    requires Valid(w.server) && Sound(w.server) && Allowed(w.server, ev)
    ensures Apply(w, ev).up == w.up + All(Passages(w.server.node, [ev]))
    ensures Apply(w, ev).server.node == w.server.node
  {
    hide Step, Valid, Sound, Allowed, Passages;
    OnePassage(w.server.node, ev);
    ApplyEvolves(w, ev);
    if ev.Cleanup? {
      assert w.up + [] == w.up;
    } else {
      PassesUpExactly(w.server, ev);
    }
  }

  /** What the notes of an action say was delivered at `m` is what its event passes on from a peer. */
  lemma NotesPassUp(net: Net, a: Action, m: NodeId)
    requires Inv(net) && Enabled(net, a) && m in net.nodes
    ensures DeliveredAt(Do(net, a).log, m) ==
              DeliveredAt(net.log, m) + FromPeers(Passages(m, EventsOf(net, a, m)))
  {
    hide Inv, Valid, Sound, Step, Apply, Passages, FromPeers;
    assert DeliveredAt(net.log, m) + [] == DeliveredAt(net.log, m);
    if a.Handling? {
      HandlingAllowed(net, a.at, a.fails, a.connected);
      var node := net.nodes[a.at];
      DeliveredConcat(net.log, Notes(a.at, node.world.server, node.inboxId, node.inbox[0]), m);
      NotesDeliver(a.at, node.world.server, node.inboxId, node.inbox[0], m);
    }
    if EventsOf(net, a, m) == [] {
      NoPassage(m);
    } else {
      OnePassage(m, EventsOf(net, a, m)[0]);
      assert EventsOf(net, a, m) == [EventsOf(net, a, m)[0]];
    }
  }

  lemma NoPassage(m: NodeId)
    ensures FromPeers(Passages(m, [])) == [] && All(Passages(m, [])) == []
  {
  }

  lemma NotesDeliver(at: NodeId, s: Server, id: Id, frame: Frame, m: NodeId)
    ensures DeliveredAt(Notes(at, s, id, frame), m) ==
              if at == m && frame.EnvelopeFrame? then [frame.envelope] else []
  {
    var notes := Notes(at, s, id, frame);
    var first, rest := notes[..1], notes[1..];
    assert notes == first + rest;
    DeliveredConcat(first, rest, m);
    NotDelivered(notes[0], m);
    assert first == [notes[0]];
    if |notes| == 2 {
      assert rest == [notes[1]] && rest[..0] == [];
    }
  }

  lemma NotDelivered(note: Note, m: NodeId)
    requires note.Handled?
    ensures DeliveredAt([note], m) == []
  {
    assert [note][..0] == [];
  }

  lemma {:induction false} RunPassesUp(net: Net, actions: seq<Action>, m: NodeId)
    requires Inv(net) && IsNetRun(net, actions) && m in net.nodes
    ensures m in NetRun(net, actions).nodes
    ensures var ps := Passages(m, EventsIn(net, actions, m));
            && NetRun(net, actions).nodes[m].world.up == net.nodes[m].world.up + All(ps)
            && DeliveredAt(NetRun(net, actions).log, m) == DeliveredAt(net.log, m) + FromPeers(ps)
    decreases |actions|
  {
    hide Inv, Enabled, Do, Passages, All, FromPeers, DeliveredAt, EventsOf, Apply, Valid, Sound;
    if actions == [] {
      NoPassage(m);
    } else {
      var next := Do(net, actions[0]);
      var now, later := EventsOf(net, actions[0], m), EventsIn(next, actions[1..], m);
      ActionKeeps(net, actions[0]);
      ActionPassesUp(net, actions[0], m);
      NotesPassUp(net, actions[0], m);
      RunPassesUp(next, actions[1..], m);
      PassagesConcat(m, now, later);
      AllConcat(Passages(m, now), Passages(m, later));
      FromPeersConcat(Passages(m, now), Passages(m, later));
    }
  }

  lemma ActionPassesUp(net: Net, a: Action, m: NodeId)
    requires Inv(net) && Enabled(net, a) && m in net.nodes
    ensures m in Do(net, a).nodes
    ensures Do(net, a).nodes[m].world.up == net.nodes[m].world.up + All(Passages(m, EventsOf(net, a, m)))
  {
    hide Inv, Enabled, Do, Passages, All, EventsOf, Apply, Valid, Sound;
    ActionIsEvents(net, a, m);
    InvValid(net, m);
    var evs := EventsOf(net, a, m);
    if evs == [] {
      NoPassage(m);
    } else {
      assert evs == [evs[0]];
      ApplyPassesUp(net.nodes[m].world, evs[0]);
    }
  }

  /** In every run: what a node has passed on to its executor are the envelopes that were delivered there, and its
      answers to metrics requests, each at its place among the events of the run and nothing else. */
  lemma PassedOnInOrder(start: Net, actions: seq<Action>, m: NodeId)
    requires Initial(start) && IsNetRun(start, actions) && m in start.nodes
    ensures m in NetRun(start, actions).nodes
    ensures var net := NetRun(start, actions);
            var ps := Passages(m, EventsIn(start, actions, m));
            net.nodes[m].world.up == All(ps) && DeliveredAt(net.log, m) == FromPeers(ps)
  {
    hide Initial, Inv, IsNetRun, NetRun, EventsIn, Passages, All, FromPeers, DeliveredAt;
    NothingPassed(start, m);
    RunPassesUp(start, actions, m);
    var ps := Passages(m, EventsIn(start, actions, m));
    assert [] + All(ps) == All(ps) && [] + FromPeers(ps) == FromPeers(ps);
  }

  lemma NothingPassed(start: Net, m: NodeId)
    requires Initial(start) && m in start.nodes
    ensures Inv(start) && start.nodes[m].world.up == [] && DeliveredAt(start.log, m) == []
  {
    InitialInv(start);
  }

  // ----- what is sent on a working connection

  /** Whatever a node has handled as an envelope is noted as delivered. */
  ghost predicate EnvelopesNoted(log: seq<Note>) {
    forall note | note in log && note.Handled? && note.frame.EnvelopeFrame? ::
      Delivered(note.at.node, note.frame.envelope) in log
  }

  lemma NotesAreNoted(log: seq<Note>, at: NodeId, s: Server, id: Id, frame: Frame)
    requires EnvelopesNoted(log)
    ensures EnvelopesNoted(log + Notes(at, s, id, frame))
  {
    var notes := Notes(at, s, id, frame);
    if frame.EnvelopeFrame? {
      assert notes == [Handled(End(at, id), frame), Delivered(at, frame.envelope)];
      assert notes[1] in log + notes;
    }
  }

  lemma {:induction false} RunKeepsNoted(net: Net, actions: seq<Action>)
    requires IsNetRun(net, actions) && EnvelopesNoted(net.log)
    ensures EnvelopesNoted(NetRun(net, actions).log)
    decreases |actions|
  {
    hide EnvelopesNoted, Enabled;
    if actions != [] {
      ActionNotes(net, actions[0]);
      RunKeepsNoted(Do(net, actions[0]), actions[1..]);
    }
  }

  lemma ActionNotes(net: Net, a: Action)
    requires Enabled(net, a) && EnvelopesNoted(net.log)
    ensures EnvelopesNoted(Do(net, a).log)
  {
    hide EnvelopesNoted, Valid, Sound, Step, Apply, Notes;
    if a.Handling? {
      var node := net.nodes[a.at];
      NotesAreNoted(net.log, a.at, node.world.server, node.inboxId, node.inbox[0]);
    }
  }

  /** What was queued stays queued. */
  lemma ActionKeepsSent(net: Net, a: Action, e: End)
    requires Inv(net) && Enabled(net, a)
    ensures Sent(net, e) <= Sent(Do(net, a), e)
  {
    hide Inv, Enabled, Valid, Sound, Apply, EventsOf;
    SameNodes(net, a);
    if e.node in net.nodes {
      ActionIsEvents(net, a, e.node);
      var evs := EventsOf(net, a, e.node);
      if evs != [] {
        AppendsOne(net.nodes[e.node].world, evs[0], e.id);
      }
    }
    hide Do;
  }

  lemma {:induction false} RunKeepsSent(net: Net, actions: seq<Action>, e: End)
    requires Inv(net) && IsNetRun(net, actions)
    ensures Sent(net, e) <= Sent(NetRun(net, actions), e) && Inv(NetRun(net, actions))
    decreases |actions|
  {
    hide Inv, Enabled, Do, Sent;
    if actions != [] {
      ActionKeeps(net, actions[0]);
      ActionKeepsSent(net, actions[0], e);
      RunKeepsSent(Do(net, actions[0]), actions[1..], e);
    }
  }

  lemma {:induction false} BeforeThen(net: Net, actions: seq<Action>, i: nat)
    requires IsNetRun(net, actions) && i <= |actions|
    ensures IsNetRun(Before(net, actions, i), actions[i..])
    ensures NetRun(Before(net, actions, i), actions[i..]) == NetRun(net, actions)
    decreases |actions|
  {
    hide Enabled, Do;
    if i > 0 {
      BeforeThen(Do(net, actions[0]), actions[1..], i - 1);
      assert actions[1..][i - 1..] == actions[i..];
    } else {
      assert actions[0..] == actions;
    }
  }

  /** The node has the peer established: then the envelope is queued on that connection. */
  lemma SendQueues(net: Net, m: NodeId, e: Envelope<Payload>)
    requires Inv(net) && Enabled(net, Acting(m, Send(e, true)))
    requires e.to != ClusterPid(m) && e.to.node in net.nodes[m].world.server.est
    ensures var far := End(m, net.nodes[m].world.server.est[e.to.node]);
            && Sent(Do(net, Acting(m, Send(e, true))), far) == Sent(net, far) + [EnvelopeFrame(e)]
            && far in net.peer && net.peer[far].node == e.to.node
  {
    hide Valid, Sound, Step, ConnsFit, SentFitsAll, InboxFits, LinksFit, LogFits;
    assert NodeFits(net, m);
    InvFacts(net, m);
    var w := net.nodes[m].world;
    EnvelopeSentExactly(w.server, e, true, w.server.est[e.to.node]);
    AppendsOne(w, Send(e, true), w.server.est[e.to.node]);
  }

  /** In every run: an envelope that was sent while its node was established is delivered at that node, once
      everything that was sent on that connection has been handled. */
  lemma SentIsDelivered(start: Net, actions: seq<Action>, k: nat, m: NodeId, e: Envelope<Payload>)
    requires Initial(start) && IsNetRun(start, actions) && k < |actions|
    requires actions[k] == Acting(m, Send(e, true)) && e.to != ClusterPid(m)
    requires var before := Before(start, actions, k);
             && m in before.nodes && e.to.node in before.nodes[m].world.server.est
             && AllArrived(NetRun(start, actions), End(m, before.nodes[m].world.server.est[e.to.node]))
    ensures Delivered(e.to.node, e) in NetRun(start, actions).log
  {
    hide Inv, Initial, IsNetRun, NetRun, Enabled, Do, Sent, EnvelopesNoted;
    var before, net := Before(start, actions, k), NetRun(start, actions);
    InitialIsNoted(start);
    RunKeepsNoted(start, actions);
    RunRemembers(start, actions, m, k, k);
    BeforeStep(start, actions, k);
    SendQueues(before, m, e);
    var after := Before(start, actions, k + 1);
    var near := End(m, before.nodes[m].world.server.est[e.to.node]);
    BeforeThen(start, actions, k + 1);
    ActionKeeps(before, actions[k]);
    RunKeepsSent(after, actions[k + 1..], near);
    FrameStays(Sent(before, near), EnvelopeFrame(e), Sent(net, near));
    PeerStays(start, actions, k, near);
    assert Handled(net.peer[near], EnvelopeFrame(e)) in net.log;
    NotedIs(net.log, Handled(net.peer[near], EnvelopeFrame(e)));
  }

  lemma InitialIsNoted(start: Net)
    requires Initial(start)
    ensures Inv(start) && EnvelopesNoted(start.log)
  {
    InitialInv(start);
  }

  lemma FrameStays(sent: seq<Frame>, frame: Frame, later: seq<Frame>)
    requires sent + [frame] <= later
    ensures frame in later
  {
    assert (sent + [frame])[|sent|] == frame;
  }

  lemma NotedIs(log: seq<Note>, note: Note)
    requires EnvelopesNoted(log) && note in log && note.Handled? && note.frame.EnvelopeFrame?
    ensures Delivered(note.at.node, note.frame.envelope) in log
  {
  }

  /** The two ends of a connection stay joined. */
  lemma {:induction false} RunKeepsPeers(net: Net, actions: seq<Action>, e: End)
    requires Inv(net) && IsNetRun(net, actions) && e in net.peer
    ensures e in NetRun(net, actions).peer && NetRun(net, actions).peer[e] == net.peer[e]
    decreases |actions|
  {
    hide Inv, Enabled, Do;
    if actions != [] {
      ActionKeeps(net, actions[0]);
      ActionKeepsPeer(net, actions[0], e);
      RunKeepsPeers(Do(net, actions[0]), actions[1..], e);
    }
  }

  lemma ActionKeepsPeer(net: Net, a: Action, e: End)
    requires Inv(net) && Enabled(net, a) && e in net.peer
    ensures e in Do(net, a).peer && Do(net, a).peer[e] == net.peer[e]
  {
    hide Valid, Sound, Step, Apply, NodeFits, LogFits;
    assert KnownEnd(net, e);
  }

  lemma PeerStays(start: Net, actions: seq<Action>, k: nat, e: End)
    requires Inv(start) && IsNetRun(start, actions) && k <= |actions| && e in Before(start, actions, k).peer
    ensures e in NetRun(start, actions).peer
    ensures NetRun(start, actions).peer[e] == Before(start, actions, k).peer[e]
  {
    hide Inv, IsNetRun, NetRun, Before;
    RunRemembers(start, actions, e.node, k, k);
    BeforeThen(start, actions, k);
    RunKeepsPeers(Before(start, actions, k), actions[k..], e);
  }
}
