/** What two neighbours know of each other's membership. Deltas are passed on, Members frames are not: what a
    node learns from one reaches its neighbours only by later greetings. */
module Neighbours {
  import opened Ids
  import opened Membership
  import opened ClusterState
  import opened ClusterSteps
  import opened Network
  import opened NetworkInvariant
  import opened NetworkTheorems
  import opened Flooding

  /** All marks that these frames carry. */
  function CarriedBy(frames: seq<Frame>): set<Mark> {
    set i, mark | 0 <= i < |frames| && mark in Carried(frames[i]) :: mark
  }

  lemma CarriedMore(frames: seq<Frame>, frame: Frame)
    ensures CarriedBy(frames + [frame]) == CarriedBy(frames) + Carried(frame)
  {
    var more := frames + [frame];
    forall mark ensures mark in CarriedBy(more) <==> mark in CarriedBy(frames) + Carried(frame) {
      if mark in CarriedBy(frames) {
        var i :| 0 <= i < |frames| && mark in Carried(frames[i]);
        assert more[i] == frames[i];
      }
      if mark in Carried(frame) {
        assert more[|frames|] == frame;
      }
    }
  }

  // ----- what one end tells

  /** What an event teaches a node without making it tell others. */
  function HeardIn(ev: Event): set<Mark> {
    if ev.Got? && ev.frame.MembersFrame? then ev.frame.marks else {}
  }

  /** On a connection that lives on without an error: whatever the event teaches, except from a Members frame,
      is told, and a greeting tells everything. */
  ghost predicate Shares(s: Server, r: Reply, ev: Event, id: Id) {
    id in r.server.conns && id !in r.errs ==>
      var told := if id in r.sent then Carried(r.sent[id]) else {};
      if id in s.conns && s.conns[id].membersSent
      then r.server.members.marks <= s.members.marks + told + HeardIn(ev)
      else id in r.sent ==> r.server.members.marks <= told
  }

  lemma BroadcastShares(s: Server, delta: Delta, fails: set<Id>, ev: Event, id: Id)
    requires Sound(s)
    ensures Shares(s, Broadcast(s.(members := s.members.Joined(delta)), DeltaFrame(delta), fails), ev, id)
  {
  }

  lemma JoinShares(s: Server, ev: Event, id: Id)
    requires Valid(s) && Allowed(s, ev) && ev.Join?
    ensures Shares(s, Step(s, ev), ev, id)
  {
    var Join(peer, fails, answer) := ev;
    var added := s.(members := s.members.AfterAdd(peer));
    hide Valid, InitConnection;
    assert Broadcast(added, DeltaFrame(s.members.AddDelta(peer)), fails).server == added;
  }

  lemma LeaveShares(s: Server, ev: Event, id: Id)
    requires Valid(s) && ev.Leave?
    ensures Shares(s, Step(s, ev), ev, id)
  {
    var delta := s.members.LeaveDelta(ev.peer);
    BroadcastShares(s, delta, ev.fails, ev, id);
  }

  /** A greeting carries all that its sender knows. */
  lemma GreetingTells(s: Server, ev: Event, id: Id)
    requires Valid(s) && Allowed(s, ev) && id in Step(s, ev).sent && Step(s, ev).sent[id].MembersFrame?
    ensures Step(s, ev).sent[id].marks == Step(s, ev).server.members.marks
  {
    hide EstablishConnection, CheckConnections, ExpireTimers;
  }

  lemma StepShares(s: Server, ev: Event, id: Id)
    requires Valid(s) && Allowed(s, ev)
    ensures Shares(s, Step(s, ev), ev, id)
  {
    if ev.Join? {
      JoinShares(s, ev, id);
    } else if ev.Leave? {
      LeaveShares(s, ev, id);
    } else if ev.Got? && ev.frame.DeltaFrame? {
      BroadcastShares(s, ev.frame.delta, ev.fails, ev, id);
    } else {
      QuietShares(s, ev, id);
    }
  }

  lemma QuietShares(s: Server, ev: Event, id: Id)
    requires Valid(s) && Allowed(s, ev) && !ev.Join? && !ev.Leave? && !(ev.Got? && ev.frame.DeltaFrame?)
    ensures Shares(s, Step(s, ev), ev, id)
  {
    hide Step, Valid, Sound, Evolved, Allowed;
    ValidIsSound(s);
    StepSpreads(s, ev);
    StepEvolves(s, ev);
    if id in Step(s, ev).sent && Step(s, ev).sent[id].MembersFrame? {
      GreetingTells(s, ev, id);
    }
  }

  /** The connection lives and no write to it has failed. */
  ghost predicate Intact(w: World, id: Id) {
    id in w.server.conns && id !in w.failed
  }

  /** On an intact connection that has been greeted on, the node has told all that it knows, but for `heard`. */
  ghost predicate AllTold(w: World, id: Id, heard: set<Mark>) {
    Intact(w, id) && w.Sent(id) != [] ==> w.server.members.marks <= CarriedBy(w.Sent(id)) + heard
  }

  /** A connection has been greeted on when something was sent on it. */
  ghost predicate GreetedOn(w: World, id: Id) {
    && (id in w.server.conns ==> (w.server.conns[id].membersSent <==> w.Sent(id) != []))
    && (id !in w.server.ids ==> w.Sent(id) == [])
  }

  /** What this event teaches the node by a Members frame after it has greeted on `id`. */
  function HeardLate(w: World, ev: Event, id: Id): set<Mark> {
    if w.Sent(id) != [] then HeardIn(ev) else {}
  }

  lemma ApplyTells(w: World, ev: Event, id: Id, heard: set<Mark>)
    requires Valid(w.server) && Allowed(w.server, ev)
    requires GreetedOn(w, id) && GreetedOn(Apply(w, ev), id) && AllTold(w, id, heard)
    ensures AllTold(Apply(w, ev), id, heard + HeardLate(w, ev, id))
  {
    hide Valid, Sound, Step, Allowed, CarriedBy;
    ValidIsSound(w.server);
    var w' := Apply(w, ev);
    ApplyEvolves(w, ev);
    AppendsOne(w, ev, id);
    assert w.Sent(id) + [] == w.Sent(id);
    if ev.Cleanup? {
      CleanupTells(w, ev, id, heard);
    } else {
      StepShares(w.server, ev, id);
      if id in Step(w.server, ev).sent {
        CarriedMore(w.Sent(id), Step(w.server, ev).sent[id]);
      }
    }
  }

  lemma CleanupTells(w: World, ev: Event, id: Id, heard: set<Mark>)
    requires Sound(w.server) && ev.Cleanup? && AllTold(w, id, heard)
    ensures AllTold(Apply(w, ev), id, heard)
  {
  }

  // ----- what a node has told, in runs

  lemma InvGreetedOn(net: Net, m: NodeId, id: Id)
    requires Inv(net) && m in net.nodes
    ensures GreetedOn(net.nodes[m].world, id)
  {
    hide Valid, EstFits, InboxFits, LinksFit, LogFits;
    assert NodeFits(net, m);
  }

  /** What this action teaches the node of `e` by a Members frame after it has greeted on `e`. */
  ghost function HeardNow(net: Net, a: Action, e: End): set<Mark> {
    if a.Handling? && a.at == e.node && e.node in net.nodes && net.nodes[e.node].inbox != []
       && net.nodes[e.node].inbox[0].MembersFrame? && Sent(net, e) != []
    then net.nodes[e.node].inbox[0].marks
    else {}
  }

  ghost predicate Tells(net: Net, e: End, heard: set<Mark>) {
    e.node in net.nodes ==> AllTold(net.nodes[e.node].world, e.id, heard)
  }

  lemma EventTells(net: Net, net': Net, ev: Event, e: End, heard: set<Mark>)
    requires Inv(net) && Inv(net') && Tells(net, e, heard) && e.node in net.nodes && e.node in net'.nodes
    requires Valid(net.nodes[e.node].world.server) && Allowed(net.nodes[e.node].world.server, ev)
    requires net'.nodes[e.node].world == Apply(net.nodes[e.node].world, ev)
    ensures Tells(net', e, heard + HeardLate(net.nodes[e.node].world, ev, e.id))
  {
    hide Inv, Valid, Sound, Apply, AllTold, HeardLate, GreetedOn;
    InvGreetedOn(net, e.node, e.id);
    InvGreetedOn(net', e.node, e.id);
    ApplyTells(net.nodes[e.node].world, ev, e.id, heard);
  }

  lemma ActionTells(net: Net, a: Action, e: End, heard: set<Mark>)
    requires Inv(net) && Enabled(net, a) && Tells(net, e, heard)
    ensures Tells(Do(net, a), e, heard + HeardNow(net, a, e))
  {
    hide Inv, Valid, Sound, Apply, AllTold, Step;
    ActionKeeps(net, a);
    assert heard + {} == heard;
    if a.at != e.node || a.Reading? {
      SameTells(net, Do(net, a), e, heard);
    } else {
      InvFacts(net, a.at);
      match a
      case Accepting(m, id, client, ok) => EventTells(net, DoAccept(net, m, id, client, ok), Accept(id, ok), e, heard);
      case Acting(m, ev) => EventTells(net, DoEvent(net, m, ev), ev, e, heard);
      case Handling(m, fails, connected) =>
        HandlingAllowed(net, m, fails, connected);
        EventTells(net, DoHandle(net, m, fails, connected), HandlingEvent(net.nodes[m], fails, connected), e, heard);
      case Reading(_, _, _) =>
    }
  }

  lemma SameTells(net: Net, net': Net, e: End, heard: set<Mark>)
    requires Tells(net, e, heard) && net'.nodes.Keys == net.nodes.Keys
    requires e.node in net.nodes ==> net'.nodes[e.node].world == net.nodes[e.node].world
    ensures Tells(net', e, heard)
  {
  }

  /** What the node of `e` learns in this run from Members frames after it has greeted on `e`. */
  ghost function HeardAfter(net: Net, actions: seq<Action>, e: End): set<Mark>
    requires IsNetRun(net, actions)
    decreases |actions|
  {
    if actions == [] then {}
    else HeardNow(net, actions[0], e) + HeardAfter(Do(net, actions[0]), actions[1..], e)
  }

  lemma {:induction false} RunTells(net: Net, actions: seq<Action>, e: End, heard: set<Mark>)
    requires Inv(net) && IsNetRun(net, actions) && Tells(net, e, heard)
    ensures Tells(NetRun(net, actions), e, heard + HeardAfter(net, actions, e))
    decreases |actions|
  {
    hide Inv, Tells, HeardNow, Enabled, Do;
    if actions == [] {
      assert heard + {} == heard;
    } else {
      var now := HeardNow(net, actions[0], e);
      var later := HeardAfter(Do(net, actions[0]), actions[1..], e);
      ActionKeeps(net, actions[0]);
      ActionTells(net, actions[0], e, heard);
      RunTells(Do(net, actions[0]), actions[1..], e, heard + now);
      assert (heard + now) + later == heard + (now + later);
    }
  }

  lemma {:induction false} HeardIsKnown(net: Net, actions: seq<Action>, e: End)
    requires Inv(net) && IsNetRun(net, actions) && e.node in net.nodes
    ensures e.node in NetRun(net, actions).nodes
    ensures Marks(net, e.node) + HeardAfter(net, actions, e) <= Marks(NetRun(net, actions), e.node)
    decreases |actions|
  {
    hide Inv, HeardNow, Enabled, Do, Refloods;
    if actions != [] {
      ActionKeeps(net, actions[0]);
      ActionAbsorbs(net, actions[0], e.node, {});
      NowIsKnown(net, actions[0], e);
      HeardIsKnown(Do(net, actions[0]), actions[1..], e);
    }
  }

  lemma NowIsKnown(net: Net, a: Action, e: End)
    requires Inv(net) && Enabled(net, a) && e.node in net.nodes
    ensures e.node in Do(net, a).nodes && HeardNow(net, a, e) <= Marks(Do(net, a), e.node)
  {
    hide Inv, Valid, Sound, Step, Apply, Allowed;
    if a.Handling? && a.at == e.node {
      HandlingAllowed(net, a.at, a.fails, a.connected);
      EventAbsorbs(net, a.at, HandlingEvent(net.nodes[a.at], a.fails, a.connected));
    }
  }

  // ----- what a node has absorbed, in runs

  /** Whatever a node has handled it knows. */
  ghost predicate Absorbed(net: Net) {
    forall note | note in net.log && note.Handled? ::
      note.at.node in net.nodes && Carried(note.frame) <= Marks(net, note.at.node)
  }

  lemma ActionKeepsAbsorbed(net: Net, a: Action)
    requires Inv(net) && Enabled(net, a) && Absorbed(net)
    ensures Absorbed(Do(net, a))
  {
    hide Inv, Enabled, Refloods, Marks, Carried, Do;
    forall note | note in Do(net, a).log && note.Handled?
      ensures note.at.node in Do(net, a).nodes && Carried(note.frame) <= Marks(Do(net, a), note.at.node)
    {
      if note in net.log {
        ActionAbsorbs(net, a, note.at.node, {});
      } else {
        NewNote(net, a, note);
      }
    }
  }

  lemma NewNote(net: Net, a: Action, note: Note)
    requires Inv(net) && Enabled(net, a) && note in Do(net, a).log && note !in net.log && note.Handled?
    ensures note.at.node in Do(net, a).nodes && Carried(note.frame) <= Marks(Do(net, a), note.at.node)
  {
    hide Inv, Valid, Sound, Step, Apply, Allowed;
    assert a.Handling?;
    HandlingAllowed(net, a.at, a.fails, a.connected);
    EventAbsorbs(net, a.at, HandlingEvent(net.nodes[a.at], a.fails, a.connected));
    NotesShape(a.at, net.nodes[a.at].world.server, net.nodes[a.at].inboxId, net.nodes[a.at].inbox[0]);
  }

  lemma {:induction false} RunKeepsAbsorbed(net: Net, actions: seq<Action>)
    requires Inv(net) && IsNetRun(net, actions) && Absorbed(net)
    ensures Absorbed(NetRun(net, actions)) && Inv(NetRun(net, actions))
    decreases |actions|
  {
    hide Inv, Absorbed, Enabled, Do;
    if actions != [] {
      ActionKeeps(net, actions[0]);
      ActionKeepsAbsorbed(net, actions[0]);
      RunKeepsAbsorbed(Do(net, actions[0]), actions[1..]);
    }
  }

  // ----- theorems

  /** The far end of `e` has handled everything that was sent on it: nothing is in flight and nothing is lost. */
  ghost predicate AllArrived(net: Net, e: End) {
    && e in net.peer
    && forall frame | frame in Sent(net, e) :: Handled(net.peer[e], frame) in net.log
  }

  /** The live end `e` has greeted, no write to it has failed, and everything sent on it has been handled. */
  ghost predicate Delivers(net: Net, e: End) {
    && e.node in net.nodes && Intact(net.nodes[e.node].world, e.id) && Sent(net, e) != []
    && AllArrived(net, e)
  }

  /** In every run: of what a node knows, its neighbour lacks only what the node has learned from Members frames
      after it had greeted the neighbour, once everything it sent there has been handled. */
  lemma NeighbourLacks(start: Net, actions: seq<Action>, e: End)
    requires Initial(start) && IsNetRun(start, actions) && Delivers(NetRun(start, actions), e)
    ensures var net := NetRun(start, actions);
            && e.node in net.nodes && net.peer[e].node in net.nodes
            && Marks(net, e.node) - Marks(net, net.peer[e].node) ==
                 HeardAfter(start, actions, e) - Marks(net, net.peer[e].node)
  {
    var net := NetRun(start, actions);
    hide Inv, Initial, IsNetRun, NetRun, Enabled, Do, HeardAfter;
    InitialFacts(start, e);
    RunTells(start, actions, e, {});
    RunKeepsAbsorbed(start, actions);
    StartHasNode(start, actions, e.node);
    HeardIsKnown(start, actions, e);
    PeerIsNode(net, e);
    CarriedArrives(net, e);
    assert {} + HeardAfter(start, actions, e) == HeardAfter(start, actions, e);
  }

  lemma InitialFacts(start: Net, e: End)
    requires Initial(start)
    ensures Inv(start) && Tells(start, e, {}) && Absorbed(start)
  {
    InitialInv(start);
  }

  lemma PeerIsNode(net: Net, e: End)
    requires Inv(net) && e in net.peer
    ensures net.peer[e].node in net.nodes
  {
    hide NodeFits, LogFits;
    assert net.peer[e] in net.peer && KnownEnd(net, net.peer[e]);
  }

  lemma {:induction false} StartHasNode(net: Net, actions: seq<Action>, m: NodeId)
    requires IsNetRun(net, actions) && m in NetRun(net, actions).nodes
    ensures m in net.nodes
    decreases |actions|
  {
    if actions != [] {
      StartHasNode(Do(net, actions[0]), actions[1..], m);
      SameNodes(net, actions[0]);
    }
  }

  lemma SameNodes(net: Net, a: Action)
    requires Enabled(net, a)
    ensures Do(net, a).nodes.Keys == net.nodes.Keys
  {
    hide Step, Apply, Valid;
  }

  lemma CarriedArrives(net: Net, e: End)
    requires Absorbed(net) && AllArrived(net, e) && net.peer[e].node in net.nodes
    ensures CarriedBy(Sent(net, e)) <= Marks(net, net.peer[e].node)
  {
    forall mark | mark in CarriedBy(Sent(net, e)) ensures mark in Marks(net, net.peer[e].node) {
      var i :| 0 <= i < |Sent(net, e)| && mark in Carried(Sent(net, e)[i]);
      assert Sent(net, e)[i] in Sent(net, e);
    }
  }

  /** Exactly when two neighbours that have handled everything from each other know the same: when each knows
      what the other has learned from Members frames after greeting it. */
  lemma NeighboursAgreeExactly(start: Net, actions: seq<Action>, e: End, far: End)
    requires Initial(start) && IsNetRun(start, actions)
    requires var net := NetRun(start, actions);
             Delivers(net, e) && Delivers(net, far) && net.peer[e] == far && net.peer[far] == e
    ensures var net := NetRun(start, actions);
            e.node in net.nodes && far.node in net.nodes &&
            (Marks(net, e.node) == Marks(net, far.node) <==>
               && HeardAfter(start, actions, e) <= Marks(net, far.node)
               && HeardAfter(start, actions, far) <= Marks(net, e.node))
  {
    var net := NetRun(start, actions);
    hide Initial, IsNetRun, NetRun, Delivers, HeardAfter, Marks;
    NeighbourLacks(start, actions, e);
    NeighbourLacks(start, actions, far);
    var a, b := Marks(net, e.node), Marks(net, far.node);
    var x, y := HeardAfter(start, actions, e), HeardAfter(start, actions, far);
    EmptyDifference(a, b);
    EmptyDifference(b, a);
    EmptyDifference(x, b);
    EmptyDifference(y, a);
  }

  lemma EmptyDifference<V>(a: set<V>, b: set<V>)
    ensures a - b == {} <==> a <= b
  {
    assert a <= b ==> a - b == {};
    assert a - b == {} ==> forall v | v in a :: v in b || v in a - b;
  }
}
