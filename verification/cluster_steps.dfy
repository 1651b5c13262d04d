/** How one event changes a server, connection by connection: what later proofs about runs and
    about several servers rely on. */
module ClusterSteps {
  import opened Base
  import opened Ids
  import opened Messages
  import opened Membership
  import opened ClusterState

  /** The event restarts the idle time of `id`: a Ping or a Members frame arrived on it. */
  ghost predicate Resets(ev: Event, id: Id) {
    ev.Got? && ev.id == id && (ev.frame.Ping? || ev.frame.MembersFrame?)
  }

  /** The event is the arrival on `id` of the members of `from`. */
  ghost predicate Greets(ev: Event, id: Id, from: NodeId) {
    ev.Got? && ev.id == id && ev.frame.MembersFrame? && ev.frame.from == from
  }

  /** A connection that lives on keeps its direction, its slot unless its timer is reset, and its
      name unless it is greeted. */
  ghost predicate Kept(c: Conn, c': Conn, id: Id, ev: Event, write: nat) {
    && c'.isClient == c.isClient
    && c'.slot == (if Resets(ev, id) then write else c.slot)
    && (c'.node == c.node || (c'.node.Some? && Greets(ev, id, c'.node.value)))
    && (c.membersSent ==> c'.membersSent)
  }

  /** A new connection is either accepted or opened by this node. */
  ghost predicate Opened(c': Conn, id: Id, ev: Event, write: nat) {
    && c'.slot == write
    && (c'.isClient <==> !ev.Accept?)
    && (if ev.Accept? then ev.id == id && c'.node == None else c'.node.Some? && !c'.membersSent)
  }

  ghost predicate ConnsEvolved(s: Server, s': Server, ev: Event) {
    && s'.node == s.node
    && s.ids <= s'.ids
    && |s'.wheel.data| == |s.wheel.data|
    && s'.wheel.write == (if ev.Tick? then s.wheel.Next(s.wheel.write) else s.wheel.write)
    && forall id | id in s'.conns ::
         if id in s.conns then Kept(s.conns[id], s'.conns[id], id, ev, s'.wheel.write)
         else id !in s.ids && Opened(s'.conns[id], id, ev, s'.wheel.write)
  }

  /** Established entries live exactly as long as their connections; new ones come from greetings,
      and a greeted connection that survives is established. */
  ghost predicate EstEvolved(s: Server, s': Server, ev: Event) {
    && (forall n | n in s.est && s.est[n] in s'.conns :: n in s'.est && s'.est[n] == s.est[n])
    && (forall n | n in s'.est :: (n in s.est && s.est[n] == s'.est[n]) || Greets(ev, s'.est[n], n))
    && (ev.Got? && ev.frame.MembersFrame? && ev.id in s'.conns ==>
          ev.frame.from in s'.est && s'.est[ev.frame.from] == ev.id)
  }

  ghost predicate Evolved(s: Server, s': Server, ev: Event) {
    && ConnsEvolved(s, s', ev)
    && EstEvolved(s, s', ev)
    && s.members.marks <= s'.members.marks
  }

  /** Frames go out in the right order: the first frame on a connection is this node's Members,
      every later one is not; envelopes go to the established connection of their node. */
  ghost predicate SentFits(s: Server, r: Reply, ev: Event) {
    && (forall id | id in r.sent ::
          var first := id !in s.conns || !s.conns[id].membersSent;
          && (id in s.conns || (ev.Accept? && ev.id == id))
          && (first <==> r.sent[id].MembersFrame?)
          && (r.sent[id].MembersFrame? ==> r.sent[id].from == s.node && id in r.server.conns)
          && (r.sent[id].EnvelopeFrame? ==>
                r.sent[id].envelope.to.node in s.est && s.est[r.sent[id].envelope.to.node] == id))
    && (forall id | id in r.server.conns ::
          r.server.conns[id].membersSent <==> (id in s.conns && s.conns[id].membersSent) || id in r.sent)
  }

  lemma DropEvolves(s: Server, ids: set<Id>, ev: Event)
    requires Sound(s) && !ev.Tick? && (forall id | id !in ids :: !Resets(ev, id))
    requires ev.Got? && ev.frame.MembersFrame? ==> ev.id in ids
    ensures Evolved(s, Drop(s, ids), ev)
  {
  }

  lemma SendMembersSteps(s: Server, id: Id, ok: bool, ev: Event)
    requires Valid(s) && id in s.conns && !s.conns[id].membersSent
    requires ev == FirstRead(id, ok)
    ensures Evolved(s, SendMembers(s, id, ok).server, ev) && SentFits(s, SendMembers(s, id, ok), ev)
  {
  }

  lemma AcceptSteps(s: Server, id: Id, ok: bool)
    requires Valid(s) && id !in s.ids
    ensures var r := Step(s, Accept(id, ok));
            Evolved(s, r.server, Accept(id, ok)) && SentFits(s, r, Accept(id, ok))
  {
  }

  /** What the connection check can change. */
  ghost predicate Checked(s: Server, s': Server) {
    && s'.node == s.node && s.ids <= s'.ids && s'.members == s.members
    && |s'.wheel.data| == |s.wheel.data| && s'.wheel.write == s.wheel.write
    && (forall id | id in s'.conns && id in s.conns :: s'.conns[id] == s.conns[id])
    && (forall id | id in s'.conns && id !in s.conns ::
          && id !in s.ids && s'.conns[id].isClient && !s'.conns[id].membersSent
          && s'.conns[id].node.Some? && s'.conns[id].slot == s.wheel.write)
    && (forall n | n in s.est && s.est[n] in s'.conns :: n in s'.est && s'.est[n] == s.est[n])
    && (forall n | n in s'.est :: n in s.est && s'.est[n] == s.est[n])
  }

  lemma CheckSteps(s: Server, connected: map<Id, NodeId>)
    requires Valid(s) && connected.Keys !! s.ids
    ensures Checked(s, CheckConnections(s, connected))
  {
  }

  lemma RegisterSteps(s: Server, id: Id, from: NodeId)
    requires Sound(s)
    requires from in s.est ==> s.est[from] == id || id !in s.conns
    ensures var s' := Register(s, id, from);
            && s'.node == s.node && s'.ids == s.ids && s'.members == s.members
            && |s'.wheel.data| == |s.wheel.data| && s'.wheel.write == s.wheel.write
            && s'.conns.Keys == s.conns.Keys
            && (forall i | i in s.conns ::
                  s'.conns[i] == if i == id then s.conns[i].(node := Some(from), slot := s.wheel.write)
                                 else s.conns[i])
            && s'.est == if id in s.conns then s.est[from := id] else s.est
  {
  }

  /** What the arrival of Members of `from` on `id` can change. */
  ghost predicate Greeted(s: Server, s': Server, id: Id, from: NodeId, marks: set<Mark>) {
    && s'.node == s.node && s'.ids == s.ids && s'.members == s.members.Joined(marks)
    && |s'.wheel.data| == |s.wheel.data| && s'.wheel.write == s.wheel.write
    && (forall i | i in s'.conns :: i in s.conns &&
          s'.conns[i] == if i == id then s.conns[i].(node := Some(from), slot := s.wheel.write)
                         else s.conns[i])
    && (forall n | n in s.est && s.est[n] in s'.conns :: n in s'.est && s'.est[n] == s.est[n])
    && (forall n | n in s'.est :: (n in s.est && s'.est[n] == s.est[n]) || (n == from && s'.est[n] == id))
    && (id in s'.conns ==> from in s'.est && s'.est[from] == id)
  }

  lemma EstablishSteps(s: Server, id: Id, from: NodeId, marks: set<Mark>)
    requires Valid(s)
    ensures Greeted(s, EstablishConnection(s, id, from, marks), id, from, marks)
  {
    var joined := s.(members := s.members.Joined(marks));
    MembersAside(s, joined.members);
    match ChooseConnectionToClose(joined, id, from) {
      case None =>
        RegisterSteps(joined, id, from);
      case Some(close) =>
        DropKeeps(joined, {close});
        if close != id {
          RegisterSteps(Drop(joined, {close}), id, from);
        }
    }
  }

  lemma GreetedChecked(s: Server, s1: Server, s2: Server, ev: Event)
    requires ev.Got? && ev.frame.MembersFrame? && Sound(s) && ev.id in s.ids
    requires Greeted(s, s1, ev.id, ev.frame.from, ev.frame.marks) && Checked(s1, s2)
    ensures Evolved(s, s2, ev)
  {
    forall id | id in s2.conns
      ensures if id in s.conns then Kept(s.conns[id], s2.conns[id], id, ev, s2.wheel.write)
              else id !in s.ids && Opened(s2.conns[id], id, ev, s2.wheel.write)
    {
      if id in s1.conns {
        assert id in s.conns;
      } else {
        assert id !in s1.ids;
      }
    }
    forall n | n in s.est && s.est[n] in s2.conns ensures n in s2.est && s2.est[n] == s.est[n] {
      assert s.est[n] in s.conns;
      assert s.est[n] in s1.conns;
    }
  }

  lemma MembersSteps(s: Server, ev: Event)
    requires Valid(s) && Allowed(s, ev) && ev.Got? && ev.frame.MembersFrame?
    ensures Evolved(s, Step(s, ev).server, ev) && SentFits(s, Step(s, ev), ev)
  {
    hide Valid, EstablishConnection, CheckConnections, Evolved, SentFits, Greeted, Checked;
    var Got(id, MembersFrame(from, marks), _, connected) := ev;
    ValidIsSound(s);
    var s1 := EstablishConnection(s, id, from, marks);
    EstablishKeeps(s, id, from, marks);
    EstablishSteps(s, id, from, marks);
    GreetedIds(s, s1, id, from, marks);
    CheckSteps(s1, connected);
    GreetedChecked(s, s1, CheckConnections(s1, connected), ev);
    GreetedSends(s, s1, CheckConnections(s1, connected), ev);
    MembersReply(s, ev);
  }

  lemma ValidIsSound(s: Server)
    requires Valid(s)
    ensures Sound(s)
  {
  }

  lemma GreetedIds(s: Server, s1: Server, id: Id, from: NodeId, marks: set<Mark>)
    requires Greeted(s, s1, id, from, marks)
    ensures s1.ids == s.ids
  {
  }

  /** Greeting sends nothing, and says nothing about what was sent. */
  lemma GreetedSends(s: Server, s1: Server, s2: Server, ev: Event)
    requires ev.Got? && ev.frame.MembersFrame? && Sound(s)
    requires Greeted(s, s1, ev.id, ev.frame.from, ev.frame.marks) && Checked(s1, s2)
    ensures SentFits(s, Quiet(s2), ev)
  {
    hide Sound;
    assert s.conns.Keys <= s.ids by {
      SoundIds(s);
    }
  }

  lemma SoundIds(s: Server)
    requires Sound(s)
    ensures s.conns.Keys <= s.ids
  {
  }

  lemma MembersReply(s: Server, ev: Event)
    requires Sound(s) && ev.Got? && ev.frame.MembersFrame?
    ensures Step(s, ev) == Quiet(GotMembers(s, ev.id, ev.frame.from, ev.frame.marks, ev.connected))
  {
    hide GotMembers;
  }

  /** Only the membership changes, and it grows. */
  lemma MembersGrowSteps(s: Server, members: Members, ev: Event)
    requires Valid(s) && s.members.marks <= members.marks
    requires !ev.Tick? && (forall id :: !Resets(ev, id))
    requires ev.Got? ==> !ev.frame.MembersFrame?
    ensures Evolved(s, s.(members := members), ev)
  {
  }

  lemma BroadcastSteps(s: Server, members: Members, frame: Frame, fails: set<Id>, ev: Event)
    requires Valid(s) && s.members.marks <= members.marks
    requires !ev.Tick? && (forall id :: !Resets(ev, id))
    requires ev.Got? ==> !ev.frame.MembersFrame?
    requires frame.Ping? || frame.DeltaFrame?
    ensures var r := Broadcast(s.(members := members), frame, fails);
            Evolved(s, r.server, ev) && SentFits(s, r, ev)
  {
    MembersGrowSteps(s, members, ev);
  }

  lemma QuietSteps(s: Server, up: seq<Envelope<Payload>>, errs: set<Id>, ev: Event)
    requires Valid(s) && !ev.Tick? && (forall id :: !Resets(ev, id))
    requires ev.Got? ==> !ev.frame.MembersFrame?
    ensures Evolved(s, s, ev) && SentFits(s, Reply(s, map[], errs, up), ev)
  {
    MembersGrowSteps(s, s.members, ev);
  }

  lemma PingSteps(s: Server, ev: Event)
    requires Valid(s) && ev.Got? && ev.frame.Ping?
    ensures Evolved(s, Step(s, ev).server, ev) && SentFits(s, Step(s, ev), ev)
  {
    hide Evolved, SentFits, ResetTimer;
    PingEvolves(s, ev);
    assert Step(s, ev) == Quiet(ResetTimer(s, ev.id));
  }

  lemma PingEvolves(s: Server, ev: Event)
    requires Sound(s) && ev.Got? && ev.frame.Ping?
    ensures Evolved(s, ResetTimer(s, ev.id), ev) && SentFits(s, Quiet(ResetTimer(s, ev.id)), ev)
  {
  }

  lemma OtherFrameSteps(s: Server, ev: Event)
    requires Valid(s) && Allowed(s, ev) && ev.Got? && !ev.frame.MembersFrame?
    ensures Evolved(s, Step(s, ev).server, ev) && SentFits(s, Step(s, ev), ev)
  {
    match ev.frame {
      case Ping => PingSteps(s, ev);
      case EnvelopeFrame(e) => QuietSteps(s, [e], {}, ev);
      case DeltaFrame(delta) =>
        QuietSteps(s, [], {}, ev);
        BroadcastSteps(s, s.members.Joined(delta), DeltaFrame(delta), ev.fails, ev);
    }
  }

  /** A tick expires timers, pings, and then checks the connections unless a ping failed. */
  lemma TickIsCheck(s: Server, ev: Event)
    requires Valid(s) && ev.Tick?
    ensures var s1, r := ExpireTimers(s), Step(s, ev);
            && s1.ids == s.ids && (r.server == s1 || r.server == CheckConnections(s1, ev.connected))
            && (forall id | id in r.sent :: r.sent[id] == Ping && id in s.conns && s.conns[id].membersSent)
  {
    hide CheckConnections, Valid;
  }

  /** What expiring timers can change. */
  ghost predicate Expired(s: Server, s1: Server) {
    && s1.node == s.node && s1.ids == s.ids && s1.members == s.members
    && |s1.wheel.data| == |s.wheel.data| && s1.wheel.write == s.wheel.Next(s.wheel.write)
    && (forall id | id in s.conns :: id in s.ids)
    && (forall id | id in s1.conns :: id in s.conns && s1.conns[id] == s.conns[id])
    && (forall n | n in s1.est :: n in s.est && s1.est[n] == s.est[n])
    && (forall n | n in s.est && s.est[n] in s1.conns :: n in s1.est)
    && (forall n | n in s.est :: s.est[n] in s.conns)
  }

  lemma ExpirySteps(s: Server)
    requires Valid(s)
    ensures Valid(ExpireTimers(s)) && Expired(s, ExpireTimers(s))
  {
    DropKeeps(s.(wheel := s.wheel.Turned()), s.wheel.data[s.wheel.read]);
  }

  lemma ExpiredEvolves(s: Server, s1: Server, s': Server, ev: Event)
    requires ev.Tick? && Expired(s, s1) && (s' == s1 || Checked(s1, s'))
    ensures Evolved(s, s', ev)
    ensures forall id | id in s'.conns :: s'.conns[id].membersSent <==> id in s.conns && s.conns[id].membersSent
  {
    forall id | id in s'.conns && id in s.conns ensures id in s1.conns && s'.conns[id] == s.conns[id] {
    }
    assert ConnsEvolved(s, s', ev);
    assert EstEvolved(s, s', ev);
  }

  lemma TickEvolves(s: Server, s': Server, ev: Event)
    requires Valid(s) && Allowed(s, ev) && ev.Tick?
    requires s' == ExpireTimers(s) || s' == CheckConnections(ExpireTimers(s), ev.connected)
    ensures Evolved(s, s', ev)
    ensures forall id | id in s'.conns :: s'.conns[id].membersSent <==> id in s.conns && s.conns[id].membersSent
  {
    ExpirySteps(s);
    var s1 := ExpireTimers(s);
    assert s1.ids == s.ids;
    CheckSteps(s1, ev.connected);
    ExpiredEvolves(s, s1, s', ev);
  }

  lemma TickSteps(s: Server, ev: Event)
    requires Valid(s) && Allowed(s, ev) && ev.Tick?
    ensures Evolved(s, Step(s, ev).server, ev) && SentFits(s, Step(s, ev), ev)
  {
    hide CheckConnections, Evolved, Valid, Sound, Step, ExpireTimers, Allowed;
    ValidIsSound(s);
    TickIsCheck(s, ev);
    TickEvolves(s, Step(s, ev).server, ev);
  }

  lemma JoinSteps(s: Server, ev: Event)
    requires Valid(s) && Allowed(s, ev) && ev.Join?
    ensures Evolved(s, Step(s, ev).server, ev) && SentFits(s, Step(s, ev), ev)
  {
    var added := s.members.AfterAdd(ev.peer);
    BroadcastSteps(s, added, DeltaFrame(s.members.AddDelta(ev.peer)), ev.fails, ev);
    var told := Broadcast(s.(members := added), DeltaFrame(s.members.AddDelta(ev.peer)), ev.fails);
    if told.errs == {} && ev.answer.Some? {
      var s' := InitConnection(told.server, ev.answer.value, Some(ev.peer));
      assert ConnsEvolved(s, s', ev);
      assert EstEvolved(s, s', ev);
    }
  }

  lemma LeaveSteps(s: Server, ev: Event)
    requires Valid(s) && ev.Leave?
    ensures Evolved(s, Step(s, ev).server, ev) && SentFits(s, Step(s, ev), ev)
  {
    QuietSteps(s, [], {}, ev);
    var delta := s.members.LeaveDelta(ev.peer);
    BroadcastSteps(s, s.members.Joined(delta), DeltaFrame(delta), ev.fails, ev);
  }

  lemma SendSteps(s: Server, ev: Event)
    requires Valid(s) && ev.Send?
    ensures Evolved(s, Step(s, ev).server, ev) && SentFits(s, Step(s, ev), ev)
  {
    var r := Step(s, ev);
    QuietSteps(s, r.up, r.errs, ev);
  }

  /** Every event changes a server in the ways above and in no other. */
  lemma StepEvolves(s: Server, ev: Event)
    requires Valid(s) && Allowed(s, ev)
    ensures Evolved(s, Step(s, ev).server, ev) && SentFits(s, Step(s, ev), ev)
  {
    match ev {
      case Accept(id, ok) => AcceptSteps(s, id, ok);
      case FirstRead(id, ok) =>
        if id in s.conns && !s.conns[id].membersSent {
          SendMembersSteps(s, id, ok, ev);
        } else {
          QuietSteps(s, [], {}, ev);
        }
      case Got(_, frame, _, _) =>
        if frame.MembersFrame? {
          MembersSteps(s, ev);
        } else {
          OtherFrameSteps(s, ev);
        }
      case Tick(_, _) => TickSteps(s, ev);
      case Join(_, _, _) => JoinSteps(s, ev);
      case Leave(_, _) => LeaveSteps(s, ev);
      case Send(_, _) => SendSteps(s, ev);
      case IoError(id) => QuietSteps(s, [], {id}, ev);
      case Cleanup => QuietSteps(s, [], {}, ev);
    }
  }

  lemma ApplyEvolves(w: World, ev: Event)
    requires Valid(w.server) && Allowed(w.server, ev)
    ensures Evolved(w.server, Apply(w, ev).server, ev)
  {
    StepEvolves(w.server, ev);
    if ev.Cleanup? {
      DropEvolves(w.server, w.failed, ev);
    }
  }
}
