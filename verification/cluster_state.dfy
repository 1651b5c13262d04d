/** The state of one cluster server and what each of its handlers does to it. What the outside
    world decides (which writes fail, which connects succeed, which fresh ids the poller hands out)
    comes with the event. */
module ClusterState {
  import opened Base
  import opened Ids
  import opened Messages
  import opened Membership
  import opened TimerWheels

  type Id = nat

  /** User messages cross the wire encoded. */
  type Payload = string

  datatype Conn = Conn(node: Option<NodeId>, isClient: bool, membersSent: bool, slot: nat)

  datatype Frame =
    | MembersFrame(from: NodeId, marks: set<Mark>)
    | Ping
    | EnvelopeFrame(envelope: Envelope<Payload>)
    | DeltaFrame(delta: Delta)

  /** `ids` are all socket ids the poller has handed out so far; it never hands one out twice. */
  datatype Server = Server(
    node: NodeId,
    conns: map<Id, Conn>,
    est: map<NodeId, Id>,
    wheel: Wheel<Id>,
    members: Members,
    ids: set<Id>)

  // ----- invariant

  /** Every timer belongs to a live connection and sits in the slot that connection records. */
  ghost predicate TimersSound(wheel: Wheel<Id>, conns: map<Id, Conn>) {
    && wheel.Ok()
    && (forall id | id in conns :: conns[id].slot < |wheel.data|)
    && (forall i, id | 0 <= i < |wheel.data| && id in wheel.data[i] :: id in conns && conns[id].slot == i)
  }

  /** Every established entry names a live connection to that node, which has sent Members. */
  ghost predicate EstablishedSound(est: map<NodeId, Id>, conns: map<Id, Conn>) {
    forall n | n in est ::
      est[n] in conns && conns[est[n]].node == Some(n) && conns[est[n]].membersSent
  }

  ghost predicate Sound(s: Server) {
    && s.conns.Keys <= s.ids
    && TimersSound(s.wheel, s.conns)
    && EstablishedSound(s.est, s.conns)
  }

  ghost predicate Timed(s: Server, id: Id)
    requires id in s.conns
  {
    s.conns[id].slot < |s.wheel.data| && id in s.wheel.data[s.conns[id].slot]
  }

  /** The server invariant: sound, and every live connection has its timer. */
  ghost predicate Valid(s: Server) {
    Sound(s) && forall id | id in s.conns :: Timed(s, id)
  }

  // ----- handlers

  /** Forget the connections `ids`: no connection, timer or established entry of theirs remains,
      and everything else is untouched. */
  function Drop(s: Server, ids: set<Id>): Server {
    s.(conns := s.conns - ids,
       est := map n | n in s.est && s.est[n] !in ids :: s.est[n],
       wheel := s.wheel.(data := seq(|s.wheel.data|, i requires 0 <= i < |s.wheel.data| => s.wheel.data[i] - ids)))
  }

  function InitConnection(s: Server, id: Id, node: Option<NodeId>): Server
    requires s.wheel.write < |s.wheel.data|
  {
    s.(conns := s.conns[id := Conn(node, node.Some?, false, s.wheel.write)],
       wheel := s.wheel.Inserted(id),
       ids := s.ids + {id})
  }

  /** Move the timer of `id` to the slot being written. */
  function ResetTimer(s: Server, id: Id): Server
    requires s.wheel.Ok() && forall i | i in s.conns :: s.conns[i].slot < |s.wheel.data|
  {
    if id !in s.conns then s
    else
      s.(conns := s.conns[id := s.conns[id].(slot := s.wheel.write)],
         wheel := s.wheel.Removed(id, s.conns[id].slot).Inserted(id))
  }

  /** Of an established and a new connection to `from`, the one to close: of two connections
      opened from different sides, the one whose client is the node that sorts lower. */
  function ChooseConnectionToClose(s: Server, id: Id, from: NodeId): Option<Id> {
    if from in s.est && s.est[from] in s.conns then
      var saved := s.conns[s.est[from]];
      if (saved.isClient && Less(s.node, from)) || (!saved.isClient && Less(from, s.node))
      then Some(s.est[from])
      else Some(id)
    else None
  }

  function Register(s: Server, id: Id, from: NodeId): Server
    requires s.wheel.Ok() && forall i | i in s.conns :: s.conns[i].slot < |s.wheel.data|
  {
    if id !in s.conns then s
    else
      var named := s.(conns := s.conns[id := s.conns[id].(node := Some(from))]);
      ResetTimer(named, id).(est := s.est[from := id])
  }

  function EstablishConnection(s: Server, id: Id, from: NodeId, marks: set<Mark>): Server
    requires Sound(s)
  {
    var joined := s.(members := s.members.Joined(marks));
    match ChooseConnectionToClose(joined, id, from)
    case None => Register(joined, id, from)
    case Some(close) =>
      if close == id then Drop(joined, {close}) else Register(Drop(joined, {close}), id, from)
  }

  /** The peers of all connections: pending, client connected or established. */
  function KnownPeers(s: Server): set<NodeId> {
    set id | id in s.conns && s.conns[id].node.Some? :: s.conns[id].node.value
  }

  function ToConnect(s: Server): set<NodeId> {
    s.members.All() - KnownPeers(s) - {s.node}
  }

  function ClientConns(connected: map<Id, NodeId>, slot: nat): map<Id, Conn> {
    map id | id in connected :: Conn(Some(connected[id]), true, false, slot)
  }

  /** Open a client connection for each fresh id that the poller hands out for a wanted peer. */
  function ConnectAll(s: Server, connected: map<Id, NodeId>): Server
    requires s.wheel.write < |s.wheel.data|
  {
    s.(conns := s.conns + ClientConns(connected, s.wheel.write),
       wheel := s.wheel.(data := s.wheel.data[s.wheel.write := s.wheel.data[s.wheel.write] + connected.Keys]),
       ids := s.ids + connected.Keys)
  }

  /** The answers that are asked for: a connect to each wanted peer succeeds with a fresh id or
      fails. */
  function Wanted(connected: map<Id, NodeId>, nodes: set<NodeId>): map<Id, NodeId> {
    map id | id in connected && connected[id] in nodes :: connected[id]
  }

  function EstablishedWith(s: Server, nodes: set<NodeId>): set<Id> {
    set n | n in s.est && n in nodes :: s.est[n]
  }

  /** Make the connections fit the membership. */
  function CheckConnections(s: Server, connected: map<Id, NodeId>): Server
    requires s.wheel.write < |s.wheel.data|
  {
    if s.node !in s.members.All() then Drop(s, s.conns.Keys)
    else
      var s1 := ConnectAll(s, Wanted(connected, ToConnect(s)));
      Drop(s1, EstablishedWith(s1, KnownPeers(s) - s.members.All()))
  }

  /** The connections that a broadcast writes to. */
  function Ready(s: Server): set<Id> {
    set id | id in s.conns && s.conns[id].membersSent
  }

  /** What a handler leaves behind: the new state, at most one frame queued per connection, the
      connections to close because of errors, and envelopes passed to the executor. */
  datatype Reply = Reply(server: Server, sent: map<Id, Frame>, errs: set<Id>, up: seq<Envelope<Payload>>)

  function Quiet(s: Server): Reply { Reply(s, map[], {}, []) }

  function Broadcast(s: Server, frame: Frame, fails: set<Id>): Reply {
    Reply(s, map id | id in Ready(s) - fails :: frame, Ready(s) * fails, [])
  }

  function SendMembers(s: Server, id: Id, ok: bool): Reply
    requires id in s.conns
  {
    if ok then
      Reply(s.(conns := s.conns[id := s.conns[id].(membersSent := true)]),
            map[id := MembersFrame(s.node, s.members.marks)], {}, [])
    else Reply(s, map[], {id}, [])
  }

  /** What can happen to a server, one message or notification at a time. `fails` are the
      connections on which a write fails, `connected` the fresh ids of successful connects. */
  datatype Event =
    | Accept(id: Id, ok: bool)
    | FirstRead(id: Id, ok: bool)
    | Got(id: Id, frame: Frame, fails: set<Id>, connected: map<Id, NodeId>)
    | Tick(fails: set<Id>, connected: map<Id, NodeId>)
    | Join(peer: NodeId, fails: set<Id>, answer: Option<Id>)
    | Leave(peer: NodeId, fails: set<Id>)
    | Send(envelope: Envelope<Payload>, ok: bool)
    | IoError(id: Id)
    | Cleanup

  function GotMembers(s: Server, id: Id, from: NodeId, marks: set<Mark>, connected: map<Id, NodeId>): Server
    requires Sound(s)
  {
    CheckConnections(EstablishConnection(s, id, from, marks), connected)
  }

  function GotDelta(s: Server, delta: Delta, fails: set<Id>): Reply {
    if delta <= s.members.marks then Quiet(s)
    else Broadcast(s.(members := s.members.Joined(delta)), DeltaFrame(delta), fails)
  }

  /** Turn the timer wheel and close the connections whose timers expire. */
  function ExpireTimers(s: Server): Server
    requires s.wheel.Ok()
  {
    Drop(s.(wheel := s.wheel.Turned()), s.wheel.data[s.wheel.read])
  }

  /** Pings follow the expired timers; the connection check is skipped when a ping fails. */
  function TickStep(s: Server, fails: set<Id>, connected: map<Id, NodeId>): Reply
    requires s.wheel.Ok()
  {
    var pinged := Broadcast(ExpireTimers(s), Ping, fails);
    if pinged.errs != {} then pinged
    else pinged.(server := CheckConnections(pinged.server, connected))
  }

  /** Add the node, tell everyone, then connect to it; a failed broadcast stops before connecting. */
  function JoinStep(s: Server, peer: NodeId, fails: set<Id>, answer: Option<Id>): Reply
    requires s.wheel.write < |s.wheel.data|
  {
    var told := Broadcast(s.(members := s.members.AfterAdd(peer)), DeltaFrame(s.members.AddDelta(peer)), fails);
    if told.errs != {} || answer.None? then told
    else told.(server := InitConnection(told.server, answer.value, Some(peer)))
  }

  function LeaveStep(s: Server, peer: NodeId, fails: set<Id>): Reply {
    var delta := s.members.LeaveDelta(peer);
    if delta == {} then Quiet(s)
    else Broadcast(s.(members := s.members.Joined(delta)), DeltaFrame(delta), fails)
  }

  /** Only metrics requests are sent to the cluster server itself. */
  function SendStep(s: Server, e: Envelope<Payload>, ok: bool): Reply {
    if e.to == ClusterPid(s.node) then
      if e.msg.GetMetrics?
      then Quiet(s).(up := [Envelope(e.from, ClusterPid(s.node), Metrics, e.correlationId)])
      else Quiet(s)
    else if e.to.node in s.est && s.est[e.to.node] in s.conns then
      var id := s.est[e.to.node];
      if ok then Reply(s, map[id := EnvelopeFrame(e)], {}, []) else Reply(s, map[], {id}, [])
    else Quiet(s)
  }

  function Step(s: Server, ev: Event): Reply
    requires Sound(s)
  {
    match ev
    case Accept(id, ok) => SendMembers(InitConnection(s, id, None), id, ok)
    case FirstRead(id, ok) =>
      if id in s.conns && !s.conns[id].membersSent then SendMembers(s, id, ok) else Quiet(s)
    case Got(id, frame, fails, connected) =>
      (match frame
       case MembersFrame(from, marks) => Quiet(GotMembers(s, id, from, marks, connected))
       case Ping => Quiet(ResetTimer(s, id))
       case EnvelopeFrame(e) => Quiet(s).(up := [e])
       case DeltaFrame(delta) => GotDelta(s, delta, fails))
    case Tick(fails, connected) => TickStep(s, fails, connected)
    case Join(peer, fails, answer) => JoinStep(s, peer, fails, answer)
    case Leave(peer, fails) => LeaveStep(s, peer, fails)
    case Send(e, ok) => SendStep(s, e, ok)
    case IoError(id) => Reply(s, map[], {id}, [])
    case Cleanup => Quiet(s)
  }

  // ----- what the environment promises

  ghost predicate FreshIds(s: Server, connected: map<Id, NodeId>) {
    && connected.Keys !! s.ids
    && forall i, j | i in connected && j in connected && connected[i] == connected[j] :: i == j
  }

  /** A connection about to be registered under `from` is not established under another name. */
  ghost predicate NamedOnce(s: Server, id: Id, from: NodeId) {
    id in s.conns && ChooseConnectionToClose(s, id, from) != Some(id) ==>
      forall n | n in s.est && s.est[n] == id :: n == from
  }

  ghost predicate Allowed(s: Server, ev: Event) {
    match ev
    case Accept(id, _) => id !in s.ids
    case Got(id, frame, _, connected) =>
      && id in s.ids
      && FreshIds(s, connected)
      && (id in s.conns ==> s.conns[id].membersSent)
      && (frame.MembersFrame? ==> NamedOnce(s, id, frame.from))
    case Tick(_, connected) => FreshIds(s, connected)
    case Join(_, _, answer) => answer.Some? ==> answer.value !in s.ids
    case _ => true
  }

  // ----- a server together with its outputs

  /** `sent` are all frames queued so far per connection, `failed` the connections with errors that
      have not been cleaned up yet. */
  datatype World = World(server: Server, sent: map<Id, seq<Frame>>, up: seq<Envelope<Payload>>, failed: set<Id>) {
    function Sent(id: Id): seq<Frame> {
      if id in sent then sent[id] else []
    }
  }

  function Append(sent: map<Id, seq<Frame>>, frames: map<Id, Frame>): map<Id, seq<Frame>> {
    map id | id in sent.Keys + frames.Keys ::
      (if id in sent then sent[id] else []) + (if id in frames then [frames[id]] else [])
  }

  function Apply(w: World, ev: Event): World
    requires Sound(w.server)
  {
    if ev.Cleanup? then w.(server := Drop(w.server, w.failed), failed := {})
    else
      var r := Step(w.server, ev);
      World(r.server, Append(w.sent, r.sent), w.up + r.up, w.failed + r.errs)
  }

  // ----- the invariant is kept

  lemma MembersAside(s: Server, members: Members)
    requires Valid(s)
    ensures Valid(s.(members := members))
  {
  }

  lemma DropKeeps(s: Server, ids: set<Id>)
    requires Sound(s)
    ensures Sound(Drop(s, ids))
    ensures (forall id | id in s.conns && id !in ids :: Timed(s, id)) ==> Valid(Drop(s, ids))
  {
  }

  lemma InitConnectionKeeps(s: Server, id: Id, node: Option<NodeId>)
    requires Valid(s) && id !in s.ids
    ensures Valid(InitConnection(s, id, node))
  {
  }

  lemma ResetTimerKeeps(s: Server, id: Id)
    requires Valid(s)
    ensures Valid(ResetTimer(s, id))
  {
    hide EstablishedSound, TimersSound, Timed, ResetTimer;
    ResetEstablished(s, id);
    ResetTimers(s, id);
  }

  lemma ResetTimers(s: Server, id: Id)
    requires Valid(s)
    ensures var s' := ResetTimer(s, id);
            && TimersSound(s'.wheel, s'.conns) && s'.conns.Keys <= s'.ids
            && forall i | i in s'.conns :: Timed(s', i)
  {
    hide EstablishedSound;
    if id in s.conns {
      var s' := ResetTimer(s, id);
      assert s'.conns.Keys == s.conns.Keys;
      forall i | i in s'.conns ensures Timed(s', i) {
        assert Timed(s, i);
      }
    }
  }

  lemma ResetEstablished(s: Server, id: Id)
    requires Valid(s)
    ensures EstablishedSound(ResetTimer(s, id).est, ResetTimer(s, id).conns)
  {
  }

  lemma NameKeeps(s: Server, id: Id, from: NodeId)
    requires Valid(s) && id in s.conns && s.conns[id].membersSent
    requires forall n | n in s.est && s.est[n] == id :: n == from
    ensures Valid(s.(conns := s.conns[id := s.conns[id].(node := Some(from))], est := s.est[from := id]))
  {
  }

  lemma RegisterKeeps(s: Server, id: Id, from: NodeId)
    requires Valid(s) && id in s.conns && s.conns[id].membersSent
    requires forall n | n in s.est && s.est[n] == id :: n == from
    ensures Valid(Register(s, id, from))
  {
    var named := s.(conns := s.conns[id := s.conns[id].(node := Some(from))], est := s.est[from := id]);
    NameKeeps(s, id, from);
    ResetTimerKeeps(named, id);
    assert Register(s, id, from) == ResetTimer(named, id);
  }

  lemma EstablishKeeps(s: Server, id: Id, from: NodeId, marks: set<Mark>)
    requires Valid(s) && (id in s.conns ==> s.conns[id].membersSent) && NamedOnce(s, id, from)
    ensures Valid(EstablishConnection(s, id, from, marks))
  {
    var joined := s.(members := s.members.Joined(marks));
    MembersAside(s, joined.members);
    match ChooseConnectionToClose(joined, id, from) {
      case None =>
        if id in joined.conns {
          RegisterKeeps(joined, id, from);
        }
      case Some(close) =>
        DropKeeps(joined, {close});
        var dropped := Drop(joined, {close});
        if close != id && id in dropped.conns {
          RegisterKeeps(dropped, id, from);
        }
    }
  }

  /** Exactly when handling a Members frame breaks the invariant: when it would register a
      connection that is already established under another name. */
  lemma EstablishKeepsExactly(s: Server, id: Id, from: NodeId, marks: set<Mark>)
    requires Valid(s) && (id in s.conns ==> s.conns[id].membersSent)
    ensures Valid(EstablishConnection(s, id, from, marks)) <==> NamedOnce(s, id, from)
  {
    hide Less;
    if NamedOnce(s, id, from) {
      EstablishKeeps(s, id, from, marks);
    } else {
      var n :| n in s.est && s.est[n] == id && n != from;
      var after := EstablishConnection(s, id, from, marks);
      assert n in after.est && after.est[n] == id;
      assert after.conns[id].node == Some(from);
    }
  }

  lemma ConnectAllKeeps(s: Server, connected: map<Id, NodeId>)
    requires Valid(s) && connected.Keys !! s.ids
    ensures Valid(ConnectAll(s, connected))
  {
    var s' := ConnectAll(s, connected);
    ConnectAllTimers(s, connected);
    assert EstablishedSound(s'.est, s'.conns);
    hide TimersSound, Timed;
  }

  lemma ConnectAllTimers(s: Server, connected: map<Id, NodeId>)
    requires Valid(s) && connected.Keys !! s.ids
    ensures var s' := ConnectAll(s, connected);
            && TimersSound(s'.wheel, s'.conns)
            && (forall id | id in s'.conns :: Timed(s', id))
            && (forall id | id in s.conns :: id in s'.conns && s'.conns[id] == s.conns[id])
  {
    hide EstablishedSound;
    ConnectAllSound(s, connected);
    var s' := ConnectAll(s, connected);
    hide TimersSound;
    forall id | id in s'.conns ensures Timed(s', id) {
      assert id in s.conns ==> Timed(s, id);
    }
  }

  lemma ConnectAllSound(s: Server, connected: map<Id, NodeId>)
    requires TimersSound(s.wheel, s.conns) && s.conns.Keys <= s.ids && connected.Keys !! s.ids
    ensures var s' := ConnectAll(s, connected);
            TimersSound(s'.wheel, s'.conns)
            && forall id | id in s.conns :: id in s'.conns && s'.conns[id] == s.conns[id]
  {
  }

  lemma CheckConnectionsKeeps(s: Server, connected: map<Id, NodeId>)
    requires Valid(s) && connected.Keys !! s.ids
    ensures Valid(CheckConnections(s, connected))
  {
    if s.node !in s.members.All() {
      DropKeeps(s, s.conns.Keys);
    } else {
      var s1 := ConnectAll(s, Wanted(connected, ToConnect(s)));
      ConnectAllKeeps(s, Wanted(connected, ToConnect(s)));
      DropKeeps(s1, EstablishedWith(s1, KnownPeers(s) - s.members.All()));
    }
  }

  lemma TickKeeps(s: Server, fails: set<Id>, connected: map<Id, NodeId>)
    requires Valid(s) && FreshIds(s, connected)
    ensures Valid(TickStep(s, fails, connected).server)
  {
    var turned := s.(wheel := s.wheel.Turned());
    DropKeeps(turned, s.wheel.data[s.wheel.read]);
    CheckConnectionsKeeps(Drop(turned, s.wheel.data[s.wheel.read]), connected);
  }

  lemma EstablishIds(s: Server, id: Id, from: NodeId, marks: set<Mark>)
    requires Sound(s)
    ensures EstablishConnection(s, id, from, marks).ids == s.ids
  {
  }

  lemma SendMembersKeeps(s: Server, id: Id, ok: bool)
    requires Valid(s) && id in s.conns
    ensures Valid(SendMembers(s, id, ok).server)
  {
  }

  lemma JoinKeeps(s: Server, peer: NodeId, fails: set<Id>, answer: Option<Id>)
    requires Valid(s) && (answer.Some? ==> answer.value !in s.ids)
    ensures Valid(JoinStep(s, peer, fails, answer).server)
  {
    var added := s.(members := s.members.AfterAdd(peer));
    MembersAside(s, added.members);
    if answer.Some? {
      InitConnectionKeeps(added, answer.value, Some(peer));
    }
  }

  lemma GotKeeps(s: Server, ev: Event)
    requires Valid(s) && ev.Got? && Allowed(s, ev)
    ensures Valid(Step(s, ev).server)
  {
    var Got(id, frame, fails, connected) := ev;
    match frame {
      case MembersFrame(from, marks) =>
        EstablishKeeps(s, id, from, marks);
        EstablishIds(s, id, from, marks);
        CheckConnectionsKeeps(EstablishConnection(s, id, from, marks), connected);
      case Ping =>
        ResetTimerKeeps(s, id);
      case EnvelopeFrame(e) =>
      case DeltaFrame(delta) =>
        MembersAside(s, s.members.Joined(delta));
    }
  }

  /** Every event a server can meet keeps the invariant. */
  lemma StepKeeps(s: Server, ev: Event)
    requires Valid(s) && Allowed(s, ev)
    ensures Valid(Step(s, ev).server)
  {
    match ev {
      case Accept(id, ok) =>
        InitConnectionKeeps(s, id, None);
        SendMembersKeeps(InitConnection(s, id, None), id, ok);
      case FirstRead(id, ok) =>
        if id in s.conns {
          SendMembersKeeps(s, id, ok);
        }
      case Got(_, _, _, _) =>
        GotKeeps(s, ev);
      case Tick(fails, connected) =>
        TickKeeps(s, fails, connected);
      case Join(peer, fails, answer) =>
        JoinKeeps(s, peer, fails, answer);
      case Leave(peer, fails) =>
        MembersAside(s, s.members.Joined(s.members.LeaveDelta(peer)));
      case Send(e, ok) =>
      case IoError(id) =>
      case Cleanup =>
    }
  }

  lemma ApplyKeeps(w: World, ev: Event)
    requires Valid(w.server) && Allowed(w.server, ev)
    ensures Valid(Apply(w, ev).server)
  {
    StepKeeps(w.server, ev);
    DropKeeps(w.server, w.failed);
  }

  /** No two nodes share an established connection. */
  lemma EstablishedInjective(s: Server, m: NodeId, n: NodeId)
    requires Valid(s) && m in s.est && n in s.est && s.est[m] == s.est[n]
    ensures m == n
  {
    assert s.conns[s.est[m]].node == Some(m) && s.conns[s.est[n]].node == Some(n);
  }
}
