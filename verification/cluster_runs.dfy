/** Sequences of events at one server, as the poll loop produces them. */
module ClusterRuns {
  import opened Base
  import opened Ids
  import opened Messages
  import opened ClusterState

  /** A message read from a socket, with what the environment answers while it is handled. */
  datatype Incoming = Incoming(frame: Frame, fails: set<Id>, connected: map<Id, NodeId>)

  function Gots(id: Id, msgs: seq<Incoming>): seq<Event> {
    seq(|msgs|, i requires 0 <= i < |msgs| => Got(id, msgs[i].frame, msgs[i].fails, msgs[i].connected))
  }

  /** An accepted socket: its fresh id, and whether sending Members on it succeeds. */
  datatype Accepted = Accepted(id: Id, ok: bool)

  function Accepts(socks: seq<Accepted>): seq<Event> {
    seq(|socks|, i requires 0 <= i < |socks| => Accept(socks[i].id, socks[i].ok))
  }

  /** Events allowed one after the other, stopping at the first error. */
  ghost predicate AllowedRun(w: World, evs: seq<Event>)
    decreases evs
  {
    evs == [] ||
    (&& Valid(w.server) && Allowed(w.server, evs[0])
     && (Step(w.server, evs[0]).errs == {} ==> AllowedRun(Apply(w, evs[0]), evs[1..])))
  }

  /** Handle events one after the other; an error makes the rest of them be dropped. */
  ghost function RunUntilError(w: World, evs: seq<Event>): (r: World)
    requires Valid(w.server) && AllowedRun(w, evs)
    ensures Valid(r.server)
    decreases evs
  {
    if evs == [] then w
    else
      ApplyKeeps(w, evs[0]);
      if Step(w.server, evs[0]).errs != {} then Apply(w, evs[0])
      else RunUntilError(Apply(w, evs[0]), evs[1..])
  }

  datatype Notification =
    | ListenerReady(socks: seq<Accepted>)
    | TimerFired(fails: set<Id>, connected: map<Id, NodeId>)
    | SocketReady(id: Id, io: SocketIo)

  /** What a ready socket does: `readOk` and `writeOk` tell whether the socket itself works. */
  datatype SocketIo =
    | ReadOnly(readOk: bool, msgs: seq<Incoming>)
    | WriteOnly(writeOk: bool)
    | ReadWrite(readOk: bool, msgs: seq<Incoming>, writeOk: bool)

  /** The events that reading socket `id` amounts to. The first time, the members are sent and
      nothing is read; after that the messages are handled in order. */
  function ReadEvents(s: Server, id: Id, readOk: bool, msgs: seq<Incoming>): seq<Event> {
    if id !in s.conns then []
    else if !s.conns[id].membersSent then [FirstRead(id, readOk)]
    else if !readOk then [IoError(id)]
    else Gots(id, msgs)
  }

  function WriteEvents(s: Server, id: Id, writeOk: bool): seq<Event> {
    if id in s.conns && !writeOk then [IoError(id)] else []
  }

  /** A failed read skips the write. */
  ghost predicate NotificationAllowed(w: World, n: Notification) {
    match n
    case ListenerReady(socks) => AllowedRun(w, Accepts(socks))
    case TimerFired(fails, connected) => AllowedRun(w, [Tick(fails, connected)])
    case SocketReady(id, io) =>
      match io
      case ReadOnly(readOk, msgs) => AllowedRun(w, ReadEvents(w.server, id, readOk, msgs))
      case WriteOnly(_) => true
      case ReadWrite(readOk, msgs, _) => AllowedRun(w, ReadEvents(w.server, id, readOk, msgs))
  }

  /** The effect of one notification, starting with no errors reported. */
  ghost function Notified(w: World, n: Notification): (r: World)
    requires Valid(w.server) && w.failed == {} && NotificationAllowed(w, n)
    ensures Valid(r.server)
  {
    match n
    case ListenerReady(socks) => RunUntilError(w, Accepts(socks))
    case TimerFired(fails, connected) => RunUntilError(w, [Tick(fails, connected)])
    case SocketReady(id, io) =>
      match io
      case ReadOnly(readOk, msgs) => RunUntilError(w, ReadEvents(w.server, id, readOk, msgs))
      case WriteOnly(writeOk) => RunUntilError(w, WriteEvents(w.server, id, writeOk))
      case ReadWrite(readOk, msgs, writeOk) =>
        var w1 := RunUntilError(w, ReadEvents(w.server, id, readOk, msgs));
        if w1.failed != {} then w1 else RunUntilError(w1, WriteEvents(w1.server, id, writeOk))
  }

  ghost predicate BatchAllowed(w: World, ns: seq<Notification>)
    decreases ns
  {
    ns == [] ||
    (&& Valid(w.server) && NotificationAllowed(w.(failed := {}), ns[0])
     && BatchAllowed(Notified(w.(failed := {}), ns[0]), ns[1..]))
  }

  /** A batch of notifications: each is handled whether or not earlier ones failed, and the
      failures add up. */
  ghost function Batch(w: World, ns: seq<Notification>): (r: World)
    requires Valid(w.server) && BatchAllowed(w, ns)
    ensures Valid(r.server)
    decreases ns
  {
    if ns == [] then w
    else
      var w1 := Notified(w.(failed := {}), ns[0]);
      AllowedWhateverFailed(w1, w.failed + w1.failed, ns[1..]);
      Batch(w1.(failed := w.failed + w1.failed), ns[1..])
  }

  lemma AllowedWhateverFailed(w: World, failed: set<Id>, ns: seq<Notification>)
    ensures BatchAllowed(w.(failed := failed), ns) <==> BatchAllowed(w, ns)
  {
    assert w.(failed := failed).(failed := {}) == w.(failed := {});
  }

  /** Messages to the cluster server. */
  datatype ClusterMsg =
    | PollNotifications(ns: seq<Notification>)
    | JoinMsg(peer: NodeId, fails: set<Id>, answer: Option<Id>)
    | LeaveMsg(peer: NodeId, fails: set<Id>)
    | EnvelopeMsg(envelope: Envelope<Payload>, ok: bool)
    | ShutdownMsg

  ghost predicate MsgAllowed(w: World, msg: ClusterMsg) {
    match msg
    case PollNotifications(ns) => BatchAllowed(w, ns)
    case JoinMsg(_, _, answer) => answer.Some? ==> answer.value !in w.server.ids
    case _ => true
  }

  /** The effect of one message before errors are cleaned up. */
  ghost function Handled(w: World, msg: ClusterMsg): (r: World)
    requires Valid(w.server) && MsgAllowed(w, msg)
    ensures Valid(r.server)
  {
    match msg
    case PollNotifications(ns) => Batch(w, ns)
    case JoinMsg(peer, fails, answer) =>
      ApplyKeeps(w, Join(peer, fails, answer));
      Apply(w, Join(peer, fails, answer))
    case LeaveMsg(peer, fails) =>
      ApplyKeeps(w, Leave(peer, fails));
      Apply(w, Leave(peer, fails))
    case EnvelopeMsg(e, ok) =>
      ApplyKeeps(w, Send(e, ok));
      Apply(w, Send(e, ok))
    case ShutdownMsg => w
  }
}
