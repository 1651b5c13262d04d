/** What one event makes a server send, pass on to the executor, and report as failed. */
module ClusterSends {
  import opened Base
  import opened Ids
  import opened Messages
  import opened ClusterState
  import opened ClusterLemmas

  /** Each tick pings exactly the connections that have sent their Members and do not expire in it. */
  lemma TickPings(s: Server, fails: set<Id>, connected: map<Id, NodeId>, id: Id)
    requires Valid(s)
    ensures var r := TickStep(s, fails, connected);
            if WritesTo(ExpireTimers(s), id) then (if id in fails then id in r.errs && id !in r.sent
                                                  else id !in r.errs && id in r.sent && r.sent[id] == Ping)
            else id !in r.errs && id !in r.sent
    ensures WritesTo(ExpireTimers(s), id) <==> WritesTo(s, id) && id !in s.wheel.data[s.wheel.read]
  {
    hide CheckConnections;
  }

  /** An envelope for another node, or for another pid of this one, goes out on the connection established with its
      node and on no other. */
  lemma EnvelopeSentExactly(s: Server, e: Envelope<Payload>, ok: bool, id: Id)
    requires Valid(s) && e.to != ClusterPid(s.node)
    ensures var r := Step(s, Send(e, ok));
            && (id in r.sent <==> ok && e.to.node in s.est && s.est[e.to.node] == id)
            && (id in r.sent ==> r.sent[id] == EnvelopeFrame(e))
            && (id in r.errs <==> !ok && e.to.node in s.est && s.est[e.to.node] == id)
            && r.server == s && r.up == []
  {
  }

  /** What an event passes on to the executor: an envelope from a peer, unchanged, and the answer to a metrics
      request. */
  function PassedUp(node: NodeId, ev: Event): seq<Envelope<Payload>> {
    if ev.Got? && ev.frame.EnvelopeFrame? then [ev.frame.envelope]
    else if ev.Send? && ev.envelope.to == ClusterPid(node) && ev.envelope.msg.GetMetrics?
    then [Envelope(ev.envelope.from, ClusterPid(node), Metrics, ev.envelope.correlationId)]
    else []
  }

  lemma PassesUpExactly(s: Server, ev: Event)
    requires Valid(s) && Allowed(s, ev)
    ensures Step(s, ev).up == PassedUp(s.node, ev)
    ensures ev.Got? && ev.frame.EnvelopeFrame? ==> Step(s, ev).server == s && Step(s, ev).sent == map[]
  {
    hide CheckConnections, EstablishConnection, ExpireTimers;
  }

  /** What an event owes to connection `id`: Members on a connection that is accepted or becomes ready for the first
      time, news that was heard or made here, pings, and envelopes for the node at the other end. */
  ghost function Due(s: Server, ev: Event, id: Id): Option<Frame>
    requires Valid(s)
  {
    match ev
    case Accept(i, _) => if id == i then Some(MembersFrame(s.node, s.members.marks)) else None
    case FirstRead(i, _) =>
      if id == i && i in s.conns && !s.conns[i].membersSent then Some(MembersFrame(s.node, s.members.marks)) else None
    case Got(_, frame, _, _) =>
      if frame.DeltaFrame? && !(frame.delta <= s.members.marks) && WritesTo(s, id) then Some(frame) else None
    case Tick(_, _) => if WritesTo(s, id) && id !in s.wheel.data[s.wheel.read] then Some(Ping) else None
    case Join(peer, _, _) => if WritesTo(s, id) then Some(DeltaFrame(s.members.AddDelta(peer))) else None
    case Leave(peer, _) =>
      if WritesTo(s, id) && s.members.LeaveDelta(peer) != {} then Some(DeltaFrame(s.members.LeaveDelta(peer))) else None
    case Send(e, _) =>
      if e.to != ClusterPid(s.node) && e.to.node in s.est && s.est[e.to.node] == id then Some(EnvelopeFrame(e))
      else None
    case IoError(_) => None
    case Cleanup => None
  }

  /** Writing to connection `id` works in this event. */
  predicate Works(ev: Event, id: Id) {
    match ev
    case Accept(_, ok) => ok
    case FirstRead(_, ok) => ok
    case Got(_, _, fails, _) => id !in fails
    case Tick(fails, _) => id !in fails
    case Join(_, fails, _) => id !in fails
    case Leave(_, fails) => id !in fails
    case Send(_, ok) => ok
    case _ => true
  }

  ghost predicate Written(s: Server, ev: Event, id: Id)
    requires Valid(s) && Sound(s)
  {
    var r := Step(s, ev);
    && (id in r.sent <==> Due(s, ev, id).Some? && Works(ev, id))
    && (id in r.sent ==> Due(s, ev, id) == Some(r.sent[id]))
    && (id in r.errs <==> (Due(s, ev, id).Some? && !Works(ev, id)) || ev == IoError(id))
  }

  /** Exactly what an event writes to a connection, and which ones it reports: it writes what it owes, and reports the
      connection when that fails or its socket is broken. */
  lemma WritesExactly(s: Server, ev: Event, id: Id)
    requires Valid(s) && Sound(s) && Allowed(s, ev)
    ensures Written(s, ev, id)
  {
    match ev
    case Tick(fails, connected) => TickWrites(s, ev, id);
    case Got(_, _, _, _) => GotWrites(s, ev, id);
    case Join(_, _, _) => BroadcastWrites(s, ev, id);
    case Leave(_, _) => BroadcastWrites(s, ev, id);
    case _ => OtherWrites(s, ev, id);
  }

  lemma TickWrites(s: Server, ev: Event, id: Id)
    requires Valid(s) && ev.Tick?
    ensures Written(s, ev, id)
  {
    hide TickStep, Sound;
    TickPings(s, ev.fails, ev.connected, id);
  }

  lemma GotWrites(s: Server, ev: Event, id: Id)
    requires Valid(s) && Allowed(s, ev) && ev.Got?
    ensures Written(s, ev, id)
  {
    hide CheckConnections, EstablishConnection;
  }

  lemma BroadcastWrites(s: Server, ev: Event, id: Id)
    requires Valid(s) && Allowed(s, ev) && (ev.Join? || ev.Leave?)
    ensures Written(s, ev, id)
  {
    hide InitConnection;
  }

  lemma OtherWrites(s: Server, ev: Event, id: Id)
    requires Valid(s) && Allowed(s, ev) && !ev.Tick? && !ev.Got? && !ev.Join? && !ev.Leave?
    ensures Written(s, ev, id)
  {
  }
}
