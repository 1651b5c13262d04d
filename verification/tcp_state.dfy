/** A TCP service: connections with their handlers, the two timer wheels, and the output buffer that
    all handlers share. */
module TcpState {
  import opened Base
  import opened Ids
  import opened Messages
  import opened TimerWheels

  /** Slots of both wheels: one more than the 10 periods of a timeout. */
  const SLOTS: nat := 11

  type Ring<T> = w: Wheel<T> | w.Ok() && |w.data| == SLOTS witness EmptyWheel(SLOTS)

  type Slot = n: nat | n < SLOTS

  /** Output of a connection's handler. */
  datatype ConnMsg<+T, +M> = ToNode(envelope: Envelope<T>) | ToClient(msg: M, cid: CorrelationId)

  /** What the handlers of connections do. */
  datatype Handlers<!H, !T, !M> = Handlers(
    create: (Pid, nat) -> H,
    onEnvelope: (H, Envelope<T>) -> (H, seq<ConnMsg<T, M>>),
    onNetwork: (H, M) -> (H, seq<ConnMsg<T, M>>))

  datatype Connection<H> = Connection(handler: H, slot: Slot)

  /** The service. `output` is the shared buffer and `nodeTx` what was sent to the node. The rest
      records what happened: `written` the messages written to the socket of each connection,
      `produced` those that its handler made for its client, `recorded` the request timers that were
      started and `fired` those that reached a handler. */
  datatype Tcp<H, T, M> = Tcp(
    pid: Pid,
    conns: map<nat, Connection<H>>,
    idle: Option<Ring<nat>>,
    requests: Ring<CorrelationId>,
    output: seq<ConnMsg<T, M>>,
    nodeTx: seq<Envelope<T>>,
    ids: set<nat>,
    written: map<nat, seq<M>>,
    produced: map<nat, seq<M>>,
    recorded: seq<CorrelationId>,
    fired: seq<CorrelationId>)

  datatype Ended<H, T, M> = Fine(tcp: Tcp<H, T, M>) | Failed(tcp: Tcp<H, T, M>) | Panicked

  function NewTcp<H, T, M>(pid: Pid, timesOut: bool): Tcp<H, T, M> {
    Tcp(pid, map[], if timesOut then Some(EmptyWheel(SLOTS)) else None, EmptyWheel(SLOTS),
        [], [], {}, map[], map[], [], [])
  }

  function Log<M>(log: map<nat, seq<M>>, id: nat): seq<M> {
    if id in log then log[id] else []
  }

  function Logged<M>(log: map<nat, seq<M>>, id: nat, msgs: seq<M>): map<nat, seq<M>> {
    log[id := Log(log, id) + msgs]
  }

  function Clients<T, M>(msgs: seq<ConnMsg<T, M>>): seq<M> {
    if msgs == [] then []
    else (if msgs[0].ToClient? then [msgs[0].msg] else []) + Clients(msgs[1..])
  }

  // ----- output of a handler

  /** Start the request timer of an envelope and hand it to the node. */
  function Forward<H, T, M>(s: Tcp<H, T, M>, e: Envelope<T>): Tcp<H, T, M> {
    var s1 := s.(nodeTx := s.nodeTx + [e]);
    if e.correlationId.None? then s1
    else s1.(requests := s.requests.Inserted(e.correlationId.value), recorded := s.recorded + [e.correlationId.value])
  }

  /** Send on the output of the handler of `id`. `fail` counts the client messages that get through
      before a write fails; a failed write drops the rest. */
  function Send<H, T, M>(s: Tcp<H, T, M>, id: nat, msgs: seq<ConnMsg<T, M>>, fail: Option<nat>): (r: Ended<H, T, M>)
    ensures !r.Panicked?
    decreases |msgs|
  {
    if msgs == [] then Fine(s)
    else
      match msgs[0]
      case ToNode(e) => Send(Forward(s, e), id, msgs[1..], fail)
      case ToClient(m, _) =>
        var s1 := s.(written := Logged(s.written, id, [m]));
        if fail == Some(0) then Failed(s1)
        else Send(s1, id, msgs[1..], if fail.Some? then Some(fail.value - 1) else None)
  }

  /** A handler of `id` has made `out`: it goes into the shared buffer, which is then drained. */
  function Deliver<H, T, M>(s: Tcp<H, T, M>, id: nat, handled: (H, seq<ConnMsg<T, M>>),
      fail: Option<nat>): (r: Ended<H, T, M>)
    requires id in s.conns
    ensures !r.Panicked?
  {
    var s1 := s.(conns := s.conns[id := s.conns[id].(handler := handled.0)],
                 output := [],
                 produced := Logged(s.produced, id, Clients(handled.1)));
    Send(s1, id, s.output + handled.1, fail)
  }

  // ----- connections

  function Accept<H, T, M>(hs: Handlers<H, T, M>, s: Tcp<H, T, M>, id: nat): Tcp<H, T, M> {
    var slot: Slot := if s.idle.Some? then s.idle.value.write else 0;
    s.(conns := s.conns[id := Connection(hs.create(s.pid, id), slot)],
       idle := if s.idle.Some? then Some(s.idle.value.Inserted(id)) else None,
       ids := s.ids + {id})
  }

  function AcceptAll<H, T, M>(hs: Handlers<H, T, M>, s: Tcp<H, T, M>, ids: seq<nat>): Tcp<H, T, M>
    decreases |ids|
  {
    if ids == [] then s else AcceptAll(hs, Accept(hs, s, ids[0]), ids[1..])
  }

  /** Messages read from a socket, each with what its output meets, and whether reading then fails. */
  datatype Reading<+M> = Reading(msgs: seq<(M, Option<nat>)>, ok: bool)

  function Read<H, T, M>(hs: Handlers<H, T, M>, s: Tcp<H, T, M>, id: nat, msgs: seq<(M, Option<nat>)>,
      ok: bool): (r: Ended<H, T, M>)
    requires id in s.conns
    ensures !r.Panicked? && r.tcp.conns.Keys == s.conns.Keys
    decreases |msgs|
  {
    if msgs == [] then if ok then Fine(s) else Failed(s)
    else
      var r := Deliver(s, id, hs.onNetwork(s.conns[id].handler, msgs[0].0), msgs[0].1);
      DeliverKeeps(s, id, hs.onNetwork(s.conns[id].handler, msgs[0].0), msgs[0].1);
      if r.Fine? then Read(hs, r.tcp, id, msgs[1..], ok) else r
  }

  /** Sending changes only the request wheel and the records. */
  ghost predicate SendFrame<H, T, M>(s: Tcp<H, T, M>, t: Tcp<H, T, M>) {
    && t.pid == s.pid && t.conns == s.conns && t.idle == s.idle && t.output == s.output
    && t.ids == s.ids && t.produced == s.produced && t.fired == s.fired
    && t.requests.read == s.requests.read && t.requests.write == s.requests.write
  }

  lemma {:induction false} SendKeeps<H, T, M>(s: Tcp<H, T, M>, id: nat, msgs: seq<ConnMsg<T, M>>, fail: Option<nat>)
    ensures SendFrame(s, Send(s, id, msgs, fail).tcp)
    decreases |msgs|
  {
    if msgs != [] {
      match msgs[0]
      case ToNode(e) => SendKeeps(Forward(s, e), id, msgs[1..], fail);
      case ToClient(m, _) =>
        if fail != Some(0) {
          SendKeeps(s.(written := Logged(s.written, id, [m])), id, msgs[1..],
                    if fail.Some? then Some(fail.value - 1) else None);
        }
    }
  }

  /** A delivery leaves the buffer empty and touches only the handler of its own connection. */
  lemma DeliverKeeps<H, T, M>(s: Tcp<H, T, M>, id: nat, handled: (H, seq<ConnMsg<T, M>>), fail: Option<nat>)
    requires id in s.conns
    ensures var t := Deliver(s, id, handled, fail).tcp;
            && t.output == [] && t.pid == s.pid && t.idle == s.idle && t.ids == s.ids && t.fired == s.fired
            && t.conns == s.conns[id := s.conns[id].(handler := handled.0)]
            && t.conns.Keys == s.conns.Keys
            && t.produced == Logged(s.produced, id, Clients(handled.1))
            && t.requests.read == s.requests.read && t.requests.write == s.requests.write
  {
    var s1 := s.(conns := s.conns[id := s.conns[id].(handler := handled.0)],
                 output := [],
                 produced := Logged(s.produced, id, Clients(handled.1)));
    SendKeeps(s1, id, s.output + handled.1, fail);
    assert s1.conns.Keys == s.conns.Keys;
  }

  /** Start the idle timer of a connection anew. */
  function Touch<H, T, M>(s: Tcp<H, T, M>, id: nat): Tcp<H, T, M>
    requires id in s.conns
  {
    if s.idle.None? then s
    else
      var w := s.idle.value.Removed(id, s.conns[id].slot);
      s.(idle := Some(w.Inserted(id)), conns := s.conns[id := s.conns[id].(slot := w.write)])
  }

  function Close<H, T, M>(s: Tcp<H, T, M>, id: nat): Tcp<H, T, M> {
    s.(conns := s.conns - {id})
  }

  /** A socket is ready. `flush` tells, when it is writable, whether writing what was buffered works;
      any failure closes the connection, but leaves its entry in the idle wheel. */
  function Ready<H, T, M>(hs: Handlers<H, T, M>, s: Tcp<H, T, M>, id: nat, flush: Option<bool>,
      reading: Option<Reading<M>>): (r: Ended<H, T, M>)
    ensures !r.Panicked?
  {
    if id !in s.conns then Fine(s)
    else if flush == Some(false) then Failed(Close(s, id))
    else if reading.None? then Fine(s)
    else
      var r := Read(hs, s, id, reading.value.msgs, reading.value.ok);
      if r.Fine? then Fine(Touch(r.tcp, id)) else Failed(Close(r.tcp, id))
  }

  function ConnectionTick<H, T, M>(s: Tcp<H, T, M>): Tcp<H, T, M>
    requires s.idle.Some?
  {
    var w := s.idle.value;
    s.(conns := s.conns - w.data[w.read], idle := Some(w.Turned()))
  }

  // ----- requests

  function TimeoutFor<T>(pid: Pid, cid: CorrelationId): Envelope<T> {
    Envelope(pid, pid, Timeout, Some(cid))
  }

  /** Tell the handlers of the requests in `order` that these timed out. A failed write drops the
      rest of them. */
  function TimeOutAll<H, T, M>(hs: Handlers<H, T, M>, s: Tcp<H, T, M>,
      order: seq<(CorrelationId, Option<nat>)>): Ended<H, T, M>
    decreases |order|
  {
    if order == [] then Fine(s)
    else
      var (cid, fail) := order[0];
      if cid.connection.None? then Panicked
      else if cid.connection.value !in s.conns then TimeOutAll(hs, s, order[1..])
      else
        var r := TimeOut(hs, s, cid, fail);
        if r.Fine? then TimeOutAll(hs, r.tcp, order[1..]) else r
  }

  function TimeOut<H, T, M>(hs: Handlers<H, T, M>, s: Tcp<H, T, M>, cid: CorrelationId,
      fail: Option<nat>): (r: Ended<H, T, M>)
    requires cid.connection.Some? && cid.connection.value in s.conns
    ensures !r.Panicked?
  {
    var id := cid.connection.value;
    Deliver(s.(fired := s.fired + [cid]), id, hs.onEnvelope(s.conns[id].handler, TimeoutFor(s.pid, cid)), fail)
  }

  function Arrive<H, T, M>(hs: Handlers<H, T, M>, s: Tcp<H, T, M>, e: Envelope<T>, fail: Option<nat>): Ended<H, T, M> {
    if e.correlationId.None? then Failed(s)
    else
      var id := e.correlationId.value.connection;
      if id.None? then Panicked
      else if id.value !in s.conns then Fine(s)
      else Deliver(s, id.value, hs.onEnvelope(s.conns[id.value].handler, e), fail)
  }

  // ----- events

  /** What happens at a TCP service. `order` lists the expired requests in the order in which the
      service goes through them. */
  datatype Event<+T, +M> =
    | Accepts(ids: seq<nat>, ok: bool)
    | Becomes(id: nat, flush: Option<bool>, reading: Option<Reading<M>>)
    | IdleTick
    | RequestTick(order: seq<(CorrelationId, Option<nat>)>)
    | Arrives(envelope: Envelope<T>, fail: Option<nat>)

  ghost predicate Distinct<V>(s: seq<V>) {
    forall i, j | 0 <= i < j < |s| :: s[i] != s[j]
  }

  function Firsts(order: seq<(CorrelationId, Option<nat>)>): seq<CorrelationId> {
    seq(|order|, i requires 0 <= i < |order| => order[i].0)
  }

  /** New sockets get ids that were never used; the expired requests are gone through once each. */
  ghost predicate Allowed<H, T, M>(s: Tcp<H, T, M>, ev: Event<T, M>) {
    match ev
    case Accepts(ids, _) => Distinct(ids) && forall id | id in ids :: id !in s.ids
    case IdleTick => s.idle.Some?
    case RequestTick(order) =>
      Distinct(Firsts(order)) && (set cid | cid in Firsts(order)) == s.requests.data[s.requests.read]
    case _ => true
  }

  ghost function Step<H, T, M>(hs: Handlers<H, T, M>, s: Tcp<H, T, M>, ev: Event<T, M>): Ended<H, T, M>
    requires Allowed(s, ev)
  {
    match ev
    case Accepts(ids, ok) => if ok then Fine(AcceptAll(hs, s, ids)) else Failed(AcceptAll(hs, s, ids))
    case Becomes(id, flush, reading) => Ready(hs, s, id, flush, reading)
    case IdleTick => Fine(ConnectionTick(s))
    case RequestTick(order) => TimeOutAll(hs, s.(requests := s.requests.Turned()), order)
    case Arrives(e, fail) => Arrive(hs, s, e, fail)
  }

  /** Events one after the other, none of which panics. */
  ghost predicate IsRun<H, T, M>(hs: Handlers<H, T, M>, s: Tcp<H, T, M>, evs: seq<Event<T, M>>)
    decreases |evs|
  {
    evs == [] ||
    (Allowed(s, evs[0]) && !Step(hs, s, evs[0]).Panicked? && IsRun(hs, Step(hs, s, evs[0]).tcp, evs[1..]))
  }

  ghost function Run<H, T, M>(hs: Handlers<H, T, M>, s: Tcp<H, T, M>, evs: seq<Event<T, M>>): Tcp<H, T, M>
    requires IsRun(hs, s, evs)
    decreases |evs|
  {
    if evs == [] then s else Run(hs, Step(hs, s, evs[0]).tcp, evs[1..])
  }
}
