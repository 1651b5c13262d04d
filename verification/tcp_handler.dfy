/** The TCP service: connections, wheels and the shared output buffer updated in place, each method
    proved against its meaning in `TcpState`. */
module TcpHandlers {
  import opened Base
  import opened Ids
  import opened Messages
  import opened TimerWheels
  import opened TcpState
  import opened TcpIdle
  import opened TcpIsolation
  import opened TcpRequests

  datatype Ending = Good | Bad | Panicking

  class TcpServerHandler<H, T, M> {
    const pid: Pid
    const handlers: Handlers<H, T, M>
    var connections: map<nat, Connection<H>>
    const connectionTimerWheel: TimerWheel?<nat>
    const requestTimerWheel: TimerWheel<CorrelationId>
    /** Output of handlers while it is being sent on. */
    var output: seq<ConnMsg<T, M>>
    var nodeTx: seq<Envelope<T>>
    var ids: set<nat>
    var written: map<nat, seq<M>>
    ghost var produced: map<nat, seq<M>>
    ghost var recorded: seq<CorrelationId>
    ghost var fired: seq<CorrelationId>

    ghost predicate Valid()
      reads this, requestTimerWheel, connectionTimerWheel
    {
      && requestTimerWheel.Valid() && requestTimerWheel.size == SLOTS
      && (connectionTimerWheel != null ==> connectionTimerWheel.Valid() && connectionTimerWheel.size == SLOTS)
    }

    ghost function State(): Tcp<H, T, M>
      requires Valid()
      reads this, requestTimerWheel, connectionTimerWheel
    {
      Tcp(pid, connections, if connectionTimerWheel == null then None else Some(connectionTimerWheel.Value()),
          requestTimerWheel.Value(), output, nodeTx, ids, written, produced, recorded, fired)
    }

    /** A call ended as its meaning `r` says. */
    ghost predicate Agrees(ending: Ending, r: Ended<H, T, M>)
      reads this, requestTimerWheel, connectionTimerWheel
    {
      Valid() &&
      match r
      case Fine(t) => ending == Good && State() == t
      case Failed(t) => ending == Bad && State() == t
      case Panicked => ending == Panicking
    }

    constructor (pid: Pid, handlers: Handlers<H, T, M>, timesOut: bool)
      ensures Valid() && fresh(requestTimerWheel) && (connectionTimerWheel != null ==> fresh(connectionTimerWheel))
      ensures State() == NewTcp(pid, timesOut) && this.handlers == handlers
    {
      this.pid := pid;
      this.handlers := handlers;
      connections := map[];
      requestTimerWheel := new TimerWheel<CorrelationId>(SLOTS);
      if timesOut {
        connectionTimerWheel := new TimerWheel<nat>(SLOTS);
      } else {
        connectionTimerWheel := null;
      }
      output := [];
      nodeTx := [];
      ids := {};
      written := map[];
      produced := map[];
      recorded := [];
      fired := [];
    }

    // ----- output

    /** Drain the shared buffer for connection `id`: send client replies on its socket and route
        envelopes, starting a request timer for those with a correlation id. */
    method HandleConnectionMsgs(id: nat, fail: Option<nat>) returns (ending: Ending)
      requires Valid()
      modifies this, requestTimerWheel
      ensures Agrees(ending, Send(old(State()).(output := []), id, old(output), fail))
    {
      var msgs := output;
      output := [];
      ghost var meaning := Send(State(), id, msgs, fail);
      var left := fail;
      var i := 0;
      while i < |msgs|
        invariant 0 <= i <= |msgs| && Valid() && output == []
        invariant Send(State(), id, msgs[i..], left) == meaning
      {
        assert msgs[i..][0] == msgs[i] && msgs[i..][1..] == msgs[i + 1..];
        match msgs[i] {
          case ToNode(e) =>
            if e.correlationId.Some? {
              var _ := requestTimerWheel.Insert(e.correlationId.value);
              recorded := recorded + [e.correlationId.value];
            }
            nodeTx := nodeTx + [e];
          case ToClient(m, _) =>
            written := Logged(written, id, [m]);
            if left == Some(0) {
              return Bad;
            }
            left := if left.Some? then Some(left.value - 1) else None;
        }
        i := i + 1;
      }
      ending := Good;
    }

    /** A handler has put `handled.1` into the buffer: send it on. */
    method Finish(id: nat, handled: (H, seq<ConnMsg<T, M>>), fail: Option<nat>) returns (ending: Ending)
      requires Valid() && id in connections
      modifies this, requestTimerWheel
      ensures Agrees(ending, Deliver(old(State()), id, handled, fail))
    {
      connections := connections[id := connections[id].(handler := handled.0)];
      output := output + handled.1;
      produced := Logged(produced, id, Clients(handled.1));
      ending := HandleConnectionMsgs(id, fail);
    }

    // ----- connections

    method NewConnection(id: nat)
      requires Valid()
      modifies this, connectionTimerWheel
      ensures Valid() && State() == Accept(handlers, old(State()), id)
    {
      var handler := handlers.create(pid, id);
      var slot := 0;
      if connectionTimerWheel != null {
        slot := connectionTimerWheel.Insert(id);
      }
      connections := connections[id := Connection(handler, slot)];
      ids := ids + {id};
    }

    /** Accept sockets until there are no more or accepting fails. */
    method AcceptConnections(socks: seq<nat>, ok: bool) returns (ending: Ending)
      requires Valid()
      modifies this, connectionTimerWheel
      ensures Valid() && State() == AcceptAll(handlers, old(State()), socks)
      ensures ending == if ok then Good else Bad
    {
      ghost var meaning := AcceptAll(handlers, State(), socks);
      var i := 0;
      while i < |socks|
        invariant 0 <= i <= |socks| && Valid()
        invariant AcceptAll(handlers, State(), socks[i..]) == meaning
      {
        assert socks[i..][0] == socks[i] && socks[i..][1..] == socks[i + 1..];
        NewConnection(socks[i]);
        i := i + 1;
      }
      ending := if ok then Good else Bad;
    }

    method HandleReadable(id: nat, msgs: seq<(M, Option<nat>)>, ok: bool) returns (ending: Ending)
      requires Valid() && id in connections
      modifies this, requestTimerWheel
      ensures Agrees(ending, Read(handlers, old(State()), id, msgs, ok))
      ensures connections.Keys == old(connections.Keys)
    {
      ghost var meaning := Read(handlers, State(), id, msgs, ok);
      var i := 0;
      while i < |msgs|
        invariant 0 <= i <= |msgs| && Valid()
        invariant connections.Keys == old(connections.Keys)
        invariant Read(handlers, State(), id, msgs[i..], ok) == meaning
      {
        assert msgs[i..][0] == msgs[i] && msgs[i..][1..] == msgs[i + 1..];
        ghost var handled := handlers.onNetwork(connections[id].handler, msgs[i].0);
        DeliverKeeps(State(), id, handled, msgs[i].1);
        ending := Finish(id, handlers.onNetwork(connections[id].handler, msgs[i].0), msgs[i].1);
        if !ending.Good? {
          return;
        }
        i := i + 1;
      }
      ending := if ok then Good else Bad;
    }

    method UpdateConnectionTimeout(id: nat)
      requires Valid() && id in connections
      modifies this`connections, connectionTimerWheel
      ensures Valid() && State() == TcpState.Touch(old(State()), id)
    {
      if connectionTimerWheel != null {
        connectionTimerWheel.Remove(id, connections[id].slot);
        var slot := connectionTimerWheel.Insert(id);
        connections := connections[id := connections[id].(slot := slot)];
      }
    }

    method HandleConnectionNotification(id: nat, flush: Option<bool>,
        reading: Option<Reading<M>>) returns (ending: Ending)
      requires Valid()
      modifies this, requestTimerWheel, connectionTimerWheel
      ensures Agrees(ending, Ready(handlers, old(State()), id, flush, reading))
    {
      ending := Good;
      if id in connections {
        if flush.Some? {
          if !flush.value {
            connections := connections - {id};
            return Bad;
          }
        }
        if reading.Some? {
          ending := HandleReadable(id, reading.value.msgs, reading.value.ok);
          if ending.Good? {
            UpdateConnectionTimeout(id);
          } else {
            connections := connections - {id};
          }
        }
      }
    }

    method IdleTick()
      requires Valid() && connectionTimerWheel != null
      modifies this`connections, connectionTimerWheel
      ensures Valid() && State() == ConnectionTick(old(State()))
    {
      var expired := connectionTimerWheel.Expire();
      var left := expired;
      while left != {}
        invariant left <= expired
        invariant connections == old(connections) - (expired - left)
        decreases |left|
        modifies this`connections
      {
        var id :| id in left;
        connections := connections - {id};
        left := left - {id};
      }
      assert expired - left == expired;
    }

    // ----- requests

    /** `order` is the order in which the set of expired requests happens to be gone through. */
    method RequestTick(order: seq<(CorrelationId, Option<nat>)>) returns (ending: Ending)
      requires Valid() && Allowed(State(), Event.RequestTick(order))
      modifies this, requestTimerWheel
      ensures Agrees(ending, Step(handlers, old(State()), Event.RequestTick(order)))
      // Each expired request is handed to its handler at most once, and no other is.
      ensures !ending.Panicking? ==>
                forall cid | Count(fired, cid) != Count(old(fired), cid) ::
                  cid in Firsts(order) && Count(fired, cid) == Count(old(fired), cid) + 1
    {
      hide Count, Firsts, Deliver;
      if !Step(handlers, State(), Event.RequestTick(order)).Panicked? {
        TickFiresOnce(handlers, State(), order);
      }
      var expired := requestTimerWheel.Expire();
      assert expired == set cid | cid in Firsts(order);
      ghost var meaning := TimeOutAll(handlers, State(), order);
      var i := 0;
      while i < |order|
        invariant 0 <= i <= |order| && Valid()
        invariant TimeOutAll(handlers, State(), order[i..]) == meaning
      {
        assert order[i..][0] == order[i] && order[i..][1..] == order[i + 1..];
        var (cid, fail) := order[i];
        if cid.connection.None? {
          return Panicking;
        }
        var id := cid.connection.value;
        if id in connections {
          fired := fired + [cid];
          ending := Finish(id, handlers.onEnvelope(connections[id].handler, TimeoutFor(pid, cid)), fail);
          if !ending.Good? {
            return;
          }
        }
        i := i + 1;
      }
      ending := Good;
    }

    method HandleEnvelope(e: Envelope<T>, fail: Option<nat>) returns (ending: Ending)
      requires Valid()
      modifies this, requestTimerWheel
      ensures Agrees(ending, Arrive(handlers, old(State()), e, fail))
    {
      if e.correlationId.None? {
        return Bad;
      }
      if e.correlationId.value.connection.None? {
        return Panicking;
      }
      var id := e.correlationId.value.connection.value;
      ending := Good;
      if id in connections {
        ending := Finish(id, handlers.onEnvelope(connections[id].handler, e), fail);
      }
    }

    method Dispatch(ev: Event<T, M>) returns (ending: Ending)
      requires Valid() && Allowed(State(), ev)
      modifies this, requestTimerWheel, connectionTimerWheel
      ensures Agrees(ending, Step(handlers, old(State()), ev))
    {
      match ev
      case Accepts(socks, ok) => ending := AcceptConnections(socks, ok);
      case Becomes(id, flush, reading) => ending := HandleConnectionNotification(id, flush, reading);
      case IdleTick => IdleTick(); ending := Good;
      case RequestTick(order) => ending := RequestTick(order);
      case Arrives(e, fail) => ending := HandleEnvelope(e, fail);
    }

    /** One poll notification or envelope. Whatever happens, no output crosses connections, the idle wheel stays
        right, and requests time out no more often than they were recorded. */
    method HandleNotification(ev: Event<T, M>, ghost cid: CorrelationId) returns (ending: Ending)
      requires Valid() && Allowed(State(), ev)
      modifies this, requestTimerWheel, connectionTimerWheel
      ensures Agrees(ending, Step(handlers, old(State()), ev))
      ensures !ending.Panicking? && old(Isolated(State())) ==> Isolated(State())
      ensures !ending.Panicking? && connectionTimerWheel != null && old(IdleFits(State())) ==> IdleFits(State())
      ensures !ending.Panicking? && old(Backed(State(), cid)) ==> Backed(State(), cid)
    {
      hide Step, Isolated, IdleFits, Backed;
      if !Step(handlers, State(), ev).Panicked? {
        if Isolated(State()) {
          StepIsolates(handlers, State(), ev);
        }
        if connectionTimerWheel != null && IdleFits(State()) {
          StepCounts(handlers, State(), ev, 0);
        }
        if Backed(State(), cid) {
          StepBacked(handlers, State(), ev, cid);
        }
      }
      ending := Dispatch(ev);
    }
  }
}
