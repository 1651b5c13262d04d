/** Idle timeouts of TCP connections. Errors leave entries behind in the wheel; these are harmless and
    vanish, and the wheel agrees with a plain counter of idle ticks per connection. */
module TcpIdle {
  import opened Base
  import opened Ids
  import opened TimerWheels
  import opened TcpState

  /** Each live connection is in the wheel exactly once, at the slot it records; ids were handed out. */
  ghost predicate IdleFits<H, T, M>(s: Tcp<H, T, M>) {
    && s.conns.Keys <= s.ids
    && (s.idle.Some? ==>
          && (forall i: nat, id: nat | i < SLOTS && id in s.idle.value.data[i] :: id in s.ids)
          && (forall i: nat, id: nat | i < SLOTS && id in s.conns ::
                id in s.idle.value.data[i] <==> i == s.conns[id].slot))
  }

  /** Handlers and records may differ, connections and their timers may not. */
  ghost predicate SameIdle<H, T, M>(s: Tcp<H, T, M>, t: Tcp<H, T, M>) {
    && t.idle == s.idle && t.ids == s.ids && t.conns.Keys == s.conns.Keys
    && forall id | id in s.conns :: t.conns[id].slot == s.conns[id].slot
  }

  lemma DeliverSameIdle<H, T, M>(s: Tcp<H, T, M>, id: nat, handled: (H, seq<ConnMsg<T, M>>), fail: Option<nat>)
    requires id in s.conns
    ensures SameIdle(s, Deliver(s, id, handled, fail).tcp)
  {
    DeliverKeeps(s, id, handled, fail);
  }

  lemma {:induction false} ReadSameIdle<H, T, M>(hs: Handlers<H, T, M>, s: Tcp<H, T, M>, id: nat,
      msgs: seq<(M, Option<nat>)>, ok: bool)
    requires id in s.conns
    ensures SameIdle(s, Read(hs, s, id, msgs, ok).tcp)
    decreases |msgs|
  {
    hide Deliver;
    if msgs != [] {
      var handled := hs.onNetwork(s.conns[id].handler, msgs[0].0);
      DeliverSameIdle(s, id, handled, msgs[0].1);
      var r := Deliver(s, id, handled, msgs[0].1);
      if r.Fine? {
        ReadSameIdle(hs, r.tcp, id, msgs[1..], ok);
      }
    }
  }

  lemma {:induction false} TimeOutSameIdle<H, T, M>(hs: Handlers<H, T, M>, s: Tcp<H, T, M>,
      order: seq<(CorrelationId, Option<nat>)>)
    requires !TimeOutAll(hs, s, order).Panicked?
    ensures SameIdle(s, TimeOutAll(hs, s, order).tcp)
    decreases |order|
  {
    hide Deliver;
    if order != [] {
      var (cid, fail) := order[0];
      var id := cid.connection.value;
      if id !in s.conns {
        TimeOutSameIdle(hs, s, order[1..]);
      } else {
        DeliverSameIdle(s.(fired := s.fired + [cid]), id,
                        hs.onEnvelope(s.conns[id].handler, TimeoutFor(s.pid, cid)), fail);
        var r := TimeOut(hs, s, cid, fail);
        if r.Fine? {
          TimeOutSameIdle(hs, r.tcp, order[1..]);
        }
      }
    }
  }

  // ----- the naive counters

  /** Ticks since connection `id` was accepted or last read without error; `None` when it is closed. */
  ghost function IdleOf<H, T, M>(s: Tcp<H, T, M>, id: nat): Option<nat>
    requires s.idle.Some?
  {
    if id in s.conns then Some(s.idle.value.Age(s.conns[id].slot)) else None
  }

  /** A counter per connection, without any wheel: `ok` tells whether the event succeeded. */
  function Counter<T, M>(before: Option<nat>, ev: Event<T, M>, ok: bool, id: nat): Option<nat> {
    match ev
    case Accepts(ids, _) => if id in ids then Some(0) else before
    case Becomes(other, _, reading) =>
      if other != id || before.None? then before
      else if !ok then None
      else if reading.Some? then Some(0)
      else before
    case IdleTick => if before.None? || before.value == 10 then None else Some(before.value + 1)
    case _ => before
  }

  lemma SameIdleCounts<H, T, M>(s: Tcp<H, T, M>, t: Tcp<H, T, M>, id: nat)
    requires IdleFits(s) && SameIdle(s, t) && s.idle.Some?
    ensures IdleFits(t) && IdleOf(t, id) == IdleOf(s, id)
  {
  }

  lemma AcceptCounts<H, T, M>(hs: Handlers<H, T, M>, s: Tcp<H, T, M>, sock: nat, id: nat)
    requires IdleFits(s) && s.idle.Some? && sock !in s.ids
    ensures IdleFits(Accept(hs, s, sock)) && Accept(hs, s, sock).idle.Some?
    ensures Accept(hs, s, sock).ids == s.ids + {sock}
    ensures IdleOf(Accept(hs, s, sock), id) == if id == sock then Some(0) else IdleOf(s, id)
  {
  }

  lemma {:induction false} AcceptAllCounts<H, T, M>(hs: Handlers<H, T, M>, s: Tcp<H, T, M>, ids: seq<nat>, id: nat)
    requires IdleFits(s) && s.idle.Some? && Distinct(ids) && (forall i | i in ids :: i !in s.ids)
    ensures IdleFits(AcceptAll(hs, s, ids)) && AcceptAll(hs, s, ids).idle.Some?
    ensures IdleOf(AcceptAll(hs, s, ids), id) == if id in ids then Some(0) else IdleOf(s, id)
    decreases |ids|
  {
    hide IdleFits, IdleOf, Accept;
    if ids != [] {
      assert ids[0] in ids;
      AcceptCounts(hs, s, ids[0], id);
      var rest := ids[1..];
      assert forall i | 0 <= i < |rest| :: rest[i] == ids[i + 1];
      AcceptAllCounts(hs, Accept(hs, s, ids[0]), rest, id);
      assert ids == [ids[0]] + rest;
    }
  }

  lemma TouchCounts<H, T, M>(s: Tcp<H, T, M>, touched: nat, id: nat)
    requires IdleFits(s) && s.idle.Some? && touched in s.conns
    ensures IdleFits(Touch(s, touched)) && Touch(s, touched).idle.Some?
    ensures IdleOf(Touch(s, touched), id) == if id == touched then Some(0) else IdleOf(s, id)
  {
  }

  lemma CloseCounts<H, T, M>(s: Tcp<H, T, M>, closed: nat, id: nat)
    requires IdleFits(s) && s.idle.Some?
    ensures IdleFits(Close(s, closed))
    ensures IdleOf(Close(s, closed), id) == if id == closed then None else IdleOf(s, id)
  {
  }

  /** A tick of the idle timer closes exactly the connections whose counter has reached 10. */
  lemma TickCounts<H, T, M>(s: Tcp<H, T, M>, id: nat)
    requires IdleFits(s) && s.idle.Some?
    ensures IdleFits(ConnectionTick(s)) && ConnectionTick(s).idle.Some?
    ensures IdleOf(ConnectionTick(s), id) == if IdleOf(s, id).None? || IdleOf(s, id).value == 10 then None
                                             else Some(IdleOf(s, id).value + 1)
  {
    if id in s.conns {
      TurnedAges(s.idle.value, s.conns[id].slot);
    }
  }

  /** The wheel counts as the plain counters do, at every event and for every connection. */
  lemma StepCounts<H, T, M>(hs: Handlers<H, T, M>, s: Tcp<H, T, M>, ev: Event<T, M>, id: nat)
    requires IdleFits(s) && s.idle.Some? && Allowed(s, ev) && !Step(hs, s, ev).Panicked?
    ensures var r := Step(hs, s, ev);
            && IdleFits(r.tcp) && r.tcp.idle.Some?
            && IdleOf(r.tcp, id) == Counter(IdleOf(s, id), ev, r.Fine?, id)
  {
    hide IdleFits, Deliver, Read, TimeOutAll, AcceptAll;
    var t := Step(hs, s, ev).tcp;
    match ev
    case Accepts(ids, _) => AcceptAllCounts(hs, s, ids, id);
    case Becomes(ready, flush, reading) =>
      if ready in s.conns {
        if flush == Some(false) {
          CloseCounts(s, ready, id);
        } else if reading.Some? {
          var r := Read(hs, s, ready, reading.value.msgs, reading.value.ok);
          ReadSameIdle(hs, s, ready, reading.value.msgs, reading.value.ok);
          SameIdleCounts(s, r.tcp, id);
          TouchCounts(r.tcp, ready, id);
          CloseCounts(r.tcp, ready, id);
        }
      }
    case IdleTick => TickCounts(s, id);
    case RequestTick(order) =>
      var s1 := s.(requests := s.requests.Turned());
      TimeOutSameIdle(hs, s1, order);
      SameIdleCounts(s, t, id);
    case Arrives(e, fail) =>
      if e.correlationId.Some? && e.correlationId.value.connection.value in s.conns {
        var to := e.correlationId.value.connection.value;
        DeliverSameIdle(s, to, hs.onEnvelope(s.conns[to].handler, e), fail);
      }
      SameIdleCounts(s, t, id);
  }

  function Counted<T, M>(before: Option<nat>, evs: seq<(Event<T, M>, bool)>, id: nat): Option<nat>
    decreases |evs|
  {
    if evs == [] then before else Counted(Counter(before, evs[0].0, evs[0].1, id), evs[1..], id)
  }

  /** The events of a run, each with whether it succeeded. */
  ghost function Trace<H, T, M>(hs: Handlers<H, T, M>, s: Tcp<H, T, M>, evs: seq<Event<T, M>>): seq<(Event<T, M>, bool)>
    requires IsRun(hs, s, evs)
    decreases |evs|
  {
    if evs == [] then []
    else [(evs[0], Step(hs, s, evs[0]).Fine?)] + Trace(hs, Step(hs, s, evs[0]).tcp, evs[1..])
  }

  /** In every run, the wheel with its leftovers closes connections just as plain counters would. */
  lemma {:induction false} RunCounts<H, T, M>(hs: Handlers<H, T, M>, s: Tcp<H, T, M>, evs: seq<Event<T, M>>, id: nat)
    requires IdleFits(s) && s.idle.Some? && IsRun(hs, s, evs)
    ensures var t := Run(hs, s, evs);
            && IdleFits(t) && t.idle.Some?
            && IdleOf(t, id) == Counted(IdleOf(s, id), Trace(hs, s, evs), id)
    decreases |evs|
  {
    hide IdleFits, IdleOf, Counter, Step;
    if evs != [] {
      StepCounts(hs, s, evs[0], id);
      var r := Step(hs, s, evs[0]);
      RunCounts(hs, r.tcp, evs[1..], id);
      var rest := Trace(hs, r.tcp, evs[1..]);
      assert Trace(hs, s, evs)[1..] == rest;
    }
  }

  function IdleTicks<T, M>(evs: seq<Event<T, M>>): nat
    decreases |evs|
  {
    if evs == [] then 0 else (if evs[0].IdleTick? then 1 else 0) + IdleTicks(evs[1..])
  }

  ghost predicate LeavesAlone<T, M>(evs: seq<Event<T, M>>, id: nat) {
    forall i | 0 <= i < |evs| ::
      && (evs[i].Becomes? ==> evs[i].id != id)
      && (evs[i].Accepts? ==> id !in evs[i].ids)
  }

  /** A connection on whose socket nothing happens is open until its counter passes 10, and not after:
      11 ticks after it was accepted or last read it is gone. */
  lemma {:induction false} QuietConnection<H, T, M>(hs: Handlers<H, T, M>, s: Tcp<H, T, M>,
      evs: seq<Event<T, M>>, id: nat)
    requires IdleFits(s) && s.idle.Some? && IsRun(hs, s, evs) && LeavesAlone(evs, id) && id in s.conns
    ensures id in Run(hs, s, evs).conns <==> IdleOf(s, id).value + IdleTicks(evs) <= 10
    ensures var t := Run(hs, s, evs);
            id in t.conns ==> t.idle.Some? && IdleOf(t, id) == Some(IdleOf(s, id).value + IdleTicks(evs))
    decreases |evs|
  {
    hide IdleFits, Step;
    if evs != [] {
      StepCounts(hs, s, evs[0], id);
      var t := Step(hs, s, evs[0]).tcp;
      var rest := evs[1..];
      assert LeavesAlone(rest, id) by {
        assert forall i | 0 <= i < |rest| :: rest[i] == evs[i + 1];
      }
      assert evs[0].Becomes? ==> evs[0].id != id;
      if id in t.conns {
        QuietConnection(hs, t, rest, id);
      } else {
        StaysClosed(hs, t, rest, id);
      }
    }
  }

  lemma {:induction false} StaysClosed<H, T, M>(hs: Handlers<H, T, M>, s: Tcp<H, T, M>, evs: seq<Event<T, M>>, id: nat)
    requires IdleFits(s) && s.idle.Some? && IsRun(hs, s, evs) && LeavesAlone(evs, id) && id !in s.conns
    ensures id !in Run(hs, s, evs).conns
    decreases |evs|
  {
    hide IdleFits, Step;
    if evs != [] {
      StepCounts(hs, s, evs[0], id);
      var rest := evs[1..];
      assert LeavesAlone(rest, id) by {
        assert forall i | 0 <= i < |rest| :: rest[i] == evs[i + 1];
      }
      StaysClosed(hs, Step(hs, s, evs[0]).tcp, rest, id);
    }
  }

  lemma NewFits<H, T, M>(pid: Pid, timesOut: bool)
    ensures IdleFits(NewTcp<H, T, M>(pid, timesOut))
  {
  }

  // ----- leftovers

  /** The connection is closed for good, and its leftovers in the wheel are at least `n` ticks old. */
  ghost predicate Leftover<H, T, M>(s: Tcp<H, T, M>, id: nat, n: nat) {
    && id in s.ids && id !in s.conns && s.idle.Some?
    && forall i: nat | i < SLOTS && id in s.idle.value.data[i] :: s.idle.value.Age(i) >= n
  }

  lemma {:induction false} AcceptLeaves<H, T, M>(hs: Handlers<H, T, M>, s: Tcp<H, T, M>, ids: seq<nat>, id: nat, n: nat)
    requires Leftover(s, id, n) && (forall i | i in ids :: i != id)
    ensures Leftover(AcceptAll(hs, s, ids), id, n)
    decreases |ids|
  {
    if ids != [] {
      assert ids[0] in ids;
      assert Leftover(Accept(hs, s, ids[0]), id, n);
      assert forall i | i in ids[1..] :: i in ids;
      AcceptLeaves(hs, Accept(hs, s, ids[0]), ids[1..], id, n);
    }
  }

  lemma SameLeaves<H, T, M>(s: Tcp<H, T, M>, t: Tcp<H, T, M>, id: nat, n: nat)
    requires Leftover(s, id, n) && SameIdle(s, t)
    ensures Leftover(t, id, n)
  {
  }

  lemma TouchLeaves<H, T, M>(s: Tcp<H, T, M>, touched: nat, id: nat, n: nat)
    requires Leftover(s, id, n) && touched in s.conns
    ensures Leftover(Touch(s, touched), id, n)
  {
  }

  lemma TickLeaves<H, T, M>(s: Tcp<H, T, M>, id: nat, n: nat)
    requires Leftover(s, id, n)
    ensures Leftover(ConnectionTick(s), id, n + 1)
  {
    var w := s.idle.value;
    forall i: nat | i < SLOTS && id in w.Turned().data[i] ensures w.Turned().Age(i) >= n + 1 {
      TurnedAges(w, i);
    }
  }

  lemma StepLeaves<H, T, M>(hs: Handlers<H, T, M>, s: Tcp<H, T, M>, ev: Event<T, M>, id: nat, n: nat)
    requires Leftover(s, id, n) && Allowed(s, ev) && !Step(hs, s, ev).Panicked?
    ensures Leftover(Step(hs, s, ev).tcp, id, if ev.IdleTick? then n + 1 else n)
  {
    assert id in s.ids && id !in s.conns && s.idle.Some?;
    hide Leftover, Deliver, Read, TimeOutAll, AcceptAll, Touch;
    var t := Step(hs, s, ev).tcp;
    match ev
    case Accepts(ids, _) => AcceptLeaves(hs, s, ids, id, n);
    case Becomes(ready, flush, reading) =>
      if ready in s.conns {
        if flush == Some(false) {
          CloseLeaves(s, ready, id, n);
        } else if reading.Some? {
          var r := Read(hs, s, ready, reading.value.msgs, reading.value.ok);
          ReadSameIdle(hs, s, ready, reading.value.msgs, reading.value.ok);
          SameLeaves(s, r.tcp, id, n);
          TouchLeaves(r.tcp, ready, id, n);
          CloseLeaves(r.tcp, ready, id, n);
        }
      }
    case IdleTick => TickLeaves(s, id, n);
    case RequestTick(order) =>
      TimeOutSameIdle(hs, s.(requests := s.requests.Turned()), order);
      SameLeaves(s, t, id, n);
    case Arrives(e, fail) =>
      if e.correlationId.Some? && e.correlationId.value.connection.value in s.conns {
        var to := e.correlationId.value.connection.value;
        DeliverSameIdle(s, to, hs.onEnvelope(s.conns[to].handler, e), fail);
      }
      SameLeaves(s, t, id, n);
  }

  lemma CloseLeaves<H, T, M>(s: Tcp<H, T, M>, closed: nat, id: nat, n: nat)
    requires Leftover(s, id, n)
    ensures Leftover(Close(s, closed), id, n)
  {
  }

  lemma {:induction false} RunLeaves<H, T, M>(hs: Handlers<H, T, M>, s: Tcp<H, T, M>, evs: seq<Event<T, M>>,
      id: nat, n: nat)
    requires Leftover(s, id, n) && IsRun(hs, s, evs)
    ensures Leftover(Run(hs, s, evs), id, n + IdleTicks(evs))
    decreases |evs|
  {
    hide Leftover, Step;
    if evs != [] {
      StepLeaves(hs, s, evs[0], id, n);
      RunLeaves(hs, Step(hs, s, evs[0]).tcp, evs[1..], id, if evs[0].IdleTick? then n + 1 else n);
    }
  }

  /** What an error close leaves behind in the wheel is gone after 11 ticks of the idle timer, and the
      closed connection never comes back. */
  lemma LeftoversVanish<H, T, M>(hs: Handlers<H, T, M>, s: Tcp<H, T, M>, evs: seq<Event<T, M>>, id: nat)
    requires id in s.ids && id !in s.conns && s.idle.Some? && IsRun(hs, s, evs) && IdleTicks(evs) >= SLOTS
    ensures var t := Run(hs, s, evs);
            id !in t.conns && t.idle.Some? && forall i: nat | i < SLOTS :: id !in t.idle.value.data[i]
  {
    RunLeaves(hs, s, evs, id, 0);
  }
}
