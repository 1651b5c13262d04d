/** When the TCP service panics: it takes for granted that the correlation id of an expired request, and of an
    envelope that arrives, names a connection. */
module TcpPanics {
  import opened Base
  import opened Ids
  import opened Messages
  import opened TcpState
  import opened TcpIsolation
  import opened TcpRequests

  /** A correlation id that names no connection. */
  predicate Unnamed(cid: CorrelationId) {
    cid.connection.None?
  }

  /** The request at place `k` of an expired slot names no connection, and no write has failed before it. */
  ghost predicate Trips<H, T, M>(hs: Handlers<H, T, M>, s: Tcp<H, T, M>, order: seq<(CorrelationId, Option<nat>)>,
      k: nat)
    requires k < |order|
  {
    Unnamed(order[k].0) && TimeOutAll(hs, s, order[..k]).Fine?
  }

  lemma {:induction false} TimeOutPanicsExactly<H, T, M>(hs: Handlers<H, T, M>, s: Tcp<H, T, M>,
      order: seq<(CorrelationId, Option<nat>)>)
    ensures TimeOutAll(hs, s, order).Panicked? <==> exists k: nat :: k < |order| && Trips(hs, s, order, k)
    decreases |order|
  {
    hide Deliver, TimeOut;
    if order != [] {
      var (c, fail) := order[0];
      var rest := order[1..];
      assert order[..0] == [];
      if Unnamed(c) {
        assert Trips(hs, s, order, 0);
      } else {
        var live := c.connection.value in s.conns;
        if !live || TimeOut(hs, s, c, fail).Fine? {
          var t := if live then TimeOut(hs, s, c, fail).tcp else s;
          TimeOutPanicsExactly(hs, t, rest);
          forall k: nat | k < |rest| ensures Trips(hs, t, rest, k) <==> Trips(hs, s, order, k + 1) {
            assert order[..k + 1][0] == order[0] && order[..k + 1][1..] == rest[..k];
          }
          forall k: nat | k < |order| && Trips(hs, s, order, k) ensures k > 0 && Trips(hs, t, rest, k - 1) {
            assert Trips(hs, s, order, (k - 1) + 1);
          }
        } else {
          forall k: nat | k < |order| ensures !Trips(hs, s, order, k) {
            if k > 0 {
              assert order[..k][0] == order[0];
            }
          }
        }
      }
    }
  }

  /** Exactly when an event panics: an envelope arrives with a correlation id that names no connection, or one
      of the expired requests names none, unless a write fails before its turn. */
  lemma StepPanicsExactly<H, T, M>(hs: Handlers<H, T, M>, s: Tcp<H, T, M>, ev: Event<T, M>)
    requires Allowed(s, ev)
    ensures Step(hs, s, ev).Panicked? <==>
              match ev
              case Arrives(e, _) => e.correlationId.Some? && Unnamed(e.correlationId.value)
              case RequestTick(order) => exists k: nat :: k < |order| && Trips(hs, TurnedTcp(s), order, k)
              case _ => false
  {
    hide Trips, TimeOutAll, Deliver, Ready, AcceptAll;
    if ev.RequestTick? {
      TimeOutPanicsExactly(hs, TurnedTcp(s), ev.order);
    }
  }

  // ----- runs that never panic

  predicate Named<T>(e: Envelope<T>) {
    e.correlationId.Some? ==> !Unnamed(e.correlationId.value)
  }

  ghost predicate NamedOutput<T, M>(msgs: seq<ConnMsg<T, M>>) {
    forall m | m in msgs && m.ToNode? :: Named(m.envelope)
  }

  /** Handlers put a connection into the correlation id of every envelope that has one. */
  ghost predicate NamingHandlers<H(!new), T(!new), M(!new)>(hs: Handlers<H, T, M>) {
    && (forall h, e :: NamedOutput(hs.onEnvelope(h, e).1))
    && (forall h, m :: NamedOutput(hs.onNetwork(h, m).1))
  }

  /** Every request that waits names a connection. */
  ghost predicate NamedRequests<H, T, M>(s: Tcp<H, T, M>) {
    forall i: nat, cid | i < SLOTS && cid in s.requests.data[i] :: !Unnamed(cid)
  }

  lemma {:induction false} SendKeepsNamed<H, T, M>(s: Tcp<H, T, M>, id: nat, msgs: seq<ConnMsg<T, M>>,
      fail: Option<nat>)
    requires NamedRequests(s) && NamedOutput(msgs)
    ensures NamedRequests(Send(s, id, msgs, fail).tcp)
    decreases |msgs|
  {
    hide Logged;
    if msgs != [] {
      var rest := msgs[1..];
      assert msgs[0] in msgs && NamedOutput(rest) by {
        assert forall m | m in rest :: m in msgs;
      }
      match msgs[0]
      case ToNode(e) =>
        assert NamedRequests(Forward(s, e));
        SendKeepsNamed(Forward(s, e), id, rest, fail);
      case ToClient(m, _) =>
        if fail != Some(0) {
          SendKeepsNamed(s.(written := Logged(s.written, id, [m])), id, rest,
                         if fail.Some? then Some(fail.value - 1) else None);
        }
    }
  }

  lemma DeliverKeepsNamed<H, T, M>(s: Tcp<H, T, M>, id: nat, handled: (H, seq<ConnMsg<T, M>>), fail: Option<nat>)
    requires NamedRequests(s) && s.output == [] && id in s.conns && NamedOutput(handled.1)
    ensures NamedRequests(Deliver(s, id, handled, fail).tcp)
    ensures Deliver(s, id, handled, fail).tcp.output == []
  {
    var s1 := s.(conns := s.conns[id := s.conns[id].(handler := handled.0)],
                 output := [],
                 produced := Logged(s.produced, id, Clients(handled.1)));
    assert s.output + handled.1 == handled.1;
    SendKeepsNamed(s1, id, handled.1, fail);
    DeliverKeeps(s, id, handled, fail);
  }

  lemma {:induction false} ReadKeepsNamed<H(!new), T(!new), M(!new)>(hs: Handlers<H, T, M>, s: Tcp<H, T, M>, id: nat,
      msgs: seq<(M, Option<nat>)>, ok: bool)
    requires NamingHandlers(hs) && NamedRequests(s) && s.output == [] && id in s.conns
    ensures NamedRequests(Read(hs, s, id, msgs, ok).tcp)
    decreases |msgs|
  {
    hide NamedRequests, Deliver;
    if msgs != [] {
      var handled := hs.onNetwork(s.conns[id].handler, msgs[0].0);
      assert NamedOutput(handled.1);
      DeliverKeepsNamed(s, id, handled, msgs[0].1);
      DeliverKeeps(s, id, handled, msgs[0].1);
      var r := Deliver(s, id, handled, msgs[0].1);
      if r.Fine? {
        ReadKeepsNamed(hs, r.tcp, id, msgs[1..], ok);
      }
    }
  }

  lemma {:induction false} TimeOutKeepsNamed<H(!new), T(!new), M(!new)>(hs: Handlers<H, T, M>, s: Tcp<H, T, M>,
      order: seq<(CorrelationId, Option<nat>)>)
    requires NamingHandlers(hs) && NamedRequests(s) && s.output == [] && !TimeOutAll(hs, s, order).Panicked?
    ensures NamedRequests(TimeOutAll(hs, s, order).tcp)
    decreases |order|
  {
    hide NamedRequests, Deliver;
    if order != [] {
      var (cid, fail) := order[0];
      var id := cid.connection.value;
      if id !in s.conns {
        TimeOutKeepsNamed(hs, s, order[1..]);
      } else {
        var s1 := s.(fired := s.fired + [cid]);
        var handled := hs.onEnvelope(s.conns[id].handler, TimeoutFor(s.pid, cid));
        assert NamedOutput(handled.1);
        SameRequests(s, s1);
        DeliverKeepsNamed(s1, id, handled, fail);
        var r := TimeOut(hs, s, cid, fail);
        if r.Fine? {
          TimeOutKeepsNamed(hs, r.tcp, order[1..]);
        }
      }
    }
  }

  lemma SameRequests<H, T, M>(s: Tcp<H, T, M>, t: Tcp<H, T, M>)
    requires NamedRequests(s) && t.requests == s.requests
    ensures NamedRequests(t)
  {
  }

  lemma StepStaysNamed<H(!new), T(!new), M(!new)>(hs: Handlers<H, T, M>, s: Tcp<H, T, M>, ev: Event<T, M>)
    requires NamingHandlers(hs) && NamedRequests(s) && s.output == [] && Allowed(s, ev)
    requires ev.Arrives? ==> Named(ev.envelope)
    ensures !Step(hs, s, ev).Panicked? && NamedRequests(Step(hs, s, ev).tcp)
  {
    StepPanicsExactly(hs, s, ev);
    hide NamedRequests, Deliver, Read, TimeOutAll, AcceptAll, Trips;
    match ev
    case Accepts(ids, _) => AcceptRecords(hs, s, ids); SameRequests(s, AcceptAll(hs, s, ids));
    case Becomes(id, flush, reading) =>
      if id in s.conns && flush != Some(false) && reading.Some? {
        ReadKeepsNamed(hs, s, id, reading.value.msgs, reading.value.ok);
        SameRequests(Read(hs, s, id, reading.value.msgs, reading.value.ok).tcp, Step(hs, s, ev).tcp);
      } else {
        SameRequests(s, Step(hs, s, ev).tcp);
      }
    case IdleTick => SameRequests(s, ConnectionTick(s));
    case RequestTick(order) =>
      TickIsNamed(hs, s, order);
      TimeOutKeepsNamed(hs, TurnedTcp(s), order);
    case Arrives(e, fail) =>
      if e.correlationId.Some? && e.correlationId.value.connection.value in s.conns {
        var id := e.correlationId.value.connection.value;
        var handled := hs.onEnvelope(s.conns[id].handler, e);
        assert NamedOutput(handled.1);
        DeliverKeepsNamed(s, id, handled, fail);
      }
  }

  lemma TickIsNamed<H, T, M>(hs: Handlers<H, T, M>, s: Tcp<H, T, M>, order: seq<(CorrelationId, Option<nat>)>)
    requires NamedRequests(s) && Allowed(s, RequestTick(order))
    ensures NamedRequests(TurnedTcp(s))
    ensures forall k: nat | k < |order| :: !Trips(hs, TurnedTcp(s), order, k)
  {
    forall k: nat | k < |order| ensures !Unnamed(order[k].0) {
      assert Firsts(order)[k] in set cid | cid in Firsts(order);
    }
  }

  /** The events may happen one after the other as long as the service runs. */
  ghost predicate AllowedWhileRunning<H, T, M>(hs: Handlers<H, T, M>, s: Tcp<H, T, M>, evs: seq<Event<T, M>>)
    decreases |evs|
  {
    evs == [] ||
    (Allowed(s, evs[0]) &&
     (Step(hs, s, evs[0]).Panicked? || AllowedWhileRunning(hs, Step(hs, s, evs[0]).tcp, evs[1..])))
  }

  /** No run panics when handlers and arriving envelopes always name a connection. */
  lemma {:induction false} NamedRunsNeverPanic<H(!new), T(!new), M(!new)>(hs: Handlers<H, T, M>, s: Tcp<H, T, M>,
      evs: seq<Event<T, M>>)
    requires NamingHandlers(hs) && NamedRequests(s) && Isolated(s) && AllowedWhileRunning(hs, s, evs)
    requires forall i | 0 <= i < |evs| && evs[i].Arrives? :: Named(evs[i].envelope)
    ensures IsRun(hs, s, evs) && NamedRequests(Run(hs, s, evs))
    decreases |evs|
  {
    assert s.output == [];
    hide NamingHandlers, NamedRequests, Isolated, Step;
    if evs != [] {
      StepStaysNamed(hs, s, evs[0]);
      StepIsolates(hs, s, evs[0]);
      NamedRunsNeverPanic(hs, Step(hs, s, evs[0]).tcp, evs[1..]);
    }
  }
}
