/** Connections do not see each other's output: a client message is written only to the socket of the
    connection whose handler made it. */
module TcpIsolation {
  import opened Base
  import opened Ids
  import opened Messages
  import opened Subsequences
  import opened TcpState

  /** Between calls the shared buffer is empty, and each socket was given, in order, some of the
      messages of its own handler. */
  ghost predicate Isolated<H, T, M>(s: Tcp<H, T, M>) {
    && s.output == []
    && forall id: nat :: Subsequence(Log(s.written, id), Log(s.produced, id))
  }

  /** Nothing made for a client was left unwritten. */
  ghost predicate AllWritten<H, T, M>(s: Tcp<H, T, M>) {
    forall id: nat :: Log(s.written, id) == Log(s.produced, id)
  }

  /** Sending writes a prefix of the client messages, all of them unless a write fails, and writes on
      no other socket. */
  lemma {:induction false} SendWrites<H, T, M>(s: Tcp<H, T, M>, id: nat, msgs: seq<ConnMsg<T, M>>, fail: Option<nat>)
    returns (done: seq<M>)
    ensures done <= Clients(msgs)
    ensures var r := Send(s, id, msgs, fail);
            && Log(r.tcp.written, id) == Log(s.written, id) + done
            && (r.Fine? ==> done == Clients(msgs))
            && forall other: nat | other != id :: Log(r.tcp.written, other) == Log(s.written, other)
    decreases |msgs|
  {
    hide Log, Logged, Forward;
    done := [];
    if msgs == [] {
    } else if msgs[0].ToNode? {
      assert Forward(s, msgs[0].envelope).written == s.written by {
        ForwardWritesNothing(s, msgs[0].envelope);
      }
      done := SendWrites(Forward(s, msgs[0].envelope), id, msgs[1..], fail);
    } else {
      var m := msgs[0].msg;
      var s1 := s.(written := Logged(s.written, id, [m]));
      LoggedAt(s.written, id, [m]);
      done := [m];
      if fail != Some(0) {
        var rest := SendWrites(s1, id, msgs[1..], if fail.Some? then Some(fail.value - 1) else None);
        done := [m] + rest;
        assert Log(s.written, id) + [m] + rest == Log(s.written, id) + done;
      }
    }
  }

  lemma ForwardWritesNothing<H, T, M>(s: Tcp<H, T, M>, e: Envelope<T>)
    ensures Forward(s, e).written == s.written
  {
  }

  lemma LoggedAt<M>(log: map<nat, seq<M>>, id: nat, msgs: seq<M>)
    ensures Log(Logged(log, id, msgs), id) == Log(log, id) + msgs
    ensures forall other: nat | other != id :: Log(Logged(log, id, msgs), other) == Log(log, other)
  {
  }

  lemma DeliverIsolates<H, T, M>(s: Tcp<H, T, M>, id: nat, handled: (H, seq<ConnMsg<T, M>>), fail: Option<nat>)
    requires Isolated(s) && id in s.conns
    ensures var r := Deliver(s, id, handled, fail);
            Isolated(r.tcp) && (r.Fine? && AllWritten(s) ==> AllWritten(r.tcp))
  {
    var s1 := s.(conns := s.conns[id := s.conns[id].(handler := handled.0)],
                 output := [],
                 produced := Logged(s.produced, id, Clients(handled.1)));
    assert s.output + handled.1 == handled.1;
    SendKeeps(s1, id, handled.1, fail);
    var done := SendWrites(s1, id, handled.1, fail);
    SubsequencePrefix(Log(s.written, id), Log(s.produced, id), done, Clients(handled.1));
    hide Send, Clients, Subsequence;
  }

  /** Only the connections, the wheels and other records differ. */
  ghost predicate SameLogs<H, T, M>(s: Tcp<H, T, M>, t: Tcp<H, T, M>) {
    t.output == s.output && t.written == s.written && t.produced == s.produced
  }

  lemma LogsDecide<H, T, M>(s: Tcp<H, T, M>, t: Tcp<H, T, M>)
    requires SameLogs(s, t)
    ensures Isolated(s) ==> Isolated(t)
    ensures AllWritten(s) ==> AllWritten(t)
  {
  }

  lemma {:induction false} AcceptLogs<H, T, M>(hs: Handlers<H, T, M>, s: Tcp<H, T, M>, ids: seq<nat>)
    ensures SameLogs(s, AcceptAll(hs, s, ids))
    decreases |ids|
  {
    if ids != [] {
      AcceptLogs(hs, Accept(hs, s, ids[0]), ids[1..]);
    }
  }

  lemma {:induction false} ReadIsolates<H, T, M>(hs: Handlers<H, T, M>, s: Tcp<H, T, M>, id: nat,
      msgs: seq<(M, Option<nat>)>, ok: bool)
    requires Isolated(s) && id in s.conns
    ensures var r := Read(hs, s, id, msgs, ok);
            Isolated(r.tcp) && (r.Fine? && AllWritten(s) ==> AllWritten(r.tcp))
    decreases |msgs|
  {
    hide Isolated, AllWritten, Deliver;
    if msgs != [] {
      var handled := hs.onNetwork(s.conns[id].handler, msgs[0].0);
      DeliverIsolates(s, id, handled, msgs[0].1);
      DeliverKeeps(s, id, handled, msgs[0].1);
      var r := Deliver(s, id, handled, msgs[0].1);
      if r.Fine? {
        ReadIsolates(hs, r.tcp, id, msgs[1..], ok);
      }
    }
  }

  lemma {:induction false} TimeOutIsolates<H, T, M>(hs: Handlers<H, T, M>, s: Tcp<H, T, M>,
      order: seq<(CorrelationId, Option<nat>)>)
    requires Isolated(s) && !TimeOutAll(hs, s, order).Panicked?
    ensures var r := TimeOutAll(hs, s, order);
            Isolated(r.tcp) && (r.Fine? && AllWritten(s) ==> AllWritten(r.tcp))
    decreases |order|
  {
    hide Isolated, AllWritten, Deliver;
    if order != [] {
      var (cid, fail) := order[0];
      var id := cid.connection.value;
      if id !in s.conns {
        TimeOutIsolates(hs, s, order[1..]);
      } else {
        var s1 := s.(fired := s.fired + [cid]);
        LogsDecide(s, s1);
        DeliverIsolates(s1, id, hs.onEnvelope(s.conns[id].handler, TimeoutFor(s.pid, cid)), fail);
        var r := TimeOut(hs, s, cid, fail);
        if r.Fine? {
          TimeOutIsolates(hs, r.tcp, order[1..]);
        }
      }
    }
  }

  lemma StepIsolates<H, T, M>(hs: Handlers<H, T, M>, s: Tcp<H, T, M>, ev: Event<T, M>)
    requires Isolated(s) && Allowed(s, ev) && !Step(hs, s, ev).Panicked?
    ensures var r := Step(hs, s, ev);
            Isolated(r.tcp) && (r.Fine? && AllWritten(s) ==> AllWritten(r.tcp))
  {
    hide Isolated, AllWritten, Deliver, Read, TimeOutAll, AcceptAll;
    var t := Step(hs, s, ev).tcp;
    match ev
    case Accepts(ids, _) => AcceptLogs(hs, s, ids); LogsDecide(s, t);
    case Becomes(id, flush, reading) =>
      if id in s.conns && flush != Some(false) && reading.Some? {
        ReadIsolates(hs, s, id, reading.value.msgs, reading.value.ok);
        LogsDecide(Read(hs, s, id, reading.value.msgs, reading.value.ok).tcp, t);
      } else {
        LogsDecide(s, t);
      }
    case IdleTick => LogsDecide(s, t);
    case RequestTick(order) =>
      var s1 := s.(requests := s.requests.Turned());
      LogsDecide(s, s1);
      TimeOutIsolates(hs, s1, order);
    case Arrives(e, fail) =>
      if e.correlationId.Some? && e.correlationId.value.connection.value in s.conns {
        var id := e.correlationId.value.connection.value;
        DeliverIsolates(s, id, hs.onEnvelope(s.conns[id].handler, e), fail);
      }
  }

  /** In every run, including runs with write errors part-way through a drain, the buffer is empty
      between calls, and each socket gets only messages of its own connection's handler, in the order
      in which that handler made them. */
  lemma {:induction false} RunIsolates<H, T, M>(hs: Handlers<H, T, M>, s: Tcp<H, T, M>, evs: seq<Event<T, M>>)
    requires Isolated(s) && IsRun(hs, s, evs)
    ensures Isolated(Run(hs, s, evs))
    decreases |evs|
  {
    hide Isolated, Step;
    if evs != [] {
      StepIsolates(hs, s, evs[0]);
      RunIsolates(hs, Step(hs, s, evs[0]).tcp, evs[1..]);
    }
  }

  ghost predicate NoFailure<H, T, M>(hs: Handlers<H, T, M>, s: Tcp<H, T, M>, evs: seq<Event<T, M>>)
    requires IsRun(hs, s, evs)
    decreases |evs|
  {
    evs == [] || (Step(hs, s, evs[0]).Fine? && NoFailure(hs, Step(hs, s, evs[0]).tcp, evs[1..]))
  }

  /** When no event of a run fails, every message that a handler made for its client is written. */
  lemma {:induction false} RunWritesAll<H, T, M>(hs: Handlers<H, T, M>, s: Tcp<H, T, M>, evs: seq<Event<T, M>>)
    requires Isolated(s) && AllWritten(s) && IsRun(hs, s, evs) && NoFailure(hs, s, evs)
    ensures AllWritten(Run(hs, s, evs))
    decreases |evs|
  {
    hide Isolated, AllWritten, Step;
    if evs != [] {
      StepIsolates(hs, s, evs[0]);
      RunWritesAll(hs, Step(hs, s, evs[0]).tcp, evs[1..]);
    }
  }

  lemma NewIsIsolated<H, T, M>(pid: Pid, timesOut: bool)
    ensures Isolated(NewTcp<H, T, M>(pid, timesOut)) && AllWritten(NewTcp<H, T, M>(pid, timesOut))
  {
  }

  // ----- what an event leaves alone

  /** `t` differs from `s` at connection `id` only. */
  ghost predicate OthersAlone<H, T, M>(s: Tcp<H, T, M>, t: Tcp<H, T, M>, id: nat) {
    forall other: nat | other != id ::
      && (other in t.conns <==> other in s.conns)
      && (other in s.conns ==> t.conns[other] == s.conns[other])
      && Log(t.written, other) == Log(s.written, other)
      && Log(t.produced, other) == Log(s.produced, other)
  }

  lemma DeliverLeavesOthers<H, T, M>(s: Tcp<H, T, M>, id: nat, handled: (H, seq<ConnMsg<T, M>>), fail: Option<nat>)
    requires id in s.conns && s.output == []
    ensures OthersAlone(s, Deliver(s, id, handled, fail).tcp, id) && Deliver(s, id, handled, fail).tcp.output == []
  {
    var s1 := s.(conns := s.conns[id := s.conns[id].(handler := handled.0)],
                 output := [],
                 produced := Logged(s.produced, id, Clients(handled.1)));
    assert s.output + handled.1 == handled.1;
    SendKeeps(s1, id, handled.1, fail);
    var done := SendWrites(s1, id, handled.1, fail);
    hide Send, Clients;
  }

  lemma {:induction false} ReadLeavesOthers<H, T, M>(hs: Handlers<H, T, M>, s: Tcp<H, T, M>, id: nat,
      msgs: seq<(M, Option<nat>)>, ok: bool)
    requires id in s.conns && s.output == []
    ensures OthersAlone(s, Read(hs, s, id, msgs, ok).tcp, id)
    decreases |msgs|
  {
    hide Deliver;
    if msgs != [] {
      var handled := hs.onNetwork(s.conns[id].handler, msgs[0].0);
      DeliverLeavesOthers(s, id, handled, msgs[0].1);
      DeliverKeeps(s, id, handled, msgs[0].1);
      var r := Deliver(s, id, handled, msgs[0].1);
      if r.Fine? {
        ReadLeavesOthers(hs, r.tcp, id, msgs[1..], ok);
      }
    }
  }

  /** Activity on one socket, failures included, leaves every other connection alone: its handler, its
      slot and what was written on its socket. */
  lemma SocketLeavesOthers<H, T, M>(hs: Handlers<H, T, M>, s: Tcp<H, T, M>, id: nat, flush: Option<bool>,
      reading: Option<Reading<M>>)
    requires s.output == []
    ensures OthersAlone(s, Ready(hs, s, id, flush, reading).tcp, id)
  {
    if id in s.conns && reading.Some? {
      ReadLeavesOthers(hs, s, id, reading.value.msgs, reading.value.ok);
    }
    hide Read, Log;
  }

  /** An envelope is handled by the connection that its correlation id names and by no other; if that
      connection is gone nothing happens. */
  lemma EnvelopeGoesHome<H, T, M>(hs: Handlers<H, T, M>, s: Tcp<H, T, M>, e: Envelope<T>, fail: Option<nat>, id: nat)
    requires s.output == [] && e.correlationId.Some? && e.correlationId.value.connection == Some(id)
    ensures var r := Arrive(hs, s, e, fail);
            && !r.Panicked? && OthersAlone(s, r.tcp, id)
            && (id !in s.conns ==> r == Fine(s))
            && (id in s.conns ==>
                  && id in r.tcp.conns
                  && r.tcp.conns[id].handler == hs.onEnvelope(s.conns[id].handler, e).0
                  && r.tcp.conns[id].slot == s.conns[id].slot)
  {
    if id in s.conns {
      var handled := hs.onEnvelope(s.conns[id].handler, e);
      DeliverLeavesOthers(s, id, handled, fail);
      DeliverKeeps(s, id, handled, fail);
    }
  }
}
