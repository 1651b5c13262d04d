/** What the handlers of connections are given: every message of a read, in order, and every Timeout of a request
    tick, up to the first write that fails. */
module TcpReading {
  import opened Base
  import opened Ids
  import opened Messages
  import opened TcpState
  import opened TcpRequests

  /** What a handler does with messages from its client, one after the other: its last state and all its output. */
  function Handling<H, T, M>(hs: Handlers<H, T, M>, h: H, msgs: seq<M>): (H, seq<ConnMsg<T, M>>)
    decreases |msgs|
  {
    if msgs == [] then (h, [])
    else
      var (h1, out) := hs.onNetwork(h, msgs[0]);
      var (h2, rest) := Handling(hs, h1, msgs[1..]);
      (h2, out + rest)
  }

  function Texts<M>(msgs: seq<(M, Option<nat>)>): seq<M> {
    seq(|msgs|, i requires 0 <= i < |msgs| => msgs[i].0)
  }

  /** The output for message `i`, of messages handled one after the other. */
  function OutputFor<H, T, M>(hs: Handlers<H, T, M>, h: H, msgs: seq<M>, i: nat): seq<ConnMsg<T, M>>
    requires i < |msgs|
  {
    hs.onNetwork(Handling(hs, h, msgs[..i]).0, msgs[i]).1
  }

  /** A write of the output for message `i` fails: fewer client messages get through than there are. */
  predicate WriteFailsAt<H, T, M>(hs: Handlers<H, T, M>, h: H, msgs: seq<(M, Option<nat>)>, i: nat)
    requires i < |msgs|
  {
    msgs[i].1.Some? && msgs[i].1.value < |Clients(OutputFor(hs, h, Texts(msgs), i))|
  }

  lemma ClientsSplit<T, M>(m: ConnMsg<T, M>, rest: seq<ConnMsg<T, M>>)
    ensures Clients([m] + rest) == (if m.ToClient? then [m.msg] else []) + Clients(rest)
  {
    assert ([m] + rest)[1..] == rest;
  }

  lemma {:induction false} ClientsConcat<T, M>(a: seq<ConnMsg<T, M>>, b: seq<ConnMsg<T, M>>)
    ensures Clients(a + b) == Clients(a) + Clients(b)
    decreases |a|
  {
    if a == [] {
      assert a + b == b;
      assert Clients(a) + Clients(b) == Clients(b);
    } else {
      hide Clients;
      var m, rest := a[0], a[1..];
      ClientsConcat(rest, b);
      assert a == [m] + rest && a + b == [m] + (rest + b);
      ClientsSplit(m, rest);
      ClientsSplit(m, rest + b);
    }
  }

  lemma EnvelopesSplit<T, M>(m: ConnMsg<T, M>, rest: seq<ConnMsg<T, M>>)
    ensures EnvelopesOf([m] + rest) == (if m.ToNode? then [m.envelope] else []) + EnvelopesOf(rest)
  {
    assert ([m] + rest)[1..] == rest;
  }

  lemma {:induction false} EnvelopesConcat<T, M>(a: seq<ConnMsg<T, M>>, b: seq<ConnMsg<T, M>>)
    ensures EnvelopesOf(a + b) == EnvelopesOf(a) + EnvelopesOf(b)
    decreases |a|
  {
    if a == [] {
      assert a + b == b;
      assert EnvelopesOf(a) + EnvelopesOf(b) == EnvelopesOf(b);
    } else {
      hide EnvelopesOf;
      var m, rest := a[0], a[1..];
      EnvelopesConcat(rest, b);
      assert a == [m] + rest && a + b == [m] + (rest + b);
      EnvelopesSplit(m, rest);
      EnvelopesSplit(m, rest + b);
    }
  }

  /** The handler of `id` went from `s` to `t` through all these messages; its client output was produced, and of its
      envelopes those for all but the last message at least were handed to the node, in order. */
  ghost predicate Given<H, T, M>(hs: Handlers<H, T, M>, s: Tcp<H, T, M>, t: Tcp<H, T, M>, id: nat, msgs: seq<M>,
      sure: nat)
    requires id in s.conns && sure <= |msgs|
  {
    var h := s.conns[id].handler;
    && id in t.conns && t.conns[id].handler == Handling(hs, h, msgs).0
    && Log(t.produced, id) == Log(s.produced, id) + Clients(Handling(hs, h, msgs).1)
    && s.nodeTx + EnvelopesOf(Handling(hs, h, msgs[..sure]).1) <= t.nodeTx
    && t.nodeTx <= s.nodeTx + EnvelopesOf(Handling(hs, h, msgs).1)
  }

  lemma GivenNothing<H, T, M>(hs: Handlers<H, T, M>, s: Tcp<H, T, M>, id: nat)
    requires id in s.conns
    ensures Given(hs, s, s, id, [], 0)
  {
  }

  /** One message is handled. */
  lemma DeliverGives<H, T, M>(hs: Handlers<H, T, M>, s: Tcp<H, T, M>, id: nat, m: M, fail: Option<nat>)
    requires id in s.conns && s.output == []
    ensures var handled := hs.onNetwork(s.conns[id].handler, m);
            var r := Deliver(s, id, handled, fail);
            && Given(hs, s, r.tcp, id, [m], if r.Fine? then 1 else 0) && r.tcp.output == []
            && id in r.tcp.conns && r.tcp.conns[id].handler == handled.0
            && (r.Failed? <==> fail.Some? && fail.value < |Clients(handled.1)|)
  {
    var handled := hs.onNetwork(s.conns[id].handler, m);
    DeliverKeeps(s, id, handled, fail);
    var es := DeliverForwards(s, id, handled, fail);
    OneHandled(hs, s.conns[id].handler, m);
    var s1 := s.(conns := s.conns[id := s.conns[id].(handler := handled.0)],
                 output := [],
                 produced := Logged(s.produced, id, Clients(handled.1)));
    assert s.output + handled.1 == handled.1;
    SendFailsExactly(s1, id, handled.1, fail);
    hide Deliver, Send, Handling, EnvelopesOf, Clients;
    assert [m][..1] == [m] && [m][..0] == [];
    NoneHandled(hs, s.conns[id].handler);
  }

  lemma OneHandled<H, T, M>(hs: Handlers<H, T, M>, h: H, m: M)
    ensures Handling(hs, h, [m]) == hs.onNetwork(h, m)
  {
    assert [m][1..] == [];
    assert hs.onNetwork(h, m).1 + [] == hs.onNetwork(h, m).1;
  }

  lemma NoneHandled<H, T, M>(hs: Handlers<H, T, M>, h: H)
    ensures Handling(hs, h, []) == (h, []) && EnvelopesOf<T, M>([]) == []
  {
  }

  lemma HandlingOneMore<H, T, M>(hs: Handlers<H, T, M>, h: H, m: M, msgs: seq<M>)
    ensures var (h1, out) := hs.onNetwork(h, m);
            && Handling(hs, h, [m] + msgs).0 == Handling(hs, h1, msgs).0
            && Handling(hs, h, [m] + msgs).1 == out + Handling(hs, h1, msgs).1
  {
    assert ([m] + msgs)[1..] == msgs;
  }

  /** One message, and then others. */
  lemma GivenMore<H, T, M>(hs: Handlers<H, T, M>, s: Tcp<H, T, M>, s1: Tcp<H, T, M>, t: Tcp<H, T, M>, id: nat, m: M,
      msgs: seq<M>, sure: nat)
    requires id in s.conns && id in s1.conns && sure <= |msgs|
    requires Given(hs, s, s1, id, [m], 1) && s1.conns[id].handler == hs.onNetwork(s.conns[id].handler, m).0
    requires Given(hs, s1, t, id, msgs, sure)
    ensures Given(hs, s, t, id, [m] + msgs, sure + 1)
  {
    hide Handling, EnvelopesOf, Clients;
    var (h1, out) := hs.onNetwork(s.conns[id].handler, m);
    OneHandled(hs, s.conns[id].handler, m);
    HandlingOneMore(hs, s.conns[id].handler, m, msgs);
    HandlingOneMore(hs, s.conns[id].handler, m, msgs[..sure]);
    assert ([m] + msgs)[..sure + 1] == [m] + msgs[..sure] && [m][..1] == [m];
    ClientsConcat(out, Handling(hs, h1, msgs).1);
    EnvelopesConcat(out, Handling(hs, h1, msgs).1);
    EnvelopesConcat(out, Handling(hs, h1, msgs[..sure]).1);
  }

  /** A read gives the handler every message, in order, up to the first one for which a write fails, and that one too;
      it succeeds exactly if no write failed and the socket is fine. */
  lemma {:induction false} ReadGivesAll<H, T, M>(hs: Handlers<H, T, M>, s: Tcp<H, T, M>, id: nat,
      msgs: seq<(M, Option<nat>)>, ok: bool) returns (k: nat)
    requires id in s.conns && s.output == []
    ensures k <= |msgs| && (forall i | 0 <= i < k :: !WriteFailsAt(hs, s.conns[id].handler, msgs, i))
    ensures k < |msgs| ==> WriteFailsAt(hs, s.conns[id].handler, msgs, k)
    ensures var r := Read(hs, s, id, msgs, ok);
            && (r.Fine? <==> k == |msgs| && ok)
            && Given(hs, s, r.tcp, id, Texts(msgs)[..if k < |msgs| then k + 1 else k], k)
    decreases |msgs|
  {
    hide Deliver, Given, Handling, Clients;
    var h := s.conns[id].handler;
    if msgs == [] {
      k := 0;
      GivenNothing(hs, s, id);
      assert Texts(msgs)[..0] == [];
    } else {
      var (m, fail) := msgs[0];
      var r := Deliver(s, id, hs.onNetwork(h, m), fail);
      DeliverGives(hs, s, id, m, fail);
      FirstOutput(hs, h, msgs);
      if r.Failed? {
        k := 0;
        assert Texts(msgs)[..1] == [m];
      } else {
        var rest := msgs[1..];
        k := ReadGivesAll(hs, r.tcp, id, rest, ok);
        var n := if k < |rest| then k + 1 else k;
        GivenMore(hs, s, r.tcp, Read(hs, r.tcp, id, rest, ok).tcp, id, m, Texts(rest)[..n], k);
        assert [m] + Texts(rest)[..n] == Texts(msgs)[..n + 1];
        forall i | 1 <= i < |msgs|
          ensures WriteFailsAt(hs, h, msgs, i) <==> WriteFailsAt(hs, r.tcp.conns[id].handler, rest, i - 1)
        {
          LaterOutput(hs, h, msgs, i - 1);
        }
        k := k + 1;
      }
    }
  }

  lemma FirstOutput<H, T, M>(hs: Handlers<H, T, M>, h: H, msgs: seq<(M, Option<nat>)>)
    requires msgs != []
    ensures OutputFor(hs, h, Texts(msgs), 0) == hs.onNetwork(h, msgs[0].0).1
  {
    assert Texts(msgs)[..0] == [];
  }

  lemma LaterOutput<H, T, M>(hs: Handlers<H, T, M>, h: H, msgs: seq<(M, Option<nat>)>, i: nat)
    requires i + 1 < |msgs|
    ensures OutputFor(hs, h, Texts(msgs), i + 1) ==
              OutputFor(hs, hs.onNetwork(h, msgs[0].0).0, Texts(msgs[1..]), i)
  {
    assert Texts(msgs)[..i + 1] == [msgs[0].0] + Texts(msgs[1..])[..i];
    HandlingOneMore(hs, h, msgs[0].0, Texts(msgs[1..])[..i]);
  }

  /** A readable socket: with every read and write fine, the handler has been given all messages; otherwise it has
      been given those up to the first failed write, and its connection is closed. */
  lemma ReadableGivesAll<H, T, M>(hs: Handlers<H, T, M>, s: Tcp<H, T, M>, id: nat, flush: Option<bool>,
      msgs: seq<(M, Option<nat>)>, ok: bool) returns (k: nat)
    requires id in s.conns && s.output == [] && flush != Some(false)
    ensures k <= |msgs| && (forall i | 0 <= i < k :: !WriteFailsAt(hs, s.conns[id].handler, msgs, i))
    ensures k < |msgs| ==> WriteFailsAt(hs, s.conns[id].handler, msgs, k)
    ensures var r := Step(hs, s, Becomes(id, flush, Some(Reading(msgs, ok))));
            var given := Handling(hs, s.conns[id].handler, Texts(msgs)[..if k < |msgs| then k + 1 else k]);
            && (r.Fine? <==> k == |msgs| && ok) && (r.Failed? <==> id !in r.tcp.conns)
            && (r.Fine? ==> r.tcp.conns[id].handler == given.0)
            && Log(r.tcp.produced, id) == Log(s.produced, id) + Clients(given.1)
            && s.nodeTx + EnvelopesOf(Handling(hs, s.conns[id].handler, Texts(msgs)[..k]).1) <= r.tcp.nodeTx
            && r.tcp.nodeTx <= s.nodeTx + EnvelopesOf(given.1)
  {
    k := ReadGivesAll(hs, s, id, msgs, ok);
    var n := if k < |msgs| then k + 1 else k;
    assert Texts(msgs)[..n][..k] == Texts(msgs)[..k];
    hide Read, Handling, Clients, EnvelopesOf, WriteFailsAt;
  }

  /** Exactly when activity on a socket, a new one, or an envelope fails: the socket cannot be flushed or read, or there
      is more for the client than can be written; the listener breaks; or an envelope has no correlation id. A ready
      socket that fails is closed, and one that does not is not. */
  lemma StepFailsExactly<H, T, M>(hs: Handlers<H, T, M>, s: Tcp<H, T, M>, ev: Event<T, M>)
    requires s.output == [] && Allowed(s, ev) && !ev.RequestTick? && !Step(hs, s, ev).Panicked?
    ensures Step(hs, s, ev).Failed? <==>
              match ev
              case Accepts(_, ok) => !ok
              case Becomes(id, flush, reading) =>
                id in s.conns && (flush == Some(false) || (reading.Some? &&
                  (!reading.value.ok ||
                   exists i: nat :: i < |reading.value.msgs| &&
                                    WriteFailsAt(hs, s.conns[id].handler, reading.value.msgs, i))))
              case Arrives(e, fail) =>
                if e.correlationId.None? then true
                else
                  var id := e.correlationId.value.connection;
                  id.Some? && id.value in s.conns && fail.Some?
                  && fail.value < |Clients(hs.onEnvelope(s.conns[id.value].handler, e).1)|
              case _ => false
    ensures ev.Becomes? && ev.id in s.conns ==> (Step(hs, s, ev).Failed? <==> ev.id !in Step(hs, s, ev).tcp.conns)
  {
    hide Read, WriteFailsAt, Send, Clients, AcceptAll;
    match ev
    case Becomes(id, flush, reading) =>
      if id in s.conns && flush != Some(false) && reading.Some? {
        var k := ReadGivesAll(hs, s, id, reading.value.msgs, reading.value.ok);
      }
    case Arrives(e, fail) =>
      if e.correlationId.Some? && e.correlationId.value.connection.value in s.conns {
        ArriveFails(hs, s, e.correlationId.value.connection.value, e, fail);
      }
    case _ =>
  }

  lemma ArriveFails<H, T, M>(hs: Handlers<H, T, M>, s: Tcp<H, T, M>, id: nat, e: Envelope<T>, fail: Option<nat>)
    requires s.output == [] && id in s.conns
    ensures var handled := hs.onEnvelope(s.conns[id].handler, e);
            Deliver(s, id, handled, fail).Failed? <==> fail.Some? && fail.value < |Clients(handled.1)|
  {
    var handled := hs.onEnvelope(s.conns[id].handler, e);
    var s1 := s.(conns := s.conns[id := s.conns[id].(handler := handled.0)],
                 output := [],
                 produced := Logged(s.produced, id, Clients(handled.1)));
    assert s.output + handled.1 == handled.1;
    SendFailsExactly(s1, id, handled.1, fail);
  }

  /** Every accepted socket gets a handler of its own, made for it; the others keep theirs. */
  lemma {:induction false} AcceptsCreate<H, T, M>(hs: Handlers<H, T, M>, s: Tcp<H, T, M>, ids: seq<nat>, id: nat)
    requires Distinct(ids)
    ensures var t := AcceptAll(hs, s, ids);
            && t.pid == s.pid && (id in t.conns <==> id in s.conns || id in ids)
            && (id in ids ==> t.conns[id].handler == hs.create(s.pid, id))
            && (id !in ids && id in s.conns ==> t.conns[id] == s.conns[id])
    decreases |ids|
  {
    if ids != [] {
      var rest := ids[1..];
      assert ids == [ids[0]] + rest;
      assert forall i | 0 <= i < |rest| :: rest[i] == ids[i + 1];
      AcceptsCreate(hs, Accept(hs, s, ids[0]), rest, id);
    }
  }

  // ----- timeouts

  /** What a handler does with the Timeouts for these requests that are those of connection `id`. */
  function Timing<H, T, M>(hs: Handlers<H, T, M>, h: H, pid: Pid, cids: seq<CorrelationId>, id: nat): H
    decreases |cids|
  {
    if cids == [] then h
    else if cids[0].connection == Some(id)
    then Timing(hs, hs.onEnvelope(h, Envelope(pid, pid, Timeout, Some(cids[0]))).0, pid, cids[1..], id)
    else Timing(hs, h, pid, cids[1..], id)
  }

  /** In a request tick the handler of each live connection is given the Timeouts of its own requests, in order, up to
      the first failed write; a tick that succeeds gives all of them. */
  lemma {:induction false} TickGivesTimeouts<H, T, M>(hs: Handlers<H, T, M>, s: Tcp<H, T, M>,
      order: seq<(CorrelationId, Option<nat>)>, id: nat) returns (n: nat)
    requires id in s.conns && s.output == [] && !TimeOutAll(hs, s, order).Panicked?
    ensures n <= |order| && (TimeOutAll(hs, s, order).Fine? ==> n == |order|)
    ensures var r := TimeOutAll(hs, s, order);
            && id in r.tcp.conns
            && r.tcp.conns[id].handler == Timing(hs, s.conns[id].handler, s.pid, Firsts(order)[..n], id)
    ensures n < |order| ==> TimeOutAll(hs, s, order).Failed? && TimeOutAll(hs, s, order[..n]).Failed?
    decreases |order|
  {
    hide Deliver;
    if order == [] {
      n := 0;
    } else {
      var (cid, fail) := order[0];
      var rest := order[1..];
      assert Firsts(order)[1..] == Firsts(rest) && Firsts(order)[0] == cid;
      if cid.connection.value !in s.conns {
        n := TickGivesTimeouts(hs, s, rest, id);
        n := n + 1;
        assert Firsts(order)[..n][1..] == Firsts(rest)[..n - 1];
        assert order[..n][1..] == rest[..n - 1];
      } else {
        var to := cid.connection.value;
        DeliverKeeps(s.(fired := s.fired + [cid]), to, hs.onEnvelope(s.conns[to].handler, TimeoutFor(s.pid, cid)),
                     fail);
        var r := TimeOut(hs, s, cid, fail);
        if r.Fine? {
          n := TickGivesTimeouts(hs, r.tcp, rest, id);
          n := n + 1;
          assert order[..n][1..] == rest[..n - 1];
        } else {
          n := 1;
          assert order[..1][0] == order[0];
        }
        assert Firsts(order)[..n][1..] == Firsts(rest)[..n - 1];
      }
    }
  }
}
