/** Runs of a TCP service in which something surprising happens. */
module TcpExamples {
  import opened Base
  import opened Ids
  import opened Messages
  import opened TimerWheels
  import opened TcpState
  import opened TcpRequests
  import opened TcpIdle
  import opened TcpPanics

  // ----- runs in which requests wait

  lemma {:induction false} RunConcat<H, T, M>(hs: Handlers<H, T, M>, s: Tcp<H, T, M>, a: seq<Event<T, M>>,
      b: seq<Event<T, M>>)
    requires IsRun(hs, s, a) && IsRun(hs, Run(hs, s, a), b)
    ensures IsRun(hs, s, a + b) && Run(hs, s, a + b) == Run(hs, Run(hs, s, a), b)
    decreases |a|
  {
    hide Step;
    if a == [] {
      assert a + b == b;
    } else {
      RunConcat(hs, Step(hs, s, a[0]).tcp, a[1..], b);
      assert (a + b)[1..] == a[1..] + b;
    }
  }

  /** Request ticks with nothing to time out. */
  function QuietTicks<T, M>(n: nat): seq<Event<T, M>> {
    if n == 0 then [] else [RequestTick([])] + QuietTicks(n - 1)
  }

  /** Only these requests wait, all in one slot. */
  ghost predicate OnlyAt<H, T, M>(s: Tcp<H, T, M>, cids: set<CorrelationId>, slot: Slot) {
    forall i: nat | i < SLOTS :: s.requests.data[i] == if i == slot then cids else {}
  }

  lemma {:induction false} QuietTicksRun<H, T, M>(hs: Handlers<H, T, M>, s: Tcp<H, T, M>, cids: set<CorrelationId>,
      slot: Slot, n: nat)
    requires OnlyAt(s, cids, slot) && s.requests.Age(slot) + n < SLOTS
    ensures IsRun(hs, s, QuietTicks<T, M>(n))
    ensures var t := Run(hs, s, QuietTicks<T, M>(n));
            && OnlyAt(t, cids, slot) && t.requests.Age(slot) == s.requests.Age(slot) + n
            && t == s.(requests := t.requests)
    decreases n
  {
    if n > 0 {
      var ev: Event<T, M> := RequestTick([]);
      TurnedAges(s.requests, slot);
      assert Firsts([]) == [];
      assert Allowed(s, ev) && Step(hs, s, ev) == Fine(TurnedTcp(s));
      QuietTicksRun(hs, TurnedTcp(s), cids, slot, n - 1);
      assert QuietTicks<T, M>(n)[1..] == QuietTicks<T, M>(n - 1);
    }
  }

  /** The connection's socket becomes readable, with one message on it. */
  function ReadsOne<T>(id: nat): Event<T, ()> {
    Becomes(id, None, Some(Reading([((), None)], true)))
  }

  /** A connection reads one message, for which its handler makes one envelope with a correlation id. */
  lemma OneEnvelopeRead<H, T>(hs: Handlers<H, T, ()>, s: Tcp<H, T, ()>, id: nat, e: Envelope<T>)
    requires id in s.conns && s.output == [] && s.idle.None? && e.correlationId.Some?
    requires hs.onNetwork(s.conns[id].handler, ()) == (s.conns[id].handler, [ToNode(e)])
    ensures var r := Step(hs, s, ReadsOne(id));
            && r.Fine? && r.tcp.requests == s.requests.Inserted(e.correlationId.value)
            && r.tcp.recorded == s.recorded + [e.correlationId.value] && r.tcp.fired == s.fired
            && r.tcp.conns == s.conns && r.tcp.output == [] && r.tcp.pid == s.pid && r.tcp.idle == s.idle
  {
    var handled := hs.onNetwork(s.conns[id].handler, ());
    var msgs: seq<((), Option<nat>)> := [((), None)];
    var one: seq<ConnMsg<T, ()>> := [ToNode(e)];
    assert msgs[1..] == [] && s.output + one == one && one[0] == ToNode(e) && one[1..] == [];
    var s1 := s.(conns := s.conns[id := s.conns[id].(handler := handled.0)],
                 output := [],
                 produced := Logged(s.produced, id, Clients(handled.1)));
    assert s1.conns == s.conns;
    assert Send(s1, id, one, None) == Send(Forward(s1, e), id, [], None);
    var r := Deliver(s, id, handled, None);
    assert r == Fine(Forward(s1, e));
    assert Read(hs, s, id, msgs, true) == Fine(r.tcp);
  }

  // ----- a request that names no connection

  /** A service whose handler sends one envelope with a correlation id that names no connection: it runs on for
      ten request ticks, and panics in the eleventh. */
  lemma UnnamedRequestKills(pid: Pid) returns (hs: Handlers<(), (), ()>, start: Tcp<(), (), ()>, tick: Event<(), ()>)
    ensures start == Accept(hs, NewTcp(pid, false), 0)
    ensures Allowed(start, ReadsOne(0)) && Step(hs, start, ReadsOne(0)).Fine?
            && IsRun(hs, Step(hs, start, ReadsOne(0)).tcp, QuietTicks(10))
            && var t := Run(hs, Step(hs, start, ReadsOne(0)).tcp, QuietTicks(10));
               tick.RequestTick? && Allowed(t, tick) && Step(hs, t, tick).Panicked?
  {
    var cid := CorrelationId(pid, None, None);
    var e := Envelope(pid, pid, User(()), Some(cid));
    hs := Handlers((_, _) => (), (h, _) => ((), []), (h, _) => ((), [ToNode(e)]));
    start := Accept(hs, NewTcp(pid, false), 0);
    OneEnvelopeRead(hs, start, 0, e);
    assert OnlyAt(start.(requests := start.requests.Inserted(cid)), {cid}, start.requests.write);
    hide Step;
    tick := RequestKills(hs, Step(hs, start, ReadsOne(0)).tcp, cid, start.requests.write);
  }

  lemma RequestKills<H, T, M>(hs: Handlers<H, T, M>, s: Tcp<H, T, M>, cid: CorrelationId, slot: Slot)
    returns (tick: Event<T, M>)
    requires OnlyAt(s, {cid}, slot) && s.requests.Age(slot) == 0 && Unnamed(cid)
    ensures IsRun(hs, s, QuietTicks(10))
    ensures tick.RequestTick? && Allowed(Run(hs, s, QuietTicks(10)), tick)
    ensures Step(hs, Run(hs, s, QuietTicks(10)), tick).Panicked?
  {
    QuietTicksRun(hs, s, {cid}, slot, 10);
    hide Run, IsRun, Allowed, Step, OnlyAt;
    tick := LastTick(hs, Run(hs, s, QuietTicks(10)), cid, slot);
  }

  lemma LastTick<H, T, M>(hs: Handlers<H, T, M>, t: Tcp<H, T, M>, cid: CorrelationId, slot: Slot)
    returns (tick: Event<T, M>)
    requires OnlyAt(t, {cid}, slot) && t.requests.Age(slot) == 10 && Unnamed(cid)
    ensures tick.RequestTick? && Allowed(t, tick) && Step(hs, t, tick).Panicked?
  {
    TurnedAges(t.requests, slot);
    tick := RequestTick([(cid, None)]);
    assert Firsts(tick.order) == [cid];
    assert (set c | c in Firsts(tick.order)) == {cid};
    TripsFirst(hs, t, cid);
    StepPanicsExactly(hs, t, tick);
    hide Step;
  }

  lemma TripsFirst<H, T, M>(hs: Handlers<H, T, M>, t: Tcp<H, T, M>, cid: CorrelationId)
    requires Unnamed(cid)
    ensures Trips(hs, TurnedTcp(t), [(cid, None)], 0)
  {
    var order: seq<(CorrelationId, Option<nat>)> := [(cid, None)];
    assert order[..0] == [];
  }

  // ----- a request of a live connection that is dropped

  /** The correlation id of the only request of a connection. */
  function RequestOf(pid: Pid, id: nat): CorrelationId {
    CorrelationId(pid, Some(id), None)
  }

  /** Handlers that know their connection, send the node one request for each message, and tell their client when
      that has timed out. */
  function Asking(pid: Pid): Handlers<nat, (), ()> {
    Handlers((_, id) => id,
             (id, _) => (id, [ToClient((), RequestOf(pid, id))]),
             (id, _) => (id, [ToNode(Envelope(pid, pid, User(()), Some(RequestOf(pid, id))))]))
  }

  /** Two connections are accepted, each reads a message, and ten request ticks pass. */
  function TwoRequests(): seq<Event<(), ()>> {
    [Accepts([0, 1], true), ReadsOne(0), ReadsOne(1)] + QuietTicks(10)
  }

  /** Both requests wait in this slot, and nothing else has happened. */
  ghost predicate BothWait(t: Tcp<nat, (), ()>, pid: Pid, slot: Slot, age: nat) {
    && t.pid == pid && t.output == []
    && t.conns == map[0 := Connection(0, 0), 1 := Connection(1, 0)]
    && OnlyAt(t, {RequestOf(pid, 0), RequestOf(pid, 1)}, slot) && t.requests.Age(slot) == age
    && t.recorded == [RequestOf(pid, 0), RequestOf(pid, 1)] && t.fired == []
  }

  lemma BothAccepted(pid: Pid)
    ensures var s := NewTcp<nat, (), ()>(pid, false);
            var ev: Event<(), ()> := Accepts([0, 1], true);
            && Allowed(s, ev) && Step(Asking(pid), s, ev).Fine?
            && Step(Asking(pid), s, ev).tcp ==
                 s.(conns := map[0 := Connection(0, 0), 1 := Connection(1, 0)], ids := {0, 1})
  {
    var hs := Asking(pid);
    var s := NewTcp<nat, (), ()>(pid, false);
    assert [0, 1][1..] == [1] && [1][1..] == [];
    assert AcceptAll(hs, s, [0, 1]) == AcceptAll(hs, Accept(hs, s, 0), [1]);
    assert AcceptAll(hs, Accept(hs, s, 0), [1]) == Accept(hs, Accept(hs, s, 0), 1);
  }

  lemma BothRecorded(pid: Pid, s: Tcp<nat, (), ()>)
    requires s == NewTcp<nat, (), ()>(pid, false)
                    .(conns := map[0 := Connection(0, 0), 1 := Connection(1, 0)], ids := {0, 1})
    ensures var hs := Asking(pid);
            && IsRun(hs, s, [ReadsOne(0), ReadsOne(1)])
            && BothWait(Run(hs, s, [ReadsOne(0), ReadsOne(1)]), pid, s.requests.write, 0)
  {
    hide Step, IsRun, Run, Asking;
    var hs := Asking(pid);
    Asks(pid, s.conns[0].handler);
    Asks(pid, s.conns[1].handler);
    OneEnvelopeRead(hs, s, 0, Envelope(pid, pid, User(()), Some(RequestOf(pid, 0))));
    var s1 := Step(hs, s, ReadsOne(0)).tcp;
    OneEnvelopeRead(hs, s1, 1, Envelope(pid, pid, User(()), Some(RequestOf(pid, 1))));
    RunOne(hs, s, ReadsOne(0));
    RunOne(hs, s1, ReadsOne(1));
    RunConcat(hs, s, [ReadsOne(0)], [ReadsOne(1)]);
    assert [ReadsOne<()>(0)] + [ReadsOne(1)] == [ReadsOne(0), ReadsOne(1)];
    BothInserted(s, Step(hs, s1, ReadsOne(1)).tcp, pid);
  }

  lemma Asks(pid: Pid, id: nat)
    ensures Asking(pid).onNetwork(id, ()) ==
              (id, [ToNode(Envelope(pid, pid, User(()), Some(RequestOf(pid, id))))])
  {
  }

  lemma BothInserted(s: Tcp<nat, (), ()>, t: Tcp<nat, (), ()>, pid: Pid)
    requires s.requests == EmptyWheel(SLOTS)
    requires t.requests == s.requests.Inserted(RequestOf(pid, 0)).Inserted(RequestOf(pid, 1))
    ensures OnlyAt(t, {RequestOf(pid, 0), RequestOf(pid, 1)}, s.requests.write)
    ensures t.requests.Age(s.requests.write) == 0
  {
  }

  lemma RunOne<H, T, M>(hs: Handlers<H, T, M>, s: Tcp<H, T, M>, ev: Event<T, M>)
    requires Allowed(s, ev) && !Step(hs, s, ev).Panicked?
    ensures IsRun(hs, s, [ev]) && Run(hs, s, [ev]) == Step(hs, s, ev).tcp
  {
    hide Step;
    assert [ev][1..] == [];
  }

  lemma BothRead(pid: Pid) returns (slot: Slot)
    ensures var evs: seq<Event<(), ()>> := [Accepts([0, 1], true)] + [ReadsOne(0), ReadsOne(1)];
            && IsRun(Asking(pid), NewTcp(pid, false), evs)
            && BothWait(Run(Asking(pid), NewTcp(pid, false), evs), pid, slot, 0)
  {
    hide Step, OnlyAt, IsRun, Run, Asking, Allowed, BothWait;
    var hs, s := Asking(pid), NewTcp<nat, (), ()>(pid, false);
    var first: Event<(), ()> := Accepts([0, 1], true);
    BothAccepted(pid);
    RunOne(hs, s, first);
    var s1 := Step(hs, s, first).tcp;
    BothRecorded(pid, s1);
    RunConcat(hs, s, [first], [ReadsOne(0), ReadsOne(1)]);
    slot := s1.requests.write;
  }

  /** After these events both requests are due at the next request tick. */
  lemma BothDue(pid: Pid) returns (slot: Slot)
    ensures IsRun(Asking(pid), NewTcp(pid, false), TwoRequests())
    ensures BothWait(Run(Asking(pid), NewTcp(pid, false), TwoRequests()), pid, slot, 10)
  {
    hide Step, OnlyAt, IsRun, Run, Asking;
    var hs, s := Asking(pid), NewTcp<nat, (), ()>(pid, false);
    var evs: seq<Event<(), ()>> := [Accepts([0, 1], true)] + [ReadsOne(0), ReadsOne(1)];
    slot := BothRead(pid);
    QuietTicksRun(hs, Run(hs, s, evs), {RequestOf(pid, 0), RequestOf(pid, 1)}, slot, 10);
    RunConcat(hs, s, evs, QuietTicks(10));
    assert evs == [Accepts([0, 1], true), ReadsOne(0), ReadsOne(1)];
  }

  /** The expired requests may be gone through in either order. Here that of connection 0 comes first, its client
      cannot be written to, and the request of connection 1 is gone without having fired, while the connection
      lives on. */
  lemma LiveRequestDropped(pid: Pid) returns (tick: Event<(), ()>)
    ensures IsRun(Asking(pid), NewTcp(pid, false), TwoRequests())
    ensures var t := Run(Asking(pid), NewTcp(pid, false), TwoRequests());
            var dropped := RequestOf(pid, 1);
            && Count(t.recorded, dropped) == 1 && Count(t.fired, dropped) == 0
            && tick.RequestTick? && Allowed(t, tick) && Step(Asking(pid), t, tick).Failed?
            && var after := Step(Asking(pid), t, tick).tcp;
               && 1 in after.conns && Count(after.recorded, dropped) == 1 && Count(after.fired, dropped) == 0
               && forall i: nat | i < SLOTS :: dropped !in after.requests.data[i]
  {
    hide IsRun, Run, TwoRequests;
    var slot := BothDue(pid);
    tick := SecondDropped(pid, Run(Asking(pid), NewTcp(pid, false), TwoRequests()), slot);
  }

  lemma SecondDropped(pid: Pid, t: Tcp<nat, (), ()>, slot: Slot) returns (tick: Event<(), ()>)
    requires BothWait(t, pid, slot, 10)
    ensures var dropped := RequestOf(pid, 1);
            && Count(t.recorded, dropped) == 1 && Count(t.fired, dropped) == 0
            && tick.RequestTick? && Allowed(t, tick) && Step(Asking(pid), t, tick).Failed?
            && var after := Step(Asking(pid), t, tick).tcp;
               && 1 in after.conns && Count(after.recorded, dropped) == 1 && Count(after.fired, dropped) == 0
               && forall i: nat | i < SLOTS :: dropped !in after.requests.data[i]
  {
    var hs := Asking(pid);
    var a, b := RequestOf(pid, 0), RequestOf(pid, 1);
    var order: seq<(CorrelationId, Option<nat>)> := [(a, Some(0)), (b, None)];
    tick := RequestTick(order);
    assert slot == t.requests.read;
    CountOfTwo(a, b);
    TwoFirsts(a, b);
    FirstTimeOutFails(hs, TurnedTcp(t), order);
    hide TimeOutAll, Count;
    FiresExactly(hs, TurnedTcp(t), order, 1);
    DroppedNowhere(hs, TurnedTcp(t), order, b);
  }

  lemma CountOfTwo(a: CorrelationId, b: CorrelationId)
    requires a != b
    ensures Count([a, b], b) == 1 && Count<CorrelationId>([], b) == 0
  {
    assert [a, b][..1] == [a] && [a][..0] == [];
    assert Count([a], b) == 0;
  }

  lemma TwoFirsts(a: CorrelationId, b: CorrelationId)
    requires a != b
    ensures var order: seq<(CorrelationId, Option<nat>)> := [(a, Some(0)), (b, None)];
            Firsts(order) == [a, b] && Distinct(Firsts(order)) && (set cid | cid in Firsts(order)) == {a, b}
  {
    var order: seq<(CorrelationId, Option<nat>)> := [(a, Some(0)), (b, None)];
    assert Firsts(order) == [a, b];
  }

  /** The first of two requests times out on a connection whose handler answers a client that is gone. */
  lemma FirstTimeOutFails<H, T, M>(hs: Handlers<H, T, M>, s: Tcp<H, T, M>, order: seq<(CorrelationId, Option<nat>)>)
    requires |order| == 2 && order[0].0.connection == Some(0) && order[0].1 == Some(0)
    requires 0 in s.conns && s.output == []
    requires var out := hs.onEnvelope(s.conns[0].handler, TimeoutFor(s.pid, order[0].0)).1;
             |out| == 1 && out[0].ToClient?
    ensures TimeOutAll(hs, s, order).Failed? && TimeOutAll(hs, s, order[..1]).Failed?
    ensures TimeOutAll(hs, s, order).tcp.recorded == s.recorded
    ensures TimeOutAll(hs, s, order).tcp.conns.Keys == s.conns.Keys
  {
    var (cid, fail) := order[0];
    var out := hs.onEnvelope(s.conns[0].handler, TimeoutFor(s.pid, order[0].0)).1;
    assert [] + out == out && order[..1][0] == order[0];
    assert TimeOut(hs, s, cid, fail).Failed?;
  }

  // ----- a connection that never sends a complete message

  /** Ticks of the idle timer. */
  function Idling<T, M>(n: nat): seq<Event<T, M>> {
    if n == 0 then [] else [IdleTick] + Idling(n - 1)
  }

  lemma {:induction false} IdlingTicks<T, M>(n: nat)
    ensures |Idling<T, M>(n)| == n && IdleTicks(Idling<T, M>(n)) == n
    ensures forall i | 0 <= i < n :: Idling<T, M>(n)[i] == IdleTick
    decreases n
  {
    if n > 0 {
      IdlingTicks<T, M>(n - 1);
      assert Idling<T, M>(n)[1..] == Idling<T, M>(n - 1);
    }
  }

  lemma {:induction false} IdlingRun<H, T, M>(hs: Handlers<H, T, M>, s: Tcp<H, T, M>, n: nat)
    requires s.idle.Some?
    ensures IsRun(hs, s, Idling<T, M>(n))
    decreases n
  {
    if n > 0 {
      IdlingRun(hs, ConnectionTick(s), n - 1);
      assert Idling<T, M>(n)[1..] == Idling<T, M>(n - 1);
    }
  }

  /** Bytes arrive on the socket, but no complete message. */
  function Trickle<T, M>(id: nat): Event<T, M> {
    Becomes(id, None, Some(Reading([], true)))
  }

  /** Ten idle ticks and then some bytes, `n` times. */
  function Trickling<T, M>(id: nat, n: nat): seq<Event<T, M>> {
    if n == 0 then [] else Idling(10) + [Trickle(id)] + Trickling(id, n - 1)
  }

  lemma {:induction false} TricklingRun<H, T, M>(hs: Handlers<H, T, M>, s: Tcp<H, T, M>, id: nat, n: nat)
    requires IdleFits(s) && s.idle.Some? && id in s.conns && IdleOf(s, id) == Some(0)
    ensures IsRun(hs, s, Trickling<T, M>(id, n))
    ensures id in Run(hs, s, Trickling<T, M>(id, n)).conns
    decreases n
  {
    hide IdleFits, Step, IsRun, Run, Idling;
    if n == 0 {
      RunNone(hs, s);
    } else {
      var round: seq<Event<T, M>> := Idling(10) + [Trickle(id)];
      OneRound(hs, s, id);
      var t := Run(hs, s, round);
      TricklingRun(hs, t, id, n - 1);
      RunConcat(hs, s, round, Trickling(id, n - 1));
    }
  }

  lemma RunNone<H, T, M>(hs: Handlers<H, T, M>, s: Tcp<H, T, M>)
    ensures IsRun<H, T, M>(hs, s, []) && Run<H, T, M>(hs, s, []) == s
  {
  }

  lemma OneRound<H, T, M>(hs: Handlers<H, T, M>, s: Tcp<H, T, M>, id: nat)
    requires IdleFits(s) && s.idle.Some? && id in s.conns && IdleOf(s, id) == Some(0)
    ensures var round: seq<Event<T, M>> := Idling(10) + [Trickle(id)];
            && IsRun(hs, s, round)
            && var t := Run(hs, s, round);
               IdleFits(t) && t.idle.Some? && id in t.conns && IdleOf(t, id) == Some(0)
  {
    hide IdleFits, Step, IsRun, Run, Idling;
    var ticks: seq<Event<T, M>> := Idling(10);
    var bytes: Event<T, M> := Trickle(id);
    IdlingTicks<T, M>(10);
    IdlingRun(hs, s, 10);
    RunCounts(hs, s, ticks, id);
    QuietConnection(hs, s, ticks, id);
    var t := Run(hs, s, ticks);
    TrickleIsFine(hs, t, id);
    StepCounts(hs, t, bytes, id);
    RunOne(hs, t, bytes);
    RunConcat(hs, s, ticks, [bytes]);
  }

  lemma TrickleIsFine<H, T, M>(hs: Handlers<H, T, M>, s: Tcp<H, T, M>, id: nat)
    requires id in s.conns
    ensures Allowed(s, Trickle<T, M>(id)) && Step(hs, s, Trickle<T, M>(id)).Fine?
    ensures id in Step(hs, s, Trickle<T, M>(id)).tcp.conns
  {
  }

  /** A connection from which bytes arrive once in ten idle ticks stays open as long as that goes on, although its
      handler never gets a message; without the bytes it is closed at the eleventh tick. */
  lemma TrickleKeepsOpen<H, T, M>(hs: Handlers<H, T, M>, pid: Pid, n: nat)
    ensures var s := Accept(hs, NewTcp(pid, true), 0);
            && IsRun(hs, s, Trickling<T, M>(0, n)) && 0 in Run(hs, s, Trickling<T, M>(0, n)).conns
            && IsRun(hs, s, Idling<T, M>(11)) && 0 !in Run(hs, s, Idling<T, M>(11)).conns
  {
    hide IsRun, Run, Idling, IdleFits;
    var start: Tcp<H, T, M> := NewTcp(pid, true);
    NewFits<H, T, M>(pid, true);
    AcceptCounts(hs, start, 0, 0);
    var s := Accept(hs, start, 0);
    TricklingRun(hs, s, 0, n);
    IdlingTicks<T, M>(11);
    IdlingRun(hs, s, 11);
    QuietConnection(hs, s, Idling<T, M>(11), 0);
  }
}
