/** Request timeouts: each recorded request times out at most once, at the eleventh request tick. */
module TcpRequests {
  import opened Base
  import opened Ids
  import opened Messages
  import opened TimerWheels
  import opened TcpState

  /** From `s` to `t` the request `cid` was entered in the write slot as often as it was recorded, and
      its other entries stay. */
  ghost predicate Records<H, T, M>(s: Tcp<H, T, M>, t: Tcp<H, T, M>, cid: CorrelationId) {
    && t.requests.read == s.requests.read && t.requests.write == s.requests.write
    && Count(t.recorded, cid) >= Count(s.recorded, cid)
    && (forall i: nat | i < SLOTS && i != s.requests.write ::
          cid in t.requests.data[i] <==> cid in s.requests.data[i])
    && (cid in t.requests.data[s.requests.write] <==>
          cid in s.requests.data[s.requests.write] || Count(t.recorded, cid) > Count(s.recorded, cid))
  }

  lemma RecordsCompose<H, T, M>(s: Tcp<H, T, M>, t: Tcp<H, T, M>, u: Tcp<H, T, M>, cid: CorrelationId)
    requires Records(s, t, cid) && Records(t, u, cid)
    ensures Records(s, u, cid)
  {
    hide Count;
  }

  lemma NothingRecorded<H, T, M>(s: Tcp<H, T, M>, t: Tcp<H, T, M>, cid: CorrelationId)
    requires t.requests == s.requests && t.recorded == s.recorded
    ensures Records(s, t, cid)
  {
  }

  lemma ForwardRecords<H, T, M>(s: Tcp<H, T, M>, e: Envelope<T>, cid: CorrelationId)
    ensures Records(s, Forward(s, e), cid)
  {
    if e.correlationId.Some? {
      assert (s.recorded + [e.correlationId.value])[..|s.recorded|] == s.recorded;
    }
  }

  lemma {:induction false} SendRecords<H, T, M>(s: Tcp<H, T, M>, id: nat, msgs: seq<ConnMsg<T, M>>,
      fail: Option<nat>, cid: CorrelationId)
    ensures Records(s, Send(s, id, msgs, fail).tcp, cid)
    decreases |msgs|
  {
    hide Records, Forward, Logged;
    if msgs == [] {
      NothingRecorded(s, s, cid);
    } else if msgs[0].ToNode? {
      var s1 := Forward(s, msgs[0].envelope);
      ForwardRecords(s, msgs[0].envelope, cid);
      SendRecords(s1, id, msgs[1..], fail, cid);
      RecordsCompose(s, s1, Send(s1, id, msgs[1..], fail).tcp, cid);
    } else {
      var s1 := s.(written := Logged(s.written, id, [msgs[0].msg]));
      NothingRecorded(s, s1, cid);
      if fail != Some(0) {
        var left := if fail.Some? then Some(fail.value - 1) else None;
        SendRecords(s1, id, msgs[1..], left, cid);
        RecordsCompose(s, s1, Send(s1, id, msgs[1..], left).tcp, cid);
      }
    }
  }

  lemma DeliverRecords<H, T, M>(s: Tcp<H, T, M>, id: nat, handled: (H, seq<ConnMsg<T, M>>), fail: Option<nat>,
      cid: CorrelationId)
    requires id in s.conns
    ensures Records(s, Deliver(s, id, handled, fail).tcp, cid)
  {
    hide Records, Send;
    var s1 := s.(conns := s.conns[id := s.conns[id].(handler := handled.0)],
                 output := [],
                 produced := Logged(s.produced, id, Clients(handled.1)));
    NothingRecorded(s, s1, cid);
    SendRecords(s1, id, s.output + handled.1, fail, cid);
    RecordsCompose(s, s1, Deliver(s, id, handled, fail).tcp, cid);
  }

  lemma {:induction false} ReadRecords<H, T, M>(hs: Handlers<H, T, M>, s: Tcp<H, T, M>, id: nat,
      msgs: seq<(M, Option<nat>)>, ok: bool, cid: CorrelationId)
    requires id in s.conns
    ensures var t := Read(hs, s, id, msgs, ok).tcp;
            Records(s, t, cid) && t.fired == s.fired
    decreases |msgs|
  {
    hide Records, Deliver;
    if msgs == [] {
      NothingRecorded(s, s, cid);
    } else {
      var handled := hs.onNetwork(s.conns[id].handler, msgs[0].0);
      DeliverRecords(s, id, handled, msgs[0].1, cid);
      DeliverKeeps(s, id, handled, msgs[0].1);
      var r := Deliver(s, id, handled, msgs[0].1);
      if r.Fine? {
        ReadRecords(hs, r.tcp, id, msgs[1..], ok, cid);
        RecordsCompose(s, r.tcp, Read(hs, s, id, msgs, ok).tcp, cid);
      }
    }
  }

  lemma {:induction false} AcceptRecords<H, T, M>(hs: Handlers<H, T, M>, s: Tcp<H, T, M>, ids: seq<nat>)
    ensures var t := AcceptAll(hs, s, ids);
            t.requests == s.requests && t.recorded == s.recorded && t.fired == s.fired
    decreases |ids|
  {
    if ids != [] {
      AcceptRecords(hs, Accept(hs, s, ids[0]), ids[1..]);
    }
  }

  lemma CountMore(log: seq<CorrelationId>, c: CorrelationId, cid: CorrelationId)
    ensures Count(log + [c], cid) == Count(log, cid) + if c == cid then 1 else 0
  {
    assert (log + [c])[..|log|] == log;
  }

  /** Going through the expired requests fires each at most once, and exactly once when its connection
      is live and no write fails. */
  lemma {:induction false} TimeOutFires<H, T, M>(hs: Handlers<H, T, M>, s: Tcp<H, T, M>,
      order: seq<(CorrelationId, Option<nat>)>, cid: CorrelationId)
    requires Distinct(Firsts(order)) && !TimeOutAll(hs, s, order).Panicked?
    ensures var r := TimeOutAll(hs, s, order);
            && Records(s, r.tcp, cid)
            && Count(s.fired, cid) <= Count(r.tcp.fired, cid)
            && Count(r.tcp.fired, cid) <= Count(s.fired, cid) + (if cid in Firsts(order) then 1 else 0)
            && (r.Fine? && cid in Firsts(order) && cid.connection.Some? && cid.connection.value in s.conns ==>
                  Count(r.tcp.fired, cid) == Count(s.fired, cid) + 1)
    decreases |order|
  {
    hide Records, Deliver;
    if order == [] {
      NothingRecorded(s, s, cid);
    } else {
      var (c, fail) := order[0];
      var rest := order[1..];
      FirstsSplit(order);
      var id := c.connection.value;
      if id !in s.conns {
        TimeOutFires(hs, s, rest, cid);
      } else {
        OneFires(hs, s, c, fail, cid);
        var r := TimeOut(hs, s, c, fail);
        if r.Fine? {
          TimeOutFires(hs, r.tcp, rest, cid);
          RecordsCompose(s, r.tcp, TimeOutAll(hs, s, order).tcp, cid);
        }
      }
    }
  }

  lemma FirstsSplit(order: seq<(CorrelationId, Option<nat>)>)
    requires order != [] && Distinct(Firsts(order))
    ensures Firsts(order) == [order[0].0] + Firsts(order[1..])
    ensures Distinct(Firsts(order[1..])) && order[0].0 !in Firsts(order[1..])
  {
    var all, rest := Firsts(order), Firsts(order[1..]);
    forall i | 0 <= i < |rest| ensures rest[i] == all[i + 1] && rest[i] != all[0] {
    }
    hide Firsts;
    assert all[0] == order[0].0;
  }

  lemma OneFires<H, T, M>(hs: Handlers<H, T, M>, s: Tcp<H, T, M>, c: CorrelationId, fail: Option<nat>,
      cid: CorrelationId)
    requires c.connection.Some? && c.connection.value in s.conns
    ensures var t := TimeOut(hs, s, c, fail).tcp;
            && Records(s, t, cid) && t.conns.Keys == s.conns.Keys
            && Count(t.fired, cid) == Count(s.fired, cid) + if c == cid then 1 else 0
  {
    hide Records, Deliver;
    var id := c.connection.value;
    var s1 := s.(fired := s.fired + [c]);
    var handled := hs.onEnvelope(s.conns[id].handler, TimeoutFor(s.pid, c));
    CountMore(s.fired, c, cid);
    NothingRecorded(s, s1, cid);
    DeliverRecords(s1, id, handled, fail, cid);
    DeliverKeeps(s1, id, handled, fail);
    RecordsCompose(s, s1, Deliver(s1, id, handled, fail).tcp, cid);
  }

  function TurnedTcp<H, T, M>(s: Tcp<H, T, M>): Tcp<H, T, M> {
    s.(requests := s.requests.Turned())
  }

  /** Where an event leaves a request. */
  lemma StepRecords<H, T, M>(hs: Handlers<H, T, M>, s: Tcp<H, T, M>, ev: Event<T, M>, cid: CorrelationId)
    requires Allowed(s, ev) && !Step(hs, s, ev).Panicked?
    ensures var t := Step(hs, s, ev).tcp;
            && Records(if ev.RequestTick? then TurnedTcp(s) else s, t, cid)
            && Count(s.fired, cid) <= Count(t.fired, cid)
            && Count(t.fired, cid) <= Count(s.fired, cid) +
                 (if ev.RequestTick? && cid in s.requests.data[s.requests.read] then 1 else 0)
  {
    hide Records, Deliver, Read, TimeOutAll, AcceptAll, Count;
    var t := Step(hs, s, ev).tcp;
    match ev
    case Accepts(ids, _) => AcceptRecords(hs, s, ids); NothingRecorded(s, t, cid);
    case Becomes(id, flush, reading) =>
      if id in s.conns && flush != Some(false) && reading.Some? {
        ReadRecords(hs, s, id, reading.value.msgs, reading.value.ok, cid);
        var u := Read(hs, s, id, reading.value.msgs, reading.value.ok).tcp;
        NothingRecorded(u, t, cid);
        RecordsCompose(s, u, t, cid);
      } else {
        NothingRecorded(s, t, cid);
      }
    case IdleTick => NothingRecorded(s, t, cid);
    case RequestTick(order) =>
      TimeOutFires(hs, TurnedTcp(s), order, cid);
      assert cid in Firsts(order) <==> cid in set c | c in Firsts(order);
    case Arrives(e, fail) =>
      if e.correlationId.Some? && e.correlationId.value.connection.value in s.conns {
        var id := e.correlationId.value.connection.value;
        var handled := hs.onEnvelope(s.conns[id].handler, e);
        DeliverRecords(s, id, handled, fail, cid);
        DeliverKeeps(s, id, handled, fail);
      } else {
        NothingRecorded(s, t, cid);
      }
  }

  // ----- envelopes and recordings

  function EnvelopesOf<T, M>(msgs: seq<ConnMsg<T, M>>): seq<Envelope<T>> {
    if msgs == [] then []
    else (if msgs[0].ToNode? then [msgs[0].envelope] else []) + EnvelopesOf(msgs[1..])
  }

  function Requests<T>(es: seq<Envelope<T>>): seq<CorrelationId> {
    if es == [] then []
    else
      (if es[0].correlationId.Some? then [es[0].correlationId.value] else []) + Requests(es[1..])
  }

  /** From `s` to `t` the envelopes `es` went to the node, and their requests were recorded. */
  ghost predicate Forwarded<H, T, M>(s: Tcp<H, T, M>, t: Tcp<H, T, M>, es: seq<Envelope<T>>) {
    && t.nodeTx == s.nodeTx + es
    && t.recorded == s.recorded + Requests(es)
  }

  lemma {:induction false} SendForwards<H, T, M>(s: Tcp<H, T, M>, id: nat, msgs: seq<ConnMsg<T, M>>, fail: Option<nat>)
    returns (es: seq<Envelope<T>>)
    ensures Forwarded(s, Send(s, id, msgs, fail).tcp, es)
    ensures es <= EnvelopesOf(msgs) && (Send(s, id, msgs, fail).Fine? ==> es == EnvelopesOf(msgs))
    decreases |msgs|
  {
    hide Logged, Forwarded, Forward, Requests;
    es := [];
    if msgs == [] {
      NothingForwarded(s, s);
    } else if msgs[0].ToNode? {
      var e := msgs[0].envelope;
      var rest := SendForwards(Forward(s, e), id, msgs[1..], fail);
      OneForwarded(s, e, Send(s, id, msgs, fail).tcp, rest);
      es := [e] + rest;
    } else {
      var s1 := s.(written := Logged(s.written, id, [msgs[0].msg]));
      if fail == Some(0) {
        NothingForwarded(s, s1);
      } else {
        var left := if fail.Some? then Some(fail.value - 1) else None;
        es := SendForwards(s1, id, msgs[1..], left);
        SameForwarded(s, s1, Send(s1, id, msgs[1..], left).tcp, es);
      }
    }
  }

  lemma NothingForwarded<H, T, M>(s: Tcp<H, T, M>, t: Tcp<H, T, M>)
    requires t.nodeTx == s.nodeTx && t.recorded == s.recorded
    ensures Forwarded(s, t, [])
  {
  }

  lemma SameForwarded<H, T, M>(s: Tcp<H, T, M>, s1: Tcp<H, T, M>, t: Tcp<H, T, M>, es: seq<Envelope<T>>)
    requires s1.nodeTx == s.nodeTx && s1.recorded == s.recorded && Forwarded(s1, t, es)
    ensures Forwarded(s, t, es)
  {
  }

  lemma OneForwarded<H, T, M>(s: Tcp<H, T, M>, e: Envelope<T>, t: Tcp<H, T, M>, rest: seq<Envelope<T>>)
    requires Forwarded(Forward(s, e), t, rest)
    ensures Forwarded(s, t, [e] + rest)
  {
    assert ([e] + rest)[1..] == rest;
    assert s.nodeTx + [e] + rest == s.nodeTx + ([e] + rest);
    var cids := if e.correlationId.Some? then [e.correlationId.value] else [];
    assert s.recorded + cids + Requests(rest) == s.recorded + (cids + Requests(rest));
  }

  /** The envelopes that a handler makes go to the node in order, all of them unless a write to its client
      fails, and the request timer of each that has a correlation id is started, and of no others. */
  lemma DeliverForwards<H, T, M>(s: Tcp<H, T, M>, id: nat, handled: (H, seq<ConnMsg<T, M>>), fail: Option<nat>)
    returns (es: seq<Envelope<T>>)
    requires id in s.conns && s.output == []
    ensures Forwarded(s, Deliver(s, id, handled, fail).tcp, es)
    ensures es <= EnvelopesOf(handled.1)
    ensures Deliver(s, id, handled, fail).Fine? ==> es == EnvelopesOf(handled.1)
  {
    var s1 := s.(conns := s.conns[id := s.conns[id].(handler := handled.0)],
                 output := [],
                 produced := Logged(s.produced, id, Clients(handled.1)));
    assert s.output + handled.1 == handled.1;
    es := SendForwards(s1, id, handled.1, fail);
  }

  /** A request tick fires nothing but expired requests, each at most once. */
  lemma TickFiresOnce<H, T, M>(hs: Handlers<H, T, M>, s: Tcp<H, T, M>, order: seq<(CorrelationId, Option<nat>)>)
    requires Allowed(s, Event.RequestTick(order)) && !Step(hs, s, Event.RequestTick(order)).Panicked?
    ensures var t := Step(hs, s, Event.RequestTick(order)).tcp;
            forall cid | Count(t.fired, cid) != Count(s.fired, cid) ::
              cid in Firsts(order) && Count(t.fired, cid) == Count(s.fired, cid) + 1
  {
    hide Step, Count;
    var tick: Event<T, M> := Event.RequestTick(order);
    forall cid ensures var t := Step(hs, s, tick).tcp;
                       Count(t.fired, cid) == Count(s.fired, cid) ||
                       (cid in Firsts(order) && Count(t.fired, cid) == Count(s.fired, cid) + 1)
    {
      StepRecords(hs, s, tick, cid);
      assert cid in Firsts(order) <==> cid in set c | c in Firsts(order);
    }
  }

  // ----- at most once

  /** In how many slots a key sits. */
  function Occurs<K(==)>(data: seq<set<K>>, key: K): nat
    decreases |data|
  {
    if data == [] then 0
    else Occurs(data[..|data| - 1], key) + if key in data[|data| - 1] then 1 else 0
  }

  lemma {:induction false} OccursAt<K>(a: seq<set<K>>, b: seq<set<K>>, key: K, at: nat)
    requires |a| == |b| && at < |a|
    requires forall i: nat | i < |a| && i != at :: key in a[i] <==> key in b[i]
    ensures Occurs(b, key) == Occurs(a, key) - (if key in a[at] then 1 else 0) + (if key in b[at] then 1 else 0)
    decreases |a|
  {
    var n := |a| - 1;
    if at == n {
      OccursSame(a[..n], b[..n], key);
    } else {
      OccursAt(a[..n], b[..n], key, at);
    }
  }

  lemma {:induction false} OccursSame<K>(a: seq<set<K>>, b: seq<set<K>>, key: K)
    requires |a| == |b|
    requires forall i: nat | i < |a| :: key in a[i] <==> key in b[i]
    ensures Occurs(b, key) == Occurs(a, key)
    decreases |a|
  {
    if a != [] {
      OccursSame(a[..|a| - 1], b[..|b| - 1], key);
    }
  }

  /** Every Timeout that a request has led to, and every one it still can lead to, stands for a
      recording of its own. */
  ghost predicate Backed<H, T, M>(s: Tcp<H, T, M>, cid: CorrelationId) {
    Count(s.fired, cid) + Occurs(s.requests.data, cid) <= Count(s.recorded, cid)
  }

  lemma StepBacked<H, T, M>(hs: Handlers<H, T, M>, s: Tcp<H, T, M>, ev: Event<T, M>, cid: CorrelationId)
    requires Backed(s, cid) && Allowed(s, ev) && !Step(hs, s, ev).Panicked?
    ensures Backed(Step(hs, s, ev).tcp, cid)
  {
    hide Step, Count, Occurs;
    StepRecords(hs, s, ev, cid);
    var t := Step(hs, s, ev).tcp;
    var from := if ev.RequestTick? then TurnedTcp(s) else s;
    if ev.RequestTick? {
      OccursAt(s.requests.data, from.requests.data, cid, s.requests.read);
    }
    OccursAt(from.requests.data, t.requests.data, cid, from.requests.write);
  }

  lemma {:induction false} RunBacked<H, T, M>(hs: Handlers<H, T, M>, s: Tcp<H, T, M>, evs: seq<Event<T, M>>,
      cid: CorrelationId)
    requires Backed(s, cid) && IsRun(hs, s, evs)
    ensures Backed(Run(hs, s, evs), cid)
    decreases |evs|
  {
    hide Backed, Step;
    if evs != [] {
      StepBacked(hs, s, evs[0], cid);
      RunBacked(hs, Step(hs, s, evs[0]).tcp, evs[1..], cid);
    }
  }

  /** In every run a request times out at most as often as it was recorded. */
  lemma TimeoutsBounded<H, T, M>(hs: Handlers<H, T, M>, pid: Pid, timesOut: bool, evs: seq<Event<T, M>>,
      cid: CorrelationId)
    requires IsRun(hs, NewTcp(pid, timesOut), evs)
    ensures var t := Run(hs, NewTcp(pid, timesOut), evs);
            Count(t.fired, cid) <= Count(t.recorded, cid)
  {
    hide Run, IsRun;
    var s := NewTcp<H, T, M>(pid, timesOut);
    OccursNowhere(s.requests.data, cid);
    RunBacked(hs, s, evs, cid);
  }

  lemma {:induction false} OccursNowhere<K>(data: seq<set<K>>, key: K)
    requires forall i: nat | i < |data| :: key !in data[i]
    ensures Occurs(data, key) == 0
    decreases |data|
  {
    if data != [] {
      OccursNowhere(data[..|data| - 1], key);
    }
  }

  // ----- exactly once, at the eleventh tick

  /** The request waits in this slot and in no other. */
  ghost predicate Sits<H, T, M>(s: Tcp<H, T, M>, cid: CorrelationId, slot: Slot) {
    forall i: nat | i < SLOTS :: cid in s.requests.data[i] <==> i == slot
  }

  /** A request recorded during an event, a request tick included, sits in the newest slot after it.
      So it does not fire in the tick during which it is recorded. */
  lemma RecordedSits<H, T, M>(hs: Handlers<H, T, M>, s: Tcp<H, T, M>, ev: Event<T, M>, cid: CorrelationId)
    requires Allowed(s, ev) && !Step(hs, s, ev).Panicked?
    requires forall i: nat | i < SLOTS && cid in s.requests.data[i] :: ev.RequestTick? && i == s.requests.read
    requires Count(Step(hs, s, ev).tcp.recorded, cid) > Count(s.recorded, cid)
    ensures var t := Step(hs, s, ev).tcp;
            && Sits(t, cid, t.requests.write) && t.requests.Age(t.requests.write) == 0
            && ((forall i: nat | i < SLOTS :: cid !in s.requests.data[i]) ==>
               Count(t.fired, cid) == Count(s.fired, cid))
  {
    hide Step, Count;
    StepRecords(hs, s, ev, cid);
  }

  function RequestTicks<T, M>(evs: seq<Event<T, M>>): nat
    decreases |evs|
  {
    if evs == [] then 0 else (if evs[0].RequestTick? then 1 else 0) + RequestTicks(evs[1..])
  }

  lemma {:induction false} RecordedGrows<H, T, M>(hs: Handlers<H, T, M>, s: Tcp<H, T, M>,
      evs: seq<Event<T, M>>, cid: CorrelationId)
    requires IsRun(hs, s, evs)
    ensures Count(s.recorded, cid) <= Count(Run(hs, s, evs).recorded, cid)
    decreases |evs|
  {
    hide Step, Count;
    if evs != [] {
      StepRecords(hs, s, evs[0], cid);
      RecordedGrows(hs, Step(hs, s, evs[0]).tcp, evs[1..], cid);
    }
  }

  lemma StepWaits<H, T, M>(hs: Handlers<H, T, M>, s: Tcp<H, T, M>, ev: Event<T, M>, cid: CorrelationId, slot: Slot)
    requires Allowed(s, ev) && !Step(hs, s, ev).Panicked? && Sits(s, cid, slot)
    requires Count(Step(hs, s, ev).tcp.recorded, cid) == Count(s.recorded, cid)
    requires ev.RequestTick? ==> s.requests.Age(slot) < SLOTS - 1
    ensures var t := Step(hs, s, ev).tcp;
            && Sits(t, cid, slot) && Count(t.fired, cid) == Count(s.fired, cid)
            && t.requests.Age(slot) == s.requests.Age(slot) + if ev.RequestTick? then 1 else 0
  {
    hide Step, Count;
    StepRecords(hs, s, ev, cid);
    TurnedAges(s.requests, slot);
  }

  /** Until ten request ticks have passed, a request that is not recorded again just waits. */
  lemma {:induction false} RunWaits<H, T, M>(hs: Handlers<H, T, M>, s: Tcp<H, T, M>, evs: seq<Event<T, M>>,
      cid: CorrelationId, slot: Slot)
    requires IsRun(hs, s, evs) && Sits(s, cid, slot)
    requires Count(Run(hs, s, evs).recorded, cid) == Count(s.recorded, cid)
    requires s.requests.Age(slot) + RequestTicks(evs) < SLOTS
    ensures var t := Run(hs, s, evs);
            && Sits(t, cid, slot) && Count(t.fired, cid) == Count(s.fired, cid)
            && t.requests.Age(slot) == s.requests.Age(slot) + RequestTicks(evs)
    decreases |evs|
  {
    hide Step, Count, Sits;
    if evs != [] {
      var t := Step(hs, s, evs[0]).tcp;
      StepRecords(hs, s, evs[0], cid);
      RecordedGrows(hs, t, evs[1..], cid);
      StepWaits(hs, s, evs[0], cid, slot);
      RunWaits(hs, t, evs[1..], cid, slot);
    }
  }

  /** Exactly when the request at place `k` of an expired slot fires: when no write has failed for the
      requests before it, and its connection is live. What comes of its own output does not matter. */
  lemma {:induction false} FiresExactly<H, T, M>(hs: Handlers<H, T, M>, s: Tcp<H, T, M>,
      order: seq<(CorrelationId, Option<nat>)>, k: nat)
    requires Distinct(Firsts(order)) && !TimeOutAll(hs, s, order).Panicked? && k < |order|
    ensures var cid := order[k].0;
            && !TimeOutAll(hs, s, order[..k]).Panicked?
            && Count(TimeOutAll(hs, s, order).tcp.fired, cid) == Count(s.fired, cid) +
                 if TimeOutAll(hs, s, order[..k]).Fine? && cid.connection.Some? && cid.connection.value in s.conns
                 then 1 else 0
    decreases |order|
  {
    hide Records, Deliver, Count;
    var (c, fail) := order[0];
    var cid, rest := order[k].0, order[1..];
    FirstsSplit(order);
    assert Firsts(order)[k] == cid;
    if k == 0 {
      assert order[..0] == [];
      if c.connection.Some? && c.connection.value in s.conns {
        OneFires(hs, s, c, fail, cid);
        var r := TimeOut(hs, s, c, fail);
        if r.Fine? {
          TimeOutFires(hs, r.tcp, rest, cid);
        }
      } else {
        TimeOutFires(hs, s, rest, cid);
      }
    } else {
      assert order[..k][0] == order[0] && order[..k][1..] == rest[..k - 1];
      assert cid == rest[k - 1].0 && Firsts(rest)[k - 1] == cid && c != cid;
      if c.connection.value !in s.conns {
        FiresExactly(hs, s, rest, k - 1);
      } else {
        OneFires(hs, s, c, fail, cid);
        var r := TimeOut(hs, s, c, fail);
        if r.Fine? {
          FiresExactly(hs, r.tcp, rest, k - 1);
        }
      }
    }
  }

  /** Exactly when sending a handler's output fails: when it holds more client messages than get through. */
  lemma {:induction false} SendFailsExactly<H, T, M>(s: Tcp<H, T, M>, id: nat, msgs: seq<ConnMsg<T, M>>,
      fail: Option<nat>)
    ensures Send(s, id, msgs, fail).Failed? <==> fail.Some? && fail.value < |Clients(msgs)|
    decreases |msgs|
  {
    hide Logged;
    if msgs != [] {
      match msgs[0]
      case ToNode(e) => SendFailsExactly(Forward(s, e), id, msgs[1..], fail);
      case ToClient(m, _) =>
        if fail != Some(0) {
          SendFailsExactly(s.(written := Logged(s.written, id, [m])), id, msgs[1..],
                           if fail.Some? then Some(fail.value - 1) else None);
        }
    }
  }

  /** A request recorded once fires at the eleventh request tick after that or never: at that tick it is
      among the expired ones, at some place `k`, and its handler gets its one Timeout exactly if no write
      failed for those before it and its connection is live. */
  lemma FiresAtEleventhTick<H, T, M>(hs: Handlers<H, T, M>, s: Tcp<H, T, M>, ev: Event<T, M>,
      evs: seq<Event<T, M>>, tick: Event<T, M>, cid: CorrelationId)
    returns (k: nat)
    requires Allowed(s, ev) && !Step(hs, s, ev).Panicked? && (forall i: nat | i < SLOTS :: cid !in s.requests.data[i])
    requires Count(Step(hs, s, ev).tcp.recorded, cid) > Count(s.recorded, cid)
    requires IsRun(hs, Step(hs, s, ev).tcp, evs) && RequestTicks(evs) == 10
    requires Count(Run(hs, Step(hs, s, ev).tcp, evs).recorded, cid) == Count(Step(hs, s, ev).tcp.recorded, cid)
    requires tick.RequestTick? && Allowed(Run(hs, Step(hs, s, ev).tcp, evs), tick)
    requires !Step(hs, Run(hs, Step(hs, s, ev).tcp, evs), tick).Panicked?
    ensures k < |tick.order| && tick.order[k].0 == cid
    ensures var t := Run(hs, Step(hs, s, ev).tcp, evs);
            var undisturbed := TimeOutAll(hs, TurnedTcp(t), tick.order[..k]).Fine?;
            && Count(t.fired, cid) == Count(s.fired, cid)
            && Count(Step(hs, t, tick).tcp.fired, cid) == Count(s.fired, cid) +
                 if undisturbed && cid.connection.Some? && cid.connection.value in t.conns then 1 else 0
  {
    RecordedSits(hs, s, ev, cid);
    var t1 := Step(hs, s, ev).tcp;
    var slot: Slot := t1.requests.write;
    RunWaits(hs, t1, evs, cid, slot);
    k := TickFires(hs, Run(hs, t1, evs), tick, cid, slot);
    hide Step, Count, Run, IsRun;
  }

  lemma TickFires<H, T, M>(hs: Handlers<H, T, M>, t: Tcp<H, T, M>, tick: Event<T, M>, cid: CorrelationId, slot: Slot)
    returns (k: nat)
    requires tick.RequestTick? && Allowed(t, tick) && !Step(hs, t, tick).Panicked?
    requires Sits(t, cid, slot) && t.requests.Age(slot) == SLOTS - 1
    ensures k < |tick.order| && tick.order[k].0 == cid
    ensures var undisturbed := TimeOutAll(hs, TurnedTcp(t), tick.order[..k]).Fine?;
            Count(Step(hs, t, tick).tcp.fired, cid) == Count(t.fired, cid) +
              if undisturbed && cid.connection.Some? && cid.connection.value in t.conns then 1 else 0
  {
    hide Count, TimeOutAll;
    TurnedAges(t.requests, slot);
    assert cid in t.requests.data[t.requests.read];
    assert cid in set c | c in Firsts(tick.order);
    k :| k < |tick.order| && Firsts(tick.order)[k] == cid;
    FiresExactly(hs, TurnedTcp(t), tick.order, k);
  }

  lemma DroppedNowhere<H, T, M>(hs: Handlers<H, T, M>, s: Tcp<H, T, M>, order: seq<(CorrelationId, Option<nat>)>,
      cid: CorrelationId)
    requires Distinct(Firsts(order)) && !TimeOutAll(hs, s, order).Panicked?
    requires Count(TimeOutAll(hs, s, order).tcp.recorded, cid) == Count(s.recorded, cid)
    requires forall i: nat | i < SLOTS :: cid !in s.requests.data[i]
    ensures forall i: nat | i < SLOTS :: cid !in TimeOutAll(hs, s, order).tcp.requests.data[i]
  {
    hide TimeOutAll;
    TimeOutFires(hs, s, order, cid);
  }

  /** A request that sits nowhere, because its tick has passed, never fires unless it is recorded again.
      So the requests that a failed write drops from a tick never time out. */
  lemma {:induction false} PassedNeverFires<H, T, M>(hs: Handlers<H, T, M>, s: Tcp<H, T, M>,
      evs: seq<Event<T, M>>, cid: CorrelationId)
    requires IsRun(hs, s, evs) && (forall i: nat | i < SLOTS :: cid !in s.requests.data[i])
    requires Count(Run(hs, s, evs).recorded, cid) == Count(s.recorded, cid)
    ensures Count(Run(hs, s, evs).fired, cid) == Count(s.fired, cid)
    decreases |evs|
  {
    hide Step, Count;
    if evs != [] {
      var t := Step(hs, s, evs[0]).tcp;
      StepRecords(hs, s, evs[0], cid);
      RecordedGrows(hs, t, evs[1..], cid);
      PassedNeverFires(hs, t, evs[1..], cid);
    }
  }
}
