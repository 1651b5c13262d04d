/** Chain replication on one executor: replicas pass operations along a chain, through the executor's
    own channel, while other processes, services and timers do what they like around them. */
module Chains {
  import opened Base
  import opened Ids
  import opened Messages
  import opened ExecutorState
  import opened ExecutorRuns

  datatype UserMsg = Op(val: nat) | OpComplete | GetHistory | History(values: seq<nat>)

  datatype Replica = Replica(pid: Pid, next: Option<Pid>, history: seq<nat>)

  /** What a replica does with a message. Every message must carry a correlation id. The last replica
      answers the pid of the correlation id; the others pass the operation on. */
  function Reaction(r: Replica, msg: Msg<UserMsg>, cid: Option<CorrelationId>): Handled<Replica, UserMsg> {
    if cid.None? then Panic
    else
      match msg
      case User(Op(val)) =>
        var envelope := if r.next.Some? then Envelope(r.next.value, r.pid, User(Op(val)), cid)
                        else Envelope(cid.value.pid, r.pid, User(OpComplete), cid);
        Output(r.(history := r.history + [val]), [envelope])
      case User(GetHistory) => Output(r, [Envelope(cid.value.pid, r.pid, User(History(r.history)), cid)])
      case _ => Output(r, [])
  }

  /** The replica as the executor's process: its history grows in place and its output goes into the
      executor's buffer. */
  class ReplicaProcess {
    const pid: Pid
    const next: Option<Pid>
    var history: seq<nat>

    function Value(): Replica
      reads this
    {
      Replica(pid, next, history)
    }

    constructor (pid: Pid, next: Option<Pid>)
      ensures Value() == Replica(pid, next, [])
    {
      this.pid := pid;
      this.next := next;
      history := [];
    }

    method Handle(msg: Msg<UserMsg>, cid: Option<CorrelationId>, output: seq<Envelope<UserMsg>>)
      returns (panics: bool, filled: seq<Envelope<UserMsg>>)
      modifies this
      ensures match Reaction(old(Value()), msg, cid)
              case Panic => panics && Value() == old(Value()) && filled == output
              case Output(r, es) => !panics && Value() == r && filled == output + es
    {
      panics, filled := false, output;
      if cid.None? {
        return true, output;
      }
      var to, from := cid.value.pid, pid;
      match msg
      case User(Op(val)) =>
        var envelope := Envelope(to, from, User(OpComplete), cid);
        if next.Some? {
          envelope := Envelope(next.value, from, User(Op(val)), cid);
        }
        history := history + [val];
        filled := filled + [envelope];
      case User(GetHistory) =>
        filled := filled + [Envelope(to, from, User(History(history)), cid)];
      case _ =>
    }
  }

  // ----- replicas among other processes

  datatype Actor<Q> = Link(replica: Replica) | Other(state: Q)

  function Behave<Q>(other: Behavior<Q, UserMsg>): Behavior<Actor<Q>, UserMsg> {
    (p: Actor<Q>, msg, from, cid) =>
      match p
      case Link(r) => (match Reaction(r, msg, cid) case Panic => Panic case Output(q, es) => Output(Link(q), es))
      case Other(q) => (match other(q, msg, from, cid) case Panic => Panic case Output(q', es) => Output(Other(q'), es))
  }

  /** Not an operation for a replica behind the head of the chain. */
  predicate Quiet(chain: seq<Pid>, e: Envelope<UserMsg>) {
    e.msg.User? && e.msg.user.Op? && e.to in chain ==> e.to == chain[0]
  }

  ghost predicate QuietAll(chain: seq<Pid>, es: seq<Envelope<UserMsg>>) {
    forall e | e in es :: Quiet(chain, e)
  }

  ghost predicate QuietOthers<Q(!new)>(chain: seq<Pid>, other: Behavior<Q, UserMsg>) {
    forall q, msg, from, cid ::
      other(q, msg, from, cid).Output? ==> QuietAll(chain, other(q, msg, from, cid).envelopes)
  }

  predicate IsProcessPid(node: NodeId, pid: Pid) {
    pid.node == node && pid != ExecutorPid(node) && !ForClusterServer(pid) && !Ungrouped(pid)
  }

  /** Each replica of the chain is registered and knows the next one; there are no other replicas. */
  ghost predicate InPlace<Q>(x: Exec<Actor<Q>, UserMsg>, chain: seq<Pid>) {
    && chain != []
    && (forall i, j | 0 <= i < j < |chain| :: chain[i] != chain[j])
    && (forall i | 0 <= i < |chain| :: LinkInPlace(x, chain, i))
    && (forall pid | pid in x.procs && x.procs[pid].Link? :: pid in chain)
  }

  ghost predicate LinkInPlace<Q>(x: Exec<Actor<Q>, UserMsg>, chain: seq<Pid>, i: nat)
    requires i < |chain|
  {
    && IsProcessPid(x.node, chain[i])
    && chain[i] in x.procs && x.procs[chain[i]].Link?
    && x.procs[chain[i]].replica.pid == chain[i]
    && x.procs[chain[i]].replica.next == if i + 1 < |chain| then Some(chain[i + 1]) else None
  }

  /** The operations queued for `pid`, in order. */
  function OpsTo(queue: seq<Envelope<UserMsg>>, pid: Pid): seq<nat> {
    if queue == [] then []
    else
      var last := queue[|queue| - 1];
      OpsTo(queue[..|queue| - 1], pid) +
      if last.to == pid && last.msg.User? && last.msg.user.Op? then [last.msg.user.val] else []
  }

  function HistoryOf<Q>(x: Exec<Actor<Q>, UserMsg>, pid: Pid): seq<nat> {
    if pid in x.procs && x.procs[pid].Link? then x.procs[pid].replica.history else []
  }

  /** The history of each replica is that of the next one, followed by what is still queued for the
      next one; `pending` is an envelope taken from the queue and not yet handled. */
  ghost predicate Chained<Q>(x: Exec<Actor<Q>, UserMsg>, chain: seq<Pid>, pending: seq<Envelope<UserMsg>>) {
    forall i | 0 <= i < |chain| - 1 :: PairChained(x, chain, pending, i)
  }

  ghost predicate PairChained<Q>(x: Exec<Actor<Q>, UserMsg>, chain: seq<Pid>, pending: seq<Envelope<UserMsg>>, i: nat)
    requires i + 1 < |chain|
  {
    HistoryOf(x, chain[i]) == HistoryOf(x, chain[i + 1]) + OpsTo(pending + x.queue, chain[i + 1])
  }

  ghost predicate Kept<Q>(x: Exec<Actor<Q>, UserMsg>, chain: seq<Pid>, pending: seq<Envelope<UserMsg>>) {
    InPlace(x, chain) && Chained(x, chain, pending) && x.buffer == []
  }

  // ----- single steps

  lemma {:induction false} OpsConcat(a: seq<Envelope<UserMsg>>, b: seq<Envelope<UserMsg>>, pid: Pid)
    ensures OpsTo(a + b, pid) == OpsTo(a, pid) + OpsTo(b, pid)
  {
    if b == [] {
      assert a + b == a;
    } else {
      OpsConcat(a, b[..|b| - 1], pid);
      assert (a + b)[..|a + b| - 1] == a + b[..|b| - 1];
    }
  }

  lemma OpsOne(e: Envelope<UserMsg>, pid: Pid)
    ensures OpsTo([e], pid) == if e.to == pid && e.msg.User? && e.msg.user.Op? then [e.msg.user.val] else []
  {
    assert [e][..0] == [];
  }

  /** A quiet envelope makes no difference to the chain. */
  lemma QuietAnywhere(a: seq<Envelope<UserMsg>>, e: Envelope<UserMsg>, b: seq<Envelope<UserMsg>>,
      chain: seq<Pid>, i: nat)
    requires Quiet(chain, e) && i + 1 < |chain| && chain[0] != chain[i + 1]
    ensures OpsTo(a + [e] + b, chain[i + 1]) == OpsTo(a + b, chain[i + 1])
  {
    OpsOne(e, chain[i + 1]);
    OpsConcat(a + [e], b, chain[i + 1]);
    OpsConcat(a, [e], chain[i + 1]);
    OpsConcat(a, b, chain[i + 1]);
  }

  lemma QuietPending<Q>(x: Exec<Actor<Q>, UserMsg>, chain: seq<Pid>, e: Envelope<UserMsg>)
    requires Quiet(chain, e)
    ensures Kept(x, chain, [e]) <==> Kept(x, chain, [])
  {
    if InPlace(x, chain) {
      forall i: nat | i < |chain| - 1 ensures PairChained(x, chain, [e], i) <==> PairChained(x, chain, [], i) {
        QuietAnywhere([], e, x.queue, chain, i);
        assert [] + [e] + x.queue == [e] + x.queue;
      }
    }
  }

  lemma PutKeeps<Q>(x: Exec<Actor<Q>, UserMsg>, chain: seq<Pid>, e: Envelope<UserMsg>, place: Place)
    requires Kept(x, chain, []) && (place == ToQueue ==> Quiet(chain, e))
    ensures Kept(Put(x, e, place), chain, [])
  {
    var y := Put(x, e, place);
    forall i: nat | i < |chain| ensures LinkInPlace(y, chain, i) {
      assert LinkInPlace(x, chain, i);
    }
    forall i: nat | i < |chain| - 1 ensures PairChained(y, chain, [], i) {
      assert PairChained(x, chain, [], i);
      if place == ToQueue {
        QuietAnywhere(x.queue, e, [], chain, i);
        assert [] + y.queue == x.queue + [e] + [];
        assert [] + x.queue == x.queue + [];
      }
    }
  }

  /** Fields other than the processes, the queue and the buffer do not matter. */
  lemma SameChain<Q>(x: Exec<Actor<Q>, UserMsg>, y: Exec<Actor<Q>, UserMsg>, chain: seq<Pid>,
      pending: seq<Envelope<UserMsg>>)
    requires Kept(x, chain, pending)
    requires y.node == x.node && y.queue == x.queue && y.buffer == x.buffer
    requires forall pid | pid in x.procs && x.procs[pid].Link? :: pid in y.procs && y.procs[pid] == x.procs[pid]
    requires forall pid | pid in y.procs && y.procs[pid].Link? :: pid in x.procs && x.procs[pid] == y.procs[pid]
    ensures Kept(y, chain, pending)
  {
    forall i: nat | i < |chain| ensures LinkInPlace(y, chain, i) && HistoryOf(x, chain[i]) == HistoryOf(y, chain[i]) {
      assert LinkInPlace(x, chain, i);
    }
    forall i: nat | i < |chain| - 1 ensures PairChained(y, chain, pending, i) {
      assert PairChained(x, chain, pending, i);
    }
  }

  // ----- an operation at a replica

  /** The replica `chain[k]` takes an operation and sends `out`: the next replica's turn is queued, or
      the answer goes anywhere. */
  lemma OpKeeps<Q>(x: Exec<Actor<Q>, UserMsg>, y: Exec<Actor<Q>, UserMsg>, chain: seq<Pid>, k: nat,
      e: Envelope<UserMsg>, out: Envelope<UserMsg>)
    requires Kept(x, chain, [e]) && k < |chain| && e.to == chain[k] && e.msg.User? && e.msg.user.Op?
    requires k + 1 < |chain| ==> out.to == chain[k + 1] && out.msg == e.msg && y.queue == x.queue + [out]
    requires k + 1 == |chain| ==> Quiet(chain, out) && (y.queue == x.queue || y.queue == x.queue + [out])
    requires y.node == x.node && y.buffer == []
    requires LinkInPlace(x, chain, k)
    requires var r := x.procs[e.to].replica;
             y.procs == x.procs[e.to := Link(r.(history := r.history + [e.msg.user.val]))]
    ensures Kept(y, chain, [])
  {
    forall i: nat | i < |chain| ensures LinkInPlace(y, chain, i) {
      assert LinkInPlace(x, chain, i);
    }
    forall i: nat | i < |chain| - 1
      ensures PairChained(y, chain, [], i)
    {
      OpPair(x, y, chain, k, i, e, out);
    }
  }

  lemma OpPair<Q>(x: Exec<Actor<Q>, UserMsg>, y: Exec<Actor<Q>, UserMsg>, chain: seq<Pid>, k: nat, i: nat,
      e: Envelope<UserMsg>, out: Envelope<UserMsg>)
    requires k < |chain| && i + 1 < |chain| && PairChained(x, chain, [e], i)
    requires e.to == chain[k] && e.msg.User? && e.msg.user.Op?
    requires (chain[i] == chain[k] <==> i == k) && (chain[i + 1] == chain[k] <==> i + 1 == k)
    requires chain[i + 1] != chain[0] && (k + 1 < |chain| ==> (chain[k + 1] == chain[i + 1] <==> i == k))
    requires k + 1 < |chain| ==> out.to == chain[k + 1] && out.msg == e.msg && y.queue == x.queue + [out]
    requires k + 1 == |chain| ==> Quiet(chain, out) && (y.queue == x.queue || y.queue == x.queue + [out])
    requires LinkInPlace(x, chain, k)
    requires var r := x.procs[e.to].replica;
             y.procs == x.procs[e.to := Link(r.(history := r.history + [e.msg.user.val]))]
    ensures PairChained(y, chain, [], i)
  {
    hide OpsTo, HistoryOf;
    var to := chain[i + 1];
    assert [] + y.queue == y.queue;
    OpsConcat([e], x.queue, to);
    OpsOne(e, to);
    OpsConcat(x.queue, [out], to);
    OpsOne(out, to);
    HistoryGrows(x, y, chain[i], e.to, e.msg.user.val);
    HistoryGrows(x, y, to, e.to, e.msg.user.val);
  }

  /** Only the replica that takes an operation has one more in its history. */
  lemma HistoryGrows<Q>(x: Exec<Actor<Q>, UserMsg>, y: Exec<Actor<Q>, UserMsg>, pid: Pid, taker: Pid, val: nat)
    requires taker in x.procs && x.procs[taker].Link?
    requires var r := x.procs[taker].replica; y.procs == x.procs[taker := Link(r.(history := r.history + [val]))]
    ensures HistoryOf(y, pid) == HistoryOf(x, pid) + if pid == taker then [val] else []
  {
  }

  // ----- routing

  lemma InPlaceFacts<Q>(x: Exec<Actor<Q>, UserMsg>, chain: seq<Pid>, pending: seq<Envelope<UserMsg>>, pid: Pid)
    returns (k: nat)
    requires Kept(x, chain, pending)
    ensures x.buffer == [] && chain != []
    ensures pid in chain ==> k < |chain| && chain[k] == pid && LinkInPlace(x, chain, k)
    ensures pid in x.procs && x.procs[pid].Link? ==> pid in chain
  {
    k := 0;
    if pid in chain {
      k :| k < |chain| && chain[k] == pid;
    }
  }

  lemma {:induction false} RouteKeeps<Q(!new)>(other: Behavior<Q, UserMsg>, x: Exec<Actor<Q>, UserMsg>,
      chain: seq<Pid>, e: Envelope<UserMsg>, depth: nat)
    requires QuietOthers(chain, other) && Kept(x, chain, [e])
    ensures var r := RouteToProcess(Behave(other), x, e, depth); r.Running? ==> Kept(r.exec, chain, [])
    ensures var r := Route(Behave(other), x, e, depth); r.Running? ==> Kept(r.exec, chain, [])
    decreases depth, 3, 0
  {
    hide Kept, QuietOthers, Drain, HandleExecutorEnvelope, Put;
    var k := InPlaceFacts(x, chain, [e], e.to);
    var goesToProcess := e.to != ExecutorPid(x.node) && !ForClusterServer(e.to) && !Ungrouped(e.to) && e.to in x.procs;
    if goesToProcess {
      if x.procs[e.to].Link? {
        LinkKeeps(other, x, chain, k, e, depth);
      } else {
        OtherKeeps(other, x, chain, e, depth);
      }
    }
    if !goesToProcess || e.to.node != x.node {
      assert Quiet(chain, e);
      QuietPending(x, chain, e);
      PutKeeps(x, chain, e, ToCluster);
      PutKeeps(x, chain, e, ToService);
      PutKeeps(x, chain, e, Dropped);
      HandleKeeps(other, x, chain, e, depth);
    }
  }

  lemma {:induction false} OtherKeeps<Q(!new)>(other: Behavior<Q, UserMsg>, x: Exec<Actor<Q>, UserMsg>,
      chain: seq<Pid>, e: Envelope<UserMsg>, depth: nat)
    requires QuietOthers(chain, other) && Kept(x, chain, [e]) && e.to in x.procs && x.procs[e.to].Other?
    requires e.to != ExecutorPid(x.node) && !ForClusterServer(e.to) && !Ungrouped(e.to)
    ensures var r := RouteToProcess(Behave(other), x, e, depth); r.Running? ==> Kept(r.exec, chain, [])
    decreases depth, 2, 1 + |x.procs|, 0
  {
    hide Kept, Drain, HandleExecutorEnvelope;
    var k := InPlaceFacts(x, chain, [e], e.to);
    assert Quiet(chain, e);
    QuietPending(x, chain, e);
    PutKeeps(x, chain, e, ToProcess);
    var h := other(x.procs[e.to].state, e.msg, e.from, e.correlationId);
    if h.Output? {
      var y := Put(x, e, ToProcess).(procs := x.procs[e.to := Other(h.process)], emitted := x.emitted + h.envelopes);
      SameChain(Put(x, e, ToProcess), y, chain, []);
      assert x.buffer + h.envelopes == h.envelopes && y == y.(buffer := []);
      DrainKeeps(other, y, chain, h.envelopes, depth);
      var r := Drain(Behave(other), y, h.envelopes, depth);
      if r.Running? {
        var j := InPlaceFacts(r.exec, chain, [], e.to);
        assert r.exec == r.exec.(buffer := []);
      }
    }
  }

  lemma {:induction false} LinkKeeps<Q(!new)>(other: Behavior<Q, UserMsg>, x: Exec<Actor<Q>, UserMsg>,
      chain: seq<Pid>, k: nat, e: Envelope<UserMsg>, depth: nat)
    requires QuietOthers(chain, other) && Kept(x, chain, [e]) && k < |chain| && e.to == chain[k]
             && LinkInPlace(x, chain, k)
    ensures var r := RouteToProcess(Behave(other), x, e, depth); r.Running? ==> Kept(r.exec, chain, [])
    decreases depth, 2, 1 + |x.procs|, 0
  {
    hide Kept, Drain, HandleExecutorEnvelope, QuietOthers;
    var j := InPlaceFacts(x, chain, [e], e.to);
    var h := Reaction(x.procs[e.to].replica, e.msg, e.correlationId);
    if h.Output? {
      var y := Put(x, e, ToProcess).(procs := x.procs[e.to := Link(h.process)], emitted := x.emitted + h.envelopes);
      assert x.buffer + h.envelopes == h.envelopes && y == y.(buffer := []);
      var r := Drain(Behave(other), y, h.envelopes, depth);
      if e.msg.User? && e.msg.user.Op? && k + 1 < |chain| {
        NextInPlace(x, chain, k);
        var out := h.envelopes[0];
        DrainOne(other, y, out, depth);
        OpKeeps(x, r.exec, chain, k, e, out);
      } else {
        if e.msg.User? && e.msg.user.Op? {
          OpKeeps(x, y, chain, k, e, h.envelopes[0]);
        } else {
          assert Quiet(chain, e);
          QuietPending(x, chain, e);
          SameChain(x, y, chain, []);
        }
        assert QuietAll(chain, h.envelopes);
        DrainKeeps(other, y, chain, h.envelopes, depth);
      }
      if r.Running? {
        var i := InPlaceFacts(r.exec, chain, [], e.to);
        assert r.exec == r.exec.(buffer := []);
      }
    }
  }

  lemma NextInPlace<Q>(x: Exec<Actor<Q>, UserMsg>, chain: seq<Pid>, k: nat)
    requires Kept(x, chain, []) || (exists e :: Kept(x, chain, [e]))
    requires k + 1 < |chain|
    ensures LinkInPlace(x, chain, k + 1)
  {
  }

  lemma DrainOne<Q>(other: Behavior<Q, UserMsg>, y: Exec<Actor<Q>, UserMsg>, out: Envelope<UserMsg>, depth: nat)
    requires IsProcessPid(y.node, out.to)
    ensures Drain(Behave(other), y, [out], depth) == Running(Put(y, out, ToQueue))
  {
    hide HandleExecutorEnvelope;
    assert [out][1..] == [];
  }

  lemma {:induction false} DrainKeeps<Q(!new)>(other: Behavior<Q, UserMsg>, x: Exec<Actor<Q>, UserMsg>,
      chain: seq<Pid>, es: seq<Envelope<UserMsg>>, depth: nat)
    requires QuietOthers(chain, other) && Kept(x, chain, []) && QuietAll(chain, es)
    ensures var r := Drain(Behave(other), x, es, depth); r.Running? ==> Kept(r.exec, chain, [])
    decreases depth, 2, 0, |es|
  {
    hide Kept, QuietOthers, HandleExecutorEnvelope, Put;
    if es != [] {
      var e := es[0];
      assert e in es && Quiet(chain, e);
      assert QuietAll(chain, es[1..]) by {
        assert forall f | f in es[1..] :: f in es;
      }
      if e.to == ExecutorPid(x.node) {
        HandleKeeps(other, x, chain, e, depth);
        var r := HandleExecutorEnvelope(Behave(other), x, e, depth);
        if r.Running? {
          DrainKeeps(other, r.exec, chain, es[1..], depth);
        }
      } else {
        var place := if e.to.node == x.node then ToQueue else ToCluster;
        PutKeeps(x, chain, e, place);
        DrainKeeps(other, Put(x, e, place), chain, es[1..], depth);
      }
    }
  }

  lemma {:induction false} HandleKeeps<Q(!new)>(other: Behavior<Q, UserMsg>, x: Exec<Actor<Q>, UserMsg>,
      chain: seq<Pid>, e: Envelope<UserMsg>, depth: nat)
    requires QuietOthers(chain, other) && Kept(x, chain, [])
    ensures var r := HandleExecutorEnvelope(Behave(other), x, e, depth); r.Running? ==> Kept(r.exec, chain, [])
    decreases depth, 1, 0, 0
  {
    hide Kept, QuietOthers, Route;
    PutKeeps(x, chain, e, ToExecutor);
    var put := Put(x, e, ToExecutor);
    if e.msg.GetMetrics? {
      if depth > 0 {
        var reply := MetricsReply<UserMsg>(x.node, e.from, e.correlationId);
        var y := put.(replies := put.replies + [reply]);
        SameChain(put, y, chain, []);
        QuietPending(y, chain, reply);
        RouteKeeps(other, y, chain, reply, depth - 1);
      }
    } else {
      var y := HandleExecutorEnvelope(Behave(other), x, e, depth).exec;
      SameChain(put, y, chain, []);
    }
  }

  // ----- runs

  /** What may happen around the chain: operations enter at its head, its replicas stay, and what
      else starts is no replica. */
  ghost predicate AllowedInput<Q>(chain: seq<Pid>, input: Input<Actor<Q>, UserMsg>) {
    match input
    case Arrives(e) => Quiet(chain, e)
    case Starts(pid, p, init) => p.Other? && pid !in chain && QuietAll(chain, init)
    case Stops(pid) => pid !in chain
    case _ => true
  }

  lemma {:induction false} StartKeeps<Q(!new)>(other: Behavior<Q, UserMsg>, x: Exec<Actor<Q>, UserMsg>,
      chain: seq<Pid>, es: seq<Envelope<UserMsg>>, depth: nat)
    requires QuietOthers(chain, other) && Kept(x, chain, []) && QuietAll(chain, es)
    ensures var r := StartAll(Behave(other), x, es, depth); r.Running? ==> Kept(r.exec, chain, [])
    decreases |es|
  {
    hide Kept, QuietOthers, HandleExecutorEnvelope, Route;
    if es != [] {
      var e := es[0];
      assert e in es && Quiet(chain, e);
      assert QuietAll(chain, es[1..]) by {
        assert forall f | f in es[1..] :: f in es;
      }
      HandleKeeps(other, x, chain, e, depth);
      QuietPending(x, chain, e);
      RouteKeeps(other, x, chain, e, depth);
      var r := if e.to == ExecutorPid(x.node) then HandleExecutorEnvelope(Behave(other), x, e, depth)
               else Route(Behave(other), x, e, depth);
      if r.Running? {
        StartKeeps(other, r.exec, chain, es[1..], depth);
      }
    }
  }

  lemma {:induction false} TickKeeps<Q(!new)>(other: Behavior<Q, UserMsg>, x: Exec<Actor<Q>, UserMsg>,
      chain: seq<Pid>, fired: seq<(Pid, Option<CorrelationId>)>, depth: nat)
    requires QuietOthers(chain, other) && Kept(x, chain, [])
    ensures var r := TickAll(Behave(other), x, fired, depth); r.Running? ==> Kept(r.exec, chain, [])
    decreases |fired|
  {
    hide Kept, QuietOthers, RouteToProcess, Put;
    if fired != [] {
      var e := TimeoutFor<UserMsg>(x.node, fired[0]);
      var y := x.(replies := x.replies + [e]);
      SameChain(x, y, chain, []);
      QuietPending(y, chain, e);
      RouteKeeps(other, y, chain, e, depth);
      var r := RouteToProcess(Behave(other), y, e, depth);
      if r.Running? {
        TickKeeps(other, r.exec, chain, fired[1..], depth);
      } else if r.NotFound? {
        PutKeeps(y, chain, e, Dropped);
        TickKeeps(other, Put(y, e, Dropped), chain, fired[1..], depth);
      }
    }
  }

  lemma TakeKeeps<Q>(x: Exec<Actor<Q>, UserMsg>, chain: seq<Pid>)
    requires Kept(x, chain, []) && x.queue != []
    ensures Kept(x.(queue := x.queue[1..]), chain, [x.queue[0]])
  {
    var y := x.(queue := x.queue[1..]);
    forall i: nat | i < |chain| ensures LinkInPlace(y, chain, i) {
      assert LinkInPlace(x, chain, i);
    }
    forall i: nat | i < |chain| - 1 ensures PairChained(y, chain, [x.queue[0]], i) {
      assert PairChained(x, chain, [], i);
      assert [x.queue[0]] + y.queue == [] + x.queue;
    }
  }

  lemma ArriveKeeps<Q>(x: Exec<Actor<Q>, UserMsg>, chain: seq<Pid>, e: Envelope<UserMsg>)
    requires Kept(x, chain, []) && Quiet(chain, e)
    ensures Kept(x.(queue := x.queue + [e]), chain, [])
  {
    PutKeeps(x, chain, e, ToQueue);
    SameChain(Put(x, e, ToQueue), x.(queue := x.queue + [e]), chain, []);
  }

  lemma TurnKeeps<Q(!new)>(other: Behavior<Q, UserMsg>, x: Exec<Actor<Q>, UserMsg>, chain: seq<Pid>,
      input: Input<Actor<Q>, UserMsg>, depth: nat)
    requires QuietOthers(chain, other) && Kept(x, chain, []) && AllowedInput(chain, input)
    ensures var r := Turn(Behave(other), x, input, depth); r.Running? ==> Kept(r.exec, chain, [])
  {
    hide Kept, QuietOthers, QuietAll, Route, StartAll, TickAll;
    match input
    case Arrives(e) => ArriveKeeps(x, chain, e);
    case Receives =>
      if x.queue != [] {
        TakeKeeps(x, chain);
        RouteKeeps(other, x.(queue := x.queue[1..]), chain, x.queue[0], depth);
      }
    case Starts(pid, p, init) =>
      var k := InPlaceFacts(x, chain, [], pid);
      var y := x.(procs := x.procs[pid := p], emitted := x.emitted + init);
      SameChain(x, y, chain, []);
      StartKeeps(other, y, chain, init, depth);
    case Stops(pid) =>
      var k := InPlaceFacts(x, chain, [], pid);
      SameChain(x, x.(procs := x.procs - {pid}), chain, []);
    case Registers(pid) => SameChain(x, x.(services := x.services + {pid}), chain, []);
    case AsksStatus(cid) =>
      var reply := StatusReply<UserMsg>(x.node, cid);
      var y := x.(replies := x.replies + [reply]);
      SameChain(x, y, chain, []);
      PutKeeps(y, chain, reply, if reply.to in y.services then ToService else Dropped);
    case Ticks(fired) =>
      var y := x.(timers := x.timers - set t | t in fired);
      SameChain(x, y, chain, []);
      TickKeeps(other, y, chain, fired, depth);
  }

  /** A chain starts out kept: no history yet, and no operation queued behind the head. */
  lemma FreshChainKept<Q>(x: Exec<Actor<Q>, UserMsg>, chain: seq<Pid>)
    requires InPlace(x, chain) && QuietAll(chain, x.queue) && x.buffer == []
    requires forall i | 0 <= i < |chain| :: HistoryOf(x, chain[i]) == []
    ensures Kept(x, chain, [])
  {
    forall i: nat | i < |chain| - 1 ensures PairChained(x, chain, [], i) {
      NothingQueued([] + x.queue, chain, i + 1);
    }
  }

  /** In every run, the history of each replica is that of the next one followed by the operations
      still queued for the next one. */
  lemma {:induction false} RunKeepsChain<Q(!new)>(other: Behavior<Q, UserMsg>, x: Exec<Actor<Q>, UserMsg>,
      chain: seq<Pid>, inputs: seq<Input<Actor<Q>, UserMsg>>, depth: nat)
    requires QuietOthers(chain, other) && Kept(x, chain, [])
    requires forall i | 0 <= i < |inputs| :: AllowedInput(chain, inputs[i])
    ensures var r := Play(Behave(other), x, inputs, depth); r.Running? ==> Kept(r.exec, chain, [])
    decreases |inputs|
  {
    hide Kept, QuietOthers, AllowedInput, Turn;
    if inputs != [] {
      var before, last := inputs[..|inputs| - 1], inputs[|inputs| - 1];
      RunKeepsChain(other, x, chain, before, depth);
      var r := Play(Behave(other), x, before, depth);
      if r.Running? {
        TurnKeeps(other, r.exec, chain, last, depth);
      }
    }
  }

  // ----- what the chain guarantees

  /** The history of a replica is a prefix of that of every replica before it. */
  lemma {:induction false} DownstreamIsPrefix<Q>(x: Exec<Actor<Q>, UserMsg>, chain: seq<Pid>,
      pending: seq<Envelope<UserMsg>>, i: nat, j: nat)
    requires Kept(x, chain, pending) && i <= j < |chain|
    ensures HistoryOf(x, chain[j]) <= HistoryOf(x, chain[i])
    decreases j - i
  {
    hide Kept, PairChained, HistoryOf, OpsTo;
    if i < j {
      DownstreamIsPrefix(x, chain, pending, i + 1, j);
      PairIsPrefix(x, chain, pending, i);
    }
  }

  lemma PairIsPrefix<Q>(x: Exec<Actor<Q>, UserMsg>, chain: seq<Pid>, pending: seq<Envelope<UserMsg>>, i: nat)
    requires Kept(x, chain, pending) && i + 1 < |chain|
    ensures HistoryOf(x, chain[i + 1]) <= HistoryOf(x, chain[i])
  {
    hide InPlace, HistoryOf, OpsTo;
    assert PairChained(x, chain, pending, i);
  }

  /** Once no operation is queued for a replica, all replicas have the same history. */
  lemma {:induction false} QuietMeansEqual<Q>(x: Exec<Actor<Q>, UserMsg>, chain: seq<Pid>, i: nat)
    requires Kept(x, chain, []) && QuietAll(chain, x.queue) && i < |chain|
    ensures HistoryOf(x, chain[i]) == HistoryOf(x, chain[0])
  {
    if i > 0 {
      QuietMeansEqual(x, chain, i - 1);
      assert PairChained(x, chain, [], i - 1);
      NothingQueued([] + x.queue, chain, i);
    }
  }

  lemma {:induction false} NothingQueued(queue: seq<Envelope<UserMsg>>, chain: seq<Pid>, i: nat)
    requires QuietAll(chain, queue) && i < |chain| && chain[i] != chain[0]
    ensures OpsTo(queue, chain[i]) == []
  {
    if queue != [] {
      var before := queue[..|queue| - 1];
      assert queue[|queue| - 1] in queue;
      assert forall e | e in before :: e in queue;
      NothingQueued(before, chain, i);
    }
  }

  /** An operation completes only when every replica has it: when the last replica takes an operation
      and answers, all histories have it at the place where the last replica has put it. */
  lemma CompletionIsReplicated<Q(!new)>(other: Behavior<Q, UserMsg>, x: Exec<Actor<Q>, UserMsg>,
      chain: seq<Pid>, i: nat, depth: nat)
    requires QuietOthers(chain, other) && Kept(x, chain, []) && i < |chain| && x.queue != []
    requires var e := x.queue[0]; e.to == chain[|chain| - 1] && e.msg.User? && e.msg.user.Op?
    ensures var r := Turn(Behave(other), x, Receives, depth); r.Running? ==>
            var e, y := x.queue[0], r.exec;
            var place := |HistoryOf(x, e.to)|;
            && e.correlationId.Some?
            && y.emitted == x.emitted + [Envelope(e.correlationId.value.pid, e.to, User(OpComplete), e.correlationId)]
            && place < |HistoryOf(y, chain[i])| && HistoryOf(y, chain[i])[place] == e.msg.user.val
  {
    var e, last := x.queue[0], |chain| - 1;
    var z := x.(queue := x.queue[1..]);
    TurnKeeps(other, x, chain, Receives, depth);
    assert LinkInPlace(x, chain, last) && LinkInPlace(z, chain, last);
    LastAnswers(other, z, chain, e, depth);
    var r := Turn(Behave(other), x, Receives, depth);
    hide Route;
    if r.Running? {
      DownstreamIsPrefix(r.exec, chain, [], i, last);
    }
  }

  /** The last replica of a chain records the operation and answers the correlation id's pid. */
  lemma LastAnswers<Q>(other: Behavior<Q, UserMsg>, z: Exec<Actor<Q>, UserMsg>, chain: seq<Pid>,
      e: Envelope<UserMsg>, depth: nat)
    requires chain != [] && LinkInPlace(z, chain, |chain| - 1) && e.to == chain[|chain| - 1]
    requires e.msg.User? && e.msg.user.Op? && z.buffer == []
    ensures var r := Route(Behave(other), z, e, depth); r.Running? ==>
            && e.correlationId.Some?
            && r.exec.emitted == z.emitted +
               [Envelope(e.correlationId.value.pid, e.to, User(OpComplete), e.correlationId)]
            && HistoryOf(r.exec, e.to) == HistoryOf(z, e.to) + [e.msg.user.val]
  {
    hide Drain, HandleExecutorEnvelope;
    var h := Reaction(z.procs[e.to].replica, e.msg, e.correlationId);
    if h.Output? {
      var put := Put(z, e, ToProcess).(procs := z.procs[e.to := Link(h.process)], emitted := z.emitted + h.envelopes);
      assert z.buffer + h.envelopes == h.envelopes && put.(buffer := []) == put;
      AnswerEmits(other, put, h.envelopes[0], depth);
    }
  }

  /** Sending an answer on makes nothing and changes no process. */
  lemma AnswerEmits<Q>(other: Behavior<Q, UserMsg>, y: Exec<Actor<Q>, UserMsg>, out: Envelope<UserMsg>, depth: nat)
    requires !out.msg.GetMetrics?
    ensures var r := Drain(Behave(other), y, [out], depth);
            r.Running? && r.exec.emitted == y.emitted && r.exec.procs == y.procs
  {
    hide Route;
    assert [out][1..] == [];
  }

  /** Only the last replica of a chain answers; a replica before it passes the operation on. */
  lemma OnlyLastCompletes<Q>(x: Exec<Actor<Q>, UserMsg>, chain: seq<Pid>, pending: seq<Envelope<UserMsg>>,
      i: nat, msg: Msg<UserMsg>, cid: Option<CorrelationId>)
    requires Kept(x, chain, pending) && i < |chain|
    ensures LinkInPlace(x, chain, i)
    ensures var h := Reaction(x.procs[chain[i]].replica, msg, cid);
            h.Output? && (exists e :: e in h.envelopes && e.msg == User(OpComplete)) <==>
              i == |chain| - 1 && cid.Some? && msg.User? && msg.user.Op?
  {
    assert LinkInPlace(x, chain, i);
    var h := Reaction(x.procs[chain[i]].replica, msg, cid);
    if h.Output? && h.envelopes != [] {
      assert h.envelopes[0] in h.envelopes;
    }
  }
}
