/** Routing of envelopes on one node. A route can re-enter itself: a metrics request found while the
    output of a process is being sent on is answered by routing the reply at once. */
module ExecutorState {
  import opened Base
  import opened Ids
  import opened Messages

  /** Where an envelope ends. */
  datatype Place = ToExecutor | ToProcess | ToService | ToCluster | ToQueue | Dropped

  datatype Placed<+T> = Placed(envelope: Envelope<T>, place: Place)

  /** What a process does with a message: its new state and output, or a panic. */
  datatype Handled<+P, +T> = Output(process: P, envelopes: seq<Envelope<T>>) | Panic

  type Behavior<!P, !T> = (P, Msg<T>, Pid, Option<CorrelationId>) -> Handled<P, T>

  /** The executor: `queue` is its own channel, `cluster` and `served` what it has sent to the
      cluster server and to services, `buffer` the vector that processes push their output to.
      `placed` records where every envelope went, `emitted` and `replies` where envelopes come from:
      processes, and the executor's own answers. */
  datatype Exec<P, T> = Exec(
    node: NodeId,
    procs: map<Pid, P>,
    services: set<Pid>,
    timers: set<(Pid, Option<CorrelationId>)>,
    queue: seq<Envelope<T>>,
    cluster: seq<Envelope<T>>,
    served: seq<Envelope<T>>,
    buffer: seq<Envelope<T>>,
    placed: seq<Placed<T>>,
    emitted: seq<Envelope<T>>,
    replies: seq<Envelope<T>>)

  /** `Deeper`: metrics requests are nested deeper than the allowance. */
  datatype Routed<P, T> = Running(exec: Exec<P, T>) | NotFound | Panicked | Deeper

  /** Put an envelope where it belongs. */
  function Put<P, T>(x: Exec<P, T>, e: Envelope<T>, place: Place): Exec<P, T> {
    var y := x.(placed := x.placed + [Placed(e, place)]);
    match place
    case ToQueue => y.(queue := y.queue + [e])
    case ToCluster => y.(cluster := y.cluster + [e])
    case ToService => y.(served := y.served + [e])
    case _ => y
  }

  function MetricsReply<T>(node: NodeId, to: Pid, cid: Option<CorrelationId>): Envelope<T> {
    Envelope(to, ExecutorPid(node), Metrics, cid)
  }

  predicate ForClusterServer(pid: Pid) {
    pid.name == "cluster_server" && pid.group == Some("rabble")
  }

  /** A pid that makes the executor panic: the name of the cluster server without a group. */
  predicate Ungrouped(pid: Pid) {
    pid.name == "cluster_server" && pid.group == None
  }

  function Route<P, T>(behave: Behavior<P, T>, x: Exec<P, T>, e: Envelope<T>, depth: nat): Routed<P, T>
    decreases depth, 4, 0
  {
    if e.to.node != x.node then Running(Put(x, e, ToCluster))
    else
      var r := RouteToProcess(behave, x, e, depth);
      if r.NotFound? then Running(RouteToService(x, e)) else r
  }

  function RouteToService<P, T>(x: Exec<P, T>, e: Envelope<T>): Exec<P, T> {
    Put(x, e, if e.to in x.services then ToService else Dropped)
  }

  function RouteToProcess<P, T>(behave: Behavior<P, T>, x: Exec<P, T>, e: Envelope<T>, depth: nat): Routed<P, T>
    decreases depth, 3, 0
  {
    if e.to == ExecutorPid(x.node) then HandleExecutorEnvelope(behave, x, e, depth)
    else if Ungrouped(e.to) then Panicked
    else if ForClusterServer(e.to) then Running(Put(x, e, ToCluster))
    else if e.to in x.procs then
      match behave(x.procs[e.to], e.msg, e.from, e.correlationId)
      case Panic => Panicked
      case Output(p, out) =>
        var y := Put(x, e, ToProcess).(procs := x.procs[e.to := p], emitted := x.emitted + out);
        var r := Drain(behave, y.(buffer := []), x.buffer + out, depth);
        if r.Running? then Running(r.exec.(buffer := [])) else r
    else NotFound
  }

  /** Send on the envelopes that a process has pushed, first to last. */
  function Drain<P, T>(behave: Behavior<P, T>, x: Exec<P, T>, es: seq<Envelope<T>>, depth: nat): (r: Routed<P, T>)
    ensures !r.NotFound?
    decreases depth, 2, |es|
  {
    if es == [] then Running(x)
    else
      var e := es[0];
      if e.to == ExecutorPid(x.node) then
        var r := HandleExecutorEnvelope(behave, x, e, depth);
        if r.Running? then Drain(behave, r.exec, es[1..], depth) else r
      else Drain(behave, Put(x, e, if e.to.node == x.node then ToQueue else ToCluster), es[1..], depth)
  }

  function HandleExecutorEnvelope<P, T>(behave: Behavior<P, T>, x: Exec<P, T>, e: Envelope<T>,
      depth: nat): (r: Routed<P, T>)
    ensures !r.NotFound?
    decreases depth, 1, 0
  {
    var y := Put(x, e, ToExecutor);
    match e.msg
    case StartTimer(_) => Running(y.(timers := y.timers + {(e.from, e.correlationId)}))
    case CancelTimer(timer) => Running(y.(timers := y.timers - {(e.from, timer)}))
    case GetMetrics =>
      if depth == 0 then Deeper
      else
        var reply := MetricsReply(x.node, e.from, e.correlationId);
        Route(behave, y.(replies := y.replies + [reply]), reply, depth - 1)
    case _ => Running(y)
  }

  // ----- where an envelope goes

  /** The place of an envelope, from its address alone. */
  function PlaceOf<P, T>(x: Exec<P, T>, to: Pid): Place {
    if to.node != x.node then ToCluster
    else if to == ExecutorPid(x.node) then ToExecutor
    else if ForClusterServer(to) then ToCluster
    else if to in x.procs then ToProcess
    else if to in x.services then ToService
    else Dropped
  }

  function EnvelopesOf<T>(placed: seq<Placed<T>>): seq<Envelope<T>> {
    seq(|placed|, i requires 0 <= i < |placed| => placed[i].envelope)
  }

  function Is<T>(place: Place): Placed<T> -> bool {
    (p: Placed<T>) => p.place == place
  }

  /** The envelopes placed at `place`, in order. */
  function At<T>(placed: seq<Placed<T>>, place: Place): seq<Envelope<T>> {
    EnvelopesOf(Filter(placed, Is(place)))
  }

  lemma AtConcat<T>(a: seq<Placed<T>>, b: seq<Placed<T>>, place: Place)
    ensures At(a + b, place) == At(a, place) + At(b, place)
  {
    FilterConcat(a, b, Is(place));
    hide Filter;
  }

  lemma AtOne<T>(one: Placed<T>, place: Place)
    ensures At([one], place) == if one.place == place then [one.envelope] else []
  {
    FilterOne(one, Is(place));
    hide Filter;
  }

  /** All envelopes that have been placed, and all that processes and the executor have made. */
  ghost function Gone<P, T>(x: Exec<P, T>): multiset<Envelope<T>> {
    multiset(EnvelopesOf(x.placed))
  }

  ghost function Made<P, T>(x: Exec<P, T>): multiset<Envelope<T>> {
    multiset(x.emitted) + multiset(x.replies)
  }

  /** From `x` to `y`, everything placed is `es` or was made meanwhile, and the other way round. */
  ghost predicate Balanced<P, T>(x: Exec<P, T>, y: Exec<P, T>, es: multiset<Envelope<T>>) {
    Gone(y) + Made(x) == Gone(x) + es + Made(y)
  }

  /** The channels received exactly what was placed there, in that order. */
  ghost predicate Flows<P, T>(x: Exec<P, T>, y: Exec<P, T>) {
    && x.placed <= y.placed
    && y.queue == x.queue + At(y.placed[|x.placed|..], ToQueue)
    && y.cluster == x.cluster + At(y.placed[|x.placed|..], ToCluster)
    && y.served == x.served + At(y.placed[|x.placed|..], ToService)
  }

  /** Between `x` and `y` every envelope of `es`, and every one that was made meanwhile, went to
      exactly one place. */
  ghost predicate Accounts<P, T>(x: Exec<P, T>, y: Exec<P, T>, es: multiset<Envelope<T>>) {
    && y.node == x.node && y.services == x.services && y.procs.Keys == x.procs.Keys
    && y.buffer == x.buffer
    && Flows(x, y)
    && Balanced(x, y, es)
  }

  lemma PutAccounts<P, T>(x: Exec<P, T>, e: Envelope<T>, place: Place)
    ensures Accounts(x, Put(x, e, place), multiset{e})
    ensures Put(x, e, place).placed[|x.placed|..] == [Placed(e, place)]
  {
    hide At;
    var y := Put(x, e, place);
    var added := y.placed[|x.placed|..];
    assert added == [Placed(e, place)];
    AtOne(Placed(e, place), ToQueue);
    AtOne(Placed(e, place), ToCluster);
    AtOne(Placed(e, place), ToService);
    assert EnvelopesOf(y.placed) == EnvelopesOf(x.placed) + [e];
  }

  lemma FlowsCompose<P, T>(x: Exec<P, T>, y: Exec<P, T>, z: Exec<P, T>)
    requires Flows(x, y) && Flows(y, z)
    ensures Flows(x, z)
  {
    hide At;
    var one, two := y.placed[|x.placed|..], z.placed[|y.placed|..];
    AddedTwice(x.placed, y.placed, z.placed);
    ChannelGrows(one, two, ToQueue, x.queue, y.queue, z.queue);
    ChannelGrows(one, two, ToCluster, x.cluster, y.cluster, z.cluster);
    ChannelGrows(one, two, ToService, x.served, y.served, z.served);
  }

  lemma AddedTwice<V>(a: seq<V>, b: seq<V>, c: seq<V>)
    requires a <= b <= c
    ensures a <= c && c[|a|..] == b[|a|..] + c[|b|..]
  {
  }

  lemma ChannelGrows<T>(one: seq<Placed<T>>, two: seq<Placed<T>>, place: Place, x: seq<Envelope<T>>,
      y: seq<Envelope<T>>, z: seq<Envelope<T>>)
    requires y == x + At(one, place) && z == y + At(two, place)
    ensures z == x + At(one + two, place)
  {
    AtConcat(one, two, place);
    hide At;
    assert (x + At(one, place)) + At(two, place) == x + (At(one, place) + At(two, place));
  }

  lemma SumsCompose<V>(gx: multiset<V>, gy: multiset<V>, gz: multiset<V>,
                       mx: multiset<V>, my: multiset<V>, mz: multiset<V>, a: multiset<V>, b: multiset<V>)
    requires gy + mx == gx + a + my
    requires gz + my == gy + b + mz
    ensures gz + mx == gx + (a + b) + mz
  {
    forall v ensures (gz + mx)[v] == (gx + (a + b) + mz)[v] {
      assert (gy + mx)[v] == (gx + a + my)[v];
      assert (gz + my)[v] == (gy + b + mz)[v];
    }
  }

  lemma AccountsCompose<P, T>(x: Exec<P, T>, y: Exec<P, T>, z: Exec<P, T>, a: multiset<Envelope<T>>,
      b: multiset<Envelope<T>>)
    requires Accounts(x, y, a) && Accounts(y, z, b)
    ensures Accounts(x, z, a + b)
  {
    FlowsCompose(x, y, z);
    SumsCompose(Gone(x), Gone(y), Gone(z), Made(x), Made(y), Made(z), a, b);
  }

  /** Envelopes that are made now are accounted for later. */
  lemma AccountsMaking<P, T>(x: Exec<P, T>, y: Exec<P, T>, z: Exec<P, T>, emitted: seq<Envelope<T>>,
      replies: seq<Envelope<T>>)
    requires y == x.(emitted := x.emitted + emitted, replies := x.replies + replies, procs := y.procs)
    requires y.procs.Keys == x.procs.Keys
    requires Accounts(y, z, multiset(emitted) + multiset(replies))
    ensures Accounts(x, z, multiset{})
  {
    var made := multiset(emitted) + multiset(replies);
    assert Made(y) == Made(x) + made;
    forall v ensures (Gone(z) + Made(x))[v] == (Gone(x) + multiset{} + Made(z))[v] {
      assert (Gone(z) + Made(y))[v] == (Gone(y) + made + Made(z))[v];
      assert (Made(x) + made)[v] == Made(y)[v];
    }
  }

  /** Routing one envelope accounts for it and for everything made on the way, and leaves the shared
      buffer empty, however deep metrics replies re-enter routing. */
  lemma {:induction false} RouteAccounts<P, T>(behave: Behavior<P, T>, x: Exec<P, T>, e: Envelope<T>, depth: nat)
    requires x.buffer == [] && Route(behave, x, e, depth).Running?
    ensures Accounts(x, Route(behave, x, e, depth).exec, multiset{e})
    decreases depth, 4, 0
  {
    if e.to.node != x.node {
      PutAccounts(x, e, ToCluster);
    } else {
      var r := RouteToProcess(behave, x, e, depth);
      if r.NotFound? {
        PutAccounts(x, e, if e.to in x.services then ToService else Dropped);
      } else {
        RouteToProcessAccounts(behave, x, e, depth);
      }
    }
  }

  lemma {:induction false} RouteToProcessAccounts<P, T>(behave: Behavior<P, T>, x: Exec<P, T>, e: Envelope<T>,
      depth: nat)
    requires x.buffer == [] && RouteToProcess(behave, x, e, depth).Running?
    ensures Accounts(x, RouteToProcess(behave, x, e, depth).exec, multiset{e})
    decreases depth, 3, 0
  {
    if e.to == ExecutorPid(x.node) {
      HandleAccounts(behave, x, e, depth);
    } else if ForClusterServer(e.to) {
      PutAccounts(x, e, ToCluster);
    } else {
      var Output(p, out) := behave(x.procs[e.to], e.msg, e.from, e.correlationId);
      var put := Put(x, e, ToProcess);
      var y := put.(procs := x.procs[e.to := p], emitted := x.emitted + out);
      assert x.buffer + out == out;
      DrainAccounts(behave, y, out, depth);
      var z := Drain(behave, y, out, depth).exec;
      PutAccounts(x, e, ToProcess);
      assert put.procs[e.to := p].Keys == put.procs.Keys;
      assert multiset(out) + multiset([]) == multiset(out);
      assert y.replies == put.replies + [];
      AccountsMaking(put, y, z, out, []);
      assert multiset{e} + multiset{} == multiset{e};
      AccountsCompose(x, put, z, multiset{e}, multiset{});
    }
  }

  lemma {:induction false} DrainAccounts<P, T>(behave: Behavior<P, T>, x: Exec<P, T>, es: seq<Envelope<T>>, depth: nat)
    requires x.buffer == [] && Drain(behave, x, es, depth).Running?
    ensures Accounts(x, Drain(behave, x, es, depth).exec, multiset(es))
    decreases depth, 2, |es|
  {
    if es != [] {
      var e := es[0];
      assert es == [e] + es[1..];
      if e.to == ExecutorPid(x.node) {
        HandleAccounts(behave, x, e, depth);
        var y := HandleExecutorEnvelope(behave, x, e, depth).exec;
        DrainAccounts(behave, y, es[1..], depth);
        AccountsCompose(x, y, Drain(behave, x, es, depth).exec, multiset{e}, multiset(es[1..]));
      } else {
        var y := Put(x, e, if e.to.node == x.node then ToQueue else ToCluster);
        PutAccounts(x, e, if e.to.node == x.node then ToQueue else ToCluster);
        DrainAccounts(behave, y, es[1..], depth);
        AccountsCompose(x, y, Drain(behave, x, es, depth).exec, multiset{e}, multiset(es[1..]));
      }
    } else {
      assert x.placed[|x.placed|..] == [];
    }
  }

  lemma {:induction false} HandleAccounts<P, T>(behave: Behavior<P, T>, x: Exec<P, T>, e: Envelope<T>, depth: nat)
    requires x.buffer == [] && HandleExecutorEnvelope(behave, x, e, depth).Running?
    ensures Accounts(x, HandleExecutorEnvelope(behave, x, e, depth).exec, multiset{e})
    decreases depth, 1, 0
  {
    hide Accounts, Route, Balanced, Flows;
    PutAccounts(x, e, ToExecutor);
    if e.msg.GetMetrics? {
      var put := Put(x, e, ToExecutor);
      var reply := MetricsReply(x.node, e.from, e.correlationId);
      var y := put.(replies := put.replies + [reply]);
      RouteAccounts(behave, y, reply, depth - 1);
      var z := Route(behave, y, reply, depth - 1).exec;
      assert multiset([]) + multiset([reply]) == multiset{reply};
      assert y.emitted == put.emitted + [];
      AccountsMaking(put, y, z, [], [reply]);
      assert multiset{e} + multiset{} == multiset{e};
      AccountsCompose(x, put, z, multiset{e}, multiset{});
    } else {
      var y := HandleExecutorEnvelope(behave, x, e, depth).exec;
      TimersAside(x, Put(x, e, ToExecutor), y, multiset{e});
    }
  }

  lemma TimersAside<P, T>(x: Exec<P, T>, y: Exec<P, T>, z: Exec<P, T>, es: multiset<Envelope<T>>)
    requires Accounts(x, y, es) && z == y.(timers := z.timers)
    ensures Accounts(x, z, es)
  {
  }
}
