/** More about routing: the place of each envelope, the order of output, and nesting. */
module ExecutorFacts {
  import opened Base
  import opened Ids
  import opened Messages
  import opened ExecutorState

  // ----- the routed envelope

  lemma {:induction false} DrainExtends<P, T>(behave: Behavior<P, T>, x: Exec<P, T>, es: seq<Envelope<T>>, depth: nat)
    requires x.buffer == [] && Drain(behave, x, es, depth).Running?
    ensures x.placed <= Drain(behave, x, es, depth).exec.placed
  {
    DrainAccounts(behave, x, es, depth);
  }

  lemma HandlePlaces<P, T>(behave: Behavior<P, T>, x: Exec<P, T>, e: Envelope<T>, depth: nat)
    requires x.buffer == [] && HandleExecutorEnvelope(behave, x, e, depth).Running?
    ensures x.placed + [Placed(e, ToExecutor)] <= HandleExecutorEnvelope(behave, x, e, depth).exec.placed
  {
    if e.msg.GetMetrics? {
      var put := Put(x, e, ToExecutor);
      var reply := MetricsReply(x.node, e.from, e.correlationId);
      RouteAccounts(behave, put.(replies := put.replies + [reply]), reply, depth - 1);
    }
  }

  /** Routing first puts the routed envelope where its address says. In particular an envelope for
      this node reaches the cluster server only when it is addressed to it, so an envelope that has
      arrived at its own node never leaves it again. */
  lemma RoutePlaces<P, T>(behave: Behavior<P, T>, x: Exec<P, T>, e: Envelope<T>, depth: nat)
    requires x.buffer == [] && Route(behave, x, e, depth).Running?
    ensures x.placed + [Placed(e, PlaceOf(x, e.to))] <= Route(behave, x, e, depth).exec.placed
    ensures e.to.node == x.node && !ForClusterServer(e.to) ==> PlaceOf(x, e.to) != ToCluster
  {
    if e.to.node == x.node && !RouteToProcess(behave, x, e, depth).NotFound? {
      if e.to == ExecutorPid(x.node) {
        HandlePlaces(behave, x, e, depth);
      } else if !ForClusterServer(e.to) {
        var Output(p, out) := behave(x.procs[e.to], e.msg, e.from, e.correlationId);
        var y := Put(x, e, ToProcess).(procs := x.procs[e.to := p], emitted := x.emitted + out);
        assert x.buffer + out == out;
        DrainExtends(behave, y, out, depth);
      }
    }
  }

  // ----- the order of output

  /** The output asks the executor for no metrics. */
  ghost predicate NoMetrics<T>(node: NodeId, es: seq<Envelope<T>>) {
    forall e | e in es :: e.to == ExecutorPid(node) ==> !e.msg.GetMetrics?
  }

  function Local<T>(node: NodeId): Envelope<T> -> bool {
    (e: Envelope<T>) => e.to != ExecutorPid(node) && e.to.node == node
  }

  function Remote<T>(node: NodeId): Envelope<T> -> bool {
    (e: Envelope<T>) => e.to.node != node
  }

  function Own<T>(node: NodeId): Envelope<T> -> bool {
    (e: Envelope<T>) => e.to == ExecutorPid(node)
  }

  /** From `x` to `y` the envelopes `es` were sent on in order: to the executor's own channel, to the
      cluster server, or to the executor itself. Nothing else happened. */
  ghost predicate SentInOrder<P, T>(x: Exec<P, T>, y: Exec<P, T>, es: seq<Envelope<T>>) {
    && y.node == x.node && y.procs == x.procs && y.buffer == x.buffer && y.served == x.served
    && y.queue == x.queue + Filter(es, Local(x.node))
    && y.cluster == x.cluster + Filter(es, Remote(x.node))
    && At(y.placed, ToExecutor) == At(x.placed, ToExecutor) + Filter(es, Own(x.node))
  }

  /** Output without metrics requests is sent on in the order in which it was emitted. */
  lemma {:induction false} DrainKeepsOrder<P, T>(behave: Behavior<P, T>, x: Exec<P, T>, es: seq<Envelope<T>>,
      depth: nat)
    requires NoMetrics(x.node, es)
    ensures var r := Drain(behave, x, es, depth);
            r.Running? && SentInOrder(x, r.exec, es)
    decreases |es|
  {
    if es == [] {
    } else {
      hide SentInOrder;
      var e, rest := es[0], es[1..];
      assert e in es && es == [e] + rest;
      var y := SentOne(behave, x, es, depth);
      assert NoMetrics(x.node, rest) by {
        assert forall f | f in rest :: f in es;
      }
      SentNode(x, y, e);
      DrainKeepsOrder(behave, y, rest, depth);
      SentCompose(x, y, Drain(behave, y, rest, depth).exec, e, rest);
    }
  }

  lemma SentNode<P, T>(x: Exec<P, T>, y: Exec<P, T>, e: Envelope<T>)
    requires SentInOrder(x, y, [e])
    ensures y.node == x.node
  {
  }

  lemma HandleSimple<P, T>(behave: Behavior<P, T>, x: Exec<P, T>, e: Envelope<T>, depth: nat) returns (y: Exec<P, T>)
    requires !e.msg.GetMetrics?
    ensures HandleExecutorEnvelope(behave, x, e, depth) == Running(y)
    ensures exists timers :: y == Put(x, e, ToExecutor).(timers := timers)
  {
    hide Route;
    y := HandleExecutorEnvelope(behave, x, e, depth).exec;
    assert y == Put(x, e, ToExecutor).(timers := y.timers);
  }

  lemma SentBy<P, T>(x: Exec<P, T>, y: Exec<P, T>, e: Envelope<T>, place: Place)
    requires place == if e.to == ExecutorPid(x.node) then ToExecutor
                      else if e.to.node == x.node then ToQueue
                      else ToCluster
    requires exists timers :: y == Put(x, e, place).(timers := timers)
    ensures SentInOrder(x, y, [e])
  {
    AtConcat(x.placed, [Placed(e, place)], ToExecutor);
    AtOne(Placed(e, place), ToExecutor);
    FilterOne(e, Local(x.node));
    FilterOne(e, Remote(x.node));
    FilterOne(e, Own(x.node));
    hide At, Filter;
  }

  /** One turn of the drain loop. */
  lemma SentOne<P, T>(behave: Behavior<P, T>, x: Exec<P, T>, es: seq<Envelope<T>>, depth: nat) returns (y: Exec<P, T>)
    requires es != [] && (es[0].to == ExecutorPid(x.node) ==> !es[0].msg.GetMetrics?)
    ensures Drain(behave, x, es, depth) == Drain(behave, y, es[1..], depth)
    ensures SentInOrder(x, y, [es[0]])
  {
    hide SentInOrder, HandleExecutorEnvelope, Put;
    var e := es[0];
    if e.to == ExecutorPid(x.node) {
      y := HandleSimple(behave, x, e, depth);
      SentBy(x, y, e, ToExecutor);
    } else {
      var place := if e.to.node == x.node then ToQueue else ToCluster;
      y := Put(x, e, place);
      assert y == Put(x, e, place).(timers := y.timers);
      SentBy(x, y, e, place);
    }
  }

  lemma SentCompose<P, T>(x: Exec<P, T>, y: Exec<P, T>, z: Exec<P, T>, e: Envelope<T>, rest: seq<Envelope<T>>)
    requires SentInOrder(x, y, [e]) && SentInOrder(y, z, rest)
    ensures SentInOrder(x, z, [e] + rest)
  {
    FilterConcat([e], rest, Local(x.node));
    FilterConcat([e], rest, Remote(x.node));
    FilterConcat([e], rest, Own(x.node));
    hide At, Filter;
  }

  /** A local envelope for a process: the process takes it, and its output, when it asks for no
      metrics, goes out in order. */
  lemma ProcessOutputInOrder<P, T>(behave: Behavior<P, T>, x: Exec<P, T>, e: Envelope<T>, depth: nat, p: P,
      out: seq<Envelope<T>>)
    requires x.buffer == [] && e.to.node == x.node && PlaceOf(x, e.to) == ToProcess && !Ungrouped(e.to)
    requires behave(x.procs[e.to], e.msg, e.from, e.correlationId) == Output(p, out)
    requires NoMetrics(x.node, out)
    ensures var r := Route(behave, x, e, depth);
            && r.Running?
            && r.exec.procs == x.procs[e.to := p]
            && r.exec.queue == x.queue + Filter(out, Local(x.node))
            && r.exec.cluster == x.cluster + Filter(out, Remote(x.node))
            && r.exec.served == x.served && r.exec.buffer == [] && r.exec.node == x.node
  {
    var y := Put(x, e, ToProcess).(procs := x.procs[e.to := p], emitted := x.emitted + out);
    assert x.buffer + out == out;
    DrainKeepsOrder(behave, y, out, depth);
  }

  // ----- nesting

  /** A larger allowance for nested metrics requests changes nothing once the allowance suffices. */
  lemma {:induction false} RouteDepth<P, T>(behave: Behavior<P, T>, x: Exec<P, T>, e: Envelope<T>, depth: nat)
    requires !Route(behave, x, e, depth).Deeper?
    ensures Route(behave, x, e, depth + 1) == Route(behave, x, e, depth)
    decreases depth, 3, 0
  {
    if e.to.node == x.node {
      if e.to == ExecutorPid(x.node) {
        HandleDepth(behave, x, e, depth);
      } else if !Ungrouped(e.to) && !ForClusterServer(e.to) && e.to in x.procs {
        var h := behave(x.procs[e.to], e.msg, e.from, e.correlationId);
        if h.Output? {
          var y := Put(x, e, ToProcess).(procs := x.procs[e.to := h.process], emitted := x.emitted + h.envelopes);
          DrainDepth(behave, y.(buffer := []), x.buffer + h.envelopes, depth);
        }
      }
    }
  }

  lemma {:induction false} DrainDepth<P, T>(behave: Behavior<P, T>, x: Exec<P, T>, es: seq<Envelope<T>>, depth: nat)
    requires !Drain(behave, x, es, depth).Deeper?
    ensures Drain(behave, x, es, depth + 1) == Drain(behave, x, es, depth)
    decreases depth, 2, |es|
  {
    if es != [] {
      var e := es[0];
      if e.to == ExecutorPid(x.node) {
        HandleDepth(behave, x, e, depth);
        var r := HandleExecutorEnvelope(behave, x, e, depth);
        if r.Running? {
          DrainDepth(behave, r.exec, es[1..], depth);
        }
      } else {
        DrainDepth(behave, Put(x, e, if e.to.node == x.node then ToQueue else ToCluster), es[1..], depth);
      }
    }
  }

  lemma {:induction false} HandleDepth<P, T>(behave: Behavior<P, T>, x: Exec<P, T>, e: Envelope<T>, depth: nat)
    requires !HandleExecutorEnvelope(behave, x, e, depth).Deeper?
    ensures HandleExecutorEnvelope(behave, x, e, depth + 1) == HandleExecutorEnvelope(behave, x, e, depth)
    decreases depth, 1, 0
  {
    if e.msg.GetMetrics? && depth > 0 {
      var put := Put(x, e, ToExecutor);
      var reply := MetricsReply(x.node, e.from, e.correlationId);
      RouteDepth(behave, put.(replies := put.replies + [reply]), reply, depth - 1);
    }
  }
}
