/** When an executor panics. A process may panic on a message. And the name `cluster_server` is looked at before the
    group is, so a pid of that name without a group is fatal: as the address of an envelope, and as the sender of a
    metrics request, since that is where the reply goes. */
module ExecutorPanics {
  import opened Base
  import opened Ids
  import opened Messages
  import opened ExecutorState
  import opened ExecutorRuns

  /** A request for metrics whose reply would go to an ungrouped `cluster_server` on this node. */
  predicate FatalRequest<T>(node: NodeId, e: Envelope<T>) {
    e.to == ExecutorPid(node) && e.msg.GetMetrics? && e.from.node == node && Ungrouped(e.from)
  }

  /** Routing this envelope on `node` is fatal. */
  predicate Harms<T>(node: NodeId, e: Envelope<T>) {
    e.to.node == node && (Ungrouped(e.to) || FatalRequest(node, e))
  }

  ghost predicate NoneHarms<T>(node: NodeId, es: seq<Envelope<T>>) {
    forall e | e in es :: !Harms(node, e)
  }

  /** No process panics by itself or makes a harmful envelope. */
  ghost predicate Polite<P(!new), T(!new)>(behave: Behavior<P, T>, node: NodeId) {
    forall p, msg, from, cid ::
      behave(p, msg, from, cid).Output? && NoneHarms(node, behave(p, msg, from, cid).envelopes)
  }

  /** A call that started in `x` leaves no harmful envelope in the queue if there was none before. */
  ghost predicate KeepsQueue<P, T>(x: Exec<P, T>, r: Routed<P, T>) {
    r.Running? && NoneHarms(x.node, x.queue) ==> r.exec.node == x.node && NoneHarms(x.node, r.exec.queue)
  }

  lemma PutKeepsQueue<P, T>(x: Exec<P, T>, e: Envelope<T>, place: Place)
    requires place != ToQueue || !Harms(x.node, e)
    ensures KeepsQueue(x, Running(Put(x, e, place)))
  {
  }

  lemma KeepsQueueCompose<P, T>(x: Exec<P, T>, y: Exec<P, T>, r: Routed<P, T>)
    requires KeepsQueue(x, Running(y)) && KeepsQueue(y, r) && y.node == x.node
    ensures KeepsQueue(x, r)
  {
  }

  // ----- what is fatal in a given state

  /** Envelopes for `to` are handed to a process. */
  predicate Handles<P, T>(x: Exec<P, T>, to: Pid) {
    to in x.procs && to != ExecutorPid(x.node) && !Ungrouped(to) && !ForClusterServer(to)
  }

  /** The process that the envelope is for panics on it. */
  predicate Upsets<P, T>(behave: Behavior<P, T>, x: Exec<P, T>, e: Envelope<T>) {
    Handles(x, e.to) && behave(x.procs[e.to], e.msg, e.from, e.correlationId).Panic?
  }

  /** A metrics request whose reply goes to an ungrouped `cluster_server` or to a process that panics on it. */
  predicate FatalReply<P, T>(behave: Behavior<P, T>, x: Exec<P, T>, e: Envelope<T>) {
    e.msg.GetMetrics? && e.from.node == x.node &&
    (Ungrouped(e.from) || Upsets(behave, x, MetricsReply(x.node, e.from, e.correlationId)))
  }

  /** Routing this envelope is fatal. */
  predicate Fatal<P, T>(behave: Behavior<P, T>, x: Exec<P, T>, e: Envelope<T>) {
    e.to.node == x.node &&
    (Ungrouped(e.to) || Upsets(behave, x, e) || (e.to == ExecutorPid(x.node) && FatalReply(behave, x, e)))
  }

  /** Both processes panic on the same messages. */
  ghost predicate SameTemper<P, T(!new)>(behave: Behavior<P, T>, p: P, q: P) {
    forall msg, from, cid :: behave(p, msg, from, cid).Panic? <==> behave(q, msg, from, cid).Panic?
  }

  /** What a process panics on does not change. */
  ghost predicate Steady<P(!new), T(!new)>(behave: Behavior<P, T>) {
    forall p, msg, from, cid | behave(p, msg, from, cid).Output? ::
      SameTemper(behave, p, behave(p, msg, from, cid).process)
  }

  /** No process makes a metrics request whose reply is fatal. */
  ghost predicate Mannered<P(!new), T(!new)>(behave: Behavior<P, T>, x: Exec<P, T>) {
    forall p, msg, from, cid | behave(p, msg, from, cid).Output? ::
      SafeRequests(behave, x, behave(p, msg, from, cid).envelopes)
  }

  ghost predicate SafeRequests<P, T>(behave: Behavior<P, T>, x: Exec<P, T>, es: seq<Envelope<T>>) {
    forall e | e in es && e.to == ExecutorPid(x.node) :: !FatalReply(behave, x, e)
  }

  /** The same processes are registered, and they panic on the same messages. */
  ghost predicate SameCast<P, T(!new)>(behave: Behavior<P, T>, x: Exec<P, T>, y: Exec<P, T>) {
    && y.node == x.node && y.procs.Keys == x.procs.Keys
    && forall pid | pid in x.procs :: SameTemper(behave, x.procs[pid], y.procs[pid])
  }

  ghost predicate KeepsCast<P, T(!new)>(behave: Behavior<P, T>, x: Exec<P, T>, r: Routed<P, T>) {
    r.Running? ==> SameCast(behave, x, r.exec) && r.exec.buffer == []
  }

  lemma SameCastSameFate<P, T(!new)>(behave: Behavior<P, T>, x: Exec<P, T>, y: Exec<P, T>, e: Envelope<T>)
    requires SameCast(behave, x, y)
    ensures Upsets(behave, x, e) <==> Upsets(behave, y, e)
    ensures FatalReply(behave, x, e) <==> FatalReply(behave, y, e)
    ensures Fatal(behave, x, e) <==> Fatal(behave, y, e)
  {
    UpsetsAlike(behave, x, y, e);
    UpsetsAlike(behave, x, y, MetricsReply(x.node, e.from, e.correlationId));
    hide Upsets;
  }

  lemma UpsetsAlike<P, T(!new)>(behave: Behavior<P, T>, x: Exec<P, T>, y: Exec<P, T>, e: Envelope<T>)
    requires SameCast(behave, x, y)
    ensures Upsets(behave, x, e) <==> Upsets(behave, y, e)
  {
    if e.to in x.procs {
      assert SameTemper(behave, x.procs[e.to], y.procs[e.to]);
    }
  }

  lemma SameCastSameManners<P(!new), T(!new)>(behave: Behavior<P, T>, x: Exec<P, T>, y: Exec<P, T>)
    requires SameCast(behave, x, y)
    ensures Mannered(behave, x) <==> Mannered(behave, y)
    ensures forall es :: SafeRequests(behave, x, es) <==> SafeRequests(behave, y, es)
  {
    forall es ensures SafeRequests(behave, x, es) <==> SafeRequests(behave, y, es) {
      forall e | e in es ensures FatalReply(behave, x, e) <==> FatalReply(behave, y, e) {
        SameCastSameFate(behave, x, y, e);
      }
    }
    hide SafeRequests;
  }

  lemma SameCastCompose<P, T(!new)>(behave: Behavior<P, T>, x: Exec<P, T>, y: Exec<P, T>, z: Exec<P, T>)
    requires SameCast(behave, x, y) && SameCast(behave, y, z)
    ensures SameCast(behave, x, z)
  {
    forall pid | pid in x.procs ensures SameTemper(behave, x.procs[pid], z.procs[pid]) {
      assert SameTemper(behave, x.procs[pid], y.procs[pid]) && SameTemper(behave, y.procs[pid], z.procs[pid]);
    }
  }

  lemma CastKept<P, T(!new)>(behave: Behavior<P, T>, x: Exec<P, T>, y: Exec<P, T>)
    requires y.node == x.node && y.procs == x.procs
    ensures SameCast(behave, x, y)
  {
  }

  lemma HandledKeepsCast<P(!new), T(!new)>(behave: Behavior<P, T>, x: Exec<P, T>, e: Envelope<T>, y: Exec<P, T>)
    requires Steady(behave) && e.to in x.procs && y.node == x.node
    requires var h := behave(x.procs[e.to], e.msg, e.from, e.correlationId);
             h.Output? && y.procs == x.procs[e.to := h.process]
    ensures SameCast(behave, x, y)
  {
    var h := behave(x.procs[e.to], e.msg, e.from, e.correlationId);
    assert SameTemper(behave, x.procs[e.to], h.process);
  }

  /** Polite processes are steady and mannered, and only what harms is fatal. */
  lemma PoliteIsMannered<P(!new), T(!new)>(behave: Behavior<P, T>, x: Exec<P, T>)
    requires Polite(behave, x.node)
    ensures Steady(behave) && Mannered(behave, x)
    ensures forall e :: Fatal(behave, x, e) <==> Harms(x.node, e)
    ensures forall e :: !Upsets(behave, x, e)
  {
    forall p, msg, from, cid
      ensures behave(p, msg, from, cid).Output? && SafeRequests(behave, x, behave(p, msg, from, cid).envelopes)
    {
      assert behave(p, msg, from, cid).Output? && NoneHarms(x.node, behave(p, msg, from, cid).envelopes);
    }
  }

  // ----- routing

  /** Exactly when routing panics: when the envelope is fatal, within the allowance for nesting. */
  lemma {:induction false} RoutePanicsExactly<P(!new), T(!new)>(behave: Behavior<P, T>, x: Exec<P, T>,
      e: Envelope<T>, depth: nat)
    requires Steady(behave) && Mannered(behave, x) && x.buffer == []
    ensures RouteToProcess(behave, x, e, depth).Panicked? <==>
              || Ungrouped(e.to) || Upsets(behave, x, e)
              || (e.to == ExecutorPid(x.node) && FatalReply(behave, x, e) && depth > 0)
    ensures Route(behave, x, e, depth).Panicked? <==>
              Fatal(behave, x, e) && (e.to == ExecutorPid(x.node) ==> depth > 0)
    ensures KeepsCast(behave, x, RouteToProcess(behave, x, e, depth))
    ensures KeepsCast(behave, x, Route(behave, x, e, depth))
    ensures Polite(behave, x.node) ==>
              KeepsQueue(x, RouteToProcess(behave, x, e, depth)) && KeepsQueue(x, Route(behave, x, e, depth))
    decreases depth, 3, 0
  {
    hide KeepsQueue, KeepsCast, Drain, HandleExecutorEnvelope, Put, FatalReply, Steady, Mannered, Polite;
    PutKeeps(behave, x, e, ToCluster);
    PutKeeps(behave, x, e, ToService);
    PutKeeps(behave, x, e, Dropped);
    NotRunningKeeps(behave, x);
    if e.to == ExecutorPid(x.node) {
      HandlePanicsExactly(behave, x, e, depth);
    } else if Handles(x, e.to) {
      ProcessPanicsExactly(behave, x, e, depth);
    }
  }

  lemma PutKeeps<P, T(!new)>(behave: Behavior<P, T>, x: Exec<P, T>, e: Envelope<T>, place: Place)
    requires x.buffer == []
    ensures place != ToQueue || !Harms(x.node, e) ==> KeepsQueue(x, Running(Put(x, e, place)))
    ensures KeepsCast(behave, x, Running(Put(x, e, place)))
  {
    hide KeepsQueue;
    if place != ToQueue || !Harms(x.node, e) {
      PutKeepsQueue(x, e, place);
    }
  }

  lemma NotRunningKeeps<P, T(!new)>(behave: Behavior<P, T>, x: Exec<P, T>)
    ensures KeepsQueue(x, NotFound) && KeepsQueue(x, Panicked) && KeepsQueue(x, Deeper)
    ensures KeepsCast(behave, x, NotFound) && KeepsCast(behave, x, Panicked) && KeepsCast(behave, x, Deeper)
  {
  }

  /** Handing an envelope to a process and sending on its output. */
  lemma {:induction false} ProcessPanicsExactly<P(!new), T(!new)>(behave: Behavior<P, T>, x: Exec<P, T>,
      e: Envelope<T>, depth: nat)
    requires Steady(behave) && Mannered(behave, x) && x.buffer == [] && Handles(x, e.to)
    ensures RouteToProcess(behave, x, e, depth).Panicked? <==> Upsets(behave, x, e)
    ensures KeepsCast(behave, x, RouteToProcess(behave, x, e, depth))
    ensures Polite(behave, x.node) ==> KeepsQueue(x, RouteToProcess(behave, x, e, depth))
    decreases depth, 2, |x.procs| + 1, 0
  {
    hide Drain, HandleExecutorEnvelope, KeepsQueue, Steady, Mannered, SafeRequests, SameCast, Polite, NoneHarms;
    NotRunningKeeps(behave, x);
    var h := behave(x.procs[e.to], e.msg, e.from, e.correlationId);
    if h.Output? {
      var y := Put(x, e, ToProcess).(procs := x.procs[e.to := h.process], emitted := x.emitted + h.envelopes);
      assert x.buffer + h.envelopes == h.envelopes && y.(buffer := []) == y;
      HandledKeepsCast(behave, x, e, y);
      SameCastSameManners(behave, x, y);
      OutputIsSafe(behave, x, x.procs[e.to], e);
      DrainNeverPanics(behave, y, h.envelopes, depth);
      var r := Drain(behave, y, h.envelopes, depth);
      SameQueue(x, y);
      KeepsQueueCompose(x, y, if Polite(behave, x.node) then r else Running(y));
      if r.Running? {
        SameCastCompose(behave, x, y, r.exec);
        assert r.exec.(buffer := []) == r.exec;
      }
    }
  }

  lemma OutputIsSafe<P(!new), T(!new)>(behave: Behavior<P, T>, x: Exec<P, T>, p: P, e: Envelope<T>)
    requires Mannered(behave, x) && behave(p, e.msg, e.from, e.correlationId).Output?
    ensures SafeRequests(behave, x, behave(p, e.msg, e.from, e.correlationId).envelopes)
    ensures Polite(behave, x.node) ==> NoneHarms(x.node, behave(p, e.msg, e.from, e.correlationId).envelopes)
  {
  }

  lemma {:induction false} DrainNeverPanics<P(!new), T(!new)>(behave: Behavior<P, T>, x: Exec<P, T>,
      es: seq<Envelope<T>>, depth: nat)
    requires Steady(behave) && Mannered(behave, x) && SafeRequests(behave, x, es) && x.buffer == []
    ensures !Drain(behave, x, es, depth).Panicked? && KeepsCast(behave, x, Drain(behave, x, es, depth))
    ensures Polite(behave, x.node) && NoneHarms(x.node, es) ==> KeepsQueue(x, Drain(behave, x, es, depth))
    decreases depth, 2, 0, |es|
  {
    hide Polite, KeepsQueue, HandleExecutorEnvelope, Steady, Mannered, SafeRequests, NoneHarms, FatalReply, SameCast;
    if es == [] {
      PutNothing(behave, x);
    } else {
      var e := es[0];
      HeadAndRest(behave, x, es);
      var place := if e.to.node == x.node then ToQueue else ToCluster;
      PutKeeps(behave, x, e, place);
      HandlePanicsExactly(behave, x, e, depth);
      NotRunningKeeps(behave, x);
      var r := if e.to == ExecutorPid(x.node) then HandleExecutorEnvelope(behave, x, e, depth)
               else Running(Put(x, e, place));
      if r.Running? {
        SameCastSameManners(behave, x, r.exec);
        DrainNeverPanics(behave, r.exec, es[1..], depth);
        var last := Drain(behave, r.exec, es[1..], depth);
        if last.Running? {
          SameCastCompose(behave, x, r.exec, last.exec);
        }
        if Polite(behave, x.node) && NoneHarms(x.node, es) {
          CastNode(behave, x, r.exec);
          KeepsQueueCompose(x, r.exec, last);
        }
      }
    }
  }

  lemma CastNode<P, T(!new)>(behave: Behavior<P, T>, x: Exec<P, T>, y: Exec<P, T>)
    requires SameCast(behave, x, y)
    ensures y.node == x.node && y.procs.Keys == x.procs.Keys
  {
  }

  lemma HeadAndRest<P, T>(behave: Behavior<P, T>, x: Exec<P, T>, es: seq<Envelope<T>>)
    requires es != []
    ensures SafeRequests(behave, x, es) ==>
              SafeRequests(behave, x, es[1..]) && (es[0].to == ExecutorPid(x.node) ==> !FatalReply(behave, x, es[0]))
    ensures NoneHarms(x.node, es) <==> NoneHarms(x.node, es[1..]) && !Harms(x.node, es[0])
  {
    assert es == [es[0]] + es[1..];
    assert forall f :: f in es <==> f == es[0] || f in es[1..];
  }

  lemma PutNothing<P, T(!new)>(behave: Behavior<P, T>, x: Exec<P, T>)
    requires x.buffer == []
    ensures KeepsQueue(x, Running(x)) && KeepsCast(behave, x, Running(x))
  {
  }

  lemma {:induction false} HandlePanicsExactly<P(!new), T(!new)>(behave: Behavior<P, T>, x: Exec<P, T>,
      e: Envelope<T>, depth: nat)
    requires Steady(behave) && Mannered(behave, x) && x.buffer == []
    ensures HandleExecutorEnvelope(behave, x, e, depth).Panicked? <==> FatalReply(behave, x, e) && depth > 0
    ensures KeepsCast(behave, x, HandleExecutorEnvelope(behave, x, e, depth))
    ensures Polite(behave, x.node) ==> KeepsQueue(x, HandleExecutorEnvelope(behave, x, e, depth))
    decreases depth, 1, 0, 0
  {
    hide Polite, Route, Steady, Mannered, SameCast, KeepsQueue, Upsets;
    PutKeeps(behave, x, e, ToExecutor);
    NotRunningKeeps(behave, x);
    if e.msg.GetMetrics? {
      if depth > 0 {
        var reply := MetricsReply(x.node, e.from, e.correlationId);
        var put := Put(x, e, ToExecutor);
        var y := put.(replies := put.replies + [reply]);
        CastKept(behave, x, y);
        SameCastSameManners(behave, x, y);
        UpsetsAlike(behave, x, y, reply);
        RoutePanicsExactly(behave, y, reply, depth - 1);
        ReplyIsFatal(behave, x, y, e);
        var r := Route(behave, y, reply, depth - 1);
        SameQueue(x, y);
        if Polite(behave, x.node) {
          KeepsQueueCompose(x, y, r);
        }
        if r.Running? {
          SameCastCompose(behave, x, y, r.exec);
        }
      }
    } else {
      HandlesQuietly(behave, x, e, depth);
    }
  }

  lemma ReplyIsFatal<P, T(!new)>(behave: Behavior<P, T>, x: Exec<P, T>, y: Exec<P, T>, e: Envelope<T>)
    requires y.node == x.node && e.msg.GetMetrics?
    requires var reply := MetricsReply(x.node, e.from, e.correlationId);
             Upsets(behave, x, reply) <==> Upsets(behave, y, reply)
    ensures Fatal(behave, y, MetricsReply(x.node, e.from, e.correlationId)) <==> FatalReply(behave, x, e)
    ensures Fatal(behave, y, MetricsReply(x.node, e.from, e.correlationId)) ==> e.from != ExecutorPid(x.node)
  {
  }

  /** Timers and anything else: the queue and the processes stay. */
  lemma HandlesQuietly<P, T(!new)>(behave: Behavior<P, T>, x: Exec<P, T>, e: Envelope<T>, depth: nat)
    requires !e.msg.GetMetrics? && x.buffer == []
    ensures var r := HandleExecutorEnvelope(behave, x, e, depth);
            r.Running? && KeepsQueue(x, r) && KeepsCast(behave, x, r)
  {
  }

  /** The two ways to bring an executor down, whatever runs on it: write to an ungrouped `cluster_server`, or
      ask for metrics in its name. */
  lemma UngroupedPanics<P, T>(behave: Behavior<P, T>, node: NodeId, from: Pid, msg: Msg<T>, cid: Option<CorrelationId>)
    ensures var bare := Pid(None, "cluster_server", node);
            && Route(behave, NewExec(node), Envelope(bare, from, msg, cid), 1) == Panicked
            && Route(behave, NewExec(node), Envelope(ExecutorPid(node), bare, GetMetrics, cid), 1) == Panicked
  {
  }

  // ----- turns of the run loop

  ghost predicate AnyFatal<P, T>(behave: Behavior<P, T>, x: Exec<P, T>, es: seq<Envelope<T>>) {
    exists e :: e in es && Fatal(behave, x, e)
  }

  lemma AnyFatalSplit<P, T(!new)>(behave: Behavior<P, T>, x: Exec<P, T>, es: seq<Envelope<T>>)
    requires es != []
    ensures AnyFatal(behave, x, es) <==> Fatal(behave, x, es[0]) || AnyFatal(behave, x, es[1..])
  {
    hide Fatal;
    assert es == [es[0]] + es[1..];
    if AnyFatal(behave, x, es) {
      var e :| e in es && Fatal(behave, x, e);
      assert e == es[0] || e in es[1..];
    }
    if Fatal(behave, x, es[0]) {
      assert es[0] in es;
    }
    if AnyFatal(behave, x, es[1..]) {
      var e :| e in es[1..] && Fatal(behave, x, e);
      assert e in es;
    }
  }

  lemma AnyFatalAlike<P, T(!new)>(behave: Behavior<P, T>, x: Exec<P, T>, y: Exec<P, T>, es: seq<Envelope<T>>)
    requires SameCast(behave, x, y)
    ensures AnyFatal(behave, x, es) <==> AnyFatal(behave, y, es)
  {
    forall e ensures Fatal(behave, x, e) <==> Fatal(behave, y, e) {
      SameCastSameFate(behave, x, y, e);
    }
    hide Fatal;
  }

  lemma {:induction false} StartPanicsExactly<P(!new), T(!new)>(behave: Behavior<P, T>, x: Exec<P, T>,
      es: seq<Envelope<T>>, depth: nat)
    requires Steady(behave) && Mannered(behave, x) && x.buffer == [] && !StartAll(behave, x, es, depth).Deeper?
    ensures StartAll(behave, x, es, depth).Panicked? <==> AnyFatal(behave, x, es)
    ensures KeepsCast(behave, x, StartAll(behave, x, es, depth))
    ensures Polite(behave, x.node) ==> KeepsQueue(x, StartAll(behave, x, es, depth))
    decreases |es|
  {
    hide Steady, Mannered, Polite, KeepsQueue, SameCast, HandleExecutorEnvelope, Route, AnyFatal, Fatal, SafeRequests;
    if es == [] {
      PutNothing(behave, x);
      NoneIsFatal(behave, x);
    } else {
      AnyFatalSplit(behave, x, es);
      StartOne(behave, x, es[0], depth);
      NotRunningKeeps(behave, x);
      var r := if es[0].to == ExecutorPid(x.node) then HandleExecutorEnvelope(behave, x, es[0], depth)
               else Route(behave, x, es[0], depth);
      if r.Running? {
        SameCastSameManners(behave, x, r.exec);
        AnyFatalAlike(behave, x, r.exec, es[1..]);
        StartPanicsExactly(behave, r.exec, es[1..], depth);
        CastNode(behave, x, r.exec);
        Continues(behave, x, r.exec, StartAll(behave, r.exec, es[1..], depth));
      }
    }
  }

  lemma NoneIsFatal<P, T>(behave: Behavior<P, T>, x: Exec<P, T>)
    ensures !AnyFatal(behave, x, [])
  {
  }

  /** What two steps keep, both keep. */
  lemma Continues<P(!new), T(!new)>(behave: Behavior<P, T>, x: Exec<P, T>, y: Exec<P, T>, r: Routed<P, T>)
    requires SameCast(behave, x, y) && KeepsCast(behave, y, r)
    requires Polite(behave, x.node) ==> KeepsQueue(x, Running(y)) && KeepsQueue(y, r)
    ensures KeepsCast(behave, x, r) && (Polite(behave, x.node) ==> KeepsQueue(x, r))
  {
    hide Polite, SameCast, KeepsQueue;
    CastNode(behave, x, y);
    if r.Running? {
      SameCastCompose(behave, x, y, r.exec);
    }
    if Polite(behave, x.node) {
      KeepsQueueCompose(x, y, r);
    }
  }

  lemma StartOne<P(!new), T(!new)>(behave: Behavior<P, T>, x: Exec<P, T>, e: Envelope<T>, depth: nat)
    requires Steady(behave) && Mannered(behave, x) && x.buffer == []
    ensures var r := if e.to == ExecutorPid(x.node) then HandleExecutorEnvelope(behave, x, e, depth)
                     else Route(behave, x, e, depth);
            && KeepsCast(behave, x, r) && (Polite(behave, x.node) ==> KeepsQueue(x, r))
            && (r.Running? ==> !Fatal(behave, x, e)) && (r.Panicked? ==> Fatal(behave, x, e))
  {
    hide Steady, Mannered, Polite, KeepsQueue, KeepsCast, FatalReply, Upsets;
    HandlePanicsExactly(behave, x, e, depth);
    RoutePanicsExactly(behave, x, e, depth);
    if e.to == ExecutorPid(x.node) {
      NotForProcess(behave, x, e);
      if FatalReply(behave, x, e) && depth == 0 {
        assert HandleExecutorEnvelope(behave, x, e, depth).Deeper? by {
          RequestsDeeper(behave, x, e);
        }
      }
    }
    hide HandleExecutorEnvelope, Route;
  }

  lemma NotForProcess<P, T>(behave: Behavior<P, T>, x: Exec<P, T>, e: Envelope<T>)
    requires e.to == ExecutorPid(x.node)
    ensures !Upsets(behave, x, e) && !Ungrouped(e.to)
  {
  }

  lemma RequestsDeeper<P, T>(behave: Behavior<P, T>, x: Exec<P, T>, e: Envelope<T>)
    requires FatalReply(behave, x, e)
    ensures HandleExecutorEnvelope(behave, x, e, 0).Deeper?
  {
  }

  /** One of these timers belongs to an ungrouped `cluster_server`, or to a process that panics on its Timeout. */
  ghost predicate AnyUpset<P, T(!new)>(behave: Behavior<P, T>, x: Exec<P, T>,
      fired: seq<(Pid, Option<CorrelationId>)>)
  {
    exists t :: t in fired && (Ungrouped(t.0) || Upsets(behave, x, TimeoutFor(x.node, t)))
  }

  lemma AnyUpsetSplit<P, T(!new)>(behave: Behavior<P, T>, x: Exec<P, T>, fired: seq<(Pid, Option<CorrelationId>)>)
    requires fired != []
    ensures AnyUpset(behave, x, fired) <==>
              || Ungrouped(fired[0].0) || Upsets(behave, x, TimeoutFor(x.node, fired[0]))
              || AnyUpset(behave, x, fired[1..])
  {
    hide Upsets;
    assert fired == [fired[0]] + fired[1..];
    assert fired[0] in fired;
    forall t | t in fired[1..] ensures t in fired {
    }
    if AnyUpset(behave, x, fired) {
      var t :| t in fired && (Ungrouped(t.0) || Upsets(behave, x, TimeoutFor(x.node, t)));
      assert t == fired[0] || t in fired[1..];
    }
  }

  lemma AnyUpsetAlike<P, T(!new)>(behave: Behavior<P, T>, x: Exec<P, T>, y: Exec<P, T>,
      fired: seq<(Pid, Option<CorrelationId>)>)
    requires SameCast(behave, x, y)
    ensures AnyUpset(behave, x, fired) <==> AnyUpset(behave, y, fired)
  {
    forall t ensures Upsets(behave, x, TimeoutFor(x.node, t)) <==> Upsets(behave, y, TimeoutFor(y.node, t)) {
      UpsetsAlike(behave, x, y, TimeoutFor(x.node, t));
    }
    hide Upsets;
  }

  lemma {:induction false} TickPanicsExactly<P(!new), T(!new)>(behave: Behavior<P, T>, x: Exec<P, T>,
      fired: seq<(Pid, Option<CorrelationId>)>, depth: nat)
    requires Steady(behave) && Mannered(behave, x) && x.buffer == [] && !TickAll(behave, x, fired, depth).Deeper?
    ensures TickAll(behave, x, fired, depth).Panicked? <==> AnyUpset(behave, x, fired)
    ensures KeepsCast(behave, x, TickAll(behave, x, fired, depth))
    ensures Polite(behave, x.node) ==> KeepsQueue(x, TickAll(behave, x, fired, depth))
    decreases |fired|
  {
    hide Steady, Mannered, Polite, KeepsQueue, SameCast, RouteToProcess, AnyUpset, Upsets, SafeRequests;
    if fired == [] {
      PutNothing(behave, x);
      NoneIsUpset(behave, x);
    } else {
      AnyUpsetSplit(behave, x, fired);
      NotRunningKeeps(behave, x);
      var e := TimeoutFor(x.node, fired[0]);
      var y := x.(replies := x.replies + [e]);
      TickOne(behave, x, fired[0], depth);
      var r := RouteToProcess(behave, y, e, depth);
      if r.Running? || r.NotFound? {
        var z := if r.Running? then r.exec else Put(y, e, Dropped);
        SameCastSameManners(behave, x, z);
        AnyUpsetAlike(behave, x, z, fired[1..]);
        TickPanicsExactly(behave, z, fired[1..], depth);
        CastNode(behave, x, z);
        Continues(behave, x, z, TickAll(behave, z, fired[1..], depth));
      }
    }
  }

  lemma NoneIsUpset<P, T(!new)>(behave: Behavior<P, T>, x: Exec<P, T>)
    ensures !AnyUpset(behave, x, [])
  {
  }

  lemma TickOne<P(!new), T(!new)>(behave: Behavior<P, T>, x: Exec<P, T>, t: (Pid, Option<CorrelationId>), depth: nat)
    requires Steady(behave) && Mannered(behave, x) && x.buffer == []
    ensures var e := TimeoutFor(x.node, t);
            var y := x.(replies := x.replies + [e]);
            var r := RouteToProcess(behave, y, e, depth);
            && (r.Panicked? <==> Ungrouped(t.0) || Upsets(behave, x, e))
            && (r.Running? || r.NotFound? ==>
                  var z := if r.Running? then r.exec else Put(y, e, Dropped);
                  && SameCast(behave, x, z) && z.buffer == []
                  && (Polite(behave, x.node) ==> KeepsQueue(x, Running(z))))
  {
    hide Steady, Mannered, Polite, KeepsQueue, SameCast, RouteToProcess, Upsets, SafeRequests;
    var e := TimeoutFor(x.node, t);
    var y := x.(replies := x.replies + [e]);
    CastKept(behave, x, y);
    SameCastSameManners(behave, x, y);
    UpsetsAlike(behave, x, y, e);
    RoutePanicsExactly(behave, y, e, depth);
    SameQueue(x, y);
    PutKeeps(behave, y, e, Dropped);
    var r := RouteToProcess(behave, y, e, depth);
    if r.Running? || r.NotFound? {
      var z := if r.Running? then r.exec else Put(y, e, Dropped);
      SameCastCompose(behave, x, y, z);
      if Polite(behave, x.node) {
        KeepsQueueCompose(x, y, Running(z));
      }
    }
  }

  lemma SameQueue<P, T>(x: Exec<P, T>, y: Exec<P, T>)
    requires y.node == x.node && y.queue == x.queue
    ensures KeepsQueue(x, Running(y))
  {
  }

  /** What makes a turn of the run loop fatal: the envelope it takes, the first envelopes of a process it
      starts, or a timer that fires. */
  ghost predicate TurnHarms<P, T(!new)>(behave: Behavior<P, T>, x: Exec<P, T>, input: Input<P, T>) {
    match input
    case Receives => x.queue != [] && Fatal(behave, x, x.queue[0])
    case Starts(pid, p, init) => AnyFatal(behave, x.(procs := x.procs[pid := p]), init)
    case Ticks(fired) => AnyUpset(behave, x, fired)
    case _ => false
  }

  /** The processes that run in this turn. */
  function During<P, T>(x: Exec<P, T>, input: Input<P, T>): Exec<P, T> {
    if input.Starts? then x.(procs := x.procs[input.pid := input.process]) else x
  }

  /** Exactly when a turn of the run loop panics. */
  lemma TurnPanicsExactly<P(!new), T(!new)>(behave: Behavior<P, T>, x: Exec<P, T>, input: Input<P, T>, depth: nat)
    requires Steady(behave) && Mannered(behave, During(x, input)) && x.buffer == []
    requires !Turn(behave, x, input, depth).Deeper?
    ensures Turn(behave, x, input, depth).Panicked? <==> TurnHarms(behave, x, input)
    ensures input.Receives? || input.Ticks? || input.Starts? ==>
              KeepsCast(behave, During(x, input), Turn(behave, x, input, depth))
    ensures Polite(behave, x.node) && (input.Receives? || input.Ticks? || input.Starts?) ==>
              KeepsQueue(x, Turn(behave, x, input, depth))
  {
    hide Steady, Mannered, Polite, KeepsQueue, SameCast, Route, StartAll, TickAll, Fatal, AnyFatal, AnyUpset,
         SafeRequests;
    match input
    case Receives =>
      ReceivePanicsExactly(behave, x, depth);
    case Starts(pid, p, init) =>
      var y := During(x, input);
      var z := x.(procs := x.procs[pid := p], emitted := x.emitted + init);
      CastKept(behave, y, z);
      SameCastSameManners(behave, y, z);
      AnyFatalAlike(behave, y, z, init);
      StartPanicsExactly(behave, z, init, depth);
      SameQueue(x, z);
      QueueThen(behave, x, z, StartAll(behave, z, init, depth));
      CastThen(behave, y, z, StartAll(behave, z, init, depth));
    case Ticks(fired) =>
      var z := x.(timers := x.timers - set t | t in fired);
      CastKept(behave, x, z);
      SameCastSameManners(behave, x, z);
      AnyUpsetAlike(behave, x, z, fired);
      TickPanicsExactly(behave, z, fired, depth);
      SameQueue(x, z);
      QueueThen(behave, x, z, TickAll(behave, z, fired, depth));
      CastThen(behave, x, z, TickAll(behave, z, fired, depth));
    case _ =>
  }

  lemma QueueThen<P(!new), T(!new)>(behave: Behavior<P, T>, x: Exec<P, T>, z: Exec<P, T>, r: Routed<P, T>)
    requires z.node == x.node && KeepsQueue(x, Running(z)) && (Polite(behave, z.node) ==> KeepsQueue(z, r))
    ensures Polite(behave, x.node) ==> KeepsQueue(x, r)
  {
    hide Polite, KeepsQueue;
    if Polite(behave, x.node) {
      KeepsQueueCompose(x, z, r);
    }
  }

  lemma CastThen<P, T(!new)>(behave: Behavior<P, T>, x: Exec<P, T>, z: Exec<P, T>, r: Routed<P, T>)
    requires SameCast(behave, x, z) && KeepsCast(behave, z, r)
    ensures KeepsCast(behave, x, r)
  {
    hide SameCast;
    if r.Running? {
      SameCastCompose(behave, x, z, r.exec);
    }
  }

  lemma ReceivePanicsExactly<P(!new), T(!new)>(behave: Behavior<P, T>, x: Exec<P, T>, depth: nat)
    requires Steady(behave) && Mannered(behave, x) && x.buffer == []
    requires !Turn(behave, x, Receives, depth).Deeper?
    ensures Turn(behave, x, Receives, depth).Panicked? <==> x.queue != [] && Fatal(behave, x, x.queue[0])
    ensures KeepsCast(behave, x, Turn(behave, x, Receives, depth))
    ensures Polite(behave, x.node) ==> KeepsQueue(x, Turn(behave, x, Receives, depth))
  {
    hide Steady, Mannered, Polite, SameCast, Route, Fatal, SafeRequests;
    if x.queue == [] {
      PutNothing(behave, x);
    } else {
      var y := x.(queue := x.queue[1..]);
      CastKept(behave, x, y);
      SameCastSameManners(behave, x, y);
      SameCastSameFate(behave, x, y, x.queue[0]);
      StartOne(behave, y, x.queue[0], depth);
      RouteToExecutor(behave, y, x.queue[0], depth);
      RouteFinds(behave, y, x.queue[0], depth);
      assert forall e | e in y.queue :: e in x.queue;
      QueueThen(behave, x, y, Route(behave, y, x.queue[0], depth));
      CastThen(behave, x, y, Route(behave, y, x.queue[0], depth));
    }
  }

  lemma RouteToExecutor<P, T>(behave: Behavior<P, T>, x: Exec<P, T>, e: Envelope<T>, depth: nat)
    ensures e.to == ExecutorPid(x.node) ==>
              var r := HandleExecutorEnvelope(behave, x, e, depth);
              Route(behave, x, e, depth) == if r.NotFound? then Running(RouteToService(x, e)) else r
    ensures !HandleExecutorEnvelope(behave, x, e, depth).NotFound?
  {
  }

  // ----- runs

  /** Turn `k` of the run is fatal. */
  ghost predicate FatalTurn<P, T(!new)>(behave: Behavior<P, T>, x: Exec<P, T>, inputs: seq<Input<P, T>>, depth: nat,
      k: nat)
  {
    && k < |inputs|
    && var r := Play(behave, x, inputs[..k], depth);
       r.Running? && TurnHarms(behave, r.exec, inputs[k])
  }

  /** Whatever is registered in the course of the run, no process makes a metrics request whose reply is fatal. */
  ghost predicate MannersLast<P(!new), T(!new)>(behave: Behavior<P, T>, x: Exec<P, T>, inputs: seq<Input<P, T>>,
      depth: nat)
  {
    forall k: nat | k < |inputs| && Play(behave, x, inputs[..k], depth).Running? ::
      Mannered(behave, During(Play(behave, x, inputs[..k], depth).exec, inputs[k]))
  }

  /** Exactly when a run panics: when one of its turns is fatal. */
  lemma {:induction false} RunPanicsExactly<P(!new), T(!new)>(behave: Behavior<P, T>, x: Exec<P, T>,
      inputs: seq<Input<P, T>>, depth: nat)
    requires Steady(behave) && MannersLast(behave, x, inputs, depth) && x.buffer == []
    requires !Play(behave, x, inputs, depth).Deeper?
    ensures Play(behave, x, inputs, depth).Panicked? <==> exists k: nat :: FatalTurn(behave, x, inputs, depth, k)
    ensures Play(behave, x, inputs, depth).Running? ==> Play(behave, x, inputs, depth).exec.buffer == []
    decreases |inputs|
  {
    hide Steady, Mannered, Turn, TurnHarms, SameCast, KeepsQueue, Polite;
    if inputs != [] {
      var n := |inputs| - 1;
      var before := inputs[..n];
      forall k: nat | k < n
        ensures before[..k] == inputs[..k] && before[k] == inputs[k]
        ensures FatalTurn(behave, x, before, depth, k) <==> FatalTurn(behave, x, inputs, depth, k)
      {
        assert before[..k] == inputs[..k];
      }
      RunPanicsExactly(behave, x, before, depth);
      var r := Play(behave, x, before, depth);
      if r.Running? {
        TurnPanicsExactly(behave, r.exec, inputs[n], depth);
        TurnBuffer(behave, r.exec, inputs[n], depth);
        assert FatalTurn(behave, x, inputs, depth, n) <==> TurnHarms(behave, r.exec, inputs[n]);
        assert forall k: nat | k < n :: !FatalTurn(behave, x, before, depth, k);
      } else {
        var k: nat :| FatalTurn(behave, x, before, depth, k);
        assert FatalTurn(behave, x, inputs, depth, k);
      }
    }
  }

  lemma TurnBuffer<P, T(!new)>(behave: Behavior<P, T>, x: Exec<P, T>, input: Input<P, T>, depth: nat)
    requires x.buffer == []
    requires input.Receives? || input.Ticks? || input.Starts? ==>
               KeepsCast(behave, During(x, input), Turn(behave, x, input, depth))
    ensures Turn(behave, x, input, depth).Running? ==>
              Turn(behave, x, input, depth).exec.buffer == [] && Turn(behave, x, input, depth).exec.node == x.node
  {
    hide Route, StartAll, TickAll;
  }

  ghost predicate AnyUngrouped(fired: seq<(Pid, Option<CorrelationId>)>) {
    exists t :: t in fired && Ungrouped(t.0)
  }

  /** An input that brings nothing harmful. */
  ghost predicate Harmless<P, T>(node: NodeId, input: Input<P, T>) {
    match input
    case Arrives(e) => !Harms(node, e)
    case Starts(_, _, init) => NoneHarms(node, init)
    case Ticks(fired) => !AnyUngrouped(fired)
    case _ => true
  }

  ghost predicate AllHarmless<P, T>(node: NodeId, inputs: seq<Input<P, T>>) {
    forall i | 0 <= i < |inputs| :: Harmless(node, inputs[i])
  }

  /** Nothing harmful is queued, and the executor did not panic. */
  ghost predicate Sane<P, T>(node: NodeId, r: Routed<P, T>) {
    match r
    case Running(x) => x.node == node && x.buffer == [] && NoneHarms(node, x.queue)
    case Deeper => true
    case _ => false
  }

  lemma TurnStaysSane<P(!new), T(!new)>(behave: Behavior<P, T>, x: Exec<P, T>, input: Input<P, T>, depth: nat)
    requires Polite(behave, x.node) && Sane(x.node, Running(x)) && Harmless(x.node, input)
    ensures Sane(x.node, Turn(behave, x, input, depth))
  {
    hide Polite, Steady, Mannered, Turn, Fatal, Upsets, SameCast;
    var r := Turn(behave, x, input, depth);
    PoliteIsMannered(behave, During(x, input));
    if !r.Deeper? {
      TurnPanicsExactly(behave, x, input, depth);
      TurnBuffer(behave, x, input, depth);
      assert x.queue != [] ==> x.queue[0] in x.queue;
      if r.Running? && !(input.Receives? || input.Ticks? || input.Starts?) {
        OtherTurns(behave, x, input, depth);
      }
    }
  }

  lemma OtherTurns<P, T>(behave: Behavior<P, T>, x: Exec<P, T>, input: Input<P, T>, depth: nat)
    requires !input.Receives? && !input.Ticks? && !input.Starts?
    ensures var r := Turn(behave, x, input, depth);
            && r.Running? && r.exec.node == x.node
            && r.exec.queue == x.queue + if input.Arrives? then [input.envelope] else []
  {
  }

  /** No run panics when neither its processes nor its inputs bring anything harmful, whoever else sends
      what to whom. */
  lemma {:induction false} RunNeverPanics<P(!new), T(!new)>(behave: Behavior<P, T>, x: Exec<P, T>,
      inputs: seq<Input<P, T>>, depth: nat)
    requires Polite(behave, x.node) && Sane(x.node, Running(x)) && AllHarmless(x.node, inputs)
    ensures Sane(x.node, Play(behave, x, inputs, depth))
    decreases |inputs|
  {
    hide Polite, Harmless, Turn;
    if inputs != [] {
      var before, last := inputs[..|inputs| - 1], inputs[|inputs| - 1];
      assert Harmless(x.node, last);
      assert AllHarmless(x.node, before) by {
        assert forall i | 0 <= i < |before| :: before[i] == inputs[i];
      }
      RunNeverPanics(behave, x, before, depth);
      var r := Play(behave, x, before, depth);
      if r.Running? {
        TurnStaysSane(behave, r.exec, last, depth);
      }
    }
  }

  /** The executor takes what is queued, `k` envelopes of it. */
  function Receiving<P, T>(k: nat): seq<Input<P, T>> {
    seq(k, _ => Receives)
  }

  lemma ReceivingMore<P, T>(k: nat)
    ensures Receiving<P, T>(k + 1)[..k] == Receiving<P, T>(k) && Receiving<P, T>(k + 1)[k] == Receives
  {
  }

  /** What is queued at place `p` moves up by one with every envelope that the executor takes. */
  lemma {:induction false} QueueMovesUp<P, T>(behave: Behavior<P, T>, x: Exec<P, T>, p: nat, k: nat, depth: nat)
    requires x.buffer == [] && k <= p < |x.queue| && Play(behave, x, Receiving(k), depth).Running?
    ensures var y := Play(behave, x, Receiving(k), depth).exec;
            y.node == x.node && y.buffer == [] && p - k < |y.queue| && y.queue[p - k] == x.queue[p]
    decreases k
  {
    hide Route;
    if k > 0 {
      ReceivingMore<P, T>(k - 1);
      QueueMovesUp(behave, x, p, k - 1, depth);
      var y := Play(behave, x, Receiving(k - 1), depth).exec;
      var taken := y.(queue := y.queue[1..]);
      RouteAccounts(behave, taken, y.queue[0], depth);
    }
  }

  /** Exactly when the executor panics on what is queued, unless metrics requests are nested too deep: when
      something harmful is queued. */
  lemma QueuePanicsExactly<P(!new), T(!new)>(behave: Behavior<P, T>, x: Exec<P, T>, depth: nat)
    requires Polite(behave, x.node) && x.buffer == []
    requires forall k: nat :: !Play(behave, x, Receiving(k), depth).Deeper?
    ensures (exists k: nat :: Play(behave, x, Receiving(k), depth).Panicked?) <==> !NoneHarms(x.node, x.queue)
  {
    if NoneHarms(x.node, x.queue) {
      forall k: nat ensures !Play(behave, x, Receiving(k), depth).Panicked? {
        RunNeverPanics(behave, x, Receiving(k), depth);
      }
    } else {
      var p :| 0 <= p < |x.queue| && Harms(x.node, x.queue[p]);
      if Play(behave, x, Receiving(p), depth).Running? {
        QueueMovesUp(behave, x, p, p, depth);
        PoliteIsMannered(behave, Play(behave, x, Receiving(p), depth).exec);
        var y := Play(behave, x, Receiving(p), depth).exec;
        ReceivingMore<P, T>(p);
        assert Play(behave, x, Receiving(p + 1), depth) == Turn(behave, y, Receives, depth);
        TurnPanicsExactly(behave, y, Receives, depth);
      }
      hide Play;
    }
  }
}
