/** Who gets what on one node: services and processes as they come and go, and the envelopes that the executor itself
    makes or sends on when a process starts, when timers expire and when it is asked. */
module ExecutorRegistry {
  import opened Base
  import opened Ids
  import opened Messages
  import opened ExecutorState
  import opened ExecutorFacts
  import opened ExecutorRuns

  /** The same processes and services are registered. */
  ghost predicate SameRegistry<P, T>(x: Exec<P, T>, y: Exec<P, T>) {
    && y.node == x.node && y.services == x.services && y.procs.Keys == x.procs.Keys
    && x.buffer == [] && y.buffer == [] && x.placed <= y.placed
  }

  lemma RouteKeepsRegistry<P, T>(behave: Behavior<P, T>, x: Exec<P, T>, e: Envelope<T>, depth: nat)
    requires x.buffer == []
    ensures Route(behave, x, e, depth).Running? ==> SameRegistry(x, Route(behave, x, e, depth).exec)
    ensures RouteToProcess(behave, x, e, depth).Running? ==> SameRegistry(x, RouteToProcess(behave, x, e, depth).exec)
    ensures HandleExecutorEnvelope(behave, x, e, depth).Running? ==>
              SameRegistry(x, HandleExecutorEnvelope(behave, x, e, depth).exec)
  {
    if Route(behave, x, e, depth).Running? {
      RouteAccounts(behave, x, e, depth);
    }
    if RouteToProcess(behave, x, e, depth).Running? {
      RouteToProcessAccounts(behave, x, e, depth);
    }
    if HandleExecutorEnvelope(behave, x, e, depth).Running? {
      HandleAccounts(behave, x, e, depth);
    }
    hide Route, RouteToProcess, HandleExecutorEnvelope, Balanced;
  }

  lemma SameRegistrySamePlace<P, T>(x: Exec<P, T>, y: Exec<P, T>)
    requires SameRegistry(x, y)
    ensures forall to :: PlaceOf(y, to) == PlaceOf(x, to) && TimerPlace(y, to) == TimerPlace(x, to)
  {
  }

  /** `e` reached `place` between `x` and `y`. */
  ghost predicate Reached<P, T>(x: Exec<P, T>, y: Exec<P, T>, e: Envelope<T>, place: Place) {
    x.placed <= y.placed && Placed(e, place) in y.placed[|x.placed|..]
  }

  lemma ReachedThen<P, T>(x: Exec<P, T>, y: Exec<P, T>, z: Exec<P, T>, e: Envelope<T>, place: Place)
    requires x.placed <= y.placed <= z.placed && (Reached(x, y, e, place) || Reached(y, z, e, place))
    ensures Reached(x, z, e, place)
  {
    AddedTwice(x.placed, y.placed, z.placed);
  }

  // ----- a process starts

  lemma {:induction false} StartReaches<P, T>(behave: Behavior<P, T>, x: Exec<P, T>, es: seq<Envelope<T>>, depth: nat)
    requires x.buffer == [] && StartAll(behave, x, es, depth).Running?
    ensures SameRegistry(x, StartAll(behave, x, es, depth).exec)
    ensures forall e | e in es :: Reached(x, StartAll(behave, x, es, depth).exec, e, PlaceOf(x, e.to))
    decreases |es|
  {
    hide Route, HandleExecutorEnvelope, Reached, PlaceOf, TimerPlace;
    if es != [] {
      var e := es[0];
      var r := if e.to == ExecutorPid(x.node) then HandleExecutorEnvelope(behave, x, e, depth)
               else Route(behave, x, e, depth);
      RouteKeepsRegistry(behave, x, e, depth);
      OneReaches(behave, x, e, depth);
      var y := r.exec;
      StartReaches(behave, y, es[1..], depth);
      var z := StartAll(behave, y, es[1..], depth).exec;
      SameRegistrySamePlace(x, y);
      forall f | f in es ensures Reached(x, z, f, PlaceOf(x, f.to)) {
        assert f == e || f in es[1..];
        ReachedThen(x, y, z, f, PlaceOf(x, f.to));
      }
    }
  }

  lemma OneReaches<P, T>(behave: Behavior<P, T>, x: Exec<P, T>, e: Envelope<T>, depth: nat)
    requires x.buffer == []
    ensures var r := if e.to == ExecutorPid(x.node) then HandleExecutorEnvelope(behave, x, e, depth)
                     else Route(behave, x, e, depth);
            r.Running? ==> Reached(x, r.exec, e, PlaceOf(x, e.to))
  {
    hide Route, HandleExecutorEnvelope;
    if e.to == ExecutorPid(x.node) {
      if HandleExecutorEnvelope(behave, x, e, depth).Running? {
        HandlePlaces(behave, x, e, depth);
        FirstPlaced(x, HandleExecutorEnvelope(behave, x, e, depth).exec, e, PlaceOf(x, e.to));
      }
    } else if Route(behave, x, e, depth).Running? {
      RoutePlaces(behave, x, e, depth);
      FirstPlaced(x, Route(behave, x, e, depth).exec, e, PlaceOf(x, e.to));
    }
  }

  lemma FirstPlaced<P, T>(x: Exec<P, T>, y: Exec<P, T>, e: Envelope<T>, place: Place)
    requires x.placed + [Placed(e, place)] <= y.placed
    ensures Reached(x, y, e, place)
  {
    assert y.placed[|x.placed|..][0] == Placed(e, place);
  }

  // ----- timers expire

  /** Where the Timeout for the owner of a timer ends: only processes are told, services are not. */
  function TimerPlace<P, T>(x: Exec<P, T>, to: Pid): Place {
    if to == ExecutorPid(x.node) then ToExecutor
    else if ForClusterServer(to) then ToCluster
    else if to in x.procs then ToProcess
    else Dropped
  }

  lemma TimeoutPlaces<P, T>(behave: Behavior<P, T>, x: Exec<P, T>, e: Envelope<T>, depth: nat)
    requires x.buffer == [] && e.msg == Timeout
    ensures var r := RouteToProcess(behave, x, e, depth);
            && (r.Running? ==> x.placed + [Placed(e, TimerPlace(x, e.to))] <= r.exec.placed)
            && (r.NotFound? ==> TimerPlace(x, e.to) == Dropped)
  {
    if e.to == ExecutorPid(x.node) {
      HandleIsSimple(behave, x, e, depth);
    } else if !Ungrouped(e.to) && !ForClusterServer(e.to) && e.to in x.procs {
      var h := behave(x.procs[e.to], e.msg, e.from, e.correlationId);
      if h.Output? {
        var y := Put(x, e, ToProcess).(procs := x.procs[e.to := h.process], emitted := x.emitted + h.envelopes);
        assert x.buffer + h.envelopes == h.envelopes && y.(buffer := []) == y;
        if Drain(behave, y, h.envelopes, depth).Running? {
          DrainExtends(behave, y, h.envelopes, depth);
        }
      }
    }
  }

  lemma HandleIsSimple<P, T>(behave: Behavior<P, T>, x: Exec<P, T>, e: Envelope<T>, depth: nat)
    requires e.msg == Timeout
    ensures HandleExecutorEnvelope(behave, x, e, depth) == Running(Put(x, e, ToExecutor))
  {
  }

  lemma {:induction false} TickReaches<P, T>(behave: Behavior<P, T>, x: Exec<P, T>,
      fired: seq<(Pid, Option<CorrelationId>)>, depth: nat)
    requires x.buffer == [] && TickAll(behave, x, fired, depth).Running?
    ensures SameRegistry(x, TickAll(behave, x, fired, depth).exec)
    ensures forall t | t in fired ::
              Reached(x, TickAll(behave, x, fired, depth).exec, Envelope(t.0, ExecutorPid(x.node), Timeout, t.1),
                      TimerPlace(x, t.0))
    decreases |fired|
  {
    hide RouteToProcess, Reached, PlaceOf, TimerPlace;
    if fired != [] {
      var t := fired[0];
      var e := TimeoutFor(x.node, t);
      assert e == Envelope(t.0, ExecutorPid(x.node), Timeout, t.1);
      var x1 := x.(replies := x.replies + [e]);
      var r := RouteToProcess(behave, x1, e, depth);
      RouteKeepsRegistry(behave, x1, e, depth);
      TimeoutPlaces(behave, x1, e, depth);
      SameRegistrySamePlace(x, x1);
      var y := if r.Running? then r.exec else Put(x1, e, Dropped);
      FirstPlaced(x, y, e, TimerPlace(x, t.0));
      TickReaches(behave, y, fired[1..], depth);
      var z := TickAll(behave, y, fired[1..], depth).exec;
      SameRegistrySamePlace(x, y);
      forall u | u in fired
        ensures Reached(x, z, Envelope(u.0, ExecutorPid(x.node), Timeout, u.1), TimerPlace(x, u.0))
      {
        assert u == t || u in fired[1..];
        ReachedThen(x, y, z, Envelope(u.0, ExecutorPid(x.node), Timeout, u.1), TimerPlace(x, u.0));
      }
    }
  }

  // ----- turns

  /** What a turn does beyond routing what is queued: a process that starts has its first envelopes sent where they
      belong, the owners of expired timers that are processes are told, and who asks for the status is answered
      if it is a service. */
  lemma TurnReaches<P, T>(behave: Behavior<P, T>, x: Exec<P, T>, input: Input<P, T>, depth: nat)
    requires x.buffer == [] && Turn(behave, x, input, depth).Running?
    ensures var y := Turn(behave, x, input, depth).exec;
            match input
            case Receives => x.queue != [] ==> Reached(x, y, x.queue[0], PlaceOf(x, x.queue[0].to))
            case Starts(pid, p, init) =>
              forall e | e in init :: Reached(x, y, e, PlaceOf(x.(procs := x.procs[pid := p]), e.to))
            case Ticks(fired) =>
              forall t | t in fired ::
                Reached(x, y, Envelope(t.0, ExecutorPid(x.node), Timeout, t.1), TimerPlace(x, t.0))
            case AsksStatus(cid) =>
              var reply := Envelope(cid.pid, ExecutorPid(x.node), ExecutorStatus, Some(cid));
              y.served == x.served + if cid.pid in x.services then [reply] else []
            case _ => true
  {
    hide Route, StartAll, TickAll, PlaceOf, TimerPlace, Reached;
    match input
    case Receives =>
      if x.queue != [] {
        var z := x.(queue := x.queue[1..]);
        RoutePlaces(behave, z, x.queue[0], depth);
        FirstPlaced(x, Route(behave, z, x.queue[0], depth).exec, x.queue[0], PlaceOf(z, x.queue[0].to));
        SameRegistrySamePlace(x, z);
      }
    case Starts(pid, p, init) =>
      var w, z := x.(procs := x.procs[pid := p]), x.(procs := x.procs[pid := p], emitted := x.emitted + init);
      StartReaches(behave, z, init, depth);
      SameRegistrySamePlace(w, z);
      SamePlaced(x, z);
    case Ticks(fired) =>
      var z := x.(timers := x.timers - set t | t in fired);
      TickReaches(behave, z, fired, depth);
      SameRegistrySamePlace(x, z);
      SamePlaced(x, z);
    case AsksStatus(cid) =>
      assert x.served + [] == x.served;
    case _ =>
  }

  lemma SamePlaced<P, T>(x: Exec<P, T>, z: Exec<P, T>)
    requires z.placed == x.placed
    ensures forall y, e, place :: Reached(z, y, e, place) <==> Reached(x, y, e, place)
  {
  }

  /** Whoever asks the executor for metrics gets them, at its address and with its correlation id. */
  lemma MetricsAnswered<P, T>(behave: Behavior<P, T>, x: Exec<P, T>, e: Envelope<T>, depth: nat)
    requires x.buffer == [] && e.to == ExecutorPid(x.node) && e.msg.GetMetrics?
    requires Route(behave, x, e, depth).Running?
    ensures Reached(x, Route(behave, x, e, depth).exec,
                    Envelope(e.from, ExecutorPid(x.node), Metrics, e.correlationId), PlaceOf(x, e.from))
  {
    var reply := Envelope(e.from, ExecutorPid(x.node), Metrics, e.correlationId);
    var put := Put(x, e, ToExecutor);
    var y := put.(replies := put.replies + [reply]);
    assert reply == MetricsReply(x.node, e.from, e.correlationId);
    assert depth > 0 && HandleExecutorEnvelope(behave, x, e, depth) == Route(behave, y, reply, depth - 1);
    RouteFinds(behave, y, reply, depth - 1);
    assert Route(behave, x, e, depth) == HandleExecutorEnvelope(behave, x, e, depth);
    RoutePlaces(behave, y, reply, depth - 1);
    hide Route;
    FirstPlaced(y, Route(behave, y, reply, depth - 1).exec, reply, PlaceOf(y, e.from));
    ReachedThen(x, y, Route(behave, y, reply, depth - 1).exec, reply, PlaceOf(x, e.from));
  }

  // ----- services and processes come and go

  /** A service that is registered gets what is addressed to it from now on, unless that is for a process, the executor
      or the cluster server; every other address leads where it led. */
  lemma RegisteredIsReached<P, T>(behave: Behavior<P, T>, x: Exec<P, T>, pid: Pid, depth: nat)
    ensures var y := Turn(behave, x, Registers(pid), depth).exec;
            && (pid.node == x.node && pid != ExecutorPid(x.node) && !ForClusterServer(pid) && pid !in x.procs ==>
                  PlaceOf(y, pid) == ToService)
            && forall other | other != pid || other in x.procs :: PlaceOf(y, other) == PlaceOf(x, other)
  {
  }

  /** An envelope for such a service is served to it when it is received. */
  lemma RegisteredIsServed<P, T>(behave: Behavior<P, T>, x: Exec<P, T>, pid: Pid, e: Envelope<T>, depth: nat)
    requires x.queue == [] && e.to == pid && pid.node == x.node && pid != ExecutorPid(x.node)
    requires pid.name != "cluster_server" && pid !in x.procs
    ensures var r := Play(behave, x, [Registers(pid), Arrives(e), Receives], depth);
            r.Running? && r.exec.served == x.served + [e] && r.exec.queue == []
  {
    var inputs: seq<Input<P, T>> := [Registers(pid), Arrives(e), Receives];
    var y := x.(services := x.services + {pid});
    var z := y.(queue := [e]);
    assert inputs[..2] == [Registers(pid), Arrives(e)] && inputs[..1] == inputs[..2][..1] && inputs[..1][..0] == [];
    assert Play(behave, x, inputs[..1], depth) == Running(y);
    assert y.queue + [e] == [e];
    assert Play(behave, x, inputs[..2], depth) == Running(z);
    assert z.(queue := z.queue[1..]) == y;
    assert Turn(behave, z, Receives, depth) == Route(behave, y, e, depth);
  }

  /** The last Starts or Stops of `pid` among the inputs was a Starts; `before` if there was none. */
  function LastStarted<P, T>(inputs: seq<Input<P, T>>, pid: Pid, before: bool): bool {
    if inputs == [] then before
    else
      var last := inputs[|inputs| - 1];
      if last.Starts? && last.pid == pid then true
      else if last.Stops? && last.stopped == pid then false
      else LastStarted(inputs[..|inputs| - 1], pid, before)
  }

  lemma TurnRegistry<P, T>(behave: Behavior<P, T>, x: Exec<P, T>, input: Input<P, T>, depth: nat)
    requires x.buffer == [] && Turn(behave, x, input, depth).Running?
    ensures var y := Turn(behave, x, input, depth).exec;
            && y.node == x.node && y.buffer == []
            && y.services == x.services + (if input.Registers? then {input.service} else {})
            && y.procs.Keys == if input.Starts? then x.procs.Keys + {input.pid}
                               else if input.Stops? then x.procs.Keys - {input.stopped}
                               else x.procs.Keys
  {
    hide Route, StartAll, TickAll;
    match input
    case Receives =>
      if x.queue != [] {
        RouteKeepsRegistry(behave, x.(queue := x.queue[1..]), x.queue[0], depth);
      }
    case Starts(pid, p, init) =>
      StartReaches(behave, x.(procs := x.procs[pid := p], emitted := x.emitted + init), init, depth);
    case Ticks(fired) =>
      TickReaches(behave, x.(timers := x.timers - set t | t in fired), fired, depth);
    case _ =>
  }

  /** In every run: exactly the services that some input has registered are known, and exactly the processes whose
      last Starts or Stops was a Starts. */
  lemma {:induction false} RunRegistry<P, T>(behave: Behavior<P, T>, node: NodeId, inputs: seq<Input<P, T>>, depth: nat,
      pid: Pid)
    requires Play(behave, NewExec(node), inputs, depth).Running?
    ensures var y := Play(behave, NewExec(node), inputs, depth).exec;
            && y.buffer == [] && y.node == node
            && (pid in y.services <==> Registers(pid) in inputs)
            && (pid in y.procs <==> LastStarted(inputs, pid, false))
    decreases |inputs|
  {
    hide Turn;
    if inputs != [] {
      var before, last := inputs[..|inputs| - 1], inputs[|inputs| - 1];
      RunRegistry(behave, node, before, depth, pid);
      TurnRegistry(behave, Play(behave, NewExec(node), before, depth).exec, last, depth);
      assert inputs == before + [last];
      assert Registers(pid) in inputs <==> Registers(pid) in before || last == Registers(pid);
    }
  }
}
