/** The executor: processes, services, timers and the shared output buffer updated in place, each
    method proved against its meaning in `ExecutorState` and `ExecutorRuns`. */
module Executors {
  import opened Base
  import opened Ids
  import opened Messages
  import opened ExecutorState
  import opened ExecutorRuns

  /** How a call ends: `NoProcess` hands the envelope back to the caller. */
  datatype Ending = Done | NoProcess | Panicking | TooDeep

  class Executor<P, T> {
    const node: NodeId
    /** How a process handles a message. */
    const behave: Behavior<P, T>
    var processes: map<Pid, P>
    var services: set<Pid>
    var timers: set<(Pid, Option<CorrelationId>)>
    /** Output of processes while it is being collected. */
    var envelopes: seq<Envelope<T>>
    /** The executor's own channel. */
    var queue: seq<Envelope<T>>
    /** Envelopes sent to the cluster server, and to services. */
    var clusterTx: seq<Envelope<T>>
    var serviceTx: seq<Envelope<T>>
    /** Where envelopes went and where they came from. */
    ghost var placed: seq<Placed<T>>
    ghost var emitted: seq<Envelope<T>>
    ghost var replies: seq<Envelope<T>>

    ghost function State(): Exec<P, T>
      reads this
    {
      Exec(node, processes, services, timers, queue, clusterTx, serviceTx, envelopes, placed, emitted, replies)
    }

    /** A call that started in `x` ended as the meaning `r` says. */
    ghost predicate Agrees(x: Exec<P, T>, ending: Ending, r: Routed<P, T>)
      reads this
    {
      match r
      case Running(y) => ending == Done && State() == y
      case NotFound => ending == NoProcess && State() == x
      case Panicked => ending == Panicking
      case Deeper => ending == TooDeep
    }

    constructor (node: NodeId, behave: Behavior<P, T>)
      ensures State() == NewExec(node) && this.behave == behave
    {
      this.node := node;
      this.behave := behave;
      processes := map[];
      services := {};
      timers := {};
      envelopes := [];
      queue := [];
      clusterTx := [];
      serviceTx := [];
      placed := [];
      emitted := [];
      replies := [];
    }

    // ----- routing

    method Route(e: Envelope<T>, depth: nat) returns (ending: Ending)
      modifies this
      ensures Agrees(old(State()), ending, ExecutorState.Route(behave, old(State()), e, depth))
      ensures old(envelopes) == [] && ending.Done? ==> envelopes == [] && Accounts(old(State()), State(), multiset{e})
      decreases depth, 4, 0
    {
      hide Accounts, ExecutorState.RouteToProcess;
      if envelopes == [] && ExecutorState.Route(behave, State(), e, depth).Running? {
        RouteAccounts(behave, State(), e, depth);
      }
      if node != e.to.node {
        clusterTx := clusterTx + [e];
        placed := placed + [Placed(e, ToCluster)];
        return Done;
      }
      ending := RouteToProcess(e, depth);
      if ending.NoProcess? {
        RouteToService(e);
        ending := Done;
      }
    }

    method RouteToProcess(e: Envelope<T>, depth: nat) returns (ending: Ending)
      modifies this
      ensures Agrees(old(State()), ending, ExecutorState.RouteToProcess(behave, old(State()), e, depth))
      ensures old(envelopes) == [] && ending.Done? ==> envelopes == [] && Accounts(old(State()), State(), multiset{e})
      decreases depth, 3, 0
    {
      hide Accounts, ExecutorState.Drain, ExecutorState.HandleExecutorEnvelope;
      if envelopes == [] && ExecutorState.RouteToProcess(behave, State(), e, depth).Running? {
        RouteToProcessAccounts(behave, State(), e, depth);
      }
      if e.to == ExecutorPid(node) {
        ending := HandleExecutorEnvelope(e, depth);
        return;
      }
      if e.to.name == "cluster_server" {
        if e.to.group.None? {
          return Panicking;
        }
        if e.to.group.value == "rabble" {
          clusterTx := clusterTx + [e];
          placed := placed + [Placed(e, ToCluster)];
          return Done;
        }
      }
      if e.to !in processes {
        return NoProcess;
      }
      ending := HandToProcess(e, depth);
    }

    /** Let the process that `e` is for handle it, and send on its output. */
    method HandToProcess(e: Envelope<T>, depth: nat) returns (ending: Ending)
      requires e.to in processes
      requires e.to != ExecutorPid(node) && !Ungrouped(e.to) && !ForClusterServer(e.to)
      modifies this
      ensures Agrees(old(State()), ending, ExecutorState.RouteToProcess(behave, old(State()), e, depth))
      decreases depth, 2, 0
    {
      hide Accounts, ExecutorState.Drain, ExecutorState.HandleExecutorEnvelope;
      match behave(processes[e.to], e.msg, e.from, e.correlationId)
      case Panic =>
        ending := Panicking;
      case Output(p, out) =>
        processes := processes[e.to := p];
        envelopes := envelopes + out;
        emitted := emitted + out;
        placed := placed + [Placed(e, ToProcess)];
        // The buffer is taken out while it is drained, since handling an envelope may refill it.
        var taken := envelopes;
        envelopes := [];
        ending := Drain(taken, depth);
        if ending.Done? {
          envelopes := [];
        }
    }

    method Drain(taken: seq<Envelope<T>>, depth: nat) returns (ending: Ending)
      modifies this
      ensures Agrees(old(State()), ending, ExecutorState.Drain(behave, old(State()), taken, depth))
      ensures old(envelopes) == [] && ending.Done? ==> Accounts(old(State()), State(), multiset(taken))
      decreases depth, 1, |taken|
    {
      hide Accounts;
      if envelopes == [] && ExecutorState.Drain(behave, State(), taken, depth).Running? {
        DrainAccounts(behave, State(), taken, depth);
      }
      ghost var meaning := ExecutorState.Drain(behave, State(), taken, depth);
      ending := Done;
      var i := 0;
      while i < |taken|
        invariant 0 <= i <= |taken| && ending.Done?
        invariant ExecutorState.Drain(behave, State(), taken[i..], depth) == meaning
      {
        var e := taken[i];
        assert taken[i..][0] == e && taken[i..][1..] == taken[i + 1..];
        i := i + 1;
        if e.to == ExecutorPid(node) {
          ending := HandleExecutorEnvelope(e, depth);
          if !ending.Done? {
            return;
          }
        } else if e.to.node == node {
          queue := queue + [e];
          placed := placed + [Placed(e, ToQueue)];
        } else {
          clusterTx := clusterTx + [e];
          placed := placed + [Placed(e, ToCluster)];
        }
      }
    }

    method RouteToService(e: Envelope<T>)
      modifies this
      ensures State() == ExecutorState.RouteToService(old(State()), e)
    {
      if e.to in services {
        serviceTx := serviceTx + [e];
        placed := placed + [Placed(e, ToService)];
      } else {
        placed := placed + [Placed(e, Dropped)];
      }
    }

    method HandleExecutorEnvelope(e: Envelope<T>, depth: nat) returns (ending: Ending)
      modifies this
      ensures Agrees(old(State()), ending, ExecutorState.HandleExecutorEnvelope(behave, old(State()), e, depth))
      decreases depth, 0, 1
    {
      placed := placed + [Placed(e, ToExecutor)];
      ending := Done;
      match e.msg
      case StartTimer(_) =>
        timers := timers + {(e.from, e.correlationId)};
      case CancelTimer(timer) =>
        timers := timers - {(e.from, timer)};
      case GetMetrics =>
        if depth == 0 {
          return TooDeep;
        }
        ending := SendMetrics(e.from, e.correlationId, depth);
      case _ =>
    }

    method SendMetrics(to: Pid, cid: Option<CorrelationId>, depth: nat) returns (ending: Ending)
      requires depth > 0
      modifies this
      ensures var reply := MetricsReply(node, to, cid);
              Agrees(old(State()), ending,
                  ExecutorState.Route(behave, old(State()).(replies := old(replies) + [reply]), reply, depth - 1))
      decreases depth, 0, 0
    {
      var reply := MetricsReply<T>(node, to, cid);
      replies := replies + [reply];
      RouteFinds(behave, State(), reply, depth - 1);
      ending := Route(reply, depth - 1);
    }

    // ----- the run loop

    method Start(pid: Pid, process: P, init: seq<Envelope<T>>, depth: nat) returns (ending: Ending)
      modifies this
      ensures Agrees(old(State()), ending, Turn(behave, old(State()), Starts(pid, process, init), depth))
    {
      processes := processes[pid := process];
      emitted := emitted + init;
      ghost var meaning := StartAll(behave, State(), init, depth);
      ending := Done;
      var i := 0;
      while i < |init|
        invariant 0 <= i <= |init| && ending.Done?
        invariant StartAll(behave, State(), init[i..], depth) == meaning
      {
        var e := init[i];
        assert init[i..][0] == e && init[i..][1..] == init[i + 1..];
        RouteFinds(behave, State(), e, depth);
        i := i + 1;
        if e.to == ExecutorPid(node) {
          ending := HandleExecutorEnvelope(e, depth);
        } else {
          ending := Route(e, depth);
        }
        if !ending.Done? {
          return;
        }
      }
    }

    method Stop(pid: Pid)
      modifies this`processes
      ensures forall depth: nat :: Agrees(old(State()), Done, Turn(behave, old(State()), Stops(pid), depth))
      // No envelope for it is handled by a process any more, and all others go where they went.
      ensures PlaceOf(State(), pid) != ToProcess
      ensures forall other | other != pid :: PlaceOf(State(), other) == old(PlaceOf(State(), other))
    {
      processes := processes - {pid};
    }

    method GetStatus(cid: CorrelationId)
      modifies this
      ensures forall depth: nat :: Agrees(old(State()), Done, Turn(behave, old(State()), AsksStatus(cid), depth))
    {
      var reply := StatusReply<T>(node, cid);
      replies := replies + [reply];
      RouteToService(reply);
    }

    /** `fired` is what the timer wheel has expired. */
    method Tick(fired: seq<(Pid, Option<CorrelationId>)>, depth: nat) returns (ending: Ending)
      modifies this
      ensures Agrees(old(State()), ending, Turn(behave, old(State()), Ticks(fired), depth))
    {
      hide ExecutorState.RouteToProcess, Accounts, TickAll, Turn;
      TurnTicks(behave, State(), fired, depth);
      timers := timers - set t | t in fired;
      ghost var meaning := TickAll(behave, State(), fired, depth);
      ending := Done;
      var i := 0;
      while i < |fired|
        invariant 0 <= i <= |fired| && ending.Done?
        invariant TickAll(behave, State(), fired[i..], depth) == meaning
      {
        TickUnfold(behave, State(), fired[i..], depth);
        assert fired[i..][0] == fired[i] && fired[i..][1..] == fired[i + 1..];
        var e := TimeoutFor<T>(node, fired[i]);
        i := i + 1;
        replies := replies + [e];
        ending := RouteToProcess(e, depth);
        if ending.NoProcess? {
          placed := placed + [Placed(e, Dropped)];
          ending := Done;
        } else if !ending.Done? {
          return;
        }
      }
      TickEnds(behave, State(), depth);
      assert fired[i..] == [];
    }

    /** One turn of the run loop; `arrived` is what has come from outside before. */
    method RunOnce(input: Input<P, T>, depth: nat, ghost arrived: multiset<Envelope<T>>) returns (ending: Ending)
      modifies this
      ensures Agrees(old(State()), ending, Turn(behave, old(State()), input, depth))
      ensures ending.Done? && old(Conserved(State(), multiset{}, arrived)) ==>
                Conserved(State(), multiset{},
                    arrived + if input.Arrives? then multiset{input.envelope} else multiset{})
    {
      hide Conserved;
      if Turn(behave, State(), input, depth).Running? && Conserved(State(), multiset{}, arrived) {
        TurnConserves(behave, State(), input, depth, arrived);
      }
      ending := Done;
      match input
      case Arrives(e) => queue := queue + [e];
      case Receives =>
        if queue != [] {
          var e := queue[0];
          queue := queue[1..];
          RouteFinds(behave, State(), e, depth);
          ending := Route(e, depth);
        }
      case Starts(pid, process, init) => ending := Start(pid, process, init, depth);
      case Stops(pid) => Stop(pid);
      case Registers(pid) => services := services + {pid};
      case AsksStatus(cid) => GetStatus(cid);
      case Ticks(fired) => ending := Tick(fired, depth);
    }
  }
}
