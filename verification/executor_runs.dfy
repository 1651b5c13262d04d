/** Whole runs of an executor: what its channel may deliver, and what holds however long it runs. */
module ExecutorRuns {
  import opened Base
  import opened Ids
  import opened Messages
  import opened ExecutorState

  /** What happens at an executor. `Arrives`: the cluster server or another thread queues an envelope.
      `Receives`: the executor takes the first queued envelope. A new process brings the output of
      its initialization; `fired` is what the timer wheel says has expired. */
  datatype Input<+P, +T> =
    | Arrives(envelope: Envelope<T>)
    | Receives
    | Starts(pid: Pid, process: P, init: seq<Envelope<T>>)
    | Stops(stopped: Pid)
    | Registers(service: Pid)
    | AsksStatus(correlationId: CorrelationId)
    | Ticks(fired: seq<(Pid, Option<CorrelationId>)>)

  function Turn<P, T>(behave: Behavior<P, T>, x: Exec<P, T>, input: Input<P, T>, depth: nat): (r: Routed<P, T>)
    ensures !r.NotFound?
  {
    match input
    case Arrives(e) => Running(x.(queue := x.queue + [e]))
    case Receives =>
      if x.queue == [] then Running(x)
      else
        RouteFinds(behave, x.(queue := x.queue[1..]), x.queue[0], depth);
        Route(behave, x.(queue := x.queue[1..]), x.queue[0], depth)
    case Starts(pid, p, init) =>
      StartAll(behave, x.(procs := x.procs[pid := p], emitted := x.emitted + init), init, depth)
    case Stops(pid) => Running(x.(procs := x.procs - {pid}))
    case Registers(pid) => Running(x.(services := x.services + {pid}))
    case AsksStatus(cid) =>
      var reply := StatusReply(x.node, cid);
      Running(RouteToService(x.(replies := x.replies + [reply]), reply))
    case Ticks(fired) =>
      TickAll(behave, x.(timers := x.timers - set t | t in fired), fired, depth)
  }

  lemma RouteFinds<P, T>(behave: Behavior<P, T>, x: Exec<P, T>, e: Envelope<T>, depth: nat)
    ensures !Route(behave, x, e, depth).NotFound?
  {
  }

  function StatusReply<T>(node: NodeId, cid: CorrelationId): Envelope<T> {
    Envelope(cid.pid, ExecutorPid(node), ExecutorStatus, Some(cid))
  }

  /** Route the envelopes that a process made when it was initialized. */
  function StartAll<P, T>(behave: Behavior<P, T>, x: Exec<P, T>, es: seq<Envelope<T>>, depth: nat): (r: Routed<P, T>)
    ensures !r.NotFound?
    decreases |es|
  {
    if es == [] then Running(x)
    else
      var r := if es[0].to == ExecutorPid(x.node) then HandleExecutorEnvelope(behave, x, es[0], depth)
               else Route(behave, x, es[0], depth);
      RouteFinds(behave, x, es[0], depth);
      if r.Running? then StartAll(behave, r.exec, es[1..], depth) else r
  }

  function TimeoutFor<T>(node: NodeId, timer: (Pid, Option<CorrelationId>)): Envelope<T> {
    Envelope(timer.0, ExecutorPid(node), Timeout, timer.1)
  }

  /** Tell the owners of the timers that fired; owners that are gone are passed over. */
  function TickAll<P, T>(behave: Behavior<P, T>, x: Exec<P, T>, fired: seq<(Pid, Option<CorrelationId>)>,
      depth: nat): (r: Routed<P, T>)
    ensures !r.NotFound?
    decreases |fired|
  {
    if fired == [] then Running(x)
    else
      var e := TimeoutFor(x.node, fired[0]);
      var y := x.(replies := x.replies + [e]);
      match RouteToProcess(behave, y, e, depth)
      case Running(z) => TickAll(behave, z, fired[1..], depth)
      case NotFound => TickAll(behave, Put(y, e, Dropped), fired[1..], depth)
      case Panicked => Panicked
      case Deeper => Deeper
  }

  lemma TurnTicks<P, T>(behave: Behavior<P, T>, x: Exec<P, T>, fired: seq<(Pid, Option<CorrelationId>)>, depth: nat)
    ensures Turn(behave, x, Ticks(fired), depth) ==
              TickAll(behave, x.(timers := x.timers - set t | t in fired), fired, depth)
  {
    hide TickAll;
  }

  lemma TickEnds<P, T>(behave: Behavior<P, T>, x: Exec<P, T>, depth: nat)
    ensures TickAll(behave, x, [], depth) == Running(x)
  {
  }

  lemma TickUnfold<P, T>(behave: Behavior<P, T>, x: Exec<P, T>, fired: seq<(Pid, Option<CorrelationId>)>, depth: nat)
    requires fired != []
    ensures var e := TimeoutFor(x.node, fired[0]);
            var y := x.(replies := x.replies + [e]);
            TickAll(behave, x, fired, depth) ==
              match RouteToProcess(behave, y, e, depth)
              case Running(z) => TickAll(behave, z, fired[1..], depth)
              case NotFound => TickAll(behave, Put(y, e, Dropped), fired[1..], depth)
              case Panicked => Panicked
              case Deeper => Deeper
  {
    hide RouteToProcess;
  }

  /** Inputs one after the other, until a panic. */
  function Play<P, T>(behave: Behavior<P, T>, x: Exec<P, T>, inputs: seq<Input<P, T>>, depth: nat): (r: Routed<P, T>)
    ensures !r.NotFound?
    decreases |inputs|
  {
    if inputs == [] then Running(x)
    else
      var r := Play(behave, x, inputs[..|inputs| - 1], depth);
      if r.Running? then Turn(behave, r.exec, inputs[|inputs| - 1], depth) else r
  }

  function Arrived<P, T>(inputs: seq<Input<P, T>>): seq<Envelope<T>>
    decreases |inputs|
  {
    if inputs == [] then []
    else
      var last := inputs[|inputs| - 1];
      Arrived(inputs[..|inputs| - 1]) + if last.Arrives? then [last.envelope] else []
  }

  function NewExec<P, T>(node: NodeId): Exec<P, T> {
    Exec(node, map[], {}, {}, [], [], [], [], [], [], [])
  }

  // ----- conservation

  function Elsewhere<T>(place: Place): Placed<T> -> bool {
    (p: Placed<T>) => p.place != place
  }

  /** The envelopes that have reached a place other than the executor's own channel. */
  function Settled<T>(placed: seq<Placed<T>>): seq<Envelope<T>> {
    EnvelopesOf(Filter(placed, Elsewhere(ToQueue)))
  }

  lemma {:induction false} SettledOrQueued<T>(placed: seq<Placed<T>>)
    ensures multiset(EnvelopesOf(placed)) == multiset(Settled(placed)) + multiset(At(placed, ToQueue))
  {
    if placed != [] {
      var before, last := placed[..|placed| - 1], placed[|placed| - 1];
      SettledOrQueued(before);
      assert EnvelopesOf(placed) == EnvelopesOf(before) + [last.envelope];
      assert At(placed, ToQueue) == At(before, ToQueue) + if last.place == ToQueue then [last.envelope] else [];
      assert Settled(placed) == Settled(before) + if last.place != ToQueue then [last.envelope] else [];
    }
  }

  /** All envelopes that came from outside or were made here are settled, queued, or `pending`, and
      each in one of these ways only; the other channels hold exactly what was put there. */
  ghost predicate Conserved<P, T>(x: Exec<P, T>, pending: multiset<Envelope<T>>, arrived: multiset<Envelope<T>>) {
    && x.buffer == []
    && x.cluster == At(x.placed, ToCluster)
    && x.served == At(x.placed, ToService)
    && multiset(Settled(x.placed)) + multiset(x.queue) + pending == arrived + Made(x)
  }

  lemma SumsBalance<V>(goneX: multiset<V>, goneY: multiset<V>, madeX: multiset<V>, madeY: multiset<V>,
                       settledX: multiset<V>, settledY: multiset<V>, putX: multiset<V>, putY: multiset<V>,
                       queueX: multiset<V>, queueY: multiset<V>, added: multiset<V>,
                       es: multiset<V>, rest: multiset<V>, arrived: multiset<V>)
    requires goneY + madeX == goneX + es + madeY
    requires goneX == settledX + putX && goneY == settledY + putY
    requires putY == putX + added && queueY == queueX + added
    requires settledX + queueX + (es + rest) == arrived + madeX
    ensures settledY + queueY + rest == arrived + madeY
  {
    forall v ensures (settledY + queueY + rest)[v] == (arrived + madeY)[v] {
      assert (goneY + madeX)[v] == (goneX + es + madeY)[v];
      assert (settledX + queueX + (es + rest))[v] == (arrived + madeX)[v];
    }
  }

  /** What is accounted for is no longer pending. */
  lemma AccountsConserve<P, T>(x: Exec<P, T>, y: Exec<P, T>, es: multiset<Envelope<T>>,
      rest: multiset<Envelope<T>>, arrived: multiset<Envelope<T>>)
    requires Accounts(x, y, es) && Conserved(x, es + rest, arrived)
    ensures Conserved(y, rest, arrived)
  {
    var added := y.placed[|x.placed|..];
    assert y.placed == x.placed + added;
    AtConcat(x.placed, added, ToQueue);
    AtConcat(x.placed, added, ToCluster);
    AtConcat(x.placed, added, ToService);
    SettledOrQueued(x.placed);
    SettledOrQueued(y.placed);
    SumsBalance(Gone(x), Gone(y), Made(x), Made(y),
                multiset(Settled(x.placed)), multiset(Settled(y.placed)),
                multiset(At(x.placed, ToQueue)), multiset(At(y.placed, ToQueue)),
                multiset(x.queue), multiset(y.queue), multiset(At(added, ToQueue)), es, rest, arrived);
  }

  lemma {:induction false} StartConserves<P, T>(behave: Behavior<P, T>, x: Exec<P, T>, es: seq<Envelope<T>>,
      depth: nat, arrived: multiset<Envelope<T>>)
    requires Conserved(x, multiset(es), arrived) && StartAll(behave, x, es, depth).Running?
    ensures Conserved(StartAll(behave, x, es, depth).exec, multiset{}, arrived)
    decreases |es|
  {
    hide Conserved, Accounts;
    ConservedBuffer(x, multiset(es), arrived);
    if es == [] {
      assert multiset(es) == multiset{};
    } else {
      var e := es[0];
      assert es == [e] + es[1..];
      assert multiset(es) == multiset{e} + multiset(es[1..]);
      if e.to == ExecutorPid(x.node) {
        HandleAccounts(behave, x, e, depth);
        var y := HandleExecutorEnvelope(behave, x, e, depth).exec;
        AccountsConserve(x, y, multiset{e}, multiset(es[1..]), arrived);
        StartConserves(behave, y, es[1..], depth, arrived);
      } else {
        RouteAccounts(behave, x, e, depth);
        var y := Route(behave, x, e, depth).exec;
        AccountsConserve(x, y, multiset{e}, multiset(es[1..]), arrived);
        StartConserves(behave, y, es[1..], depth, arrived);
      }
    }
  }

  lemma ConservedBuffer<P, T>(x: Exec<P, T>, pending: multiset<Envelope<T>>, arrived: multiset<Envelope<T>>)
    requires Conserved(x, pending, arrived)
    ensures x.buffer == []
  {
  }

  /** A new reply of the executor is pending until it is routed. */
  lemma ReplyPending<P, T>(x: Exec<P, T>, e: Envelope<T>, arrived: multiset<Envelope<T>>)
    requires Conserved(x, multiset{}, arrived)
    ensures Conserved(x.(replies := x.replies + [e]), multiset{e} + multiset{}, arrived)
  {
    MorePending(multiset(Settled(x.placed)) + multiset(x.queue), arrived, Made(x), multiset{e});
    assert multiset(x.replies + [e]) == multiset(x.replies) + multiset{e};
    assert Made(x.(replies := x.replies + [e])) == Made(x) + multiset{e};
  }

  lemma MorePending<V>(held: multiset<V>, arrived: multiset<V>, made: multiset<V>, extra: multiset<V>)
    requires held + multiset{} == arrived + made
    ensures held + extra == arrived + (made + extra)
    ensures extra + multiset{} == extra
  {
    assert held + multiset{} == held;
    assert arrived + (made + extra) == (arrived + made) + extra;
  }

  lemma {:induction false} TickConserves<P, T>(behave: Behavior<P, T>, x: Exec<P, T>,
      fired: seq<(Pid, Option<CorrelationId>)>, depth: nat, arrived: multiset<Envelope<T>>)
    requires Conserved(x, multiset{}, arrived) && TickAll(behave, x, fired, depth).Running?
    ensures Conserved(TickAll(behave, x, fired, depth).exec, multiset{}, arrived)
    decreases |fired|
  {
    hide Conserved, Accounts;
    if fired != [] {
      var e := TimeoutFor(x.node, fired[0]);
      var y := x.(replies := x.replies + [e]);
      ReplyPending(x, e, arrived);
      ConservedBuffer(y, multiset{e} + multiset{}, arrived);
      var r := RouteToProcess(behave, y, e, depth);
      var z := if r.Running? then r.exec else Put(y, e, Dropped);
      if r.Running? {
        RouteToProcessAccounts(behave, y, e, depth);
      } else {
        PutAccounts(y, e, Dropped);
      }
      AccountsConserve(y, z, multiset{e}, multiset{}, arrived);
      TickConserves(behave, z, fired[1..], depth, arrived);
    }
  }

  lemma TakeFirst<P, T>(x: Exec<P, T>, arrived: multiset<Envelope<T>>)
    requires Conserved(x, multiset{}, arrived) && x.queue != []
    ensures Conserved(x.(queue := x.queue[1..]), multiset{x.queue[0]} + multiset{}, arrived)
  {
    assert x.queue == [x.queue[0]] + x.queue[1..];
    assert multiset(x.queue) == multiset{x.queue[0]} + multiset(x.queue[1..]);
  }

  lemma StartPending<P, T>(x: Exec<P, T>, pid: Pid, p: P, init: seq<Envelope<T>>, arrived: multiset<Envelope<T>>)
    requires Conserved(x, multiset{}, arrived)
    ensures Conserved(x.(procs := x.procs[pid := p], emitted := x.emitted + init), multiset(init), arrived)
  {
    MorePending(multiset(Settled(x.placed)) + multiset(x.queue), arrived, Made(x), multiset(init));
    assert Made(x.(emitted := x.emitted + init)) == Made(x) + multiset(init);
  }

  lemma TurnConserves<P, T>(behave: Behavior<P, T>, x: Exec<P, T>, input: Input<P, T>, depth: nat,
      arrived: multiset<Envelope<T>>)
    requires Conserved(x, multiset{}, arrived) && Turn(behave, x, input, depth).Running?
    ensures Conserved(Turn(behave, x, input, depth).exec, multiset{},
                      arrived + if input.Arrives? then multiset{input.envelope} else multiset{})
  {
    hide Conserved, Accounts, Route, StartAll, TickAll;
    assert arrived + multiset{} == arrived;
    match input
    case Arrives(e) => ArrivalConserves(x, e, arrived);
    case Receives =>
      if x.queue != [] {
        TakeFirst(x, arrived);
        var y := x.(queue := x.queue[1..]);
        ConservedBuffer(y, multiset{x.queue[0]} + multiset{}, arrived);
        RouteAccounts(behave, y, x.queue[0], depth);
        AccountsConserve(y, Route(behave, y, x.queue[0], depth).exec, multiset{x.queue[0]}, multiset{}, arrived);
      }
    case Starts(pid, p, init) =>
      StartPending(x, pid, p, init, arrived);
      StartConserves(behave, x.(procs := x.procs[pid := p], emitted := x.emitted + init), init, depth, arrived);
    case Stops(pid) => SameRecords(x, x.(procs := x.procs - {pid}), arrived);
    case Registers(pid) => SameRecords(x, x.(services := x.services + {pid}), arrived);
    case AsksStatus(cid) =>
      var reply := StatusReply(x.node, cid);
      var y := x.(replies := x.replies + [reply]);
      ReplyPending(x, reply, arrived);
      PutAccounts(y, reply, if reply.to in y.services then ToService else Dropped);
      AccountsConserve(y, RouteToService(y, reply), multiset{reply}, multiset{}, arrived);
    case Ticks(fired) =>
      var y := x.(timers := x.timers - set t | t in fired);
      SameRecords(x, y, arrived);
      TickConserves(behave, y, fired, depth, arrived);
  }

  lemma ArrivalConserves<P, T>(x: Exec<P, T>, e: Envelope<T>, arrived: multiset<Envelope<T>>)
    requires Conserved(x, multiset{}, arrived)
    ensures Conserved(x.(queue := x.queue + [e]), multiset{}, arrived + multiset{e})
  {
    assert multiset(x.queue + [e]) == multiset(x.queue) + multiset{e};
    MorePending(multiset(Settled(x.placed)) + multiset(x.queue), Made(x), arrived, multiset{e});
    assert Made(x) + (arrived + multiset{e}) == arrived + multiset{e} + Made(x);
    assert multiset(Settled(x.placed)) + multiset(x.queue) + multiset{e} ==
           multiset(Settled(x.placed)) + (multiset(x.queue) + multiset{e}) + multiset{};
  }

  lemma SameRecords<P, T>(x: Exec<P, T>, y: Exec<P, T>, arrived: multiset<Envelope<T>>)
    requires Conserved(x, multiset{}, arrived)
    requires y == x.(procs := y.procs, services := y.services, timers := y.timers)
    ensures Conserved(y, multiset{}, arrived)
  {
  }

  /** In every run each envelope that arrived or was made has gone to exactly one place or is still
      queued, nothing else has gone anywhere, and the shared buffer is empty between turns. */
  lemma {:induction false} RunConserves<P, T>(behave: Behavior<P, T>, node: NodeId, inputs: seq<Input<P, T>>,
      depth: nat)
    requires Play(behave, NewExec(node), inputs, depth).Running?
    ensures Conserved(Play(behave, NewExec(node), inputs, depth).exec, multiset{}, multiset(Arrived(inputs)))
    decreases |inputs|
  {
    if inputs != [] {
      hide Conserved, Turn;
      var before, last := inputs[..|inputs| - 1], inputs[|inputs| - 1];
      RunConserves(behave, node, before, depth);
      TurnConserves(behave, Play(behave, NewExec(node), before, depth).exec, last, depth, multiset(Arrived(before)));
    }
  }
}
