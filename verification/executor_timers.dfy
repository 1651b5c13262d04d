/** The executor's timers: what was started and not cancelled since, in the order in which requests reached
    the executor, whatever else was routed in between. */
module ExecutorTimers {
  import opened Base
  import opened Ids
  import opened Messages
  import opened ExecutorState
  import opened ExecutorRuns

  type Timer = (Pid, Option<CorrelationId>)

  /** The envelope starts (`Some(true)`) or cancels (`Some(false)`) the timer, or does neither. */
  function Asks<T>(e: Envelope<T>, t: Timer): Option<bool> {
    if e.msg.StartTimer? && (e.from, e.correlationId) == t then Some(true)
    else if e.msg.CancelTimer? && (e.from, e.msg.timer) == t then Some(false)
    else None
  }

  /** Is the timer pending after these envelopes to the executor? The last one about it decides. */
  function PendingAfter<T>(es: seq<Envelope<T>>, t: Timer, before: bool): bool
    decreases |es|
  {
    if es == [] then before
    else
      var asked := Asks(es[|es| - 1], t);
      if asked.Some? then asked.value else PendingAfter(es[..|es| - 1], t, before)
  }

  lemma {:induction false} PendingConcat<T>(a: seq<Envelope<T>>, b: seq<Envelope<T>>, t: Timer, before: bool)
    ensures PendingAfter(a + b, t, before) == PendingAfter(b, t, PendingAfter(a, t, before))
    decreases |b|
  {
    if b == [] {
      assert a + b == a;
    } else {
      assert (a + b)[..|a + b| - 1] == a + b[..|b| - 1];
      PendingConcat(a, b[..|b| - 1], t, before);
    }
  }

  /** From `x` to `y` the timer followed the envelopes that reached the executor meanwhile. */
  ghost predicate Follows<P, T>(x: Exec<P, T>, y: Exec<P, T>, t: Timer) {
    && x.placed <= y.placed
    && (t in y.timers <==> PendingAfter(At(y.placed[|x.placed|..], ToExecutor), t, t in x.timers))
  }

  lemma FollowsCompose<P, T>(x: Exec<P, T>, y: Exec<P, T>, z: Exec<P, T>, t: Timer)
    requires Follows(x, y, t) && Follows(y, z, t)
    ensures Follows(x, z, t)
  {
    var one, two := y.placed[|x.placed|..], z.placed[|y.placed|..];
    assert z.placed[|x.placed|..] == one + two;
    AtConcat(one, two, ToExecutor);
    PendingConcat(At(one, ToExecutor), At(two, ToExecutor), t, t in x.timers);
  }

  lemma NothingFollows<P, T>(x: Exec<P, T>, y: Exec<P, T>, t: Timer)
    requires y.placed == x.placed && y.timers == x.timers
    ensures Follows(x, y, t)
  {
    assert y.placed[|x.placed|..] == [];
  }

  lemma PutFollows<P, T>(x: Exec<P, T>, e: Envelope<T>, place: Place, t: Timer)
    requires place != ToExecutor || Asks(e, t).None?
    ensures Follows(x, Put(x, e, place), t)
  {
    hide At;
    var added := Put(x, e, place).placed[|x.placed|..];
    assert added == [Placed(e, place)] && [e][..0] == [];
    AtOne(Placed(e, place), ToExecutor);
    if place == ToExecutor {
      assert At(added, ToExecutor) == [e];
      assert PendingAfter([e], t, t in x.timers) == (t in x.timers);
    }
  }

  lemma {:induction false} RouteFollows<P, T>(behave: Behavior<P, T>, x: Exec<P, T>, e: Envelope<T>, depth: nat,
      t: Timer)
    ensures var r := RouteToProcess(behave, x, e, depth); r.Running? ==> Follows(x, r.exec, t)
    ensures var r := Route(behave, x, e, depth); r.Running? ==> Follows(x, r.exec, t)
    decreases depth, 3, 0
  {
    hide Follows, Drain, HandleExecutorEnvelope;
    PutFollows(x, e, ToCluster, t);
    PutFollows(x, e, ToService, t);
    PutFollows(x, e, Dropped, t);
    if e.to == ExecutorPid(x.node) {
      HandleFollows(behave, x, e, depth, t);
    } else if e.to in x.procs {
      var h := behave(x.procs[e.to], e.msg, e.from, e.correlationId);
      if h.Output? {
        var put := Put(x, e, ToProcess);
        var y := put.(procs := x.procs[e.to := h.process], emitted := x.emitted + h.envelopes, buffer := []);
        var out := x.buffer + h.envelopes;
        PutFollows(x, e, ToProcess, t);
        NothingFollows(put, y, t);
        FollowsCompose(x, put, y, t);
        DrainFollows(behave, y, out, depth, t);
        var r := Drain(behave, y, out, depth);
        if r.Running? {
          NothingFollows(r.exec, r.exec.(buffer := []), t);
          FollowsCompose(x, y, r.exec, t);
          FollowsCompose(x, r.exec, r.exec.(buffer := []), t);
        }
      }
    }
  }

  lemma {:induction false} DrainFollows<P, T>(behave: Behavior<P, T>, x: Exec<P, T>, es: seq<Envelope<T>>,
      depth: nat, t: Timer)
    ensures var r := Drain(behave, x, es, depth); r.Running? ==> Follows(x, r.exec, t)
    decreases depth, 2, |es|
  {
    hide Follows, HandleExecutorEnvelope;
    if es == [] {
      NothingFollows(x, x, t);
    } else {
      var e := es[0];
      var place := if e.to.node == x.node then ToQueue else ToCluster;
      var r := if e.to == ExecutorPid(x.node) then HandleExecutorEnvelope(behave, x, e, depth)
          else Running(Put(x, e, place));
      PutFollows(x, e, place, t);
      HandleFollows(behave, x, e, depth, t);
      if r.Running? {
        DrainFollows(behave, r.exec, es[1..], depth, t);
        var last := Drain(behave, r.exec, es[1..], depth);
        if last.Running? {
          FollowsCompose(x, r.exec, last.exec, t);
        }
      }
    }
  }

  lemma {:induction false} HandleFollows<P, T>(behave: Behavior<P, T>, x: Exec<P, T>, e: Envelope<T>, depth: nat,
      t: Timer)
    ensures var r := HandleExecutorEnvelope(behave, x, e, depth); r.Running? ==> Follows(x, r.exec, t)
    decreases depth, 1, 0
  {
    hide Route, Follows;
    var put := Put(x, e, ToExecutor);
    if e.msg.GetMetrics? {
      PutFollows(x, e, ToExecutor, t);
      if depth > 0 {
        var reply := MetricsReply(x.node, e.from, e.correlationId);
        var y := put.(replies := put.replies + [reply]);
        RouteFollows(behave, y, reply, depth - 1, t);
        var r := Route(behave, y, reply, depth - 1);
        if r.Running? {
          NothingFollows(put, y, t);
          FollowsCompose(x, put, y, t);
          FollowsCompose(x, y, r.exec, t);
        }
      }
    } else {
      RequestFollows(behave, x, e, depth, t);
    }
  }

  lemma RequestFollows<P, T>(behave: Behavior<P, T>, x: Exec<P, T>, e: Envelope<T>, depth: nat, t: Timer)
    requires !e.msg.GetMetrics?
    ensures Follows(x, HandleExecutorEnvelope(behave, x, e, depth).exec, t)
  {
    hide Route;
    if Asks(e, t).None? {
      PutFollows(x, e, ToExecutor, t);
    } else {
      var added := Put(x, e, ToExecutor).placed[|x.placed|..];
      assert added == [Placed(e, ToExecutor)] && added[..0] == [];
    }
  }

  lemma {:induction false} StartFollows<P, T>(behave: Behavior<P, T>, x: Exec<P, T>, es: seq<Envelope<T>>,
      depth: nat, t: Timer)
    ensures var r := StartAll(behave, x, es, depth); r.Running? ==> Follows(x, r.exec, t)
    decreases |es|
  {
    hide Follows, HandleExecutorEnvelope, Route;
    if es == [] {
      NothingFollows(x, x, t);
    } else {
      var e := es[0];
      HandleFollows(behave, x, e, depth, t);
      RouteFollows(behave, x, e, depth, t);
      var r := if e.to == ExecutorPid(x.node) then HandleExecutorEnvelope(behave, x, e, depth)
          else Route(behave, x, e, depth);
      if r.Running? {
        StartFollows(behave, r.exec, es[1..], depth, t);
        var last := StartAll(behave, r.exec, es[1..], depth);
        if last.Running? {
          FollowsCompose(x, r.exec, last.exec, t);
        }
      }
    }
  }

  lemma {:induction false} TickFollows<P, T>(behave: Behavior<P, T>, x: Exec<P, T>, fired: seq<Timer>, depth: nat,
      t: Timer)
    ensures var r := TickAll(behave, x, fired, depth); r.Running? ==> Follows(x, r.exec, t)
    decreases |fired|
  {
    hide Follows, RouteToProcess;
    if fired == [] {
      NothingFollows(x, x, t);
    } else {
      var e := TimeoutFor(x.node, fired[0]);
      var y := x.(replies := x.replies + [e]);
      RouteFollows(behave, y, e, depth, t);
      PutFollows(y, e, Dropped, t);
      NothingFollows(x, y, t);
      var r := RouteToProcess(behave, y, e, depth);
      if r.Running? || r.NotFound? {
        var z := if r.Running? then r.exec else Put(y, e, Dropped);
        FollowsCompose(x, y, z, t);
        TickFollows(behave, z, fired[1..], depth, t);
        var last := TickAll(behave, z, fired[1..], depth);
        if last.Running? {
          FollowsCompose(x, z, last.exec, t);
        }
      }
    }
  }

  /** Every turn of the executor: timers that the tick fires are no longer pending before their owners are
      told; apart from that a timer follows the requests that reach the executor during the turn. */
  lemma TurnFollows<P, T>(behave: Behavior<P, T>, x: Exec<P, T>, input: Input<P, T>, depth: nat, t: Timer)
    ensures var from := if input.Ticks? then x.(timers := x.timers - set f | f in input.fired) else x;
            var r := Turn(behave, x, input, depth);
            r.Running? ==> Follows(from, r.exec, t)
  {
    hide Follows, Route, StartAll, TickAll;
    match input
    case Arrives(e) => NothingFollows(x, x.(queue := x.queue + [e]), t);
    case Receives =>
      if x.queue == [] {
        NothingFollows(x, x, t);
      } else {
        var y := x.(queue := x.queue[1..]);
        NothingFollows(x, y, t);
        RouteFollows(behave, y, x.queue[0], depth, t);
        var r := Route(behave, y, x.queue[0], depth);
        if r.Running? {
          FollowsCompose(x, y, r.exec, t);
        }
      }
    case Starts(pid, p, init) =>
      var y := x.(procs := x.procs[pid := p], emitted := x.emitted + init);
      NothingFollows(x, y, t);
      StartFollows(behave, y, init, depth, t);
      var r := StartAll(behave, y, init, depth);
      if r.Running? {
        FollowsCompose(x, y, r.exec, t);
      }
    case Stops(pid) => NothingFollows(x, x.(procs := x.procs - {pid}), t);
    case Registers(pid) => NothingFollows(x, x.(services := x.services + {pid}), t);
    case AsksStatus(cid) =>
      var reply := StatusReply(x.node, cid);
      var y := x.(replies := x.replies + [reply]);
      NothingFollows(x, y, t);
      PutFollows(y, reply, if reply.to in y.services then ToService else Dropped, t);
      FollowsCompose(x, y, RouteToService(y, reply), t);
    case Ticks(fired) =>
      TickFollows(behave, x.(timers := x.timers - set f | f in fired), fired, depth, t);
  }

  ghost predicate Fires<P, T>(input: Input<P, T>, t: Timer) {
    input.Ticks? && t in input.fired
  }

  /** Over any run in which a timer does not fire, it is pending at the end exactly if the last request about
      it that reached the executor started it, or if there was none and it was pending before. */
  lemma {:induction false} RunFollows<P, T>(behave: Behavior<P, T>, x: Exec<P, T>, inputs: seq<Input<P, T>>,
      depth: nat, t: Timer)
    requires forall i | 0 <= i < |inputs| :: !Fires(inputs[i], t)
    ensures var r := Play(behave, x, inputs, depth); r.Running? ==> Follows(x, r.exec, t)
    decreases |inputs|
  {
    hide Turn;
    if inputs == [] {
      NothingFollows(x, x, t);
    } else {
      var before, last := inputs[..|inputs| - 1], inputs[|inputs| - 1];
      assert !Fires(last, t);
      RunFollows(behave, x, before, depth, t);
      var r := Play(behave, x, before, depth);
      if r.Running? {
        TurnFollows(behave, r.exec, last, depth, t);
        var s := Turn(behave, r.exec, last, depth);
        if s.Running? {
          var from := if last.Ticks? then r.exec.(timers := r.exec.timers - set f | f in last.fired) else r.exec;
          FollowsCompose(x, r.exec, s.exec, t) by {
            assert Follows(r.exec, s.exec, t);
          }
        }
      }
    }
  }
}
