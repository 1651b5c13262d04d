/** What the answers of a chain mean: over a whole run, the last replica has answered as many operations as it has
    recorded, and every replica has each of them at the same place. */
module ChainCompletions {
  import opened Base
  import opened Ids
  import opened Messages
  import opened ExecutorState
  import opened ExecutorRuns
  import opened Chains

  predicate IsAnswer(e: Envelope<UserMsg>, last: Pid) {
    e.from == last && e.msg == User(OpComplete)
  }

  /** How many of the envelopes are answers of `last`. */
  function Answers(es: seq<Envelope<UserMsg>>, last: Pid): nat
    decreases |es|
  {
    if es == [] then 0 else Answers(es[..|es| - 1], last) + if IsAnswer(es[|es| - 1], last) then 1 else 0
  }

  ghost predicate NoAnswers(es: seq<Envelope<UserMsg>>, last: Pid) {
    forall e | e in es :: !IsAnswer(e, last)
  }

  /** No other process answers in the name of `last`. */
  ghost predicate HonestOthers<Q(!new)>(last: Pid, other: Behavior<Q, UserMsg>) {
    forall q, msg, from, cid ::
      other(q, msg, from, cid).Output? ==> NoAnswers(other(q, msg, from, cid).envelopes, last)
  }

  lemma {:induction false} AnswersConcat(a: seq<Envelope<UserMsg>>, b: seq<Envelope<UserMsg>>, last: Pid)
    ensures Answers(a + b, last) == Answers(a, last) + Answers(b, last)
    decreases |b|
  {
    if b == [] {
      assert a + b == a;
    } else {
      AnswersConcat(a, b[..|b| - 1], last);
      assert (a + b)[..|a + b| - 1] == a + b[..|b| - 1];
    }
  }

  lemma {:induction false} NoneCounts(es: seq<Envelope<UserMsg>>, last: Pid)
    requires NoAnswers(es, last)
    ensures Answers(es, last) == 0
    decreases |es|
  {
    if es != [] {
      assert es[|es| - 1] in es;
      assert forall e | e in es[..|es| - 1] :: e in es;
      NoneCounts(es[..|es| - 1], last);
    }
  }

  function Last(chain: seq<Pid>): Pid
    requires chain != []
  {
    chain[|chain| - 1]
  }

  /** From `x` to `y` the chain stays in place, and its last replica has answered as often as it has recorded. */
  ghost predicate Tallies<Q>(x: Exec<Actor<Q>, UserMsg>, y: Exec<Actor<Q>, UserMsg>, chain: seq<Pid>) {
    && InPlace(y, chain)
    && Answers(y.emitted, Last(chain)) + |HistoryOf(x, Last(chain))| ==
       Answers(x.emitted, Last(chain)) + |HistoryOf(y, Last(chain))|
  }

  lemma TalliesCompose<Q>(x: Exec<Actor<Q>, UserMsg>, y: Exec<Actor<Q>, UserMsg>, z: Exec<Actor<Q>, UserMsg>,
      chain: seq<Pid>)
    requires chain != [] && Tallies(x, y, chain) && Tallies(y, z, chain)
    ensures Tallies(x, z, chain)
  {
    hide InPlace, HistoryOf, Answers;
  }

  /** Only the replicas and what was emitted matter. */
  lemma SameTally<Q>(x: Exec<Actor<Q>, UserMsg>, y: Exec<Actor<Q>, UserMsg>, chain: seq<Pid>)
    requires InPlace(x, chain) && y.node == x.node && y.emitted == x.emitted
    requires forall pid | pid in x.procs && x.procs[pid].Link? :: pid in y.procs && y.procs[pid] == x.procs[pid]
    requires forall pid | pid in y.procs && y.procs[pid].Link? :: pid in x.procs && x.procs[pid] == y.procs[pid]
    ensures Tallies(x, y, chain)
  {
    hide Answers;
    forall i: nat | i < |chain| ensures LinkInPlace(y, chain, i) {
      assert LinkInPlace(x, chain, i);
    }
    assert LinkInPlace(x, chain, |chain| - 1);
  }

  // ----- one process

  lemma OtherTallies<Q(!new)>(x: Exec<Actor<Q>, UserMsg>, y: Exec<Actor<Q>, UserMsg>, chain: seq<Pid>, pid: Pid,
      p: Actor<Q>, out: seq<Envelope<UserMsg>>)
    requires InPlace(x, chain) && pid in x.procs && x.procs[pid].Other? && p.Other? && NoAnswers(out, Last(chain))
    requires y.node == x.node && y.procs == x.procs[pid := p] && y.emitted == x.emitted + out
    ensures Tallies(x, y, chain)
  {
    AnswersConcat(x.emitted, out, Last(chain));
    NoneCounts(out, Last(chain));
    SameTally(x, y.(emitted := x.emitted), chain);
    hide Answers;
    assert InPlace(y, chain) by {
      SamePlaces(y.(emitted := x.emitted), y, chain);
    }
  }

  lemma SamePlaces<Q>(x: Exec<Actor<Q>, UserMsg>, y: Exec<Actor<Q>, UserMsg>, chain: seq<Pid>)
    requires InPlace(x, chain) && y.node == x.node && y.procs == x.procs
    ensures InPlace(y, chain)
  {
    forall i: nat | i < |chain| ensures LinkInPlace(y, chain, i) {
      assert LinkInPlace(x, chain, i);
    }
  }

  lemma LinkTallies<Q>(x: Exec<Actor<Q>, UserMsg>, y: Exec<Actor<Q>, UserMsg>, chain: seq<Pid>, k: nat, pid: Pid,
      msg: Msg<UserMsg>, cid: Option<CorrelationId>)
    requires InPlace(x, chain) && k < |chain| && chain[k] == pid && LinkInPlace(x, chain, k)
    requires Reaction(x.procs[pid].replica, msg, cid).Output?
    requires var h := Reaction(x.procs[pid].replica, msg, cid);
             y.node == x.node && y.procs == x.procs[pid := Link(h.process)] && y.emitted == x.emitted + h.envelopes
    ensures Tallies(x, y, chain)
  {
    hide InPlace, LinkInPlace, Answers, HistoryOf;
    LinkStaysPut(x, y, chain, k, pid, msg, cid);
    LinkAnswers(x, y, chain, k, pid, msg, cid);
  }

  lemma LinkStaysPut<Q>(x: Exec<Actor<Q>, UserMsg>, y: Exec<Actor<Q>, UserMsg>, chain: seq<Pid>, k: nat, pid: Pid,
      msg: Msg<UserMsg>, cid: Option<CorrelationId>)
    requires InPlace(x, chain) && k < |chain| && chain[k] == pid && LinkInPlace(x, chain, k)
    requires Reaction(x.procs[pid].replica, msg, cid).Output?
    requires y.node == x.node && y.procs == x.procs[pid := Link(Reaction(x.procs[pid].replica, msg, cid).process)]
    ensures InPlace(y, chain) && (k == |chain| - 1 <==> pid == Last(chain))
  {
    forall i: nat | i < |chain| ensures LinkInPlace(y, chain, i) {
      assert LinkInPlace(x, chain, i);
    }
  }

  lemma LinkAnswers<Q>(x: Exec<Actor<Q>, UserMsg>, y: Exec<Actor<Q>, UserMsg>, chain: seq<Pid>, k: nat, pid: Pid,
      msg: Msg<UserMsg>, cid: Option<CorrelationId>)
    requires k < |chain| && chain[k] == pid && LinkInPlace(x, chain, k) && (k == |chain| - 1 <==> pid == Last(chain))
    requires Reaction(x.procs[pid].replica, msg, cid).Output?
    requires var h := Reaction(x.procs[pid].replica, msg, cid);
             y.procs == x.procs[pid := Link(h.process)] && y.emitted == x.emitted + h.envelopes
    ensures Answers(y.emitted, Last(chain)) + |HistoryOf(x, Last(chain))| ==
            Answers(x.emitted, Last(chain)) + |HistoryOf(y, Last(chain))|
  {
    var h := Reaction(x.procs[pid].replica, msg, cid);
    AnswersConcat(x.emitted, h.envelopes, Last(chain));
    if h.envelopes == [] {
      assert Answers([], Last(chain)) == 0;
    } else {
      OneAnswer(h.envelopes[0], Last(chain));
      assert h.envelopes == [h.envelopes[0]];
    }
  }

  lemma OneAnswer(e: Envelope<UserMsg>, last: Pid)
    ensures Answers([e], last) == if IsAnswer(e, last) then 1 else 0
  {
    assert [e][..0] == [];
  }

  // ----- routing

  lemma {:induction false} RouteTallies<Q(!new)>(other: Behavior<Q, UserMsg>, x: Exec<Actor<Q>, UserMsg>,
      chain: seq<Pid>, e: Envelope<UserMsg>, depth: nat)
    requires InPlace(x, chain) && HonestOthers(Last(chain), other)
    ensures var r := RouteToProcess(Behave(other), x, e, depth); r.Running? ==> Tallies(x, r.exec, chain)
    ensures var r := Route(Behave(other), x, e, depth); r.Running? ==> Tallies(x, r.exec, chain)
    decreases depth, 3, 0
  {
    hide InPlace, HonestOthers, Tallies, Drain, HandleExecutorEnvelope;
    SameTally(x, Put(x, e, ToCluster), chain);
    SameTally(x, Put(x, e, ToService), chain);
    SameTally(x, Put(x, e, Dropped), chain);
    if e.to == ExecutorPid(x.node) {
      HandleTallies(other, x, chain, e, depth);
    } else if e.to in x.procs && !Ungrouped(e.to) && !ForClusterServer(e.to) {
      ProcessTallies(other, x, chain, e, depth);
    }
  }

  lemma {:induction false} ProcessTallies<Q(!new)>(other: Behavior<Q, UserMsg>, x: Exec<Actor<Q>, UserMsg>,
      chain: seq<Pid>, e: Envelope<UserMsg>, depth: nat)
    requires InPlace(x, chain) && HonestOthers(Last(chain), other) && e.to in x.procs
    requires e.to != ExecutorPid(x.node) && !ForClusterServer(e.to) && !Ungrouped(e.to)
    ensures var r := RouteToProcess(Behave(other), x, e, depth); r.Running? ==> Tallies(x, r.exec, chain)
    decreases depth, 2, |x.procs| + 1, 0
  {
    hide Tallies, Drain, HandleExecutorEnvelope, HistoryOf, Answers;
    var h := Behave(other)(x.procs[e.to], e.msg, e.from, e.correlationId);
    if h.Output? {
      var y := Put(x, e, ToProcess).(procs := x.procs[e.to := h.process], emitted := x.emitted + h.envelopes,
          buffer := []);
      if x.procs[e.to].Other? {
        assert NoAnswers(h.envelopes, Last(chain));
        OtherTallies(x, y, chain, e.to, h.process, h.envelopes);
      } else {
        assert e.to in chain;
        var k: nat :| k < |chain| && chain[k] == e.to;
        assert LinkInPlace(x, chain, k);
        LinkTallies(x, y, chain, k, e.to, e.msg, e.correlationId);
      }
      TallyPlace(x, y, chain);
      DrainTallies(other, y, chain, x.buffer + h.envelopes, depth);
      var r := Drain(Behave(other), y, x.buffer + h.envelopes, depth);
      if r.Running? {
        TallyPlace(y, r.exec, chain);
        SameTally(r.exec, r.exec.(buffer := []), chain);
        TalliesCompose(x, y, r.exec, chain);
        TalliesCompose(x, r.exec, r.exec.(buffer := []), chain);
      }
    }
  }

  lemma TallyPlace<Q>(x: Exec<Actor<Q>, UserMsg>, y: Exec<Actor<Q>, UserMsg>, chain: seq<Pid>)
    requires chain != [] && Tallies(x, y, chain)
    ensures InPlace(y, chain)
  {
  }

  lemma {:induction false} DrainTallies<Q(!new)>(other: Behavior<Q, UserMsg>, x: Exec<Actor<Q>, UserMsg>,
      chain: seq<Pid>, es: seq<Envelope<UserMsg>>, depth: nat)
    requires InPlace(x, chain) && HonestOthers(Last(chain), other)
    ensures var r := Drain(Behave(other), x, es, depth); r.Running? ==> Tallies(x, r.exec, chain)
    decreases depth, 2, 0, |es|
  {
    hide HonestOthers, Tallies, HandleExecutorEnvelope, Put;
    PutTallies(x, chain);
    if es == [] {
      SameTally(x, x, chain);
    } else {
      var e := es[0];
      var place := if e.to.node == x.node then ToQueue else ToCluster;
      HandleTallies(other, x, chain, e, depth);
      var r := if e.to == ExecutorPid(x.node) then HandleExecutorEnvelope(Behave(other), x, e, depth)
               else Running(Put(x, e, place));
      if r.Running? {
        TallyPlace(x, r.exec, chain);
        DrainTallies(other, r.exec, chain, es[1..], depth);
        var last := Drain(Behave(other), r.exec, es[1..], depth);
        if last.Running? {
          TalliesCompose(x, r.exec, last.exec, chain);
        }
      }
    }
  }

  lemma PutTallies<Q>(x: Exec<Actor<Q>, UserMsg>, chain: seq<Pid>)
    requires InPlace(x, chain)
    ensures forall e, place :: Tallies(x, Put(x, e, place), chain)
  {
    forall e, place ensures Tallies(x, Put(x, e, place), chain) {
      SameTally(x, Put(x, e, place), chain);
    }
  }

  lemma {:induction false} HandleTallies<Q(!new)>(other: Behavior<Q, UserMsg>, x: Exec<Actor<Q>, UserMsg>,
      chain: seq<Pid>, e: Envelope<UserMsg>, depth: nat)
    requires InPlace(x, chain) && HonestOthers(Last(chain), other)
    ensures var r := HandleExecutorEnvelope(Behave(other), x, e, depth); r.Running? ==> Tallies(x, r.exec, chain)
    decreases depth, 1, 0, 0
  {
    hide HonestOthers, Tallies, Route;
    var put := Put(x, e, ToExecutor);
    if e.msg.GetMetrics? {
      if depth > 0 {
        var reply := MetricsReply<UserMsg>(x.node, e.from, e.correlationId);
        var y := put.(replies := put.replies + [reply]);
        SameTally(x, y, chain);
        TallyPlace(x, y, chain);
        RouteTallies(other, y, chain, reply, depth - 1);
        var r := Route(Behave(other), y, reply, depth - 1);
        if r.Running? {
          TalliesCompose(x, y, r.exec, chain);
        }
      }
    } else {
      SameTally(x, HandleExecutorEnvelope(Behave(other), x, e, depth).exec, chain);
    }
  }

  // ----- runs

  /** Besides what a chain tolerates: what starts does not answer in the name of its last replica. */
  ghost predicate HonestInput<Q>(chain: seq<Pid>, input: Input<Actor<Q>, UserMsg>)
    requires chain != []
  {
    AllowedInput(chain, input) && (input.Starts? ==> NoAnswers(input.init, Last(chain)))
  }

  lemma {:induction false} StartTallies<Q(!new)>(other: Behavior<Q, UserMsg>, x: Exec<Actor<Q>, UserMsg>,
      chain: seq<Pid>, es: seq<Envelope<UserMsg>>, depth: nat)
    requires InPlace(x, chain) && HonestOthers(Last(chain), other)
    ensures var r := StartAll(Behave(other), x, es, depth); r.Running? ==> Tallies(x, r.exec, chain)
    decreases |es|
  {
    hide HonestOthers, Tallies, HandleExecutorEnvelope, Route;
    if es == [] {
      SameTally(x, x, chain);
    } else {
      HandleTallies(other, x, chain, es[0], depth);
      RouteTallies(other, x, chain, es[0], depth);
      var r := if es[0].to == ExecutorPid(x.node) then HandleExecutorEnvelope(Behave(other), x, es[0], depth)
               else Route(Behave(other), x, es[0], depth);
      if r.Running? {
        TallyPlace(x, r.exec, chain);
        StartTallies(other, r.exec, chain, es[1..], depth);
        var last := StartAll(Behave(other), r.exec, es[1..], depth);
        if last.Running? {
          TalliesCompose(x, r.exec, last.exec, chain);
        }
      }
    }
  }

  lemma {:induction false} TickTallies<Q(!new)>(other: Behavior<Q, UserMsg>, x: Exec<Actor<Q>, UserMsg>,
      chain: seq<Pid>, fired: seq<(Pid, Option<CorrelationId>)>, depth: nat)
    requires InPlace(x, chain) && HonestOthers(Last(chain), other)
    ensures var r := TickAll(Behave(other), x, fired, depth); r.Running? ==> Tallies(x, r.exec, chain)
    decreases |fired|
  {
    hide HonestOthers, Tallies, RouteToProcess;
    if fired == [] {
      SameTally(x, x, chain);
    } else {
      var e := TimeoutFor<UserMsg>(x.node, fired[0]);
      var y := x.(replies := x.replies + [e]);
      SameTally(x, y, chain);
      TallyPlace(x, y, chain);
      RouteTallies(other, y, chain, e, depth);
      SameTally(y, Put(y, e, Dropped), chain);
      var r := RouteToProcess(Behave(other), y, e, depth);
      if r.Running? || r.NotFound? {
        var z := if r.Running? then r.exec else Put(y, e, Dropped);
        TallyPlace(y, z, chain);
        TickTallies(other, z, chain, fired[1..], depth);
        var last := TickAll(Behave(other), z, fired[1..], depth);
        if last.Running? {
          TalliesCompose(x, y, z, chain);
          TalliesCompose(x, z, last.exec, chain);
        }
      }
    }
  }

  lemma TurnTallies<Q(!new)>(other: Behavior<Q, UserMsg>, x: Exec<Actor<Q>, UserMsg>, chain: seq<Pid>,
      input: Input<Actor<Q>, UserMsg>, depth: nat)
    requires InPlace(x, chain) && HonestOthers(Last(chain), other) && HonestInput(chain, input)
    ensures var r := Turn(Behave(other), x, input, depth); r.Running? ==> Tallies(x, r.exec, chain)
  {
    hide HonestOthers, Tallies, Route, StartAll, TickAll, Answers, HistoryOf;
    match input
    case Receives =>
      if x.queue == [] {
        SameTally(x, x, chain);
      } else {
        var y := x.(queue := x.queue[1..]);
        SameTally(x, y, chain);
        TallyPlace(x, y, chain);
        RouteTallies(other, y, chain, x.queue[0], depth);
        var r := Route(Behave(other), y, x.queue[0], depth);
        if r.Running? {
          TalliesCompose(x, y, r.exec, chain);
        }
      }
    case Starts(pid, p, init) =>
      var y := x.(procs := x.procs[pid := p], emitted := x.emitted + init);
      StartedTallies(x, y, chain, pid, p, init);
      TallyPlace(x, y, chain);
      StartTallies(other, y, chain, init, depth);
      var r := StartAll(Behave(other), y, init, depth);
      if r.Running? {
        TalliesCompose(x, y, r.exec, chain);
      }
    case Ticks(fired) =>
      var y := x.(timers := x.timers - set t | t in fired);
      SameTally(x, y, chain);
      TallyPlace(x, y, chain);
      TickTallies(other, y, chain, fired, depth);
      var r := TickAll(Behave(other), y, fired, depth);
      if r.Running? {
        TalliesCompose(x, y, r.exec, chain);
      }
    case _ =>
      SameTally(x, Turn(Behave(other), x, input, depth).exec, chain);
  }

  lemma StartedTallies<Q>(x: Exec<Actor<Q>, UserMsg>, y: Exec<Actor<Q>, UserMsg>, chain: seq<Pid>, pid: Pid,
      p: Actor<Q>, init: seq<Envelope<UserMsg>>)
    requires InPlace(x, chain) && p.Other? && pid !in chain && NoAnswers(init, Last(chain))
    requires y == x.(procs := x.procs[pid := p], emitted := x.emitted + init)
    ensures Tallies(x, y, chain)
  {
    AnswersConcat(x.emitted, init, Last(chain));
    NoneCounts(init, Last(chain));
    SameTally(x, y.(emitted := x.emitted), chain);
    hide Answers;
    SamePlaces(y.(emitted := x.emitted), y, chain);
  }

  lemma {:induction false} RunTallies<Q(!new)>(other: Behavior<Q, UserMsg>, x: Exec<Actor<Q>, UserMsg>, chain: seq<Pid>,
      inputs: seq<Input<Actor<Q>, UserMsg>>, depth: nat)
    requires InPlace(x, chain) && HonestOthers(Last(chain), other)
    requires forall i | 0 <= i < |inputs| :: HonestInput(chain, inputs[i])
    ensures var r := Play(Behave(other), x, inputs, depth); r.Running? ==> Tallies(x, r.exec, chain)
    decreases |inputs|
  {
    hide HonestOthers, HonestInput, Tallies, Turn;
    if inputs == [] {
      SameTally(x, x, chain);
    } else {
      var before, last := inputs[..|inputs| - 1], inputs[|inputs| - 1];
      RunTallies(other, x, chain, before, depth);
      var r := Play(Behave(other), x, before, depth);
      if r.Running? {
        TallyPlace(x, r.exec, chain);
        TurnTallies(other, r.exec, chain, last, depth);
        var s := Turn(Behave(other), r.exec, last, depth);
        if s.Running? {
          TalliesCompose(x, r.exec, s.exec, chain);
        }
      }
    }
  }

  /** In every run that starts with a fresh chain, the last replica has answered once for each operation in its
      history, and every replica has all of these operations, at the same places. */
  lemma AnsweredIsReplicated<Q(!new)>(other: Behavior<Q, UserMsg>, x: Exec<Actor<Q>, UserMsg>, chain: seq<Pid>,
      inputs: seq<Input<Actor<Q>, UserMsg>>, depth: nat, i: nat, n: nat)
    requires Kept(x, chain, []) && QuietOthers(chain, other) && HonestOthers(Last(chain), other)
    requires HistoryOf(x, Last(chain)) == [] && Answers(x.emitted, Last(chain)) == 0
    requires forall j | 0 <= j < |inputs| :: HonestInput(chain, inputs[j])
    requires Play(Behave(other), x, inputs, depth).Running? && i < |chain|
    ensures var y := Play(Behave(other), x, inputs, depth).exec;
            && Answers(y.emitted, Last(chain)) == |HistoryOf(y, Last(chain))|
            && (n < Answers(y.emitted, Last(chain)) ==>
                  n < |HistoryOf(y, chain[i])| && HistoryOf(y, chain[i])[n] == HistoryOf(y, Last(chain))[n])
  {
    var y := Play(Behave(other), x, inputs, depth).exec;
    RunTallies(other, x, chain, inputs, depth);
    RunKeepsChain(other, x, chain, inputs, depth);
    DownstreamIsPrefix(y, chain, [], i, |chain| - 1);
  }
}
