/** When a run of a chain panics: a replica takes for granted that every message has a correlation id. */
module ChainPanics {
  import opened Base
  import opened Ids
  import opened Messages
  import opened ExecutorState
  import opened ExecutorRuns
  import opened ExecutorPanics
  import opened Chains

  /** Exactly the pids of the chain are those of replicas. */
  ghost predicate Roles<Q>(x: Exec<Actor<Q>, UserMsg>, chain: seq<Pid>) {
    forall pid | pid in x.procs :: x.procs[pid].Link? <==> pid in chain
  }

  /** A metrics request whose reply goes to an ungrouped `cluster_server`, or without a correlation id to a pid of
      the chain. */
  predicate BadRequest(node: NodeId, chain: seq<Pid>, e: Envelope<UserMsg>) {
    && e.to == ExecutorPid(node) && e.msg.GetMetrics? && e.from.node == node
    && (Ungrouped(e.from) || (e.from in chain && e.correlationId.None?))
  }

  /** The other processes do not panic, and do not make such requests. */
  ghost predicate MannerlyOthers<Q(!new)>(node: NodeId, chain: seq<Pid>, other: Behavior<Q, UserMsg>) {
    forall q, msg, from, cid ::
      && other(q, msg, from, cid).Output?
      && forall e | e in other(q, msg, from, cid).envelopes :: !BadRequest(node, chain, e)
  }

  /** The envelope reaches a replica without a correlation id. */
  predicate Unanswerable<Q>(x: Exec<Actor<Q>, UserMsg>, chain: seq<Pid>, e: Envelope<UserMsg>) {
    e.to in chain && Handles(x, e.to) && e.correlationId.None?
  }

  /** What is fatal: what harms any executor, and what reaches a replica without a correlation id, be it the
      reply to a metrics request. */
  predicate ChainFatal<Q>(x: Exec<Actor<Q>, UserMsg>, chain: seq<Pid>, e: Envelope<UserMsg>) {
    || Harms(x.node, e)
    || (e.to.node == x.node && Unanswerable(x, chain, e))
    || (e.to == ExecutorPid(x.node) && e.msg.GetMetrics? && e.from.node == x.node
        && Unanswerable(x, chain, MetricsReply(x.node, e.from, e.correlationId)))
  }

  /** What an actor does, replica or not. */
  lemma ActorActs<Q(!new)>(node: NodeId, chain: seq<Pid>, other: Behavior<Q, UserMsg>, p: Actor<Q>, msg: Msg<UserMsg>,
      from: Pid, cid: Option<CorrelationId>)
    requires MannerlyOthers(node, chain, other)
    ensures var h := Behave(other)(p, msg, from, cid);
            && (h.Panic? <==> p.Link? && cid.None?)
            && (h.Output? ==> (h.process.Link? <==> p.Link?))
            && (h.Output? ==> forall e | e in h.envelopes :: !BadRequest(node, chain, e))
  {
    match p
    case Link(r) =>
      var acts := Reaction(r, msg, cid);
      assert acts.Panic? <==> cid.None?;
      assert acts.Output? ==> forall e | e in acts.envelopes :: e.msg.User?;
      assert Behave(other)(p, msg, from, cid) ==
               match acts case Panic => Panic case Output(q, es) => Output(Link(q), es);
    case Other(q) =>
      var acts := other(q, msg, from, cid);
      assert acts.Output?;
      assert Behave(other)(p, msg, from, cid) ==
               match acts case Panic => Panic case Output(q', es) => Output(Other(q'), es);
  }

  lemma UpsetsInChain<Q(!new)>(other: Behavior<Q, UserMsg>, x: Exec<Actor<Q>, UserMsg>, chain: seq<Pid>,
      e: Envelope<UserMsg>)
    requires Roles(x, chain) && MannerlyOthers(x.node, chain, other)
    ensures Upsets(Behave(other), x, e) <==> Unanswerable(x, chain, e)
  {
    if Handles(x, e.to) {
      ActorActs(x.node, chain, other, x.procs[e.to], e.msg, e.from, e.correlationId);
    }
  }

  lemma FatalInChain<Q(!new)>(other: Behavior<Q, UserMsg>, x: Exec<Actor<Q>, UserMsg>, chain: seq<Pid>,
      e: Envelope<UserMsg>)
    requires Roles(x, chain) && MannerlyOthers(x.node, chain, other)
    ensures Fatal(Behave(other), x, e) <==> ChainFatal(x, chain, e)
  {
    UpsetsInChain(other, x, chain, e);
    UpsetsInChain(other, x, chain, MetricsReply(x.node, e.from, e.correlationId));
    hide Upsets, Unanswerable, Roles, MannerlyOthers;
  }

  /** What a replica panics on depends on neither its history nor its place in the chain. */
  lemma ActorsAreSteady<Q(!new)>(node: NodeId, chain: seq<Pid>, other: Behavior<Q, UserMsg>)
    requires MannerlyOthers(node, chain, other)
    ensures Steady(Behave(other))
  {
    forall p: Actor<Q>, msg, from, cid | Behave(other)(p, msg, from, cid).Output?
      ensures SameTemper(Behave(other), p, Behave(other)(p, msg, from, cid).process)
    {
      ActorActs(node, chain, other, p, msg, from, cid);
      SameRoleSameTemper(node, chain, other, p, Behave(other)(p, msg, from, cid).process);
    }
  }

  /** Replicas panic alike, and unlike the other processes. */
  lemma SameRoleSameTemper<Q(!new)>(node: NodeId, chain: seq<Pid>, other: Behavior<Q, UserMsg>, p: Actor<Q>,
      q: Actor<Q>)
    requires MannerlyOthers(node, chain, other)
    ensures SameTemper(Behave(other), p, q) <==> (p.Link? <==> q.Link?)
  {
    var behave := Behave(other);
    forall msg, from, cid
      ensures behave(p, msg, from, cid).Panic? <==> p.Link? && cid.None?
      ensures behave(q, msg, from, cid).Panic? <==> q.Link? && cid.None?
    {
      ActorActs(node, chain, other, p, msg, from, cid);
      ActorActs(node, chain, other, q, msg, from, cid);
    }
    var nobody := ExecutorPid(node);
    assert behave(p, Metrics, nobody, None).Panic? <==> p.Link?;
    assert behave(q, Metrics, nobody, None).Panic? <==> q.Link?;
  }

  lemma SameCastSameRoles<Q(!new)>(other: Behavior<Q, UserMsg>, x: Exec<Actor<Q>, UserMsg>,
      y: Exec<Actor<Q>, UserMsg>, chain: seq<Pid>)
    requires Roles(x, chain) && MannerlyOthers(x.node, chain, other) && SameCast(Behave(other), x, y)
    ensures Roles(y, chain) && y.node == x.node
  {
    forall pid | pid in y.procs ensures y.procs[pid].Link? <==> pid in chain {
      assert SameTemper(Behave(other), x.procs[pid], y.procs[pid]);
      SameRoleSameTemper(x.node, chain, other, x.procs[pid], y.procs[pid]);
    }
  }

  /** Replicas make no metrics requests, so nobody makes a fatal one. */
  lemma ActorsAreMannered<Q(!new)>(other: Behavior<Q, UserMsg>, x: Exec<Actor<Q>, UserMsg>, chain: seq<Pid>)
    requires Roles(x, chain) && MannerlyOthers(x.node, chain, other)
    ensures Mannered(Behave(other), x)
  {
    hide MannerlyOthers;
    var behave := Behave(other);
    forall p: Actor<Q>, msg, from, cid | behave(p, msg, from, cid).Output?
      ensures SafeRequests(behave, x, behave(p, msg, from, cid).envelopes)
    {
      var es := behave(p, msg, from, cid).envelopes;
      forall e | e in es && e.to == ExecutorPid(x.node) ensures !FatalReply(behave, x, e) {
        UpsetsInChain(other, x, chain, MetricsReply(x.node, e.from, e.correlationId));
        ActorActs(x.node, chain, other, p, msg, from, cid);
        assert !BadRequest(x.node, chain, e);
      }
    }
  }

  // ----- turns and runs

  /** A process that is started is a replica exactly if its pid belongs to the chain. */
  predicate RoleInput<Q>(chain: seq<Pid>, input: Input<Actor<Q>, UserMsg>) {
    input.Starts? ==> (input.process.Link? <==> input.pid in chain)
  }

  /** What makes a turn fatal: the envelope it takes, the first envelopes of a process it starts, or the Timeout for
      an ungrouped `cluster_server`, or without a correlation id for a replica. */
  ghost predicate ChainTurnHarms<Q>(x: Exec<Actor<Q>, UserMsg>, chain: seq<Pid>, input: Input<Actor<Q>, UserMsg>) {
    match input
    case Receives => x.queue != [] && ChainFatal(x, chain, x.queue[0])
    case Starts(pid, p, init) => exists e :: e in init && ChainFatal(x.(procs := x.procs[pid := p]), chain, e)
    case Ticks(fired) =>
      exists t :: t in fired && (Ungrouped(t.0) || Unanswerable(x, chain, TimeoutFor(x.node, t)))
    case _ => false
  }

  lemma TurnHarmsInChain<Q(!new)>(other: Behavior<Q, UserMsg>, x: Exec<Actor<Q>, UserMsg>, chain: seq<Pid>,
      input: Input<Actor<Q>, UserMsg>)
    requires Roles(x, chain) && MannerlyOthers(x.node, chain, other) && RoleInput(chain, input)
    ensures TurnHarms(Behave(other), x, input) <==> ChainTurnHarms(x, chain, input)
  {
    hide Fatal, ChainFatal, Upsets, Unanswerable, MannerlyOthers;
    var y := During(x, input);
    assert Roles(y, chain);
    forall e ensures Fatal(Behave(other), y, e) <==> ChainFatal(y, chain, e) {
      FatalInChain(other, y, chain, e);
    }
    forall e ensures Upsets(Behave(other), y, e) <==> Unanswerable(y, chain, e) {
      UpsetsInChain(other, y, chain, e);
    }
  }

  lemma TurnKeepsRoles<Q(!new)>(other: Behavior<Q, UserMsg>, x: Exec<Actor<Q>, UserMsg>, chain: seq<Pid>,
      input: Input<Actor<Q>, UserMsg>, depth: nat)
    requires Roles(x, chain) && MannerlyOthers(x.node, chain, other) && RoleInput(chain, input) && x.buffer == []
    requires Turn(Behave(other), x, input, depth).Running?
    ensures var y := Turn(Behave(other), x, input, depth).exec;
            Roles(y, chain) && y.node == x.node && y.buffer == []
  {
    hide MannerlyOthers, Steady, Mannered, SameCast, Polite, Route, StartAll, TickAll, TurnHarms;
    var y := During(x, input);
    assert Roles(y, chain);
    ActorsAreSteady(x.node, chain, other);
    ActorsAreMannered(other, y, chain);
    TurnPanicsExactly(Behave(other), x, input, depth);
    if input.Receives? || input.Ticks? || input.Starts? {
      SameCastSameRoles(other, y, Turn(Behave(other), x, input, depth).exec, chain);
    }
  }

  lemma {:induction false} RunKeepsRoles<Q(!new)>(other: Behavior<Q, UserMsg>, x: Exec<Actor<Q>, UserMsg>,
      chain: seq<Pid>, inputs: seq<Input<Actor<Q>, UserMsg>>, depth: nat)
    requires Roles(x, chain) && MannerlyOthers(x.node, chain, other) && x.buffer == []
    requires forall i | 0 <= i < |inputs| :: RoleInput(chain, inputs[i])
    requires Play(Behave(other), x, inputs, depth).Running?
    ensures var y := Play(Behave(other), x, inputs, depth).exec;
            Roles(y, chain) && y.node == x.node && y.buffer == []
    decreases |inputs|
  {
    hide Roles, MannerlyOthers, RoleInput, Turn;
    if inputs != [] {
      var before := inputs[..|inputs| - 1];
      RunKeepsRoles(other, x, chain, before, depth);
      TurnKeepsRoles(other, Play(Behave(other), x, before, depth).exec, chain, inputs[|inputs| - 1], depth);
    }
  }

  /** Turn `k` of the run is fatal to the chain. */
  ghost predicate ChainFatalTurn<Q>(other: Behavior<Q, UserMsg>, x: Exec<Actor<Q>, UserMsg>, chain: seq<Pid>,
      inputs: seq<Input<Actor<Q>, UserMsg>>, depth: nat, k: nat)
  {
    && k < |inputs|
    && var r := Play(Behave(other), x, inputs[..k], depth);
       r.Running? && ChainTurnHarms(r.exec, chain, inputs[k])
  }

  /** Exactly when a run with replicas panics: when something without a correlation id reaches a replica, or
      something harmful reaches the executor. */
  lemma ChainPanicsExactly<Q(!new)>(other: Behavior<Q, UserMsg>, x: Exec<Actor<Q>, UserMsg>, chain: seq<Pid>,
      inputs: seq<Input<Actor<Q>, UserMsg>>, depth: nat)
    requires Roles(x, chain) && MannerlyOthers(x.node, chain, other) && x.buffer == []
    requires forall i | 0 <= i < |inputs| :: RoleInput(chain, inputs[i])
    requires !Play(Behave(other), x, inputs, depth).Deeper?
    ensures Play(Behave(other), x, inputs, depth).Panicked? <==>
              exists k: nat :: ChainFatalTurn(other, x, chain, inputs, depth, k)
  {
    hide Roles, MannerlyOthers, RoleInput, Turn, Play, Steady, Mannered, TurnHarms, ChainTurnHarms;
    var behave := Behave(other);
    forall k: nat | k < |inputs| && Play(behave, x, inputs[..k], depth).Running?
      ensures Mannered(behave, During(Play(behave, x, inputs[..k], depth).exec, inputs[k]))
      ensures FatalTurn(behave, x, inputs, depth, k) <==> ChainFatalTurn(other, x, chain, inputs, depth, k)
    {
      var y := Play(behave, x, inputs[..k], depth).exec;
      RunKeepsRoles(other, x, chain, inputs[..k], depth);
      TurnHarmsInChain(other, y, chain, inputs[k]);
      StartKeepsRoles(y, chain, inputs[k]);
      ActorsAreMannered(other, During(y, inputs[k]), chain);
    }
    ActorsAreSteady(x.node, chain, other);
    RunPanicsExactly(behave, x, inputs, depth);
    forall k: nat
      ensures FatalTurn(behave, x, inputs, depth, k) <==> ChainFatalTurn(other, x, chain, inputs, depth, k)
    {
    }
  }

  lemma StartKeepsRoles<Q>(x: Exec<Actor<Q>, UserMsg>, chain: seq<Pid>, input: Input<Actor<Q>, UserMsg>)
    requires Roles(x, chain) && RoleInput(chain, input)
    ensures Roles(During(x, input), chain) && During(x, input).node == x.node
  {
  }

  /** A replica that is asked for its history without a correlation id brings its executor down. */
  lemma UnansweredKills(other: Behavior<(), UserMsg>, pid: Pid, from: Pid, depth: nat)
    requires IsProcessPid(pid.node, pid)
    ensures var start: Input<Actor<()>, UserMsg> := Starts(pid, Link(Replica(pid, None, [])), []);
            var ask: Input<Actor<()>, UserMsg> := Arrives(Envelope(pid, from, User(GetHistory), None));
            Play(Behave(other), NewExec(pid.node), [start, ask, Receives], depth) == Panicked
  {
    var behave := Behave(other);
    var x: Exec<Actor<()>, UserMsg> := NewExec(pid.node);
    var start: Input<Actor<()>, UserMsg> := Starts(pid, Link(Replica(pid, None, [])), []);
    var ask: Input<Actor<()>, UserMsg> := Arrives(Envelope(pid, from, User(GetHistory), None));
    var inputs := [start, ask, Receives];
    var y := Turn(behave, x, start, depth).exec;
    var z := Turn(behave, y, ask, depth).exec;
    assert inputs[..2] == [start, ask] && [start, ask][..1] == [start] && [start][..0] == [];
    assert Play(behave, x, [start], depth) == Running(y);
    assert Play(behave, x, [start, ask], depth) == Running(z);
    var e := Envelope(pid, from, User(GetHistory), None);
    assert z.queue == [e] && z.procs[pid] == Link(Replica(pid, None, []));
    assert Reaction(Replica(pid, None, []), e.msg, None) == Panic;
    assert behave(z.procs[pid], e.msg, from, None) == Panic;
    assert z.(queue := z.queue[1..]) == z.(queue := []);
    assert RouteToProcess(behave, z.(queue := []), e, depth) == Panicked;
    assert Turn(behave, z, Receives, depth) == Panicked;
    assert inputs[|inputs| - 1] == Receives && inputs[..|inputs| - 1] == [start, ask];
  }
}
