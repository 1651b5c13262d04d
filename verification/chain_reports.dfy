/** What the replicas of a chain send: operations on along the chain, answers to whoever asked, and reports of their
    histories. */
module ChainReports {
  import opened Base
  import opened Ids
  import opened Messages
  import opened ExecutorState
  import opened ExecutorRuns
  import opened Chains

  /** What the replica at place `i` sends for an envelope with correlation id `cid`, in this state. */
  function SentFor<Q>(x: Exec<Actor<Q>, UserMsg>, chain: seq<Pid>, i: nat, msg: Msg<UserMsg>, cid: CorrelationId)
    : seq<Envelope<UserMsg>>
    requires i < |chain|
  {
    match msg
    case User(Op(val)) =>
      if i + 1 < |chain| then [Envelope(chain[i + 1], chain[i], User(Op(val)), Some(cid))]
      else [Envelope(cid.pid, chain[i], User(OpComplete), Some(cid))]
    case User(GetHistory) => [Envelope(cid.pid, chain[i], User(History(HistoryOf(x, chain[i]))), Some(cid))]
    case _ => []
  }

  /** `y` is `x` after the replica at place `i` has taken the first queued envelope `e`. */
  ghost predicate Took<Q>(x: Exec<Actor<Q>, UserMsg>, y: Exec<Actor<Q>, UserMsg>, chain: seq<Pid>, i: nat,
      e: Envelope<UserMsg>)
    requires i < |chain| && x.queue != [] && e.correlationId.Some?
  {
    var sent := SentFor(x, chain, i, e.msg, e.correlationId.value);
    && y.emitted == x.emitted + sent && y.replies == x.replies
    && (forall pid | pid != chain[i] :: HistoryOf(y, pid) == HistoryOf(x, pid))
    && HistoryOf(y, chain[i]) ==
         HistoryOf(x, chain[i]) + (if e.msg.User? && e.msg.user.Op? then [e.msg.user.val] else [])
    && (forall out | out in sent ::
          && (out.to.node != x.node ==> y.cluster == x.cluster + [out] && y.queue == x.queue[1..])
          && (out.to.node == x.node && out.to != ExecutorPid(x.node) ==>
                y.queue == x.queue[1..] + [out] && y.cluster == x.cluster))
    && (sent == [] ==> y.queue == x.queue[1..] && y.cluster == x.cluster)
  }

  /** A replica that takes a message with a correlation id makes exactly one envelope for an operation or for a request
      for its history, and none for anything else. */
  lemma ReplicaTakes<Q>(other: Behavior<Q, UserMsg>, x: Exec<Actor<Q>, UserMsg>, chain: seq<Pid>, i: nat, depth: nat)
    requires Kept(x, chain, []) && i < |chain| && x.queue != []
    requires x.queue[0].to == chain[i] && x.queue[0].correlationId.Some?
    ensures var r := Turn(Behave(other), x, Receives, depth);
            r.Running? && Took(x, r.exec, chain, i, x.queue[0])
  {
    hide Drain, HandleExecutorEnvelope, Took, SentFor;
    var e, z := x.queue[0], x.(queue := x.queue[1..]);
    assert LinkInPlace(x, chain, i);
    var h := Reaction(z.procs[e.to].replica, e.msg, e.correlationId);
    ReactionSends(x, chain, i, e.msg, e.correlationId.value);
    var put := Put(z, e, ToProcess).(procs := z.procs[e.to := Link(h.process)], emitted := z.emitted + h.envelopes);
    assert z.buffer + h.envelopes == h.envelopes && put.(buffer := []) == put;
    DrainsAnswer(other, put, h.envelopes, depth);
    var y := Drain(Behave(other), put, h.envelopes, depth).exec;
    assert y.(buffer := []) == y;
    assert RouteToProcess(Behave(other), z, e, depth) == Running(y);
    TookWhen(x, put, y, chain, i, h);
  }

  lemma ReactionSends<Q>(x: Exec<Actor<Q>, UserMsg>, chain: seq<Pid>, i: nat, msg: Msg<UserMsg>, cid: CorrelationId)
    requires i < |chain| && LinkInPlace(x, chain, i)
    ensures var r := x.procs[chain[i]].replica;
            var h := Reaction(r, msg, Some(cid));
            && h.Output? && h.envelopes == SentFor(x, chain, i, msg, cid)
            && |h.envelopes| <= 1 && (forall out | out in h.envelopes :: out.msg.User?)
            && h.process.history == r.history + if msg.User? && msg.user.Op? then [msg.user.val] else []
  {
  }

  /** One envelope for a user, or none, is sent on. */
  ghost predicate SentOn<Q>(x: Exec<Actor<Q>, UserMsg>, y: Exec<Actor<Q>, UserMsg>, es: seq<Envelope<UserMsg>>) {
    && y.emitted == x.emitted && y.replies == x.replies && y.procs == x.procs && y.buffer == x.buffer
    && (forall out | out in es ::
          && (out.to.node != x.node ==> y.cluster == x.cluster + [out] && y.queue == x.queue)
          && (out.to.node == x.node && out.to != ExecutorPid(x.node) ==>
                y.queue == x.queue + [out] && y.cluster == x.cluster))
    && (es == [] ==> y.queue == x.queue && y.cluster == x.cluster)
  }

  lemma DrainsAnswer<Q>(other: Behavior<Q, UserMsg>, x: Exec<Actor<Q>, UserMsg>, es: seq<Envelope<UserMsg>>, depth: nat)
    requires |es| <= 1 && forall out | out in es :: out.msg.User?
    ensures var r := Drain(Behave(other), x, es, depth); r.Running? && SentOn(x, r.exec, es)
  {
    hide Route;
    if es != [] {
      assert es == [es[0]] && es[1..] == [] && es[0] in es;
    }
  }

  lemma TookWhen<Q>(x: Exec<Actor<Q>, UserMsg>, put: Exec<Actor<Q>, UserMsg>, y: Exec<Actor<Q>, UserMsg>,
      chain: seq<Pid>, i: nat, h: Handled<Replica, UserMsg>)
    requires i < |chain| && x.queue != [] && x.queue[0].correlationId.Some? && LinkInPlace(x, chain, i)
    requires var e := x.queue[0];
             && h.Output? && h.envelopes == SentFor(x, chain, i, e.msg, e.correlationId.value)
             && h.process.history ==
                  x.procs[chain[i]].replica.history + (if e.msg.User? && e.msg.user.Op? then [e.msg.user.val] else [])
    requires put.procs == x.procs[chain[i] := Link(h.process)] && put.emitted == x.emitted + h.envelopes
    requires put.replies == x.replies && put.node == x.node && put.queue == x.queue[1..] && put.cluster == x.cluster
    requires SentOn(put, y, h.envelopes)
    ensures Took(x, y, chain, i, x.queue[0])
  {
    hide SentFor;
  }

  /** In every run: when a replica takes a request for its history, exactly one envelope is made, to the pid of the
      correlation id, with the history that the replica has, which nobody's history changes. It extends what every
      replica further down the chain has. */
  lemma RunReports<Q(!new)>(other: Behavior<Q, UserMsg>, start: Exec<Actor<Q>, UserMsg>, chain: seq<Pid>,
      inputs: seq<Input<Actor<Q>, UserMsg>>, depth: nat, i: nat, j: nat)
    requires QuietOthers(chain, other) && Kept(start, chain, []) && i < |chain|
    requires forall k | 0 <= k < |inputs| :: AllowedInput(chain, inputs[k])
    requires Play(Behave(other), start, inputs, depth).Running?
    requires var x := Play(Behave(other), start, inputs, depth).exec;
             && x.queue != [] && x.queue[0].to == chain[i] && x.queue[0].msg == User(GetHistory)
             && x.queue[0].correlationId.Some?
    ensures var x := Play(Behave(other), start, inputs, depth).exec;
            var r := Play(Behave(other), start, inputs + [Receives], depth);
            var cid := x.queue[0].correlationId;
            && r.Running?
            && r.exec.emitted ==
                 x.emitted + [Envelope(cid.value.pid, chain[i], User(History(HistoryOf(x, chain[i]))), cid)]
            && (forall pid :: HistoryOf(r.exec, pid) == HistoryOf(x, pid))
            && (i <= j < |chain| ==> HistoryOf(x, chain[j]) <= HistoryOf(x, chain[i]))
  {
    hide QuietOthers, Turn, Kept, HistoryOf;
    RunKeepsChain(other, start, chain, inputs, depth);
    var x := Play(Behave(other), start, inputs, depth).exec;
    ReplicaTakes(other, x, chain, i, depth);
    assert (inputs + [Receives])[..|inputs|] == inputs;
    if i <= j < |chain| {
      DownstreamIsPrefix(x, chain, [], i, j);
    }
    ReportTaken(x, Turn(Behave(other), x, Receives, depth).exec, chain, i);
  }

  lemma ReportTaken<Q>(x: Exec<Actor<Q>, UserMsg>, y: Exec<Actor<Q>, UserMsg>, chain: seq<Pid>, i: nat)
    requires i < |chain| && x.queue != [] && x.queue[0].correlationId.Some? && x.queue[0].msg == User(GetHistory)
    requires Took(x, y, chain, i, x.queue[0])
    ensures var cid := x.queue[0].correlationId;
            y.emitted == x.emitted + [Envelope(cid.value.pid, chain[i], User(History(HistoryOf(x, chain[i]))), cid)]
    ensures forall pid :: HistoryOf(y, pid) == HistoryOf(x, pid)
  {
    hide HistoryOf;
    assert HistoryOf(x, chain[i]) + [] == HistoryOf(x, chain[i]);
  }

  /** Of two reports by different replicas in one state, the downstream one is a prefix of the other. */
  lemma ReportsAgree<Q>(other: Behavior<Q, UserMsg>, x: Exec<Actor<Q>, UserMsg>, chain: seq<Pid>, i: nat, j: nat,
      one: CorrelationId, two: CorrelationId)
    requires Kept(x, chain, []) && i <= j < |chain|
    ensures var up := SentFor(x, chain, i, User(GetHistory), one);
            var down := SentFor(x, chain, j, User(GetHistory), two);
            && |up| == 1 && |down| == 1 && up[0].msg.user.History? && down[0].msg.user.History?
            && down[0].msg.user.values <= up[0].msg.user.values
  {
    DownstreamIsPrefix(x, chain, [], i, j);
  }
}
