/** Delta flooding: a node that learns something from a delta sends it on, otherwise it does not. In
    every run without joins and leaves this comes to rest. */
module Flooding {
  import opened Ids
  import opened Membership
  import opened ClusterState
  import opened ClusterSteps
  import opened Network
  import opened NetworkInvariant
  import opened Sums

  function Marks(net: Net, m: NodeId): set<Mark>
    requires m in net.nodes
  {
    net.nodes[m].world.server.members.marks
  }

  /** The marks a frame carries. */
  function Carried(frame: Frame): set<Mark> {
    match frame
    case MembersFrame(_, marks) => marks
    case DeltaFrame(delta) => delta
    case _ => {}
  }

  /** Everything known or sent anywhere lies within `all`. */
  ghost predicate Within(net: Net, all: set<Mark>) {
    && (forall m | m in net.nodes :: Marks(net, m) <= all)
    && (forall e, i | 0 <= i < |Sent(net, e)| :: Carried(Sent(net, e)[i]) <= all)
  }

  /** No node joins or leaves in this action. */
  predicate Calm(a: Action) {
    a.Acting? ==> !a.ev.Join? && !a.ev.Leave?
  }

  /** The action handles a delta. */
  ghost predicate HandlesDelta(net: Net, a: Action) {
    a.Handling? && a.at in net.nodes && net.nodes[a.at].inbox != [] && net.nodes[a.at].inbox[0].DeltaFrame?
  }

  /** The action handles `delta` at node `m` and sends it on. */
  ghost predicate Refloods(net: Net, a: Action, m: NodeId, delta: Delta) {
    && HandlesDelta(net, a) && a.at == m
    && net.nodes[m].inbox[0].delta == delta
    && !(delta <= Marks(net, m))
  }

  // ----- the measure

  /** How much of `all` each node has not absorbed yet. */
  ghost function Missing(net: Net, all: set<Mark>): map<NodeId, nat> {
    map m | m in net.nodes :: |all - Marks(net, m)|
  }

  function Deltas(frames: seq<Frame>): nat {
    if frames == [] then 0 else (if frames[0].DeltaFrame? then 1 else 0) + Deltas(frames[1..])
  }

  /** How many frames of `e` its far end has handled or lost. */
  ghost function Consumed(net: Net, e: End): nat {
    if e in net.peer && net.peer[e].node in net.nodes then net.nodes[net.peer[e].node].Done(net.peer[e].id) else 0
  }

  /** The delta frames of `e` that its far end has not handled. */
  ghost function Pending(net: Net, e: End): nat {
    if Consumed(net, e) <= |Sent(net, e)| then Deltas(Sent(net, e)[Consumed(net, e)..]) else 0
  }

  ghost function Senders(net: Net): set<End> {
    set m, id | m in net.nodes && id in net.nodes[m].world.sent :: End(m, id)
  }

  ghost function InFlight(net: Net): map<End, nat> {
    map e | e in Senders(net) :: Pending(net, e)
  }

  /** The pair that decreases: what nodes have not absorbed, then the deltas in flight. */
  ghost predicate Lower(net: Net, net': Net, all: set<Mark>) {
    || Sum(Missing(net', all)) < Sum(Missing(net, all))
    || (Sum(Missing(net', all)) == Sum(Missing(net, all)) && Sum(InFlight(net')) < Sum(InFlight(net)))
  }

  ghost predicate NotHigher(net: Net, net': Net, all: set<Mark>) {
    || Sum(Missing(net', all)) < Sum(Missing(net, all))
    || (Sum(Missing(net', all)) == Sum(Missing(net, all)) && Sum(InFlight(net')) <= Sum(InFlight(net)))
  }

  lemma {:induction false} DeltasConcat(a: seq<Frame>, b: seq<Frame>)
    ensures Deltas(a + b) == Deltas(a) + Deltas(b)
  {
    if a == [] {
      assert a + b == b;
    } else {
      DeltasConcat(a[1..], b);
      assert (a + b)[1..] == a[1..] + b;
    }
  }

  // ----- effects on one server

  /** Without a join, a leave or a delta, no delta is sent. */
  lemma CalmSends(s: Server, ev: Event)
    requires Valid(s) && Allowed(s, ev) && !ev.Join? && !ev.Leave?
    requires ev.Got? ==> !ev.frame.DeltaFrame?
    ensures forall id | id in Step(s, ev).sent :: !Step(s, ev).sent[id].DeltaFrame?
  {
  }

  /** What one event does to the membership and which marks it sends. */
  ghost predicate Spreads(s: Server, r: Reply, ev: Event) {
    && r.server.members.marks ==
         s.members.marks + (if ev.Got? then Carried(ev.frame) else {})
    && (forall id | id in r.sent :: Carried(r.sent[id]) <= r.server.members.marks)
    && (ev.Got? && Carried(ev.frame) <= s.members.marks ==> r.sent == map[] && r.errs == {})
    && (ev.Got? && !ev.frame.DeltaFrame? ==> r.sent == map[] && r.errs == {})
  }

  lemma CheckKeepsMembers(s: Server, connected: map<Id, NodeId>)
    requires s.wheel.write < |s.wheel.data|
    ensures CheckConnections(s, connected).members == s.members
  {
  }

  lemma TickSpreads(s: Server, ev: Event)
    requires Valid(s) && Allowed(s, ev) && ev.Tick?
    ensures Spreads(s, Step(s, ev), ev)
  {
    hide CheckConnections;
    assert s.wheel.Ok();
    assert s.members.marks + {} == s.members.marks;
    TickIsCheck(s, ev);
    ExpirySteps(s);
    hide Valid, Step, ExpireTimers, Expired;
    ExpiredMembers(s, ExpireTimers(s));
    CheckKeepsMembers(ExpireTimers(s), ev.connected);
  }

  lemma ExpiredMembers(s: Server, s1: Server)
    requires Expired(s, s1)
    ensures s1.members == s.members
  {
  }

  lemma MembersSpreads(s: Server, ev: Event)
    requires Valid(s) && Allowed(s, ev) && ev.Got? && ev.frame.MembersFrame?
    ensures Spreads(s, Step(s, ev), ev)
  {
    var Got(id, MembersFrame(from, marks), _, connected) := ev;
    EstablishKeeps(s, id, from, marks);
    EstablishSteps(s, id, from, marks);
    CheckKeepsMembers(EstablishConnection(s, id, from, marks), connected);
  }

  lemma DeltaSpreads(s: Server, ev: Event)
    requires ev.Got? && ev.frame.DeltaFrame?
    ensures var r := GotDelta(s, ev.frame.delta, ev.fails);
            Spreads(s, r, ev)
  {
    if ev.frame.delta <= s.members.marks {
      assert s.members.marks + ev.frame.delta == s.members.marks;
    }
  }

  /** Neither the members nor more than Members and envelopes are involved. */
  lemma OtherSpreads(s: Server, ev: Event)
    requires Valid(s) && Allowed(s, ev)
    requires ev.Accept? || ev.FirstRead? || ev.Send? || ev.IoError? || ev.Cleanup?
             || (ev.Got? && (ev.frame.Ping? || ev.frame.EnvelopeFrame?))
    ensures Spreads(s, Step(s, ev), ev)
  {
    assert s.members.marks + {} == s.members.marks;
  }

  lemma StepSpreads(s: Server, ev: Event)
    requires Valid(s) && Allowed(s, ev) && !ev.Join? && !ev.Leave?
    ensures Spreads(s, Step(s, ev), ev)
  {
    if ev.Tick? {
      TickSpreads(s, ev);
    } else if ev.Got? && ev.frame.MembersFrame? {
      MembersSpreads(s, ev);
    } else if ev.Got? && ev.frame.DeltaFrame? {
      DeltaSpreads(s, ev);
    } else {
      OtherSpreads(s, ev);
    }
  }

  // ----- effects on the measure

  /** `after` is `before` with at most one more frame, which is not a delta. */
  ghost predicate NoDeltaMore(before: seq<Frame>, after: seq<Frame>) {
    after == before ||
    (before < after && |after| == |before| + 1 && !after[|before|].DeltaFrame?)
  }

  lemma PendingSame(net: Net, net': Net, e: End)
    requires NoDeltaMore(Sent(net, e), Sent(net', e)) && Consumed(net', e) == Consumed(net, e)
    ensures Pending(net', e) == Pending(net, e)
  {
    var c, before, after := Consumed(net, e), Sent(net, e), Sent(net', e);
    if after != before && c <= |before| {
      assert after[c..] == before[c..] + [after[|before|]];
      DeltasConcat(before[c..], [after[|before|]]);
    }
  }

  /** Nobody learns anything, no delta is sent and none is handled. */
  ghost predicate Uneventful(net: Net, net': Net) {
    && net'.nodes.Keys == net.nodes.Keys
    && (forall m | m in net.nodes :: Marks(net', m) == Marks(net, m))
    && Senders(net) <= Senders(net')
    && (forall e | e in Senders(net) :: Consumed(net', e) == Consumed(net, e))
    && (forall e | e in Senders(net') :: NoDeltaMore(Sent(net, e), Sent(net', e)))
    && (forall e | e in Senders(net') && e !in Senders(net) :: Sent(net, e) == [])
  }

  lemma UneventfulKeepsMeasure(net: Net, net': Net, all: set<Mark>)
    requires Uneventful(net, net')
    ensures NotHigher(net, net', all)
  {
    assert Missing(net', all) == Missing(net, all);
    forall e | e in Senders(net')
      ensures Pending(net', e) == if e in Senders(net) then Pending(net, e) else 0
    {
      if e in Senders(net) {
        PendingSame(net, net', e);
      } else if Consumed(net', e) <= |Sent(net', e)| {
        assert Deltas(Sent(net', e)[Consumed(net', e)..]) == 0;
      }
    }
    SumPadded(InFlight(net), InFlight(net'));
  }

  /** A node that learns something lowers the measure, whatever it sends. */
  lemma LearningLowers(net: Net, net': Net, m: NodeId, all: set<Mark>)
    requires m in net.nodes && net'.nodes.Keys == net.nodes.Keys
    requires forall n | n in net.nodes && n != m :: Marks(net', n) == Marks(net, n)
    requires Marks(net, m) < Marks(net', m) <= all
    ensures Lower(net, net', all)
  {
    var mark :| mark in Marks(net', m) && mark !in Marks(net, m);
    assert all - Marks(net', m) < all - Marks(net, m) by {
      assert mark in all - Marks(net, m);
    }
    SmallerSize(all - Marks(net', m), all - Marks(net, m));
    assert Missing(net', all)[m] < Missing(net, all)[m];
    SumShrinks(Missing(net, all), Missing(net', all));
  }

  lemma SmallerSize<T>(a: set<T>, b: set<T>)
    requires a < b
    ensures |a| < |b|
  {
    assert b == a + (b - a);
  }

  lemma DropFirst(sent: seq<Frame>, c: nat)
    requires c < |sent|
    ensures Deltas(sent[c..]) == Deltas(sent[c + 1..]) + if sent[c].DeltaFrame? then 1 else 0
  {
    assert sent[c..][1..] == sent[c + 1..];
  }

  /** One frame of `far` is handled and nothing else changes. */
  lemma HandlingLowers(net: Net, net': Net, far: End, all: set<Mark>)
    requires net'.nodes.Keys == net.nodes.Keys
    requires forall m | m in net.nodes :: Marks(net', m) == Marks(net, m)
    requires Senders(net') == Senders(net) && far in Senders(net)
    requires forall e | e in Senders(net) :: Sent(net', e) == Sent(net, e)
    requires forall e | e in Senders(net) ::
               Consumed(net', e) == if e == far then Consumed(net, e) + 1 else Consumed(net, e)
    requires Consumed(net, far) < |Sent(net, far)|
    ensures NotHigher(net, net', all)
    ensures Sent(net, far)[Consumed(net, far)].DeltaFrame? ==> Lower(net, net', all)
  {
    hide Senders, Sent, Consumed, Deltas, Sum, Missing;
    MissingSame(net, net', all);
    var c, sent := Consumed(net, far), Sent(net, far);
    DropFirst(sent, c);
    var before, after := InFlight(net), InFlight(net');
    forall e | e in before ensures after[e] == before[e] - if e == far && sent[c].DeltaFrame? then 1 else 0 {
      assert before[e] == Pending(net, e) && after[e] == Pending(net', e);
    }
    SumShrinks(before, after);
    assert sent[c].DeltaFrame? ==> far in before && after[far] < before[far];
  }

  lemma MissingSame(net: Net, net': Net, all: set<Mark>)
    requires net'.nodes.Keys == net.nodes.Keys && forall m | m in net.nodes :: Marks(net', m) == Marks(net, m)
    ensures Missing(net', all) == Missing(net, all)
  {
  }

  // ----- actions

  lemma SentBy(net: Net, net': Net, m: NodeId, ev: Event, e: End)
    requires m in net.nodes && Valid(net.nodes[m].world.server)
    requires net'.nodes.Keys == net.nodes.Keys
    requires forall n | n in net.nodes && n != m :: net'.nodes[n] == net.nodes[n]
    requires net'.nodes[m].world == Apply(net.nodes[m].world, ev)
    ensures Sent(net', e) == Sent(net, e) +
              if e.node == m && !ev.Cleanup? && e.id in Step(net.nodes[m].world.server, ev).sent
              then [Step(net.nodes[m].world.server, ev).sent[e.id]] else []
    ensures e in Senders(net) ==> e in Senders(net')
    ensures e in Senders(net') ==>
              e in Senders(net) ||
              (e.node == m && !ev.Cleanup? && e.id in Step(net.nodes[m].world.server, ev).sent && Sent(net, e) == [])
  {
    hide Step;
    if e.node == m {
      AppendsOne(net.nodes[m].world, ev, e.id);
    }
  }

  /** An event at `m` that sends no delta and teaches nothing. */
  lemma LocalIsUneventful(net: Net, net': Net, m: NodeId, ev: Event)
    requires m in net.nodes && Valid(net.nodes[m].world.server) && net'.nodes.Keys == net.nodes.Keys
    requires forall n | n in net.nodes && n != m :: net'.nodes[n] == net.nodes[n]
    requires net'.nodes[m].world == Apply(net.nodes[m].world, ev)
    requires Marks(net', m) == Marks(net, m)
    requires var sent := Step(net.nodes[m].world.server, ev).sent;
             forall id | id in sent :: !sent[id].DeltaFrame?
    requires forall e | e in Senders(net) :: Consumed(net', e) == Consumed(net, e)
    ensures Uneventful(net, net')
  {
    hide Step, Valid, Apply;
    forall e ensures NoDeltaMore(Sent(net, e), Sent(net', e)) && (e in Senders(net) ==> e in Senders(net'))
             ensures e in Senders(net') && e !in Senders(net) ==> Sent(net, e) == []
    {
      SentBy(net, net', m, ev, e);
      hide Senders, Sent;
    }
    hide Senders, Sent, Consumed, NoDeltaMore;
  }

  lemma AcceptingConsumes(net: Net, m: NodeId, id: Id, client: End, ok: bool)
    requires Inv(net) && Enabled(net, Accepting(m, id, client, ok))
    ensures Valid(net.nodes[m].world.server)
    ensures forall e | e in Senders(net) :: Consumed(DoAccept(net, m, id, client, ok), e) == Consumed(net, e)
  {
    hide Step, EstFits, LogFits;
    assert NodeFits(net, m);
    forall e | e in Senders(net) ensures Consumed(DoAccept(net, m, id, client, ok), e) == Consumed(net, e) {
      assert e != End(m, id);
    }
  }

  lemma AcceptingIsUneventful(net: Net, m: NodeId, id: Id, client: End, ok: bool)
    requires Inv(net) && Enabled(net, Accepting(m, id, client, ok))
    ensures Uneventful(net, DoAccept(net, m, id, client, ok))
  {
    AcceptingConsumes(net, m, id, client, ok);
    var net', ev, w := DoAccept(net, m, id, client, ok), Accept(id, ok), net.nodes[m].world;
    CalmSends(w.server, ev);
    OtherSpreads(w.server, ev);
    hide Step, Inv, Valid, Uneventful, Consumed, Senders;
    assert w.server.members.marks + {} == w.server.members.marks;
    LocalIsUneventful(net, net', m, ev);
  }

  lemma ActingIsUneventful(net: Net, m: NodeId, ev: Event)
    requires Inv(net) && Enabled(net, Acting(m, ev)) && Calm(Acting(m, ev))
    ensures Uneventful(net, DoEvent(net, m, ev))
  {
    hide Step, Inv, Valid, Sound, Uneventful, Senders, Consumed, Allowed;
    InvFacts(net, m);
    var net', w := DoEvent(net, m, ev), net.nodes[m].world;
    CalmSends(w.server, ev);
    StepSpreads(w.server, ev);
    SameConsumed(net, net');
    assert w.server.members.marks + {} == w.server.members.marks;
    LocalIsUneventful(net, net', m, ev);
  }

  lemma SameConsumed(net: Net, net': Net)
    requires net'.peer == net.peer && net'.nodes.Keys == net.nodes.Keys
    requires forall n | n in net.nodes :: net'.nodes[n].done == net.nodes[n].done
    ensures forall e :: Consumed(net', e) == Consumed(net, e)
  {
  }

  lemma ReadingIsUneventful(net: Net, m: NodeId, id: Id, count: nat)
    requires Inv(net) && Enabled(net, Reading(m, id, count))
    ensures Uneventful(net, DoRead(net, m, id, count))
  {
    hide Inv;
    var net' := DoRead(net, m, id, count);
    forall e ensures Sent(net', e) == Sent(net, e) && Consumed(net', e) == Consumed(net, e) {
    }
  }

  /** What handling the first message of the inbox of `m` means for the far end. */
  lemma HandledConsumes(net: Net, net': Net, m: NodeId, node': Node)
    requires Inv(net) && m in net.nodes && net.nodes[m].inbox != []
    requires node'.done == net.nodes[m].done[net.nodes[m].inboxId := net.nodes[m].Done(net.nodes[m].inboxId) + 1]
    requires net'.nodes == net.nodes[m := node'] && net'.peer == net.peer
    ensures var e := End(m, net.nodes[m].inboxId);
            && e in net.peer
            && var far := net.peer[e];
               && far in Senders(net)
               && Consumed(net, far) == net.nodes[m].Done(e.id)
               && Consumed(net, far) < |Sent(net, far)|
               && Sent(net, far)[Consumed(net, far)] == net.nodes[m].inbox[0]
               && forall f :: Consumed(net', f) == if f == far then Consumed(net, f) + 1 else Consumed(net, f)
  {
    hide Valid, ConnsFit, SentFitsAll, EstFits, LogFits;
    assert NodeFits(net, m);
    var e := End(m, net.nodes[m].inboxId);
    var far := net.peer[e];
    assert KnownEnd(net, e) && KnownEnd(net, far);
    forall f ensures Consumed(net', f) == if f == far then Consumed(net, f) + 1 else Consumed(net, f) {
      if f in net.peer && net.peer[f] == e {
        assert net.peer[net.peer[f]] == f;
      }
    }
  }

  lemma InboxCarries(net: Net, m: NodeId, all: set<Mark>)
    requires Inv(net) && Within(net, all) && m in net.nodes && net.nodes[m].inbox != []
    ensures Carried(net.nodes[m].inbox[0]) <= all && Marks(net, m) <= all
  {
    hide Valid, ConnsFit, SentFitsAll, EstFits, LogFits, LinksFit;
    assert NodeFits(net, m);
    var node := net.nodes[m];
    assert node.inbox[0] == Sent(net, net.peer[End(m, node.inboxId)])[node.Done(node.inboxId)];
  }

  lemma HandledLearns(net: Net, m: NodeId, fails: set<Id>, connected: map<Id, NodeId>, all: set<Mark>)
    requires Inv(net) && Within(net, all) && Enabled(net, Handling(m, fails, connected))
    requires !(Carried(net.nodes[m].inbox[0]) <= Marks(net, m))
    ensures Lower(net, DoHandle(net, m, fails, connected), all)
  {
    hide Step, Inv, Enabled, Valid, Sound, Allowed, Within, Lower;
    HandlingAllowed(net, m, fails, connected);
    var node, net' := net.nodes[m], DoHandle(net, m, fails, connected);
    var ev := HandlingEvent(node, fails, connected);
    StepSpreads(node.world.server, ev);
    InboxCarries(net, m, all);
    WithinMarks(net, m, all);
    LearningLowers(net, net', m, all);
  }

  lemma WithinMarks(net: Net, m: NodeId, all: set<Mark>)
    requires Within(net, all) && m in net.nodes
    ensures Marks(net, m) <= all
  {
  }

  lemma HandledKnown(net: Net, m: NodeId, fails: set<Id>, connected: map<Id, NodeId>, all: set<Mark>)
    requires Inv(net) && Enabled(net, Handling(m, fails, connected))
    requires Carried(net.nodes[m].inbox[0]) <= Marks(net, m)
    ensures var net' := DoHandle(net, m, fails, connected);
            && NotHigher(net, net', all)
            && (net.nodes[m].inbox[0].DeltaFrame? ==> Lower(net, net', all))
  {
    hide Step, Inv, Enabled, Valid, Sound, Allowed, Lower, NotHigher, Senders, Sent, Consumed;
    HandlingAllowed(net, m, fails, connected);
    var node, net' := net.nodes[m], DoHandle(net, m, fails, connected);
    var ev := HandlingEvent(node, fails, connected);
    StepSpreads(node.world.server, ev);
    assert Marks(net, m) + Carried(node.inbox[0]) == Marks(net, m);
    HandledConsumes(net, net', m, HandledNode(node, ev));
    forall e ensures Sent(net', e) == Sent(net, e) && (e in Senders(net') <==> e in Senders(net)) {
      SentBy(net, net', m, ev, e);
    }
    HandlingLowers(net, net', net.peer[End(m, node.inboxId)], all);
  }

  /** With no new joins or leaves, no action raises the measure and every handled delta lowers it. */
  lemma ActionLowers(net: Net, a: Action, all: set<Mark>)
    requires Inv(net) && Within(net, all) && Enabled(net, a) && Calm(a)
    ensures NotHigher(net, Do(net, a), all)
    ensures HandlesDelta(net, a) ==> Lower(net, Do(net, a), all)
  {
    hide Step, Apply;
    match a {
      case Accepting(m, id, client, ok) =>
        AcceptingIsUneventful(net, m, id, client, ok);
        UneventfulKeepsMeasure(net, DoAccept(net, m, id, client, ok), all);
      case Acting(m, ev) =>
        ActingIsUneventful(net, m, ev);
        UneventfulKeepsMeasure(net, DoEvent(net, m, ev), all);
      case Reading(m, id, count) =>
        ReadingIsUneventful(net, m, id, count);
        UneventfulKeepsMeasure(net, DoRead(net, m, id, count), all);
      case Handling(m, fails, connected) =>
        if Carried(net.nodes[m].inbox[0]) <= Marks(net, m) {
          HandledKnown(net, m, fails, connected, all);
        } else {
          HandledLearns(net, m, fails, connected, all);
        }
    }
  }

  // ----- everything stays within what was known

  lemma EventWithin(net: Net, net': Net, m: NodeId, ev: Event, all: set<Mark>)
    requires Within(net, all) && m in net.nodes && Valid(net.nodes[m].world.server)
    requires net'.nodes.Keys == net.nodes.Keys
    requires forall n | n in net.nodes && n != m :: net'.nodes[n] == net.nodes[n]
    requires net'.nodes[m].world == Apply(net.nodes[m].world, ev)
    requires !ev.Cleanup? ==> Spreads(net.nodes[m].world.server, Step(net.nodes[m].world.server, ev), ev)
    requires ev.Got? ==> Carried(ev.frame) <= all
    ensures Within(net', all)
  {
    hide Step;
    forall e, i | 0 <= i < |Sent(net', e)| ensures Carried(Sent(net', e)[i]) <= all {
      SentBy(net, net', m, ev, e);
      assert i < |Sent(net, e)| ==> Sent(net', e)[i] == Sent(net, e)[i];
    }
  }

  lemma ActionWithin(net: Net, a: Action, all: set<Mark>)
    requires Inv(net) && Within(net, all) && Enabled(net, a) && Calm(a)
    ensures Within(Do(net, a), all)
  {
    hide Step, Inv, Within, Sent;
    var s := net.nodes[a.at].world.server;
    match a {
      case Accepting(m, id, client, ok) =>
        OtherSpreads(s, Accept(id, ok));
        EventWithin(net, DoAccept(net, m, id, client, ok), m, Accept(id, ok), all);
      case Acting(m, ev) =>
        StepSpreads(s, ev);
        EventWithin(net, DoEvent(net, m, ev), m, ev, all);
      case Reading(m, id, count) => ReadingWithin(net, m, id, count, all);
      case Handling(m, fails, connected) => HandlingWithin(net, m, fails, connected, all);
    }
  }

  lemma ReadingWithin(net: Net, m: NodeId, id: Id, count: nat, all: set<Mark>)
    requires Within(net, all) && Enabled(net, Reading(m, id, count))
    ensures Within(DoRead(net, m, id, count), all)
  {
    hide Valid, Sound;
    assert forall e :: Sent(DoRead(net, m, id, count), e) == Sent(net, e);
  }

  lemma HandlingWithin(net: Net, m: NodeId, fails: set<Id>, connected: map<Id, NodeId>, all: set<Mark>)
    requires Inv(net) && Within(net, all) && Enabled(net, Handling(m, fails, connected))
    ensures Within(DoHandle(net, m, fails, connected), all)
  {
    hide Step, Inv, Enabled, Valid, Sound, Allowed, Within;
    HandlingAllowed(net, m, fails, connected);
    var ev := HandlingEvent(net.nodes[m], fails, connected);
    StepSpreads(net.nodes[m].world.server, ev);
    InboxCarries(net, m, all);
    EventWithin(net, DoHandle(net, m, fails, connected), m, ev, all);
  }

  // ----- runs that never end

  /** `net(i)` is the cluster before action `act(i)`. */
  ghost predicate EndlessRun(net: nat -> Net, act: nat -> Action) {
    && Inv(net(0))
    && forall i: nat :: Enabled(net(i), act(i)) && net(i + 1) == Do(net(i), act(i))
  }

  lemma {:induction false} EndlessInv(net: nat -> Net, act: nat -> Action, i: nat)
    requires EndlessRun(net, act)
    ensures Inv(net(i))
  {
    if i > 0 {
      EndlessInv(net, act, i - 1);
      assert net(i - 1 + 1) == Do(net(i - 1), act(i - 1));
      ActionKeeps(net(i - 1), act(i - 1));
    }
  }

  lemma {:induction false} EndlessMeasure(net: nat -> Net, act: nat -> Action, all: set<Mark>, i: nat, j: nat)
    requires EndlessRun(net, act) && Within(net(i), all) && i <= j
    requires forall k: nat :: Calm(act(k))
    ensures Within(net(j), all) && NotHigher(net(i), net(j), all)
    decreases j - i
  {
    hide Inv, Enabled, Do, Within, Missing, InFlight, Sum;
    if i < j {
      EndlessMeasure(net, act, all, i, j - 1);
      EndlessInv(net, act, j - 1);
      assert net(j - 1 + 1) == Do(net(j - 1), act(j - 1));
      ActionWithin(net(j - 1), act(j - 1), all);
      ActionLowers(net(j - 1), act(j - 1), all);
    }
  }

  /** From action `k` on, no delta is handled. */
  ghost predicate QuietFrom(net: nat -> Net, act: nat -> Action, k: nat) {
    forall j: nat :: j >= k ==> !HandlesDelta(net(j), act(j))
  }

  /** Flooding comes to rest: in a run without joins and leaves, however long and whatever its
      actions, deltas are handled only up to some point. */
  lemma {:induction false} FloodingEnds(net: nat -> Net, act: nat -> Action, all: set<Mark>, i: nat) returns (k: nat)
    requires EndlessRun(net, act) && Within(net(i), all)
    requires forall j: nat :: Calm(act(j))
    ensures QuietFrom(net, act, k)
    decreases Sum(Missing(net(i), all)), Sum(InFlight(net(i)))
  {
    hide Inv, Enabled, Do, HandlesDelta, Within;
    if j :| j >= i && HandlesDelta(net(j), act(j)) {
      EndlessMeasure(net, act, all, i, j);
      EndlessInv(net, act, j);
      ActionLowers(net(j), act(j), all);
      ActionWithin(net(j), act(j), all);
      assert net(j + 1) == Do(net(j), act(j));
      k := FloodingEnds(net, act, all, j + 1);
    } else {
      k := i;
    }
  }

  /** All marks known or sent anywhere. */
  ghost function Everything(net: Net): set<Mark> {
    (set m, mark | m in net.nodes && mark in Marks(net, m) :: mark)
    + (set e, i, mark | e in Senders(net) && 0 <= i < |Sent(net, e)| && mark in Carried(Sent(net, e)[i]) :: mark)
  }

  /** Every endless run without joins and leaves has a last handled delta. */
  lemma FloodingComesToRest(net: nat -> Net, act: nat -> Action)
    requires EndlessRun(net, act) && forall j: nat :: Calm(act(j))
    ensures exists k: nat :: QuietFrom(net, act, k)
  {
    var all := Everything(net(0));
    assert Within(net(0), all) by {
      forall e, i | 0 <= i < |Sent(net(0), e)| ensures Carried(Sent(net(0), e)[i]) <= all {
        assert e in Senders(net(0));
      }
    }
    var k := FloodingEnds(net, act, all, 0);
  }

  // ----- no delta is sent on twice by one node

  lemma EventAbsorbs(net: Net, m: NodeId, ev: Event)
    requires m in net.nodes && Valid(net.nodes[m].world.server) && Allowed(net.nodes[m].world.server, ev)
    ensures Marks(net, m) <= Apply(net.nodes[m].world, ev).server.members.marks
    ensures ev.Got? ==> Carried(ev.frame) <= Apply(net.nodes[m].world, ev).server.members.marks
  {
    ApplyEvolves(net.nodes[m].world, ev);
    if ev.Got? {
      StepSpreads(net.nodes[m].world.server, ev);
    }
  }

  /** Nodes never forget marks, and absorb the delta that they send on. */
  lemma ActionAbsorbs(net: Net, a: Action, m: NodeId, delta: Delta)
    requires Inv(net) && Enabled(net, a) && m in net.nodes
    ensures m in Do(net, a).nodes && Marks(net, m) <= Marks(Do(net, a), m)
    ensures Refloods(net, a, m, delta) ==> delta <= Marks(Do(net, a), m)
  {
    hide Step;
    match a {
      case Accepting(n, id, client, ok) => EventAbsorbs(net, n, Accept(id, ok));
      case Acting(n, ev) => EventAbsorbs(net, n, ev);
      case Reading(_, _, _) =>
      case Handling(n, fails, connected) =>
        HandlingAllowed(net, n, fails, connected);
        EventAbsorbs(net, n, HandlingEvent(net.nodes[n], fails, connected));
    }
  }

  /** The cluster before action `i` of a run. */
  ghost function Before(net: Net, actions: seq<Action>, i: nat): Net
    requires IsNetRun(net, actions) && i <= |actions|
    decreases |actions|
  {
    if i == 0 then net else Before(Do(net, actions[0]), actions[1..], i - 1)
  }

  lemma {:induction false} BeforeStep(net: Net, actions: seq<Action>, i: nat)
    requires IsNetRun(net, actions) && i < |actions|
    ensures Enabled(Before(net, actions, i), actions[i])
    ensures Before(net, actions, i + 1) == Do(Before(net, actions, i), actions[i])
    decreases |actions|
  {
    hide Enabled, Do;
    if i > 0 {
      BeforeStep(Do(net, actions[0]), actions[1..], i - 1);
    }
  }

  lemma {:induction false} RunRemembers(net: Net, actions: seq<Action>, m: NodeId, i: nat, j: nat)
    requires Inv(net) && IsNetRun(net, actions) && i <= j <= |actions|
    ensures Inv(Before(net, actions, j))
    ensures m in Before(net, actions, i).nodes ==>
              && m in Before(net, actions, j).nodes
              && Marks(Before(net, actions, i), m) <= Marks(Before(net, actions, j), m)
    decreases j
  {
    hide Inv, Enabled, Do, Refloods, Before;
    if j == 0 {
      BeforeFirst(net, actions);
    } else {
      RunRemembers(net, actions, m, if i < j then i else j - 1, j - 1);
      BeforeStep(net, actions, j - 1);
      var last := Before(net, actions, j - 1);
      ActionKeeps(last, actions[j - 1]);
      if m in last.nodes {
        ActionAbsorbs(last, actions[j - 1], m, {});
      }
    }
  }

  lemma BeforeFirst(net: Net, actions: seq<Action>)
    requires IsNetRun(net, actions)
    ensures Before(net, actions, 0) == net
  {
  }

  /** In every run, joins and leaves included, a node sends a given delta on at most once. */
  lemma RefloodedOnce(net: Net, actions: seq<Action>, m: NodeId, delta: Delta, i: nat, j: nat)
    requires Inv(net) && IsNetRun(net, actions) && i < |actions| && j < |actions|
    requires Refloods(Before(net, actions, i), actions[i], m, delta)
    requires Refloods(Before(net, actions, j), actions[j], m, delta)
    ensures i == j
  {
    if i < j {
      RefloodedBefore(net, actions, m, delta, i, j);
    } else if j < i {
      RefloodedBefore(net, actions, m, delta, j, i);
    }
  }

  lemma RefloodedBefore(net: Net, actions: seq<Action>, m: NodeId, delta: Delta, i: nat, j: nat)
    requires Inv(net) && IsNetRun(net, actions) && i < j < |actions|
    requires Refloods(Before(net, actions, i), actions[i], m, delta)
    ensures !Refloods(Before(net, actions, j), actions[j], m, delta)
  {
    hide Inv, Enabled, Do, Before;
    var first := Before(net, actions, i);
    BeforeStep(net, actions, i);
    RunRemembers(net, actions, m, i, i);
    ActionAbsorbs(first, actions[i], m, delta);
    RunRemembers(net, actions, m, i + 1, j);
    BeforeStep(net, actions, j);
  }
}
