/** What the handlers promise together: error cleanup, the connection check, idle counters, and the
    number of client connections. */
module ClusterFacts {
  import opened Base
  import opened Ids
  import opened Membership
  import opened TimerWheels
  import opened Errors
  import opened ClusterState
  import opened ClusterLemmas
  import opened ClusterTimeouts

  // ----- error cleanup

  /** Nothing of connection `id` is left. */
  ghost predicate Forgotten(s: Server, id: Id) {
    && id !in s.conns
    && (forall n | n in s.est :: s.est[n] != id)
    && (forall i | 0 <= i < |s.wheel.data| :: id !in s.wheel.data[i])
  }

  /** `after` has the same connection, timer and established entries for `id` as `before`. */
  ghost predicate Untouched(before: Server, after: Server, id: Id) {
    && (id in before.conns <==> id in after.conns)
    && (id in before.conns ==> after.conns[id] == before.conns[id])
    && (forall n :: n in before.est && before.est[n] == id <==> n in after.est && after.est[n] == id)
    && |after.wheel.data| == |before.wheel.data|
    && (forall i | 0 <= i < |before.wheel.data| :: id in before.wheel.data[i] <==> id in after.wheel.data[i])
  }

  /** After the cleanup of an error, every socket named anywhere in the error tree is forgotten,
      every other one is untouched, and the server invariant holds. */
  lemma CleanupForgetsNamed(w: World, e: Error, id: Id)
    requires Valid(w.server)
    ensures var s := Apply(w.(failed := FailedIds(Failure(e))), Cleanup).server;
            && Valid(s)
            && ((exists inner :: Within(inner, e) && Names(inner, id)) ==> Forgotten(s, id))
            && (!(exists inner :: Within(inner, e) && Names(inner, id)) ==> Untouched(w.server, s, id))
  {
    GetIdsComplete(e, id);
    DropKeeps(w.server, FailedIds(Failure(e)));
  }

  // ----- the connection check

  /** Some connect to `n` was answered with a socket. */
  ghost predicate Answered(connected: map<Id, NodeId>, n: NodeId) {
    exists id :: id in connected && connected[id] == n
  }

  /** After the check a node outside the cluster has no connections; a member has established
      connections to members only, and to every other member a known connection unless the
      connect to it has just failed. */
  lemma CheckConnectionsFits(s: Server, connected: map<Id, NodeId>)
    requires Valid(s) && FreshIds(s, connected)
    ensures var s' := CheckConnections(s, connected);
            var all := s.members.All();
            && (s.node !in all ==> s'.conns == map[] && s'.est == map[])
            && (s.node in all ==>
                  && s'.est.Keys <= all
                  && forall n | n in all && n != s.node ::
                       n in KnownPeers(s') || (n !in KnownPeers(s) && !Answered(connected, n)))
  {
    var s' := CheckConnections(s, connected);
    var all := s.members.All();
    hide Members.All;
    if s.node !in all {
      DropAll(s);
    } else {
      EstablishedAreMembers(s, connected);
      forall n | n in all && n != s.node && (n in KnownPeers(s) || Answered(connected, n))
        ensures n in KnownPeers(s')
      {
        MemberIsKnown(s, connected, n);
      }
    }
  }

  lemma EstablishedAreMembers(s: Server, connected: map<Id, NodeId>)
    requires Valid(s) && s.node in s.members.All()
    ensures CheckConnections(s, connected).est.Keys <= s.members.All()
  {
    hide Members.All, TimersSound, Timed;
    ValidWheel(s);
    var s' := CheckConnections(s, connected);
    forall n | n in s'.est ensures n in s.members.All() {
      assert s.conns[s.est[n]].node == Some(n);
      assert n in KnownPeers(s);
    }
  }

  lemma MemberIsKnown(s: Server, connected: map<Id, NodeId>, n: NodeId)
    requires Valid(s) && FreshIds(s, connected) && s.node in s.members.All()
    requires n in s.members.All() && n != s.node && (n in KnownPeers(s) || Answered(connected, n))
    ensures n in KnownPeers(CheckConnections(s, connected))
  {
    hide Members.All, Valid;
    ValidWheel(s);
    EstablishedNames(s);
    if n in KnownPeers(s) {
      var id :| id in s.conns && s.conns[id].node == Some(n);
      KnownStays(s, connected, id, n);
    } else {
      var id :| id in connected && connected[id] == n;
      AnsweredConnects(s, connected, id, n);
    }
  }

  /** Established entries name the connection they are for, which is not a new one. */
  lemma EstablishedNames(s: Server)
    requires Valid(s)
    ensures forall m | m in s.est :: s.est[m] in s.conns && s.conns[s.est[m]].node == Some(m)
    ensures s.conns.Keys <= s.ids
  {
  }

  lemma KnownStays(s: Server, connected: map<Id, NodeId>, id: Id, n: NodeId)
    requires s.wheel.write < |s.wheel.data| && s.node in s.members.All() && connected.Keys !! s.ids
    requires forall m | m in s.est :: s.est[m] in s.conns && s.conns[s.est[m]].node == Some(m)
    requires s.conns.Keys <= s.ids && id in s.conns && s.conns[id].node == Some(n) && n in s.members.All()
    ensures n in KnownPeers(CheckConnections(s, connected))
  {
    hide Members.All;
    var s' := CheckConnections(s, connected);
    assert id !in Wanted(connected, ToConnect(s));
    assert id in s'.conns && s'.conns[id].node == Some(n);
    assert s'.conns[id].node.value in KnownPeers(s');
  }

  lemma AnsweredConnects(s: Server, connected: map<Id, NodeId>, id: Id, n: NodeId)
    requires s.wheel.write < |s.wheel.data| && s.node in s.members.All() && connected.Keys !! s.ids
    requires forall m | m in s.est :: s.est[m] in s.conns && s.conns[s.est[m]].node == Some(m)
    requires s.conns.Keys <= s.ids && id in connected && connected[id] == n
    requires n in s.members.All() && n != s.node && n !in KnownPeers(s)
    ensures n in KnownPeers(CheckConnections(s, connected))
  {
    hide Members.All;
    var s' := CheckConnections(s, connected);
    assert id in Wanted(connected, ToConnect(s));
    assert id in s'.conns && s'.conns[id].node == Some(n);
    assert s'.conns[id].node.value in KnownPeers(s');
  }

  /** A second check changes nothing when every connect of the first one succeeded. */
  lemma CheckConnectionsSettles(s: Server, connected: map<Id, NodeId>, again: map<Id, NodeId>)
    requires Valid(s) && FreshIds(s, connected)
    requires s.node in s.members.All() ==> forall n | n in ToConnect(s) :: Answered(connected, n)
    ensures var s' := CheckConnections(s, connected);
            s'.wheel.write < |s'.wheel.data| && CheckConnections(s', again) == s'
  {
    hide CheckConnections, Members.All, Valid, KnownPeers;
    ValidWheel(s);
    CheckConnectionsKeeps(s, connected);
    CheckConnectionsFits(s, connected);
    var s' := CheckConnections(s, connected);
    CheckKeepsMembership(s, connected);
    ValidWheel(s');
    if s.node !in s.members.All() {
      EmptyStays(s', again);
    } else {
      forall n ensures n !in ToConnect(s') {
        assert n in s.members.All() && n != s.node && n !in KnownPeers(s) ==> n in ToConnect(s);
      }
      SettledStays(s', again);
    }
  }

  lemma ValidWheel(s: Server)
    requires Valid(s)
    ensures s.wheel.write < |s.wheel.data|
  {
  }

  lemma EmptyStays(s: Server, again: map<Id, NodeId>)
    requires s.wheel.write < |s.wheel.data| && s.node !in s.members.All() && s.conns == map[]
    ensures CheckConnections(s, again) == s
  {
    hide Members.All;
    assert s.conns.Keys == {};
    DropNone(s);
  }

  lemma SettledStays(s: Server, again: map<Id, NodeId>)
    requires s.wheel.write < |s.wheel.data| && s.node in s.members.All()
    requires (forall n :: n !in ToConnect(s)) && s.est.Keys <= s.members.All()
    ensures CheckConnections(s, again) == s
  {
    hide Members.All, ToConnect;
    assert Wanted(again, ToConnect(s)) == map[];
    ConnectNone(s);
    assert EstablishedWith(s, KnownPeers(s) - s.members.All()) == {};
    DropNone(s);
  }

  // ----- the check after a tick

  /** The connections suit the membership, as after a check with these answers. */
  ghost predicate Suits(s: Server, connected: map<Id, NodeId>) {
    var all := s.members.All();
    && (s.node !in all ==> s.conns == map[] && s.est == map[])
    && (s.node in all ==>
          && s.est.Keys <= all
          && forall n | n in all && n != s.node :: n in KnownPeers(s) || !Answered(connected, n))
  }

  /** Some connection cannot be pinged. */
  ghost predicate PingFails(s: Server, fails: set<Id>) {
    exists id :: id in s.conns && s.conns[id].membersSent && id in fails
  }

  /** Exactly when a tick leaves the connections suited to the membership: when every ping works, or when they
      suited it already once the expired connections were closed. A failed ping skips the check. */
  lemma TickSuitsExactly(s: Server, fails: set<Id>, connected: map<Id, NodeId>)
    requires Valid(s) && FreshIds(s, connected)
    ensures TickStep(s, fails, connected).errs != {} <==> PingFails(ExpireTimers(s), fails)
    ensures Suits(TickStep(s, fails, connected).server, connected) <==>
              !PingFails(ExpireTimers(s), fails) || Suits(ExpireTimers(s), connected)
  {
    hide CheckConnections;
    var s1 := ExpireTimers(s);
    DropKeeps(s.(wheel := s.wheel.Turned()), s.wheel.data[s.wheel.read]);
    CheckConnectionsFits(s1, connected);
    assert CheckConnections(s1, connected).members == s1.members && CheckConnections(s1, connected).node == s1.node by {
      CheckKeepsMembership(s1, connected);
    }
    if PingFails(s1, fails) {
      var id :| id in s1.conns && s1.conns[id].membersSent && id in fails;
      assert id in Ready(s1) * fails;
    } else {
      assert Ready(s1) * fails == {};
    }
  }

  lemma CheckKeepsMembership(s: Server, connected: map<Id, NodeId>)
    requires s.wheel.write < |s.wheel.data|
    ensures CheckConnections(s, connected).members == s.members && CheckConnections(s, connected).node == s.node
  {
  }

  /** The server of a new node. */
  function NewServer(a: NodeId): Server {
    Server(a, map[], map[], EmptyWheel(5), Members(a, 1, {Added(a, Dot(a, 0))}), {})
  }

  /** The node joins `b`, which does not answer, then `c`, which does, and greets `c`. */
  function TwoJoins(b: NodeId, c: NodeId): seq<Event> {
    [Join(b, {}, None), Join(c, {}, Some(1)), FirstRead(1, true)]
  }

  /** The node knows members `b` and `c`, and has greeted `c` on connection 1. */
  function JoinedBoth(a: NodeId, b: NodeId, c: NodeId): Server {
    Server(a, map[1 := Conn(Some(c), true, true, 4)], map[], Wheel([{}, {}, {}, {}, {1}], 0, 4),
           Members(a, 3, {Added(a, Dot(a, 0)), Added(b, Dot(a, 1)), Added(c, Dot(a, 2))}), {1})
  }

  /** A new server that has joined `b` in vain and then `c` knows member `c` but has no connection to member `b`:
      with the ping to `c` failing, the tick does not connect to `b`, although `b` would answer. */
  lemma FailedPingSkipsCheck(a: NodeId, b: NodeId, c: NodeId) returns (connected: map<Id, NodeId>)
    requires a != b && b != c && a != c
    ensures var w := World(NewServer(a), map[], [], {});
            && Valid(w.server) && IsRun(w, TwoJoins(b, c))
            && var s := Run(w, TwoJoins(b, c)).server;
               && Valid(s) && FreshIds(s, connected) && Answered(connected, b) && b in s.members.All() && s.node == a
               && b !in KnownPeers(TickStep(s, {1}, connected).server)
               && b in KnownPeers(TickStep(s, {}, connected).server)
  {
    hide IsRun, Run, TickStep, Valid;
    TwoJoinsRun(a, b, c);
    connected := PingDecides(a, b, c);
  }

  lemma TwoJoinsRun(a: NodeId, b: NodeId, c: NodeId)
    ensures var w := World(NewServer(a), map[], [], {});
            Valid(w.server) && IsRun(w, TwoJoins(b, c)) && Run(w, TwoJoins(b, c)).server == JoinedBoth(a, b, c)
  {
    hide Valid, Sound, Step, Append, NewServer, IsRun, Run;
    var w := World(NewServer(a), map[], [], {});
    var s1, s2 := JoinedOne(a, b, c);
    var one, two, three := Join(b, {}, None), Join(c, {}, Some(1)), FirstRead(1, true);
    var w1 := Apply(w, one);
    var w2 := Apply(w1, two);
    RunsNone(Apply(w2, three));
    RunsOne(w2, three, []);
    RunsOne(w1, two, [three] + []);
    RunsOne(w, one, [two] + ([three] + []));
    assert [one] + ([two] + ([three] + [])) == TwoJoins(b, c);
  }

  lemma RunsNone(w: World)
    requires Valid(w.server)
    ensures IsRun(w, []) && Run(w, []) == w
  {
  }

  lemma RunsOne(w: World, ev: Event, rest: seq<Event>)
    requires Valid(w.server) && Sound(w.server) && Allowed(w.server, ev) && Valid(Apply(w, ev).server)
    requires IsRun(Apply(w, ev), rest)
    ensures IsRun(w, [ev] + rest) && Run(w, [ev] + rest) == Run(Apply(w, ev), rest)
  {
    hide Apply, Valid, Allowed;
    assert ([ev] + rest)[1..] == rest;
  }

  /** The servers between the three events. */
  lemma JoinedOne(a: NodeId, b: NodeId, c: NodeId) returns (s1: Server, s2: Server)
    ensures var s := NewServer(a);
            && Valid(s) && Sound(s) && Step(s, Join(b, {}, None)).server == s1
            && Valid(s1) && Sound(s1) && Allowed(s1, Join(c, {}, Some(1)))
            && Step(s1, Join(c, {}, Some(1))).server == s2
            && Valid(s2) && Sound(s2) && Step(s2, FirstRead(1, true)).server == JoinedBoth(a, b, c)
            && Valid(JoinedBoth(a, b, c))
  {
    var marks := {Added(a, Dot(a, 0)), Added(b, Dot(a, 1))};
    s1 := NewServer(a).(members := Members(a, 2, marks));
    s2 := JoinedBoth(a, b, c).(conns := map[1 := Conn(Some(c), true, false, 4)]);
    FirstJoin(a, b, s1);
    SecondJoin(a, b, c, s1, s2);
  }

  lemma FirstJoin(a: NodeId, b: NodeId, s1: Server)
    requires s1 == NewServer(a).(members := Members(a, 2, {Added(a, Dot(a, 0)), Added(b, Dot(a, 1))}))
    ensures Valid(NewServer(a)) && Valid(s1) && Step(NewServer(a), Join(b, {}, None)).server == s1
  {
  }

  lemma SecondJoin(a: NodeId, b: NodeId, c: NodeId, s1: Server, s2: Server)
    requires s1 == NewServer(a).(members := Members(a, 2, {Added(a, Dot(a, 0)), Added(b, Dot(a, 1))}))
    requires s2 == JoinedBoth(a, b, c).(conns := map[1 := Conn(Some(c), true, false, 4)]) && Valid(s1)
    ensures Step(s1, Join(c, {}, Some(1))).server == s2
    ensures Valid(s2) && Step(s2, FirstRead(1, true)).server == JoinedBoth(a, b, c) && Valid(JoinedBoth(a, b, c))
  {
    var data := s1.wheel.Inserted(1).data;
    assert data[4] == {1} && data[0] == {} && data[1] == {} && data[2] == {} && data[3] == {};
    assert data == s2.wheel.data;
    var added := s1.(members := s1.members.AfterAdd(c));
    assert added.members.marks == s2.members.marks && Ready(added) == {};
    assert InitConnection(added, 1, Some(c)) == s2;
    JoinKeeps(s1, c, {}, Some(1));
  }

  lemma PingDecides(a: NodeId, b: NodeId, c: NodeId) returns (connected: map<Id, NodeId>)
    requires a != b && b != c && a != c
    ensures var s := JoinedBoth(a, b, c);
            && Valid(s) && FreshIds(s, connected) && Answered(connected, b) && b in s.members.All()
            && b !in KnownPeers(TickStep(s, {1}, connected).server)
            && b in KnownPeers(TickStep(s, {}, connected).server)
  {
    var s := JoinedBoth(a, b, c);
    connected := map[2 := b];
    forall n ensures n in s.members.All() <==> n == a || n == b || n == c {
      var marks := s.members.marks;
      assert Added(a, Dot(a, 0)) in marks && Added(b, Dot(a, 1)) in marks && Added(c, Dot(a, 2)) in marks;
    }
    assert connected[2] == b;
    var s1 := ExpireTimers(s);
    assert 1 in s1.conns && s1.conns[1].membersSent && s1.members == s.members;
    TickSuitsExactly(s, {}, connected);
    assert !PingFails(s1, {});
    hide TickStep, ExpireTimers;
    TickMembership(s, {}, connected);
  }

  lemma TickMembership(s: Server, fails: set<Id>, connected: map<Id, NodeId>)
    requires Valid(s)
    ensures var s' := TickStep(s, fails, connected).server; s'.members == s.members && s'.node == s.node
  {
  }

  /** After a greeting that leaves the invariant intact, the connections suit the membership that it brought. */
  lemma GreetingSuits(s: Server, id: Id, from: NodeId, marks: set<Mark>, connected: map<Id, NodeId>)
    requires Valid(s) && (id in s.conns ==> s.conns[id].membersSent) && NamedOnce(s, id, from) && FreshIds(s, connected)
    ensures var s' := Step(s, Got(id, MembersFrame(from, marks), {}, connected)).server;
            Suits(s', connected) && s'.members.marks == s.members.marks + marks
  {
    hide EstablishConnection, CheckConnections, Valid, Sound, NamedOnce;
    ValidWrites(s);
    var s1 := EstablishConnection(s, id, from, marks);
    EstablishKeeps(s, id, from, marks);
    GreetingMembership(s, id, from, marks);
    CheckConnectionsFits(s1, connected);
    ValidWrites(s1);
    CheckKeepsMembership(s1, connected);
  }

  lemma ValidWrites(s: Server)
    requires Valid(s)
    ensures Sound(s) && s.wheel.write < |s.wheel.data|
  {
  }

  lemma GreetingMembership(s: Server, id: Id, from: NodeId, marks: set<Mark>)
    requires Sound(s)
    ensures var s1 := EstablishConnection(s, id, from, marks);
            s1.members == s.members.Joined(marks) && s1.node == s.node && s1.ids == s.ids
  {
  }

  // ----- what is told to whom

  /** Connection `id` is told `frame`, or is reported because the write failed. */
  ghost predicate Told(r: Reply, id: Id, frame: Frame) {
    (id in r.sent && r.sent[id] == frame && id !in r.errs) || (id !in r.sent && id in r.errs)
  }

  ghost predicate NotTold(r: Reply, id: Id) {
    id !in r.sent && id !in r.errs
  }

  /** Exactly what a server passes on of what it hears: a delta that is news, to every connection that has sent its
      Members and can be written to. What it learns from a Members frame it passes on to nobody. */
  lemma PassedOnExactly(s: Server, id: Id, frame: Frame, fails: set<Id>, connected: map<Id, NodeId>)
    requires Valid(s) && Allowed(s, Got(id, frame, fails, connected))
    ensures var r := Step(s, Got(id, frame, fails, connected));
            && (frame.MembersFrame? ==> frame.marks <= r.server.members.marks)
            && (frame.DeltaFrame? ==> frame.delta <= r.server.members.marks)
            && (forall i ::
                  i in r.sent <==>
                    && frame.DeltaFrame? && !(frame.delta <= s.members.marks)
                    && i in s.conns && s.conns[i].membersSent && i !in fails)
            && (forall i | i in r.sent :: r.sent[i] == frame)
            && ((exists i :: i in r.sent) <==>
                  && frame.DeltaFrame? && !(frame.delta <= s.members.marks)
                  && exists i :: i in s.conns && s.conns[i].membersSent && i !in fails)
  {
    if frame.MembersFrame? {
      GreetingAbsorbed(s, id, frame.from, frame.marks, connected);
    }
    hide GotMembers, ResetTimer;
  }

  lemma GreetingAbsorbed(s: Server, id: Id, from: NodeId, marks: set<Mark>, connected: map<Id, NodeId>)
    requires Valid(s) && (id in s.conns ==> s.conns[id].membersSent) && NamedOnce(s, id, from)
    ensures marks <= GotMembers(s, id, from, marks, connected).members.marks
  {
    var s1 := EstablishConnection(s, id, from, marks);
    EstablishKeeps(s, id, from, marks);
    assert s1.members == s.members.Joined(marks);
    CheckKeepsMembership(s1, connected);
  }

  /** A joined node is a member at once, every connection that has sent its Members is told, and when
      all of these could be told a connection to the node is tried. */
  lemma JoinTells(s: Server, peer: NodeId, fails: set<Id>, answer: Option<Id>, id: Id)
    requires Valid(s) && s.members.FreshDots() && (answer.Some? ==> answer.value !in s.ids)
    ensures var r := Step(s, Join(peer, fails, answer));
            && r.server.members.All() == s.members.All() + {peer}
            && (if id in Ready(s) then Told(r, id, DeltaFrame(s.members.AddDelta(peer))) else NotTold(r, id))
            && (answer.Some? && r.errs == {} <==>
                  answer.Some? && answer.value in r.server.conns && r.server.conns[answer.value].node == Some(peer))
  {
    AddMakesMember(s.members, peer);
  }

  /** A node that leaves is no member any more, and if it was ever seen every connection that has sent
      its Members is told. */
  lemma LeaveTells(s: Server, peer: NodeId, fails: set<Id>, id: Id)
    requires Valid(s)
    ensures var r := Step(s, Leave(peer, fails));
            && r.server.members.All() == s.members.All() - {peer}
            && (if id in Ready(s) && s.members.LeaveDelta(peer) != {}
                then Told(r, id, DeltaFrame(s.members.LeaveDelta(peer))) else NotTold(r, id))
  {
    LeaveRemovesMember(s.members, peer);
    assert s.members.LeaveDelta(peer) == {} ==> s.members.Joined({}) == s.members;
  }

  /** Exactly one live connection is established with `from`: `id` with a fresh timer, or the one that was
      before, and then `id` is closed. */
  ghost predicate OneEstablished(s: Server, s': Server, id: Id, from: NodeId) {
    && from in s'.est && s'.est[from] in s'.conns && s'.conns[s'.est[from]].node == Some(from)
    && (id in s'.conns <==> s'.est[from] == id)
    && (id in s'.conns ==> s'.conns[id].slot == s'.wheel.write)
    && (id !in s'.conns ==> from in s.est && s'.est[from] == s.est[from])
  }

  /** Members that arrive on a live connection are absorbed, no other connection is touched but the one that was
      established with their sender, and afterwards one of the two is: unless they are the same one. A second
      greeting on the established connection closes it. */
  lemma GreetingEstablishes(s: Server, id: Id, from: NodeId, marks: set<Mark>)
    requires Valid(s) && id in s.conns && s.conns[id].membersSent && NamedOnce(s, id, from)
    ensures var s' := EstablishConnection(s, id, from, marks);
            && Valid(s') && s'.members.marks == s.members.marks + marks
            && (forall i | i in s.conns && i != id && !(from in s.est && s.est[from] == i) ::
                  i in s'.conns && s'.conns[i] == s.conns[i])
            && (if from in s.est && s.est[from] == id then id !in s'.conns && from !in s'.est
                else OneEstablished(s, s', id, from))
  {
    hide Valid, Sound, EstablishConnection, OneEstablished, Less;
    EstablishKeeps(s, id, from, marks);
    GreetingChoice(s, id, from, marks);
    GreetingLeaves(s, id, from, marks);
  }

  lemma GreetingLeaves(s: Server, id: Id, from: NodeId, marks: set<Mark>)
    requires Valid(s) && id in s.conns
    ensures var s' := EstablishConnection(s, id, from, marks);
            && s'.members.marks == s.members.marks + marks
            && (forall i | i in s.conns && i != id && !(from in s.est && s.est[from] == i) ::
                  i in s'.conns && s'.conns[i] == s.conns[i])
  {
    hide Less;
  }

  lemma GreetingChoice(s: Server, id: Id, from: NodeId, marks: set<Mark>)
    requires Valid(s) && id in s.conns
    ensures var s' := EstablishConnection(s, id, from, marks);
            if from in s.est && s.est[from] == id then id !in s'.conns && from !in s'.est
            else OneEstablished(s, s', id, from)
  {
    hide Less;
  }
}
