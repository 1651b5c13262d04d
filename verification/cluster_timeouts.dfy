/** Timeouts of one cluster server over whole runs: the timer wheel amounts to one idle counter per
    connection. Also: how many client connections a run can accumulate. */
module ClusterTimeouts {
  import opened Base
  import opened Ids
  import opened TimerWheels
  import opened ClusterState
  import opened ClusterSteps

  // ----- runs

  ghost predicate IsRun(w: World, evs: seq<Event>)
    decreases evs
  {
    evs == [] ||
    (Valid(w.server) && Allowed(w.server, evs[0]) && IsRun(Apply(w, evs[0]), evs[1..]))
  }

  ghost function Run(w: World, evs: seq<Event>): (r: World)
    requires Valid(w.server) && IsRun(w, evs)
    ensures Valid(r.server)
    decreases evs
  {
    if evs == [] then w
    else
      ApplyKeeps(w, evs[0]);
      Run(Apply(w, evs[0]), evs[1..])
  }

  // ----- idle counters

  /** How many ticks ago the timer of each connection was last reset. */
  ghost function Idle(s: Server): map<Id, nat>
    requires Valid(s)
  {
    map id | id in s.conns :: s.wheel.Age(s.conns[id].slot)
  }

  /** What a naive counter of connection `id` does: start at 0, count ticks, restart on a reset. */
  ghost function Counted(idle: map<Id, nat>, ev: Event, id: Id): nat {
    if id !in idle || Resets(ev, id) then 0
    else if ev.Tick? then idle[id] + 1
    else idle[id]
  }

  lemma ExpiryAges(s: Server, id: Id)
    requires Valid(s)
    ensures var s' := ExpireTimers(s);
            && Valid(s')
            && (id in s'.conns <==> id in s.conns && Idle(s)[id] != |s.wheel.data| - 1)
            && (id in s'.conns ==> s'.conns[id] == s.conns[id] && Idle(s')[id] == Idle(s)[id] + 1)
  {
    DropKeeps(s.(wheel := s.wheel.Turned()), s.wheel.data[s.wheel.read]);
    if id in s.conns {
      TurnedAges(s.wheel, s.conns[id].slot);
    }
  }

  /** The expiry of a tick closes exactly the connections whose idle counter is one short of the
      number of slots: with 5 slots, those whose last reset was 5 ticks ago, this one included. */
  lemma TickClosesExactlyIdle(s: Server)
    requires Valid(s)
    ensures ExpireTimers(s).conns.Keys == set id | id in s.conns && Idle(s)[id] != |s.wheel.data| - 1
    ensures s.wheel.data[s.wheel.read] == set id | id in s.conns && Idle(s)[id] == |s.wheel.data| - 1
  {
    forall id ensures id in ExpireTimers(s).conns <==> id in s.conns && Idle(s)[id] != |s.wheel.data| - 1 {
      ExpiryAges(s, id);
    }
    forall id ensures id in s.wheel.data[s.wheel.read] <==> id in s.conns && Idle(s)[id] == |s.wheel.data| - 1 {
      if id in s.conns {
        TurnedAges(s.wheel, s.conns[id].slot);
        assert Timed(s, id);
      }
    }
  }

  lemma EvolvedCounts(s: Server, s': Server, ev: Event, id: Id)
    requires Valid(s) && Valid(s') && ConnsEvolved(s, s', ev) && id in s'.conns
    requires !ev.Tick? || id !in s.conns
    ensures Idle(s')[id] == Counted(Idle(s), ev, id)
  {
  }

  lemma CheckKeepsIdle(s: Server, connected: map<Id, NodeId>, id: Id)
    requires Valid(s) && connected.Keys !! s.ids && id in s.conns
    requires id in CheckConnections(s, connected).conns && Valid(CheckConnections(s, connected))
    ensures Idle(CheckConnections(s, connected))[id] == Idle(s)[id]
  {
    hide CheckConnections, Sound;
    CheckSteps(s, connected);
  }

  lemma TickCounts(s: Server, ev: Event, id: Id)
    requires Valid(s) && ev.Tick? && Allowed(s, ev) && id in s.conns
    requires id in Step(s, ev).server.conns && Valid(Step(s, ev).server)
    ensures Idle(Step(s, ev).server)[id] == Idle(s)[id] + 1
  {
    ExpiryAges(s, id);
    TickIsCheck(s, ev);
    hide Step, ExpireTimers, CheckConnections, Valid;
    var s1 := ExpireTimers(s);
    if Step(s, ev).server != s1 {
      CheckSteps(s1, ev.connected);
      assert id in s1.conns;
      CheckKeepsIdle(s1, ev.connected, id);
    }
  }

  /** Every event does to the timers what it does to naive idle counters. */
  lemma StepCounts(w: World, ev: Event, id: Id)
    requires Valid(w.server) && Allowed(w.server, ev) && id in Apply(w, ev).server.conns
    ensures Valid(Apply(w, ev).server)
    ensures Idle(Apply(w, ev).server)[id] == Counted(Idle(w.server), ev, id)
  {
    ApplyKeeps(w, ev);
    ApplyEvolves(w, ev);
    if ev.Tick? && id in w.server.conns {
      TickCounts(w.server, ev, id);
    } else {
      EvolvedCounts(w.server, Apply(w, ev).server, ev, id);
    }
  }

  function Ticks(evs: seq<Event>): nat {
    if evs == [] then 0 else (if evs[0].Tick? then 1 else 0) + Ticks(evs[1..])
  }

  ghost predicate Silent(evs: seq<Event>, id: Id) {
    forall ev | ev in evs :: !Resets(ev, id)
  }

  lemma {:induction false} GoneStaysGone(w: World, evs: seq<Event>, id: Id)
    requires Valid(w.server) && IsRun(w, evs) && id in w.server.ids && id !in w.server.conns
    ensures id !in Run(w, evs).server.conns
    decreases evs
  {
    if evs != [] {
      ApplyEvolves(w, evs[0]);
      ApplyKeeps(w, evs[0]);
      GoneStaysGone(Apply(w, evs[0]), evs[1..], id);
    }
  }

  ghost function CounterOrZero(s: Server, id: Id): nat
    requires Valid(s)
  {
    if id in s.conns then Idle(s)[id] else 0
  }

  /** Over any run a connection's counter grows by at most the number of ticks. */
  lemma {:induction false} RunCountsAtMost(w: World, evs: seq<Event>, id: Id)
    requires Valid(w.server) && IsRun(w, evs) && id in Run(w, evs).server.conns
    ensures Idle(Run(w, evs).server)[id] <= CounterOrZero(w.server, id) + Ticks(evs)
    ensures |Run(w, evs).server.wheel.data| == |w.server.wheel.data|
    decreases evs
  {
    if evs != [] {
      var w1 := Apply(w, evs[0]);
      ApplyKeeps(w, evs[0]);
      ApplyEvolves(w, evs[0]);
      RunCountsAtMost(w1, evs[1..], id);
      if id in w1.server.conns {
        StepCounts(w, evs[0], id);
      }
    }
  }

  /** When nothing resets the connection, its counter grows by exactly the number of ticks. */
  lemma {:induction false} RunCountsExactly(w: World, evs: seq<Event>, id: Id)
    requires Valid(w.server) && IsRun(w, evs) && id in w.server.conns && Silent(evs, id)
    ensures id in Run(w, evs).server.conns ==>
              Idle(Run(w, evs).server)[id] == Idle(w.server)[id] + Ticks(evs)
    ensures |Run(w, evs).server.wheel.data| == |w.server.wheel.data|
    decreases evs
  {
    if evs != [] {
      var w1 := Apply(w, evs[0]);
      ApplyKeeps(w, evs[0]);
      ApplyEvolves(w, evs[0]);
      if id in w1.server.conns {
        StepCounts(w, evs[0], id);
        assert evs[0] in evs && forall ev | ev in evs[1..] :: ev in evs;
        RunCountsExactly(w1, evs[1..], id);
      } else {
        GoneStaysGone(w1, evs[1..], id);
        RunKeepsSlots(w1, evs[1..]);
      }
    }
  }

  lemma {:induction false} RunKeepsSlots(w: World, evs: seq<Event>)
    requires Valid(w.server) && IsRun(w, evs)
    ensures |Run(w, evs).server.wheel.data| == |w.server.wheel.data|
    decreases evs
  {
    if evs != [] {
      ApplyKeeps(w, evs[0]);
      ApplyEvolves(w, evs[0]);
      RunKeepsSlots(Apply(w, evs[0]), evs[1..]);
    }
  }

  /** A connection that nothing resets is gone once as many ticks as there are slots have passed. */
  lemma SilentConnectionIsClosed(w: World, evs: seq<Event>, id: Id)
    requires Valid(w.server) && IsRun(w, evs) && id in w.server.conns
    requires Silent(evs, id) && Ticks(evs) >= |w.server.wheel.data|
    ensures id !in Run(w, evs).server.conns
  {
    RunCountsExactly(w, evs, id);
  }

  /** A connection reset before fewer than `slots - 1` ticks is not among those that the next tick
      times out, so a reset in every window of `slots` ticks keeps it alive. */
  lemma ResetConnectionIsKept(w: World, reset: Event, evs: seq<Event>, id: Id)
    requires Valid(w.server) && IsRun(w, [reset] + evs) && Resets(reset, id)
    requires Ticks(evs) + 1 < |w.server.wheel.data|
    ensures var s := Run(w, [reset] + evs).server;
            s.wheel.read < |s.wheel.data| && id !in s.wheel.data[s.wheel.read]
  {
    assert ([reset] + evs)[1..] == evs;
    var w1 := Apply(w, reset);
    ApplyKeeps(w, reset);
    ApplyEvolves(w, reset);
    var s := Run(w1, evs).server;
    TickClosesExactlyIdle(s);
    if id in s.conns {
      RunCountsAtMost(w1, evs, id);
      if id in w1.server.conns {
        StepCounts(w, reset, id);
      }
    }
  }

  /** Never are `slots` ticks in a row without a reset of `id` in between; `c` ticks have passed already. */
  ghost predicate Regular(evs: seq<Event>, id: Id, slots: nat, c: nat)
    decreases |evs|
  {
    evs == [] ||
    (var c' := if Resets(evs[0], id) then 0 else if evs[0].Tick? then c + 1 else c;
     c' < slots && Regular(evs[1..], id, slots, c'))
  }

  /** No tick of the run times the connection out. */
  ghost predicate NeverExpires(w: World, evs: seq<Event>, id: Id)
    requires Valid(w.server) && IsRun(w, evs)
    decreases |evs|
  {
    evs == [] ||
    (ApplyKeeps(w, evs[0]);
     (evs[0].Tick? ==> id !in w.server.wheel.data[w.server.wheel.read]) && NeverExpires(Apply(w, evs[0]), evs[1..], id))
  }

  /** A connection that is reset in every window of as many ticks as there are slots is never timed out, in no
      run; it may still be closed for other reasons. */
  lemma {:induction false} RegularNeverExpires(w: World, evs: seq<Event>, id: Id, c: nat)
    requires Valid(w.server) && IsRun(w, evs)
    requires id in w.server.conns ==> Idle(w.server)[id] <= c
    requires Regular(evs, id, |w.server.wheel.data|, c)
    ensures NeverExpires(w, evs, id)
    decreases |evs|
  {
    hide Apply, Regular, NeverExpires, Step;
    if evs == [] {
      ExpiresUnfold(w, evs, id);
    } else {
      var w1 := Apply(w, evs[0]);
      ApplyKeeps(w, evs[0]);
      ApplyEvolves(w, evs[0]);
      RegularUnfold(evs, id, |w.server.wheel.data|, c);
      TickClosesExactlyIdle(w.server);
      if id in w1.server.conns {
        StepCounts(w, evs[0], id);
      }
      var c' := if Resets(evs[0], id) then 0 else if evs[0].Tick? then c + 1 else c;
      RegularNeverExpires(w1, evs[1..], id, c');
      ExpiresUnfold(w, evs, id);
    }
  }

  lemma RegularUnfold(evs: seq<Event>, id: Id, slots: nat, c: nat)
    requires evs != [] && Regular(evs, id, slots, c)
    ensures var c' := if Resets(evs[0], id) then 0 else if evs[0].Tick? then c + 1 else c;
            c' < slots && Regular(evs[1..], id, slots, c')
  {
  }

  lemma ExpiresUnfold(w: World, evs: seq<Event>, id: Id)
    requires Valid(w.server) && IsRun(w, evs)
    requires evs != [] ==>
               && Valid(Apply(w, evs[0]).server) && NeverExpires(Apply(w, evs[0]), evs[1..], id)
               && (evs[0].Tick? ==> id !in w.server.wheel.data[w.server.wheel.read])
    ensures NeverExpires(w, evs, id)
  {
    hide Apply;
  }

  // ----- client connections

  /** The live connections that this node opened to `n`. */
  ghost function Clients(s: Server, n: NodeId): set<Id> {
    set id | id in s.conns && s.conns[id].isClient && s.conns[id].node == Some(n)
  }

  /** The peer at the other end of a client connection has the name that was connected to. */
  ghost predicate Addressed(s: Server, ev: Event) {
    ev.Got? && ev.frame.MembersFrame? && ev.id in s.conns && s.conns[ev.id].isClient ==>
      s.conns[ev.id].node == Some(ev.frame.from)
  }

  function Joins(evs: seq<Event>, n: NodeId): nat {
    if evs == [] then 0
    else (if evs[0].Join? && evs[0].peer == n then 1 else 0) + Joins(evs[1..], n)
  }

  lemma AtMostOne(connected: map<Id, NodeId>, n: NodeId, ids: set<Id>)
    requires forall i, j | i in connected && j in connected && connected[i] == connected[j] :: i == j
    requires forall id | id in ids :: id in connected && connected[id] == n
    ensures |ids| <= 1
  {
    if ids != {} {
      var id :| id in ids;
      assert ids == {id};
    }
  }

  lemma CheckAddsClients(s: Server, connected: map<Id, NodeId>, n: NodeId)
    requires Valid(s) && FreshIds(s, connected)
    ensures |Clients(CheckConnections(s, connected), n)| <= |Clients(s, n)|
         || |Clients(CheckConnections(s, connected), n)| <= 1
  {
    var s' := CheckConnections(s, connected);
    if s.node !in s.members.All() || n !in ToConnect(s) {
      forall id | id in Clients(s', n) ensures id in Clients(s, n) {
      }
      SubsetSize(Clients(s', n), Clients(s, n));
    } else {
      assert forall id | id in s.conns && s.conns[id].node.Some? :: s.conns[id].node.value in KnownPeers(s);
      AtMostOne(connected, n, Clients(s', n));
    }
  }

  lemma SubsetSize<T>(a: set<T>, b: set<T>)
    requires a <= b
    ensures |a| <= |b|
  {
    assert b == a + (b - a);
  }

  /** An event without a connection check opens client connections only to answer a join. */
  lemma OtherEventsAddClients(w: World, ev: Event, n: NodeId)
    requires Valid(w.server) && Allowed(w.server, ev) && !ev.Tick?
    requires ev.Got? ==> !ev.frame.MembersFrame?
    ensures Clients(Apply(w, ev).server, n) <=
              Clients(w.server, n) + if ev.Join? && ev.peer == n && ev.answer.Some? then {ev.answer.value} else {}
  {
    ApplyEvolves(w, ev);
  }

  lemma MembersAddClients(s: Server, ev: Event, n: NodeId)
    requires Valid(s) && Allowed(s, ev) && Addressed(s, ev) && ev.Got? && ev.frame.MembersFrame?
    ensures var s' := Step(s, ev).server;
            |Clients(s', n)| <= |Clients(s, n)| || |Clients(s', n)| <= 1
  {
    var s1 := EstablishConnection(s, ev.id, ev.frame.from, ev.frame.marks);
    EstablishKeeps(s, ev.id, ev.frame.from, ev.frame.marks);
    EstablishSteps(s, ev.id, ev.frame.from, ev.frame.marks);
    SubsetSize(Clients(s1, n), Clients(s, n));
    CheckAddsClients(s1, ev.connected, n);
  }

  lemma TickAddsClients(s: Server, ev: Event, n: NodeId)
    requires Valid(s) && Allowed(s, ev) && ev.Tick?
    ensures var s' := Step(s, ev).server;
            |Clients(s', n)| <= |Clients(s, n)| || |Clients(s', n)| <= 1
  {
    var s1 := ExpireTimers(s);
    DropKeeps(s.(wheel := s.wheel.Turned()), s.wheel.data[s.wheel.read]);
    SubsetSize(Clients(s1, n), Clients(s, n));
    CheckAddsClients(s1, ev.connected, n);
  }

  /** Only a join of `n` can add a client connection to `n` when there is one already. */
  lemma StepAddsClients(w: World, ev: Event, n: NodeId)
    requires Valid(w.server) && Allowed(w.server, ev) && Addressed(w.server, ev)
    ensures |Clients(Apply(w, ev).server, n)|
         <= (if |Clients(w.server, n)| >= 1 then |Clients(w.server, n)| else 1)
            + (if ev.Join? && ev.peer == n then 1 else 0)
  {
    if ev.Tick? {
      TickAddsClients(w.server, ev, n);
    } else if ev.Got? && ev.frame.MembersFrame? {
      MembersAddClients(w.server, ev, n);
    } else {
      OtherEventsAddClients(w, ev, n);
      SubsetSize(Clients(Apply(w, ev).server, n),
                 Clients(w.server, n) + if ev.Join? && ev.peer == n && ev.answer.Some? then {ev.answer.value} else {});
    }
  }

  ghost predicate AddressedRun(w: World, evs: seq<Event>)
    requires Valid(w.server) && IsRun(w, evs)
    decreases evs
  {
    evs == [] ||
    (ApplyKeeps(w, evs[0]); Addressed(w.server, evs[0]) && AddressedRun(Apply(w, evs[0]), evs[1..]))
  }

  lemma {:induction false} RunAddsClients(w: World, evs: seq<Event>, n: NodeId)
    requires Valid(w.server) && IsRun(w, evs) && AddressedRun(w, evs)
    ensures |Clients(Run(w, evs).server, n)|
         <= (if |Clients(w.server, n)| >= 1 then |Clients(w.server, n)| else 1) + Joins(evs, n)
    decreases evs
  {
    if evs != [] {
      ApplyKeeps(w, evs[0]);
      StepAddsClients(w, evs[0], n);
      RunAddsClients(Apply(w, evs[0]), evs[1..], n);
    }
  }

  /** When every address reaches the node it names, a server that starts without connections never
      has more client connections to `n` than one plus the number of times `n` was joined. */
  lemma ClientsBoundedByJoins(w: World, evs: seq<Event>, n: NodeId)
    requires Valid(w.server) && IsRun(w, evs) && AddressedRun(w, evs) && w.server.conns == map[]
    ensures |Clients(Run(w, evs).server, n)| <= 1 + Joins(evs, n)
  {
    RunAddsClients(w, evs, n);
    assert Clients(w.server, n) == {};
  }
}
