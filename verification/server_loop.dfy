/** The poll loop of a server and the cluster: what the server does with a ready socket is what the nodes of the cluster
    do, message by message, and a batch leaves out none of its notifications. */
module ServerLoop {
  import opened Ids
  import opened ClusterState
  import opened Membership
  import opened ClusterLemmas
  import opened ClusterSteps
  import opened ClusterFacts
  import opened ClusterSends
  import opened ClusterRuns
  import opened ClusterTimeouts
  import opened Network
  import opened NetworkInvariant

  // ----- events up to the first error

  /** Events one after the other, up to the first that reports an error, which is handled too. */
  lemma {:induction false} UntilErrorStops(w: World, evs: seq<Event>) returns (k: nat)
    requires Valid(w.server) && w.failed == {} && AllowedRun(w, evs) && forall ev | ev in evs :: !ev.Cleanup?
    ensures k <= |evs| && IsRun(w, evs[..k]) && RunUntilError(w, evs) == Run(w, evs[..k])
    ensures k < |evs| ==> RunUntilError(w, evs).failed != {}
    ensures forall i: nat | i < k :: IsRun(w, evs[..i]) && Run(w, evs[..i]).failed == {}
    decreases |evs|
  {
    hide Step, Valid, Sound, Apply, Append, Allowed;
    if evs == [] {
      k := 0;
    } else {
      assert evs[0] in evs;
      OneEvent(w, evs[0]);
      var w1 := Apply(w, evs[0]);
      if Step(w.server, evs[0]).errs != {} {
        k := 1;
        assert evs[..1][1..] == [];
      } else {
        var rest := evs[1..];
        assert forall ev | ev in rest :: ev in evs;
        var n := UntilErrorStops(w1, rest);
        k := n + 1;
        forall i: nat | i <= n
          ensures IsRun(w1, rest[..i]) ==> IsRun(w, evs[..i + 1]) && Run(w, evs[..i + 1]) == Run(w1, rest[..i])
        {
          assert evs[..i + 1][0] == evs[0] && evs[..i + 1][1..] == rest[..i];
        }
        forall i: nat | i < k ensures IsRun(w, evs[..i]) && Run(w, evs[..i]).failed == {} {
          if i > 0 {
            assert IsRun(w1, rest[..i - 1]) && Run(w1, rest[..i - 1]).failed == {};
          } else {
            assert evs[..0] == [];
          }
        }
      }
      assert evs[..0] == [];
    }
  }

  lemma OneEvent(w: World, ev: Event)
    requires Valid(w.server) && w.failed == {} && Allowed(w.server, ev) && !ev.Cleanup?
    ensures Sound(w.server) && Valid(Apply(w, ev).server) && Apply(w, ev).failed == Step(w.server, ev).errs
  {
    ApplyKeeps(w, ev);
    hide Step;
  }

  // ----- a read is what the nodes of the cluster do

  function Frames(msgs: seq<Incoming>): seq<Frame> {
    seq(|msgs|, i requires 0 <= i < |msgs| => msgs[i].frame)
  }

  ghost predicate AtHandling(net: Net, m: NodeId, id: Id, msgs: seq<Incoming>) {
    && Inv(net) && m in net.nodes
    && net.nodes[m].inbox == Frames(msgs) && net.nodes[m].inboxId == id && net.nodes[m].world.failed == {}
    && AllowedRun(net.nodes[m].world, Gots(id, msgs))
  }

  lemma GotsFirst(id: Id, msgs: seq<Incoming>)
    requires msgs != []
    ensures Gots(id, msgs) == [Got(id, msgs[0].frame, msgs[0].fails, msgs[0].connected)] + Gots(id, msgs[1..])
    ensures Frames(msgs) == [msgs[0].frame] + Frames(msgs[1..])
  {
  }

  /** Handling what was read, one action for each message up to the first error, which loses the rest. */
  lemma {:induction false} HandlingRest(net: Net, m: NodeId, id: Id, msgs: seq<Incoming>) returns (actions: seq<Action>)
    requires AtHandling(net, m, id, msgs)
    ensures IsNetRun(net, actions) && forall a | a in actions :: a.Handling? && a.at == m
    ensures m in NetRun(net, actions).nodes && NetRun(net, actions).nodes[m].inbox == []
    ensures Valid(net.nodes[m].world.server)
    ensures NetRun(net, actions).nodes[m].world == RunUntilError(net.nodes[m].world, Gots(id, msgs))
    decreases |msgs|
  {
    hide Inv, Valid, Sound, Step, Apply, Do, Enabled, Allowed, AllowedRun, RunUntilError;
    InvFacts(net, m);
    if msgs == [] {
      actions := [];
      NoneLeft(net.nodes[m].world);
      assert Gots(id, msgs) == [];
    } else {
      var a := Handling(m, msgs[0].fails, msgs[0].connected);
      GotsFirst(id, msgs);
      FirstAllowed(net.nodes[m].world, Gots(id, msgs));
      HandlingEnabled(net, m, id, msgs);
      HandlesFirst(net, m, id, msgs);
      ActionKeeps(net, a);
      var net' := Do(net, a);
      if net'.nodes[m].world.failed != {} {
        actions := [a];
        OneNetAction(net, a);
      } else {
        var rest := HandlingRest(net', m, id, msgs[1..]);
        actions := [a] + rest;
        OneThen(net, a, rest);
      }
    }
  }

  lemma NoneLeft(w: World)
    requires Valid(w.server)
    ensures AllowedRun(w, []) && RunUntilError(w, []) == w
  {
  }

  lemma FirstAllowed(w: World, evs: seq<Event>)
    requires Valid(w.server) && Sound(w.server) && w.failed == {} && AllowedRun(w, evs) && evs != []
    requires !evs[0].Cleanup?
    ensures Allowed(w.server, evs[0]) && Valid(Apply(w, evs[0]).server)
    ensures Apply(w, evs[0]).failed == Step(w.server, evs[0]).errs
    ensures Apply(w, evs[0]).failed == {} ==> AllowedRun(Apply(w, evs[0]), evs[1..])
    ensures RunUntilError(w, evs) ==
              if Apply(w, evs[0]).failed != {} then Apply(w, evs[0]) else RunUntilError(Apply(w, evs[0]), evs[1..])
  {
    OneEvent(w, evs[0]);
    hide Step, Allowed, Apply;
  }

  lemma HandlingEnabled(net: Net, m: NodeId, id: Id, msgs: seq<Incoming>)
    requires AtHandling(net, m, id, msgs) && msgs != [] && Valid(net.nodes[m].world.server)
    requires Allowed(net.nodes[m].world.server, Got(id, msgs[0].frame, msgs[0].fails, msgs[0].connected))
    ensures Enabled(net, Handling(m, msgs[0].fails, msgs[0].connected))
  {
    hide Inv, Valid, Sound;
    assert Frames(msgs)[0] == msgs[0].frame;
  }

  lemma HandlesFirst(net: Net, m: NodeId, id: Id, msgs: seq<Incoming>)
    requires AtHandling(net, m, id, msgs) && msgs != [] && Sound(net.nodes[m].world.server)
    requires Enabled(net, Handling(m, msgs[0].fails, msgs[0].connected))
    ensures var ev := Got(id, msgs[0].frame, msgs[0].fails, msgs[0].connected);
            var net' := Do(net, Handling(m, msgs[0].fails, msgs[0].connected));
            && m in net'.nodes && net'.nodes[m].world == Apply(net.nodes[m].world, ev)
            && net'.nodes[m].inboxId == id
            && net'.nodes[m].inbox == if net'.nodes[m].world.failed == {} then Frames(msgs[1..]) else []
  {
    hide Inv, Valid, Sound, Step;
    assert Frames(msgs)[0] == msgs[0].frame && Frames(msgs)[1..] == Frames(msgs[1..]);
  }

  lemma OneNetAction(net: Net, a: Action)
    requires Enabled(net, a)
    ensures IsNetRun(net, [a]) && NetRun(net, [a]) == Do(net, a)
  {
    hide Enabled, Do;
    assert [a][1..] == [];
  }

  lemma OneThen(net: Net, a: Action, rest: seq<Action>)
    requires Enabled(net, a) && IsNetRun(Do(net, a), rest)
    ensures IsNetRun(net, [a] + rest) && NetRun(net, [a] + rest) == NetRun(Do(net, a), rest)
  {
    hide Enabled, Do;
    assert ([a] + rest)[1..] == rest;
  }

  /** What a server does when a greeted socket is readable is what its node does in the cluster: it reads these frames
      from the far end and handles them, all of them unless one meets an error. */
  lemma ReadRefines(net: Net, m: NodeId, id: Id, msgs: seq<Incoming>) returns (actions: seq<Action>)
    requires Inv(net) && Enabled(net, Reading(m, id, |msgs|)) && net.nodes[m].world.failed == {}
    requires var far := net.peer[End(m, id)];
             Sent(net, far)[net.nodes[m].Done(id)..net.nodes[m].Done(id) + |msgs|] == Frames(msgs)
    requires NotificationAllowed(net.nodes[m].world, SocketReady(id, ReadOnly(true, msgs)))
    ensures IsNetRun(net, actions) && actions != [] && actions[0] == Reading(m, id, |msgs|)
    ensures forall a | a in actions[1..] :: a.Handling? && a.at == m
    ensures m in NetRun(net, actions).nodes && NetRun(net, actions).nodes[m].inbox == []
    ensures Valid(net.nodes[m].world.server)
    ensures NetRun(net, actions).nodes[m].world ==
              Notified(net.nodes[m].world, SocketReady(id, ReadOnly(true, msgs)))
  {
    hide Inv, Valid, Sound, IsNetRun, NetRun, Enabled, Do, AtHandling, RunUntilError, NotificationAllowed, Notified;
    var a := Reading(m, id, |msgs|);
    ActionKeeps(net, a);
    ReadStarts(net, m, id, msgs);
    var net' := Do(net, a);
    var rest := HandlingRest(net', m, id, msgs);
    actions := [a] + rest;
    OneThen(net, a, rest);
    assert actions[1..] == rest;
  }

  lemma ReadStarts(net: Net, m: NodeId, id: Id, msgs: seq<Incoming>)
    requires Inv(net) && Enabled(net, Reading(m, id, |msgs|)) && net.nodes[m].world.failed == {}
    requires Inv(Do(net, Reading(m, id, |msgs|)))
    requires var far := net.peer[End(m, id)];
             Sent(net, far)[net.nodes[m].Done(id)..net.nodes[m].Done(id) + |msgs|] == Frames(msgs)
    requires NotificationAllowed(net.nodes[m].world, SocketReady(id, ReadOnly(true, msgs)))
    ensures var net' := Do(net, Reading(m, id, |msgs|));
            && AtHandling(net', m, id, msgs) && net'.nodes[m].world == net.nodes[m].world
            && Valid(net.nodes[m].world.server) && AllowedRun(net.nodes[m].world, Gots(id, msgs))
            && Notified(net.nodes[m].world, SocketReady(id, ReadOnly(true, msgs))) ==
                 RunUntilError(net.nodes[m].world, Gots(id, msgs))
  {
    hide Inv, Sound, AllowedRun, RunUntilError, Sent, Allowed;
  }

  // ----- accepting, batches and messages

  /** Sockets are accepted in order, all of them unless one cannot be greeted. */
  lemma AcceptsAll(w: World, socks: seq<Accepted>) returns (evs: seq<Event>, k: nat)
    requires Valid(w.server) && w.failed == {} && NotificationAllowed(w, ListenerReady(socks))
    ensures |evs| == |socks| && forall i | 0 <= i < |socks| :: evs[i] == Accept(socks[i].id, socks[i].ok)
    ensures k <= |evs| && IsRun(w, evs[..k]) && Notified(w, ListenerReady(socks)) == Run(w, evs[..k])
    ensures k < |evs| ==> Notified(w, ListenerReady(socks)).failed != {}
    ensures forall i: nat | i < k :: IsRun(w, evs[..i]) && Run(w, evs[..i]).failed == {}
  {
    hide AllowedRun, RunUntilError, IsRun, Run, Valid;
    evs := Accepts(socks);
    k := UntilErrorStops(w, evs);
  }

  /** A batch handles each of its notifications, whatever became of those before, and reports all errors. */
  lemma {:induction false} BatchHandlesAll(w: World, ns: seq<Notification>) returns (ws: seq<World>)
    requires Valid(w.server) && BatchAllowed(w, ns)
    ensures |ws| == |ns| + 1 && ws[0] == w && ws[|ns|] == Batch(w, ns)
    ensures forall i | 0 <= i < |ns| ::
              && Valid(ws[i].server) && NotificationAllowed(ws[i].(failed := {}), ns[i])
              && var w1 := Notified(ws[i].(failed := {}), ns[i]);
                 ws[i + 1] == w1.(failed := ws[i].failed + w1.failed)
    decreases |ns|
  {
    hide Valid, NotificationAllowed, Notified;
    if ns == [] {
      ws := [w];
    } else {
      var w1 := Notified(w.(failed := {}), ns[0]);
      var next := w1.(failed := w.failed + w1.failed);
      AllowedWhateverFailed(w1, w.failed + w1.failed, ns[1..]);
      var rest := BatchHandlesAll(next, ns[1..]);
      ws := [w] + rest;
      forall i | 0 <= i < |ns|
        ensures Valid(ws[i].server) && NotificationAllowed(ws[i].(failed := {}), ns[i])
        ensures var v := Notified(ws[i].(failed := {}), ns[i]); ws[i + 1] == v.(failed := ws[i].failed + v.failed)
      {
        if i > 0 {
          assert ws[i] == rest[i - 1] && ns[i] == ns[1..][i - 1] && ws[i + 1] == rest[i];
        }
      }
    }
  }

  /** Greeting on a socket that becomes ready, reporting one that is broken, flushing one that is writable; a failed
      read skips the write, and a failed tick or an unknown socket stops nothing. */
  lemma SocketsAndTicks(w: World, id: Id, readOk: bool, writeOk: bool, msgs: seq<Incoming>, fails: set<Id>,
      connected: map<Id, NodeId>)
    requires Valid(w.server) && Sound(w.server) && w.failed == {}
    ensures NotificationAllowed(w, TimerFired(fails, connected)) ==>
              Notified(w, TimerFired(fails, connected)) == Apply(w, Tick(fails, connected))
    ensures id in w.server.conns && !w.server.conns[id].membersSent ==>
              NotificationAllowed(w, SocketReady(id, ReadOnly(readOk, msgs))) &&
              Notified(w, SocketReady(id, ReadOnly(readOk, msgs))) == Apply(w, FirstRead(id, readOk))
    ensures id in w.server.conns && w.server.conns[id].membersSent ==>
              NotificationAllowed(w, SocketReady(id, ReadOnly(false, msgs))) &&
              Notified(w, SocketReady(id, ReadOnly(false, msgs))) == w.(failed := {id})
    ensures Notified(w, SocketReady(id, WriteOnly(writeOk))) ==
              w.(failed := if id in w.server.conns && !writeOk then {id} else {})
    ensures NotificationAllowed(w, SocketReady(id, ReadWrite(readOk, msgs, writeOk))) ==>
              var r := Notified(w, SocketReady(id, ReadOnly(readOk, msgs)));
              Notified(w, SocketReady(id, ReadWrite(readOk, msgs, writeOk))) ==
                if r.failed != {} then r else Notified(r, SocketReady(id, WriteOnly(writeOk)))
  {
    hide Valid, Sound, TickStep, Append;
    OneOnly(w, Tick(fails, connected));
    OneOnly(w, FirstRead(id, readOk));
    OneOnly(w, IoError(id));
    NoneLeft(w);
    ErrorIs(w, id);
  }

  lemma OneOnly(w: World, ev: Event)
    requires Valid(w.server) && Sound(w.server) && !ev.Cleanup?
    ensures AllowedRun(w, [ev]) <==> Allowed(w.server, ev)
    ensures AllowedRun(w, [ev]) ==> RunUntilError(w, [ev]) == Apply(w, ev)
  {
    hide Step, Apply, Sound;
    assert [ev][1..] == [];
    if Allowed(w.server, ev) {
      ApplyKeeps(w, ev);
    }
  }

  lemma ErrorIs(w: World, id: Id)
    requires Sound(w.server) && w.failed == {}
    ensures Apply(w, IoError(id)) == w.(failed := {id})
  {
    AppendNone(w.sent);
  }

  /** What the requests of the local node achieve: a joined node is a member, one that leaves is none, and an envelope
      is queued on the connection established with its node when that can be written to, and on no other. */
  lemma RequestsTakeEffect(w: World, msg: ClusterMsg, id: Id)
    requires Valid(w.server) && w.server.members.FreshDots() && MsgAllowed(w, msg)
    ensures var w' := ClusterRuns.Handled(w, msg);
            match msg
            case JoinMsg(peer, _, _) => w'.server.members.All() == w.server.members.All() + {peer}
            case LeaveMsg(peer, _) => w'.server.members.All() == w.server.members.All() - {peer}
            case EnvelopeMsg(e, ok) =>
              e.to != ClusterPid(w.server.node) ==>
                && w'.server == w.server
                && w'.Sent(id) == w.Sent(id) +
                     if ok && e.to.node in w.server.est && w.server.est[e.to.node] == id then [EnvelopeFrame(e)] else []
            case ShutdownMsg => w' == w
            case _ => true
  {
    hide Valid, Sound, Step, Members.All, Members.FreshDots;
    ValidIsSound(w.server);
    match msg
    case JoinMsg(peer, fails, answer) => JoinTells(w.server, peer, fails, answer, id);
    case LeaveMsg(peer, fails) => LeaveTells(w.server, peer, fails, id);
    case EnvelopeMsg(e, ok) =>
      AppendsOne(w, Send(e, ok), id);
      if e.to != ClusterPid(w.server.node) {
        EnvelopeSentExactly(w.server, e, ok, id);
      }
    case _ =>
  }
}
