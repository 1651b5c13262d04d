/** The cluster server: connections, established peers, timers and membership updated in place,
    handler by handler, each proved against its meaning in `ClusterState`. */
module ClusterServers {
  import opened Base
  import opened Ids
  import opened Messages
  import opened Membership
  import opened TimerWheels
  import opened Errors
  import opened ClusterState
  import opened ClusterRuns
  import opened ClusterLemmas

  class ClusterServer {
    const node: NodeId
    var conns: map<Id, Conn>
    var est: map<NodeId, Id>
    const wheel: TimerWheel<Id>
    const members: MemberTable
    /** Socket ids handed out by the registrar. */
    var ids: set<Id>
    /** Frames queued so far on the writer of each connection. */
    var sent: map<Id, seq<Frame>>
    /** Envelopes sent to the executor. */
    var executorTx: seq<Envelope<Payload>>

    function State(): Server
      reads this, wheel, members
    {
      Server(node, conns, est, wheel.Value(), members.Value(), ids)
    }

    ghost predicate Inv()
      reads this, wheel, members
    {
      wheel.Valid() && Valid(State())
    }

    /** The server between two calls, with the errors a call has just reported. */
    ghost function View(o: Outcome): World
      reads this, wheel, members
    {
      World(State(), sent, executorTx, FailedIds(o))
    }

    constructor (node: NodeId)
      ensures Inv() && fresh(wheel) && fresh(members)
      ensures this.node == node && conns == map[] && est == map[] && sent == map[]
      ensures State().members.All() == {node}
    {
      this.node := node;
      conns := map[];
      est := map[];
      wheel := new TimerWheel<Id>(5000 / 1000);
      members := new MemberTable(node);
      ids := {};
      sent := map[];
      executorTx := [];
    }

    // ----- closing connections

    /** Close a connection and remove all related state. */
    method Close(id: Id)
      requires wheel.Valid() && Sound(State())
      modifies this`conns, this`est, wheel
      ensures wheel.Valid() && State() == Drop(old(State()), {id})
    {
      ghost var s := State();
      if id in conns {
        DropOne(s, id);
        var conn := conns[id];
        conns := conns - {id};
        wheel.Remove(id, conn.slot);
        if conn.node.Some? {
          var peer := conn.node.value;
          if peer in est {
            var establishedId := est[peer];
            est := est - {peer};
            if establishedId == id {
              assert est == Drop(s, {id}).est;
              return;
            }
            est := est[peer := establishedId];
          }
        }
        assert est == Drop(s, {id}).est;
      } else {
        DropAbsent(s, id);
      }
    }

    /** Close connections in any order. */
    method Deregister(expired: set<Id>)
      requires wheel.Valid() && Sound(State())
      modifies this`conns, this`est, wheel
      ensures wheel.Valid() && State() == Drop(old(State()), expired)
    {
      ghost var s := State();
      DropNone(s);
      var todo := expired;
      assert expired - todo == {};
      while todo != {}
        invariant todo <= expired
        invariant wheel.Valid() && State() == Drop(s, expired - todo)
        decreases |todo|
      {
        var id :| id in todo;
        DropKeeps(s, expired - todo);
        DropTwice(s, expired - todo, {id});
        assert expired - todo + {id} == expired - (todo - {id});
        todo := todo - {id};
        Close(id);
      }
      assert expired - todo == expired;
    }

    method DisconnectAll()
      requires Inv()
      modifies this`conns, this`est, wheel
      ensures Inv() && State() == Drop(old(State()), old(conns).Keys)
    {
      ghost var s := State();
      ghost var target := Drop(s, s.conns.Keys);
      DropAll(s);
      DropKeeps(s, s.conns.Keys);
      DropNone(s);
      assert target == s.(conns := map[], est := map[], wheel := target.wheel);
      hide Drop, Sound;
      est := map[];
      var todo := conns.Keys;
      while todo != {}
        invariant todo <= s.conns.Keys && conns == s.conns && est == map[]
        invariant wheel.Valid() && wheel.Value() == Drop(s, s.conns.Keys - todo).wheel
        decreases |todo|
      {
        var id :| id in todo;
        DropOneMore(s, s.conns.Keys - todo, id);
        OneFewer(s.conns.Keys, todo, id);
        wheel.Remove(id, conns[id].slot);
        todo := todo - {id};
      }
      assert s.conns.Keys - todo == s.conns.Keys;
      conns := map[];
    }

    /** Disconnect one peer if it is established; the lookup of its connection never fails. */
    method DisconnectPeer(peer: NodeId)
      requires Inv()
      modifies this`conns, this`est, wheel
      ensures Inv() && State() == Drop(old(State()), EstablishedWith(old(State()), {peer}))
    {
      ghost var s := State();
      hide Valid;
      ValidEstablished(s);
      if peer in est {
        var id := est[peer];
        assert EstablishedWith(s, {peer}) == {id};
        DropOne(s, id);
        ValidDrop(s, {id});
        est := est - {peer};
        var conn := conns[id];
        conns := conns - {id};
        wheel.Remove(id, conn.slot);
        assert est == Drop(s, {id}).est;
      } else {
        assert EstablishedWith(s, {peer}) == {};
        DropNone(s);
      }
    }

    method DisconnectEstablished(toDisconnect: set<NodeId>)
      requires Inv()
      modifies this`conns, this`est, wheel
      ensures Inv() && State() == Drop(old(State()), EstablishedWith(old(State()), toDisconnect))
    {
      ghost var s := State();
      DropNone(s);
      var todo := toDisconnect;
      assert EstablishedWith(s, toDisconnect - todo) == {};
      while todo != {}
        invariant todo <= toDisconnect
        invariant Inv() && State() == Drop(s, EstablishedWith(s, toDisconnect - todo))
        decreases |todo|
      {
        var peer :| peer in todo;
        EstablishedGrows(s, toDisconnect - todo, peer);
        assert toDisconnect - todo + {peer} == toDisconnect - (todo - {peer});
        todo := todo - {peer};
        DisconnectPeer(peer);
      }
      assert toDisconnect - todo == toDisconnect;
    }

    // ----- opening connections

    method InitConnection(id: Id, peer: Option<NodeId>)
      requires Inv() && id !in ids
      modifies this`conns, this`ids, wheel
      ensures Inv() && State() == ClusterState.InitConnection(old(State()), id, peer)
    {
      ids := ids + {id};
      var isClient := peer.Some?;
      var slot := wheel.Insert(id);
      conns := conns[id := Conn(peer, isClient, false, slot)];
      InitConnectionKeeps(old(State()), id, peer);
    }

    /** `answer` is the fresh id of the new socket, or `None` when connecting fails. */
    method Connect(peer: NodeId, answer: Option<Id>) returns (o: Outcome)
      requires Inv() && (answer.Some? ==> answer.value !in ids)
      modifies this`conns, this`ids, wheel
      ensures Inv() && FailedIds(o) == {} && (o.Failure? ==> o.error.ConnectError?)
      ensures answer.Some? ==> State() == ClusterState.InitConnection(old(State()), answer.value, Some(peer))
      ensures answer.None? ==> State() == old(State())
    {
      match answer {
        case Some(id) =>
          InitConnection(id, Some(peer));
          o := Success;
        case None =>
          o := Failure(ConnectError(peer));
      }
    }

    /** Ask for one connection; a failure is only logged. */
    method ConnectPeer(peer: NodeId, connected: map<Id, NodeId>)
      requires Inv() && forall id | id in connected && connected[id] == peer :: id !in ids
      requires forall i, j | i in connected && j in connected && connected[i] == connected[j] :: i == j
      modifies this`conns, this`ids, wheel
      ensures Inv() && State() == ConnectAll(old(State()), Wanted(connected, {peer}))
    {
      ConnectNone(State());
      WantedGrows(connected, {}, peer);
      assert Wanted(connected, {}) == map[];
      assert {} + {peer} == {peer};
      var answers := set id | id in connected && connected[id] == peer;
      var answer := None;
      if answers != {} {
        var id :| id in answers;
        answer := Some(id);
        ConnectOneMore(State(), map[], id, peer);
      } else {
        assert forall id | id in connected && connected[id] == peer :: id in answers;
      }
      var o := Connect(peer, answer);
    }

    method ConnectPeers(toConnect: set<NodeId>, connected: map<Id, NodeId>)
      requires Inv() && FreshIds(State(), connected)
      modifies this`conns, this`ids, wheel
      ensures Inv() && State() == ConnectAll(old(State()), Wanted(connected, toConnect))
    {
      hide Valid, ConnectAll, Wanted;
      ghost var s := State();
      var todo := toConnect;
      ValidBounds(s);
      ConnectNone(s);
      NobodyWanted(connected, toConnect - todo);
      while todo != {}
        invariant todo <= toConnect
        invariant Inv() && State() == ConnectAll(s, Wanted(connected, toConnect - todo))
        decreases |todo|
      {
        var peer :| peer in todo;
        AnswersFresh(s, connected, toConnect - todo, peer);
        ConnectMore(s, connected, toConnect - todo, peer);
        OnePeerFewer(toConnect, todo, peer);
        todo := todo - {peer};
        ConnectPeer(peer, connected);
      }
      assert toConnect - todo == toConnect;
    }

    /** Ensure connections are correct based on membership state. */
    method CheckConnections(connected: map<Id, NodeId>)
      requires Inv() && FreshIds(State(), connected)
      modifies this`conns, this`est, this`ids, wheel
      ensures Inv() && State() == ClusterState.CheckConnections(old(State()), connected)
    {
      var all := members.Value().All();
      if node !in all {
        DisconnectAll();
        return;
      }
      var known := set id | id in conns && conns[id].node.Some? :: conns[id].node.value;
      var toConnect := all - known - {node};
      var toDisconnect := known - all;
      ConnectPeers(toConnect, connected);
      DisconnectEstablished(toDisconnect);
    }

    // ----- writing

    /** Write one frame to a connection: it is queued whole, or the write fails. */
    method ConnWrite(id: Id, frame: Frame, ok: bool, ghost before: map<Id, seq<Frame>>, ghost frames: map<Id, Frame>)
      returns (o: Outcome)
      requires id in conns && id !in frames && sent == Append(before, frames)
      modifies this`sent
      ensures ok ==> o == Success && sent == Append(before, frames[id := frame])
      ensures !ok ==> o == Failure(WriteError(id, conns[id].node)) && sent == old(sent)
    {
      if ok {
        AppendOne(before, frames, id, frame);
        sent := sent[id := (if id in sent then sent[id] else []) + [frame]];
        o := Success;
      } else {
        o := Failure(WriteError(id, conns[id].node));
      }
    }

    /** Write to all connections that have sent their members; collect the errors. */
    method Broadcast(frame: Frame, fails: set<Id>) returns (o: Outcome)
      modifies this`sent
      ensures sent == Append(old(sent), ClusterState.Broadcast(State(), frame, fails).sent)
      ensures FailedIds(o) == ClusterState.Broadcast(State(), frame, fails).errs
      ensures o.Failure? <==> FailedIds(o) != {}
      ensures o.Failure? ==> o.error.BroadcastError?
    {
      hide BroadcastErrors, FailedIds, Append, Ready, ClusterState.Broadcast;
      var errors: seq<Error> := [];
      NoBroadcastErrors();
      var todo := conns.Keys;
      ghost var written: map<Id, Frame> := map[];
      ghost var bad: set<Id> := {};
      AppendNone(sent);
      while todo != {}
        invariant todo <= conns.Keys
        invariant forall id :: id in written <==> WritesTo(State(), id) && id !in fails && id !in todo
        invariant forall id :: id in bad <==> WritesTo(State(), id) && id in fails && id !in todo
        invariant forall id | id in written :: written[id] == frame
        invariant sent == Append(old(sent), written)
        invariant BroadcastErrors(errors, bad)
        decreases |todo|
      {
        var id :| id in todo;
        todo := todo - {id};
        if conns[id].membersSent {
          var r := ConnWrite(id, frame, id !in fails, old(sent), written);
          if r.Failure? {
            BroadcastErrorsGrow(errors, bad, r.error);
            errors, bad := errors + [r.error], bad + {id};
          } else {
            written := written[id := frame];
          }
        }
      }
      BroadcastWritten(State(), frame, fails, written, bad);
      BroadcastOutcome(errors, bad);
      o := if errors != [] then Failure(BroadcastError(errors)) else Success;
    }

    method SendMembers(id: Id, ok: bool) returns (o: Outcome)
      requires Inv()
      modifies this`conns, this`sent
      ensures Inv() && (o.Failure? <==> FailedIds(o) != {})
      ensures id in old(conns) ==>
                var r := ClusterState.SendMembers(old(State()), id, ok);
                && State() == r.server
                && sent == Append(old(sent), r.sent)
                && FailedIds(o) == r.errs
      ensures id !in old(conns) ==> State() == old(State()) && sent == old(sent) && FailedIds(o) == {}
    {
      o := Success;
      if id in conns {
        SendMembersKeeps(State(), id, ok);
        if ok {
          AppendNone(sent);
          o := ConnWrite(id, MembersFrame(node, members.marks), ok, sent, map[]);
          conns := conns[id := conns[id].(membersSent := true)];
        } else {
          o := Failure(WriteError(id, conns[id].node));
          assert id in FailedIds(o);
          AppendNone(sent);
        }
      }
    }

    // ----- messages from peers

    method ResetTimer(id: Id)
      requires Inv()
      modifies this`conns, wheel
      ensures Inv() && State() == ClusterState.ResetTimer(old(State()), id)
    {
      ResetTimerKeeps(State(), id);
      if id in conns {
        wheel.Remove(id, conns[id].slot);
        var slot := wheel.Insert(id);
        conns := conns[id := conns[id].(slot := slot)];
      }
    }

    /** Of two connections between the same nodes, the one to close, if there are two. */
    method ChooseConnectionToClose(id: Id, from: NodeId) returns (close: Option<Id>)
      ensures close == ClusterState.ChooseConnectionToClose(State(), id, from)
      ensures close == None <==> from !in est || est[from] !in conns
      // Of two connections opened from different sides, the one that the lower node opened goes.
      ensures close.Some? && id in conns && from != node && conns[id].isClient != conns[est[from]].isClient ==>
                close.value in conns && (conns[close.value].isClient <==> Less(node, from))
    {
      NodeOrderTotal(node, from);
      if from in est {
        var savedId := est[from];
        if savedId in conns {
          var saved := conns[savedId];
          if (saved.isClient && Less(node, from)) || (!saved.isClient && Less(from, node)) {
            return Some(savedId);
          } else {
            return Some(id);
          }
        }
      }
      return None;
    }

    method Register(id: Id, from: NodeId)
      requires wheel.Valid() && Sound(State())
      modifies this`conns, this`est, wheel
      ensures wheel.Valid() && State() == ClusterState.Register(old(State()), id, from)
    {
      if id in conns {
        var conn := conns[id];
        wheel.Remove(id, conn.slot);
        var slot := wheel.Insert(id);
        conns := conns[id := conn.(node := Some(from), slot := slot)];
        est := est[from := id];
      }
    }

    /** Transition a connection from unestablished to established, after resolving a duplicate. */
    method EstablishConnection(id: Id, from: NodeId, marks: set<Mark>)
      requires Inv() && (id in conns ==> conns[id].membersSent) && NamedOnce(State(), id, from)
      modifies this`conns, this`est, wheel, members
      ensures Inv() && State() == ClusterState.EstablishConnection(old(State()), id, from, marks)
    {
      EstablishKeeps(State(), id, from, marks);
      MembersAside(State(), State().members.Joined(marks));
      members.Join(marks);
      var close := ChooseConnectionToClose(id, from);
      if close.Some? {
        DropKeeps(State(), {close.value});
        Close(close.value);
        if close.value == id {
          return;
        }
      }
      Register(id, from);
    }

    method HandleMembers(id: Id, from: NodeId, marks: set<Mark>, connected: map<Id, NodeId>)
      requires Inv() && (id in conns ==> conns[id].membersSent)
      requires NamedOnce(State(), id, from) && FreshIds(State(), connected)
      modifies this`conns, this`est, this`ids, wheel, members
      ensures Inv() && State() == GotMembers(old(State()), id, from, marks, connected)
    {
      EstablishIds(State(), id, from, marks);
      EstablishConnection(id, from, marks);
      CheckConnections(connected);
    }

    method HandleDelta(delta: Delta, fails: set<Id>) returns (o: Outcome)
      requires Inv()
      modifies this`sent, members
      ensures Inv()
      ensures var r := GotDelta(old(State()), delta, fails);
              State() == r.server && sent == Append(old(sent), r.sent) && FailedIds(o) == r.errs
      ensures o.Failure? <==> FailedIds(o) != {}
    {
      o := Success;
      MembersAside(State(), State().members.Joined(delta));
      AppendNone(sent);
      var changed := members.JoinDelta(delta);
      if changed {
        o := Broadcast(DeltaFrame(delta), fails);
      }
    }

    method HandleDecodedMessage(id: Id, msg: Incoming) returns (o: Outcome)
      requires Inv() && Allowed(State(), Got(id, msg.frame, msg.fails, msg.connected))
      modifies this, wheel, members
      ensures Inv()
      ensures View(o) == Apply(old(View(Success)), Got(id, msg.frame, msg.fails, msg.connected))
      ensures o.Failure? <==> FailedIds(o) != {}
    {
      hide Valid, Append, ClusterState.ResetTimer, GotMembers, FailedIds;
      ValidBounds(State());
      NoFailedIds();
      o := Success;
      ApplyToClean(View(Success), Got(id, msg.frame, msg.fails, msg.connected));
      match msg.frame {
        case MembersFrame(from, marks) =>
          HandleMembers(id, from, marks, msg.connected);
        case Ping =>
          ResetTimer(id);
        case EnvelopeFrame(e) =>
          executorTx := executorTx + [e];
        case DeltaFrame(delta) =>
          o := HandleDelta(delta, msg.fails);
      }
    }

    /** Read a ready socket: the first time send the members, later handle what was decoded. */
    method Read(id: Id, readOk: bool, msgs: seq<Incoming>) returns (o: Outcome)
      requires Inv() && AllowedRun(View(Success), ReadEvents(State(), id, readOk, msgs))
      modifies this, wheel, members
      ensures Inv()
      ensures View(o) == RunUntilError(old(View(Success)), ReadEvents(old(State()), id, readOk, msgs))
      ensures o.Failure? <==> FailedIds(o) != {}
    {
      hide Valid, AllowedRun, RunUntilError, Gots, Append;
      o := Success;
      ghost var w := View(Success);
      ghost var evs := ReadEvents(State(), id, readOk, msgs);
      if id !in conns {
        RunNothing(w);
        return;
      }
      if !conns[id].membersSent {
        RunUnfold(w, evs);
        o := SendMembers(id, readOk);
        return;
      }
      if !readOk {
        RunUnfold(w, evs);
        o := Failure(ReadError(id, conns[id].node));
        assert id in FailedIds(o);
        return;
      }
      o := HandleMessages(id, msgs);
    }

    method HandleMessages(id: Id, msgs: seq<Incoming>) returns (o: Outcome)
      requires Inv() && AllowedRun(View(Success), Gots(id, msgs))
      modifies this, wheel, members
      ensures Inv()
      ensures View(o) == RunUntilError(old(View(Success)), Gots(id, msgs))
      ensures o.Failure? <==> FailedIds(o) != {}
    {
      o := Success;
      ghost var w := View(Success);
      ghost var evs := Gots(id, msgs);
      var i := 0;
      while i < |msgs|
        invariant i <= |msgs| && Inv() && o == Success
        invariant AllowedRun(View(Success), evs[i..])
        invariant RunUntilError(View(Success), evs[i..]) == RunUntilError(w, evs)
      {
        RunUnfold(View(Success), evs[i..]);
        assert evs[i..][1..] == evs[i + 1..];
        o := HandleDecodedMessage(id, msgs[i]);
        if o.Failure? {
          return;
        }
        i := i + 1;
      }
      assert evs[i..] == [];
    }

    /** The socket became writable: flush what is queued. */
    method Write(id: Id, writeOk: bool) returns (o: Outcome)
      requires Inv()
      ensures View(o) == RunUntilError(View(Success), WriteEvents(State(), id, writeOk))
      ensures o.Failure? <==> FailedIds(o) != {}
    {
      if id in conns && !writeOk {
        RunUnfold(View(Success), [IoError(id)]);
        o := Failure(WriteError(id, conns[id].node));
        assert id in FailedIds(o);
      } else {
        o := Success;
      }
    }

    // ----- notifications

    method AcceptOne(sock: Accepted) returns (o: Outcome)
      requires Inv() && sock.id !in ids
      modifies this, wheel
      ensures Inv()
      ensures View(o) == Apply(old(View(Success)), Accept(sock.id, sock.ok))
      ensures o.Failure? <==> FailedIds(o) != {}
    {
      ApplyToClean(View(Success), Accept(sock.id, sock.ok));
      InitConnection(sock.id, None);
      o := SendMembers(sock.id, sock.ok);
    }

    method AcceptConnections(socks: seq<Accepted>) returns (o: Outcome)
      requires Inv() && AllowedRun(View(Success), Accepts(socks))
      modifies this, wheel
      ensures Inv()
      ensures View(o) == RunUntilError(old(View(Success)), Accepts(socks))
      ensures o.Failure? <==> FailedIds(o) != {}
    {
      hide Valid, Sound, Step, Apply, Append, RunUntilError, AllowedRun;
      o := Success;
      ghost var w := View(Success);
      ghost var evs := Accepts(socks);
      var i := 0;
      while i < |socks|
        invariant i <= |socks| && Inv() && o == Success
        invariant AllowedRun(View(Success), evs[i..])
        invariant RunUntilError(View(Success), evs[i..]) == RunUntilError(w, evs)
      {
        RunUnfold(View(Success), evs[i..]);
        assert evs[i..][1..] == evs[i + 1..];
        o := AcceptOne(socks[i]);
        if o.Failure? {
          return;
        }
        i := i + 1;
        RunNothing(View(Success));
        assert i == |socks| ==> evs[i..] == [];
      }
      RunNothing(View(Success));
      assert evs[i..] == [];
    }

    /** Expire one slot and close its connections. */
    method ExpireTimers()
      requires Inv()
      modifies this`conns, this`est, wheel
      ensures Inv() && State() == ClusterState.ExpireTimers(old(State()))
    {
      ghost var s := State();
      DropKeeps(s.(wheel := s.wheel.Turned()), s.wheel.data[s.wheel.read]);
      var expired := wheel.Expire();
      Deregister(expired);
    }

    method TickTimers(fails: set<Id>, connected: map<Id, NodeId>) returns (o: Outcome)
      requires Inv() && FreshIds(State(), connected)
      modifies this, wheel, members
      ensures Inv()
      ensures View(o) == Apply(old(View(Success)), Tick(fails, connected))
      ensures o.Failure? <==> FailedIds(o) != {}
    {
      hide Valid, ClusterState.Broadcast, ClusterState.CheckConnections, ClusterState.ExpireTimers, Append;
      ValidBounds(State());
      BroadcastKeepsServer(ClusterState.ExpireTimers(State()), Ping, fails);
      ApplyToClean(View(Success), Tick(fails, connected));
      TickKeeps(State(), fails, connected);
      ExpireTimers();
      o := Broadcast(Ping, fails);
      if o.Success? {
        CheckConnections(connected);
      }
    }

    method Notify(n: Notification) returns (o: Outcome)
      requires Inv() && NotificationAllowed(View(Success), n)
      modifies this, wheel, members
      ensures Inv() && View(o) == Notified(old(View(Success)), n)
      ensures o.Failure? <==> FailedIds(o) != {}
    {
      match n {
        case ListenerReady(socks) =>
          o := AcceptConnections(socks);
        case TimerFired(fails, connected) =>
          RunUnfold(View(Success), [Tick(fails, connected)]);
          o := TickTimers(fails, connected);
        case SocketReady(id, io) =>
          match io {
            case ReadOnly(readOk, msgs) =>
              o := Read(id, readOk, msgs);
            case WriteOnly(writeOk) =>
              o := Write(id, writeOk);
            case ReadWrite(readOk, msgs, writeOk) =>
              o := Read(id, readOk, msgs);
              if o.Success? {
                o := Write(id, writeOk);
              }
          }
      }
    }

    /** Handle one notification, adding its error, if any, to the others. */
    method NotifyNext(n: Notification, errors: seq<Error>) returns (errors': seq<Error>)
      requires Inv() && NotificationAllowed(View(Success), n)
      modifies this, wheel, members
      ensures Inv()
      ensures var w := Notified(old(View(Success)), n);
              View(Failure(PollNotificationErrors(errors'))) == w.(failed := SetOf(FlatIds(errors)) + w.failed)
    {
      hide Valid, Notified, FlatIds, FailedIds, NotificationAllowed;
      NoFailedIds();
      PollIds(errors);
      var r := Notify(n);
      if r.Failure? {
        FlatIdsGrow(errors, r.error);
        PollIds(errors + [r.error]);
        errors' := errors + [r.error];
      } else {
        errors' := errors;
      }
    }

    /** Handle a batch of notifications; errors are collected, none stops the batch. */
    method HandlePollNotifications(ns: seq<Notification>) returns (o: Outcome)
      requires Inv() && BatchAllowed(View(Success), ns)
      modifies this, wheel, members
      ensures Inv() && View(o) == Batch(old(View(Success)), ns)
      ensures o.Failure? ==> !Fatal(o.error)
    {
      hide Valid, BatchAllowed, Batch, NotificationAllowed, FlatIds;
      NoIds();
      var errors: seq<Error> := [];
      ghost var w := View(Success);
      var i := 0;
      while i < |ns|
        invariant i <= |ns| && Inv() && w == View(Failure(PollNotificationErrors(errors)))
        invariant BatchAllowed(w, ns[i..])
        invariant Batch(w, ns[i..]) == Batch(old(View(Success)), ns)
      {
        BatchUnfold(View(Success), SetOf(FlatIds(errors)), ns[i..]);
        assert ns[i..][1..] == ns[i + 1..];
        errors := NotifyNext(ns[i], errors);
        w := View(Failure(PollNotificationErrors(errors)));
        i := i + 1;
      }
      assert ns[i..] == [];
      BatchEnd(w);
      o := if errors != [] then Failure(PollNotificationErrors(errors)) else Success;
    }

    // ----- requests from the local node

    method JoinCluster(peer: NodeId, fails: set<Id>, answer: Option<Id>) returns (o: Outcome)
      requires Inv() && (answer.Some? ==> answer.value !in ids)
      modifies this, wheel, members
      ensures Inv() && View(o) == Apply(old(View(Success)), Join(peer, fails, answer))
      ensures o.Failure? ==> !Fatal(o.error)
    {
      hide Valid, ClusterState.Broadcast, ClusterState.InitConnection, Append;
      ValidBounds(State());
      BroadcastKeepsServer(State().(members := State().members.AfterAdd(peer)),
                           DeltaFrame(State().members.AddDelta(peer)), fails);
      ApplyToClean(View(Success), Join(peer, fails, answer));
      JoinKeeps(State(), peer, fails, answer);
      MembersAside(State(), State().members.AfterAdd(peer));
      var delta := members.Add(peer);
      o := Broadcast(DeltaFrame(delta), fails);
      if o.Failure? {
        return;
      }
      o := Connect(peer, answer);
    }

    method LeaveCluster(peer: NodeId, fails: set<Id>) returns (o: Outcome)
      requires Inv()
      modifies this, wheel, members
      ensures Inv() && View(o) == Apply(old(View(Success)), Leave(peer, fails))
      ensures o.Failure? ==> !Fatal(o.error)
    {
      o := Success;
      ApplyToClean(View(Success), Leave(peer, fails));
      MembersAside(State(), State().members.Joined(State().members.LeaveDelta(peer)));
      var delta := members.Leave(peer);
      if delta.Some? {
        o := Broadcast(DeltaFrame(delta.value), fails);
      } else {
        assert old(members.marks) + {} == old(members.marks);
      }
    }

    /** Metrics requests are answered through the executor; anything else goes to the established
        connection of the node it is addressed to, or nowhere when there is none. */
    method HandleEnvelope(e: Envelope<Payload>, ok: bool) returns (o: Outcome)
      requires Inv()
      modifies this
      ensures Inv() && View(o) == Apply(old(View(Success)), Send(e, ok))
      ensures o.Failure? ==> !Fatal(o.error)
    {
      hide Valid, Append;
      ValidEstablished(State());
      NoFailedIds();
      o := Success;
      ApplyToClean(View(Success), Send(e, ok));
      AppendNone(sent);
      if e.to == ClusterPid(node) {
        if e.msg.GetMetrics? {
          executorTx := executorTx + [Envelope(e.from, ClusterPid(node), Metrics, e.correlationId)];
        }
      } else if e.to.node in est {
        o := ConnWrite(est[e.to.node], EnvelopeFrame(e), ok, sent, map[]);
      }
    }

    /** After a failed call: close every connection that the error names, at any depth. */
    method CleanUp(e: Error)
      requires Inv()
      modifies this`conns, this`est, wheel
      ensures Inv() && View(Success) == Apply(old(View(Failure(e))), Cleanup)
    {
      hide Valid, Drop, GetIds, FlatIds;
      var ids := GetIds(e);
      ghost var s := State();
      DropNone(s);
      var i := 0;
      assert SetOf(ids[..0]) == {};
      while i < |ids|
        invariant i <= |ids|
        invariant Inv() && State() == Drop(s, SetOf(ids[..i]))
      {
        assert SetOf(ids[..i + 1]) == SetOf(ids[..i]) + {ids[i]};
        DropTwice(s, SetOf(ids[..i]), {ids[i]});
        ValidDrop(State(), {ids[i]});
        Close(ids[i]);
        i := i + 1;
      }
      assert ids[..i] == ids;
    }

    method HandleClusterMsg(msg: ClusterMsg) returns (o: Outcome)
      requires Inv() && MsgAllowed(View(Success), msg)
      modifies this, wheel, members
      ensures Inv() && View(o) == Handled(old(View(Success)), msg)
      ensures o.Failure? && Fatal(o.error) <==> msg.ShutdownMsg?
    {
      match msg {
        case PollNotifications(ns) => o := HandlePollNotifications(ns);
        case JoinMsg(peer, fails, answer) => o := JoinCluster(peer, fails, answer);
        case LeaveMsg(peer, fails) => o := LeaveCluster(peer, fails);
        case EnvelopeMsg(e, ok) => o := HandleEnvelope(e, ok);
        case ShutdownMsg => o := Failure(ShutdownError(ClusterPid(node)));
      }
    }

    /** One turn of the main loop: handle a message, then close every connection its error names.
        Only a shutdown stops the loop. */
    method RunOnce(msg: ClusterMsg) returns (stop: bool)
      requires Inv() && MsgAllowed(View(Success), msg)
      modifies this, wheel, members
      ensures Inv() && View(Success) == Apply(Handled(old(View(Success)), msg), Cleanup)
      ensures stop <==> msg.ShutdownMsg?
    {
      var o := HandleClusterMsg(msg);
      stop := false;
      if o.Failure? {
        CleanUp(o.error);
        stop := Fatal(o.error);
      } else {
        DropNone(State());
      }
    }
  }
}
