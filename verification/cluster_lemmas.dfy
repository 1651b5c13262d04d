/** Facts about the handlers of `ClusterState`: dropping, connecting, queueing and errors compose. */
module ClusterLemmas {
  import opened Base
  import opened Ids
  import opened Errors
  import opened ClusterState
  import opened ClusterRuns

  lemma DropTwice(s: Server, a: set<Id>, b: set<Id>)
    ensures Drop(Drop(s, a), b) == Drop(s, a + b)
  {
    var one, two := Drop(s, a + b), Drop(Drop(s, a), b);
    assert two.conns == one.conns;
    assert two.est == one.est;
    assert two.wheel.data == one.wheel.data by {
      forall i | 0 <= i < |s.wheel.data| ensures two.wheel.data[i] == one.wheel.data[i] {
        assert s.wheel.data[i] - a - b == s.wheel.data[i] - (a + b);
      }
    }
  }

  lemma DropNone(s: Server)
    ensures Drop(s, {}) == s
  {
    assert Drop(s, {}).conns == s.conns;
    assert Drop(s, {}).est == s.est;
    forall i | 0 <= i < |s.wheel.data| ensures s.wheel.data[i] - {} == s.wheel.data[i] {
    }
    assert Drop(s, {}).wheel.data == s.wheel.data;
  }

  lemma DropAll(s: Server)
    requires Sound(s)
    ensures Drop(s, s.conns.Keys).conns == map[] && Drop(s, s.conns.Keys).est == map[]
  {
  }

  /** Removing one key from the slot that alone holds it removes it from the wheel. */
  lemma DropOne(s: Server, id: Id)
    requires Sound(s) && id in s.conns
    ensures Drop(s, {id}).wheel == s.wheel.Removed(id, s.conns[id].slot)
  {
    var slot := s.conns[id].slot;
    forall i | 0 <= i < |s.wheel.data| && i != slot
      ensures s.wheel.data[i] - {id} == s.wheel.data[i]
    {
    }
    assert Drop(s, {id}).wheel.data == s.wheel.Removed(id, slot).data;
  }

  lemma DropOneMore(s: Server, ids: set<Id>, id: Id)
    requires Sound(s) && id in s.conns && id !in ids
    ensures s.conns[id].slot < |s.wheel.data|
    ensures Drop(s, ids).wheel.Removed(id, s.conns[id].slot) == Drop(s, ids + {id}).wheel
  {
    DropKeeps(s, ids);
    DropOne(Drop(s, ids), id);
    DropTwice(s, ids, {id});
  }

  lemma OneFewer(all: set<Id>, todo: set<Id>, id: Id)
    requires id in todo && todo <= all
    ensures (all - todo) + {id} == all - (todo - {id}) && |todo - {id}| < |todo|
  {
  }

  lemma OnePeerFewer(all: set<NodeId>, todo: set<NodeId>, peer: NodeId)
    requires peer in todo && todo <= all
    ensures (all - todo) + {peer} == all - (todo - {peer}) && |todo - {peer}| < |todo|
  {
  }

  lemma BroadcastKeepsServer(s: Server, frame: Frame, fails: set<Id>)
    ensures Broadcast(s, frame, fails).server == s && Broadcast(s, frame, fails).up == []
  {
  }

  lemma ValidBounds(s: Server)
    requires Valid(s)
    ensures s.wheel.write < |s.wheel.data| && s.wheel.Ok() && Sound(s)
  {
  }

  lemma PollIds(errors: seq<Error>)
    ensures FailedIds(Failure(PollNotificationErrors(errors))) == SetOf(FlatIds(errors))
  {
  }

  lemma NoFailedIds()
    ensures FailedIds(Success) == {}
  {
  }

  /** Established connections are live. */
  lemma ValidEstablished(s: Server)
    requires Valid(s)
    ensures Sound(s) && forall n | n in s.est :: s.est[n] in s.conns
  {
  }

  lemma ValidDrop(s: Server, ids: set<Id>)
    requires Valid(s)
    ensures Valid(Drop(s, ids)) && Sound(s)
  {
    DropKeeps(s, ids);
  }

  lemma RunNothing(w: World)
    requires Valid(w.server)
    ensures AllowedRun(w, []) && RunUntilError(w, []) == w
  {
  }

  lemma NobodyWanted(connected: map<Id, NodeId>, nodes: set<NodeId>)
    requires nodes == {}
    ensures Wanted(connected, nodes) == map[]
  {
  }

  lemma DropAbsent(s: Server, id: Id)
    requires Sound(s) && id !in s.conns
    ensures Drop(s, {id}) == s
  {
    assert Drop(s, {id}).conns == s.conns;
    assert Drop(s, {id}).est == s.est;
    forall i | 0 <= i < |s.wheel.data| ensures s.wheel.data[i] - {id} == s.wheel.data[i] {
    }
    assert Drop(s, {id}).wheel.data == s.wheel.data;
  }

  lemma ConnectNone(s: Server)
    requires s.wheel.write < |s.wheel.data|
    ensures ConnectAll(s, map[]) == s
  {
    assert ConnectAll(s, map[]).conns == s.conns;
    var none: map<Id, NodeId> := map[];
    assert s.wheel.data[s.wheel.write] + none.Keys == s.wheel.data[s.wheel.write];
    assert ConnectAll(s, none).wheel.data == s.wheel.data;
  }

  /** Connecting one more peer. */
  lemma ConnectOneMore(s: Server, done: map<Id, NodeId>, id: Id, peer: NodeId)
    requires s.wheel.write < |s.wheel.data|
    ensures InitConnection(ConnectAll(s, done), id, Some(peer)) == ConnectAll(s, done[id := peer])
  {
    var a := InitConnection(ConnectAll(s, done), id, Some(peer));
    var b := ConnectAll(s, done[id := peer]);
    assert done[id := peer].Keys == done.Keys + {id};
    ClientConnsMore(done, id, peer, s.wheel.write);
    hide ClientConns;
    var c := Conn(Some(peer), true, false, s.wheel.write);
    assert s.conns + ClientConns(done, s.wheel.write)[id := c] == (s.conns + ClientConns(done, s.wheel.write))[id := c];
    assert a.conns == b.conns;
    SlotGrows(s.wheel.data, s.wheel.write, done.Keys, {id}, done[id := peer].Keys);
    hide ConnectAll;
    assert ConnectAll(s, done).wheel.data == s.wheel.data[s.wheel.write := s.wheel.data[s.wheel.write] + done.Keys] by {
      ConnectedSlot(s, done);
    }
    ConnectedSlot(s, done[id := peer]);
  }

  lemma ConnectedSlot(s: Server, done: map<Id, NodeId>)
    requires s.wheel.write < |s.wheel.data|
    ensures ConnectAll(s, done).wheel.data == s.wheel.data[s.wheel.write := s.wheel.data[s.wheel.write] + done.Keys]
  {
  }

  lemma SlotGrows(data: seq<set<Id>>, w: nat, one: set<Id>, two: set<Id>, both: set<Id>)
    requires w < |data| && both == one + two
    ensures data[w := data[w] + one][w := (data[w] + one) + two] == data[w := data[w] + both]
  {
    assert (data[w] + one) + two == data[w] + both;
  }

  lemma ClientConnsMore(done: map<Id, NodeId>, id: Id, peer: NodeId, w: nat)
    ensures ClientConns(done[id := peer], w) == ClientConns(done, w)[id := Conn(Some(peer), true, false, w)]
  {
  }

  lemma AppendNone(sent: map<Id, seq<Frame>>)
    ensures Append(sent, map[]) == sent
  {
    forall id | id in sent ensures Append(sent, map[])[id] == sent[id] {
      assert sent[id] + [] == sent[id];
    }
    assert Append(sent, map[]).Keys == sent.Keys;
  }

  lemma AppendOne(sent: map<Id, seq<Frame>>, frames: map<Id, Frame>, id: Id, frame: Frame)
    requires id !in frames
    ensures var so := Append(sent, frames);
            so[id := (if id in so then so[id] else []) + [frame]] == Append(sent, frames[id := frame])
  {
    hide Append;
    var so, more := Append(sent, frames), Append(sent, frames[id := frame]);
    var added := so[id := (if id in so then so[id] else []) + [frame]];
    forall k: Id ensures k in more <==> k in added
             ensures k in more ==> more[k] == added[k] {
      AppendAt(sent, frames, k);
      AppendAt(sent, frames[id := frame], k);
    }
  }

  lemma AppendAt(sent: map<Id, seq<Frame>>, frames: map<Id, Frame>, id: Id)
    ensures var so := Append(sent, frames);
            && (id in so <==> id in sent || id in frames)
            && (id in so ==>
                  so[id] == if id !in sent then [frames[id]]
                            else if id in frames then sent[id] + [frames[id]]
                            else sent[id])
  {
    if id in Append(sent, frames) && id in sent && id !in frames {
      assert Append(sent, frames)[id] == sent[id] + [];
    }
  }

  /** What one event adds to a world without pending errors. */
  lemma ApplyToClean(w: World, ev: Event)
    requires Sound(w.server) && w.failed == {} && !ev.Cleanup?
    ensures var r := Step(w.server, ev);
            && Apply(w, ev) == World(r.server, Append(w.sent, r.sent), w.up + r.up, r.errs)
            && (r.sent == map[] ==> Append(w.sent, r.sent) == w.sent)
            && (r.up == [] ==> w.up + r.up == w.up)
  {
    AppendNone(w.sent);
    assert {} + Step(w.server, ev).errs == Step(w.server, ev).errs;
  }

  lemma RunUnfold(w: World, evs: seq<Event>)
    requires Valid(w.server) && w.failed == {} && AllowedRun(w, evs) && evs != [] && !evs[0].Cleanup?
    ensures Allowed(w.server, evs[0])
    ensures Valid(Apply(w, evs[0]).server)
    ensures var r := Step(w.server, evs[0]);
            && Apply(w, evs[0]) == World(r.server, Append(w.sent, r.sent), w.up + r.up, r.errs)
            && (r.sent == map[] ==> Append(w.sent, r.sent) == w.sent)
            && (r.up == [] ==> w.up + r.up == w.up)
            && (r.errs == {} ==> AllowedRun(Apply(w, evs[0]), evs[1..]))
    ensures RunUntilError(w, evs) ==
              if Step(w.server, evs[0]).errs != {} || |evs| == 1 then Apply(w, evs[0])
              else RunUntilError(Apply(w, evs[0]), evs[1..])
  {
    hide Step, Append, Apply, Allowed;
    ApplyToClean(w, evs[0]);
    ApplyKeeps(w, evs[0]);
    if |evs| == 1 {
      assert evs[1..] == [];
    }
  }

  lemma BatchUnfold(w: World, failed: set<Id>, ns: seq<Notification>)
    requires Valid(w.server) && w.failed == {} && ns != []
    requires BatchAllowed(w.(failed := failed), ns)
    ensures NotificationAllowed(w, ns[0])
    ensures var w1 := Notified(w, ns[0]);
            var next := w1.(failed := failed + w1.failed);
            BatchAllowed(next, ns[1..]) && Batch(w.(failed := failed), ns) == Batch(next, ns[1..])
  {
    var start := w.(failed := failed);
    assert start.(failed := {}) == w;
    AllowedWhateverFailed(Notified(w, ns[0]), failed + Notified(w, ns[0]).failed, ns[1..]);
  }

  lemma BatchEnd(w: World)
    requires Valid(w.server)
    ensures BatchAllowed(w, []) && Batch(w, []) == w
  {
  }

  lemma NoIds()
    ensures FlatIds([]) == [] && SetOf([]) == {}
  {
  }

  lemma FlatIdsGrow(errors: seq<Error>, e: Error)
    ensures SetOf(FlatIds(errors + [e])) == SetOf(FlatIds(errors)) + FailedIds(Failure(e))
  {
    assert (errors + [e])[..|errors|] == errors;
  }

  lemma EstablishedGrows(s: Server, nodes: set<NodeId>, peer: NodeId)
    requires Valid(s)
    ensures var gone := EstablishedWith(s, nodes);
            Drop(s, EstablishedWith(s, nodes + {peer})) ==
            Drop(Drop(s, gone), EstablishedWith(Drop(s, gone), {peer}))
  {
    var gone := EstablishedWith(s, nodes);
    var more := EstablishedWith(Drop(s, gone), {peer});
    assert EstablishedWith(s, nodes + {peer}) == gone + more;
    hide Drop, Sound;
    DropTwice(s, gone, more);
  }

  lemma WantedGrows(connected: map<Id, NodeId>, nodes: set<NodeId>, peer: NodeId)
    requires peer !in nodes
    requires forall i, j | i in connected && j in connected && connected[i] == connected[j] :: i == j
    ensures (forall id | id in connected :: connected[id] != peer) ==>
              Wanted(connected, nodes + {peer}) == Wanted(connected, nodes)
    ensures forall id | id in connected && connected[id] == peer ::
              id !in Wanted(connected, nodes) &&
              Wanted(connected, nodes + {peer}) == Wanted(connected, nodes)[id := peer]
  {
  }

  lemma MergeTwice(conns: map<Id, Conn>, one: map<Id, Conn>, two: map<Id, Conn>, both: map<Id, Conn>)
    requires both.Keys == one.Keys + two.Keys
    requires forall id | id in one :: both[id] == one[id]
    requires forall id | id in two :: both[id] == two[id]
    ensures conns + one + two == conns + both
  {
    assert (conns + one + two).Keys == (conns + both).Keys;
  }

  lemma ConnectTwice(s: Server, one: map<Id, NodeId>, two: map<Id, NodeId>, both: map<Id, NodeId>)
    requires s.wheel.write < |s.wheel.data|
    requires both.Keys == one.Keys + two.Keys
    requires forall id | id in one :: both[id] == one[id]
    requires forall id | id in two :: both[id] == two[id]
    ensures ConnectAll(ConnectAll(s, one), two) == ConnectAll(s, both)
  {
    hide ClientConns;
    var w := s.wheel.write;
    ClientConnsAgree(one, two, both, w);
    MergeTwice(s.conns, ClientConns(one, w), ClientConns(two, w), ClientConns(both, w));
    var slot := s.wheel.data[w];
    assert slot + one.Keys + two.Keys == slot + both.Keys;
    assert ConnectAll(ConnectAll(s, one), two).wheel.data == ConnectAll(s, both).wheel.data;
    assert s.ids + one.Keys + two.Keys == s.ids + both.Keys;
  }

  lemma ClientConnsAgree(one: map<Id, NodeId>, two: map<Id, NodeId>, both: map<Id, NodeId>, w: nat)
    requires both.Keys == one.Keys + two.Keys
    requires forall id | id in one :: both[id] == one[id]
    requires forall id | id in two :: both[id] == two[id]
    ensures ClientConns(one, w).Keys == one.Keys && ClientConns(two, w).Keys == two.Keys
    ensures ClientConns(both, w).Keys == both.Keys
    ensures forall id | id in one :: ClientConns(both, w)[id] == ClientConns(one, w)[id]
    ensures forall id | id in two :: ClientConns(both, w)[id] == ClientConns(two, w)[id]
  {
  }

  lemma ConnectMore(s: Server, connected: map<Id, NodeId>, nodes: set<NodeId>, peer: NodeId)
    requires s.wheel.write < |s.wheel.data|
    ensures ConnectAll(ConnectAll(s, Wanted(connected, nodes)), Wanted(connected, {peer})) ==
            ConnectAll(s, Wanted(connected, nodes + {peer}))
  {
    ConnectTwice(s, Wanted(connected, nodes), Wanted(connected, {peer}), Wanted(connected, nodes + {peer}));
  }

  lemma AnswersFresh(s: Server, connected: map<Id, NodeId>, nodes: set<NodeId>, peer: NodeId)
    requires s.wheel.write < |s.wheel.data| && FreshIds(s, connected) && peer !in nodes
    ensures forall id | id in connected && connected[id] == peer ::
              id !in ConnectAll(s, Wanted(connected, nodes)).ids
  {
  }

  /** The errors of a broadcast name exactly the connections `ids`. */
  ghost predicate BroadcastErrors(errors: seq<Error>, ids: set<Id>) {
    && FailedIds(Failure(BroadcastError(errors))) == ids
    && (errors == [] <==> ids == {})
  }

  lemma NoBroadcastErrors()
    ensures BroadcastErrors([], {})
  {
  }

  predicate WritesTo(s: Server, id: Id) {
    id in s.conns && s.conns[id].membersSent
  }

  lemma BroadcastWritten(s: Server, frame: Frame, fails: set<Id>, written: map<Id, Frame>, bad: set<Id>)
    requires forall id :: id in written <==> WritesTo(s, id) && id !in fails
    requires forall id :: id in bad <==> WritesTo(s, id) && id in fails
    requires forall id | id in written :: written[id] == frame
    ensures Broadcast(s, frame, fails).sent == written && Broadcast(s, frame, fails).errs == bad
  {
    assert written == map id | id in Ready(s) - fails :: frame;
  }

  lemma BroadcastOutcome(errors: seq<Error>, ids: set<Id>)
    requires BroadcastErrors(errors, ids)
    ensures FailedIds(if errors != [] then Failure(BroadcastError(errors)) else Success) == ids
    ensures errors == [] <==> ids == {}
  {
  }

  lemma BroadcastErrorsGrow(errors: seq<Error>, ids: set<Id>, e: Error)
    requires BroadcastErrors(errors, ids) && e.WriteError?
    ensures BroadcastErrors(errors + [e], ids + {e.id})
  {
    assert (errors + [e])[..|errors|] == errors;
    assert FlatIds(errors + [e]) == FlatIds(errors) + [e.id];
    assert forall id :: id in FailedIds(Failure(BroadcastError(errors))) <==> id in FlatIds(errors);
  }
}
