/** What every run of a cluster guarantees. */
module NetworkTheorems {
  import opened Base
  import opened Ids
  import opened ClusterState
  import opened Network
  import opened NetworkInvariant

  // ----- the order in which messages are handled

  ghost predicate GreetedAt(log: seq<Note>, e: End) {
    exists j :: 0 <= j < |log| && log[j].Handled? && log[j].at == e && log[j].frame.MembersFrame?
  }

  /** A connection has handled messages exactly if it has handled Members, which came first and
      came once. */
  ghost predicate GreetingsFirst(net: Net) {
    && (forall m, id | m in net.nodes ::
          net.nodes[m].Done(id) > 0 <==> GreetedAt(net.log, End(m, id)))
    && MembersFirst(net.log)
  }

  ghost predicate MembersFirst(log: seq<Note>) {
    forall k | 0 <= k < |log| && log[k].Handled? ::
      log[k].frame.MembersFrame? <==> !GreetedAt(log[..k], log[k].at)
  }

  lemma MembersFirstMore(log: seq<Note>, notes: seq<Note>)
    requires MembersFirst(log) && notes != [] && notes[0].Handled?
    requires forall i | 1 <= i < |notes| :: !notes[i].Handled?
    requires notes[0].frame.MembersFrame? <==> !GreetedAt(log, notes[0].at)
    ensures MembersFirst(log + notes)
  {
    var all := log + notes;
    forall k | 0 <= k < |all| && all[k].Handled?
      ensures all[k].frame.MembersFrame? <==> !GreetedAt(all[..k], all[k].at)
    {
      if k < |log| {
        assert all[..k] == log[..k] && all[k] == log[k];
      } else {
        assert all[k] == notes[k - |log|] && k == |log| && all[..k] == log;
      }
    }
  }

  lemma GreetedMore(log: seq<Note>, more: seq<Note>, e: End)
    ensures GreetedAt(log + more, e) <==> GreetedAt(log, e) || GreetedAt(more, e)
  {
    if GreetedAt(log, e) {
      var j :| 0 <= j < |log| && log[j].Handled? && log[j].at == e && log[j].frame.MembersFrame?;
      assert (log + more)[j] == log[j];
    }
    if GreetedAt(more, e) {
      var j :| 0 <= j < |more| && more[j].Handled? && more[j].at == e && more[j].frame.MembersFrame?;
      assert (log + more)[|log| + j] == more[j];
    }
  }

  /** Handling logs one handled frame, first, and notes of other kinds after it. */
  lemma NotesShape(m: NodeId, s: Server, id: Id, frame: Frame)
    ensures var notes := Notes(m, s, id, frame);
            && notes != [] && notes[0] == Handled(End(m, id), frame)
            && (forall i | 1 <= i < |notes| :: !notes[i].Handled?)
            && forall e :: GreetedAt(notes, e) <==> e == End(m, id) && frame.MembersFrame?
  {
    var notes := Notes(m, s, id, frame);
    if frame.MembersFrame? {
      assert GreetedAt(notes, End(m, id)) by {
        assert notes[0].Handled? && notes[0].at == End(m, id);
      }
    }
  }

  lemma GreetingsSame(net: Net, net': Net)
    requires GreetingsFirst(net) && net'.log == net.log && net'.nodes.Keys == net.nodes.Keys
    requires forall m, id | m in net.nodes :: net'.nodes[m].Done(id) == net.nodes[m].Done(id)
    ensures GreetingsFirst(net')
  {
  }

  lemma GreetingsHandled(net: Net, net': Net, m: NodeId, node': Node, notes: seq<Note>)
    requires Inv(net) && GreetingsFirst(net) && m in net.nodes && net.nodes[m].inbox != []
    requires var node := net.nodes[m];
             && notes == Notes(m, node.world.server, node.inboxId, node.inbox[0])
             && forall id :: node'.Done(id) > 0 <==> node.Done(id) > 0 || id == node.inboxId
    requires net'.nodes == net.nodes[m := node'] && net'.log == net.log + notes
    ensures GreetingsFirst(net')
  {
    hide Inv, Valid, LogFits, NoteFits, Notes, MembersFirst, GreetedAt;
    var node := net.nodes[m];
    var id, frame := node.inboxId, node.inbox[0];
    GreetingIsFirst(net, m);
    NotesShape(m, node.world.server, id, frame);
    forall n, i | n in net'.nodes
      ensures net'.nodes[n].Done(i) > 0 <==> GreetedAt(net'.log, End(n, i))
    {
      GreetedMore(net.log, notes, End(n, i));
    }
    MembersFirstMore(net.log, notes);
  }

  lemma GreetingIsFirst(net: Net, m: NodeId)
    requires Inv(net) && m in net.nodes && net.nodes[m].inbox != []
    ensures net.nodes[m].inbox[0].MembersFrame? <==> net.nodes[m].Done(net.nodes[m].inboxId) == 0
  {
    hide NodeFits, LinksFit, LogFits;
    InvFacts(net, m);
    InboxHead(net, m);
  }

  lemma HandledDone(node: Node, ev: Event)
    requires node.inbox != [] && Sound(node.world.server)
    ensures forall id :: HandledNode(node, ev).Done(id) > 0 <==> node.Done(id) > 0 || id == node.inboxId
  {
  }

  lemma ActionKeepsGreetings(net: Net, a: Action)
    requires Inv(net) && GreetingsFirst(net) && Enabled(net, a)
    ensures GreetingsFirst(Do(net, a))
  {
    hide Step, Apply, Inv, GreetingsFirst, Valid, Sound, Notes;
    match a {
      case Accepting(m, id, client, ok) =>
        InvFacts(net, m);
        GreetingsSame(net, DoAccept(net, m, id, client, ok));
      case Acting(m, ev) =>
        InvFacts(net, m);
        GreetingsSame(net, DoEvent(net, m, ev));
      case Reading(m, id, count) =>
        GreetingsSame(net, DoRead(net, m, id, count));
      case Handling(m, fails, connected) =>
        var node := net.nodes[m];
        InvFacts(net, m);
        var ev := HandlingEvent(node, fails, connected);
        HandledDone(node, ev);
        GreetingsHandled(net, DoHandle(net, m, fails, connected), m, HandledNode(node, ev),
                         Notes(m, node.world.server, node.inboxId, node.inbox[0]));
    }
  }

  lemma {:induction false} RunKeepsGreetings(net: Net, actions: seq<Action>)
    requires Inv(net) && GreetingsFirst(net) && IsNetRun(net, actions)
    ensures GreetingsFirst(NetRun(net, actions))
    decreases actions
  {
    if actions != [] {
      ActionKeeps(net, actions[0]);
      ActionKeepsGreetings(net, actions[0]);
      RunKeepsGreetings(Do(net, actions[0]), actions[1..]);
    }
  }

  /** A state that some run from a fresh cluster reaches. */
  ghost predicate Reachable(net: Net) {
    exists start, actions :: Initial(start) && IsNetRun(start, actions) && net == NetRun(start, actions)
  }

  lemma ReachableInv(net: Net)
    requires Reachable(net)
    ensures Inv(net) && GreetingsFirst(net)
  {
    var start, actions :| Initial(start) && IsNetRun(start, actions) && net == NetRun(start, actions);
    InitialInv(start);
    assert GreetingsFirst(start);
    RunKeeps(start, actions);
    RunKeepsGreetings(start, actions);
  }

  // ----- theorems

  /** In every run: the connection established with `n` leads to `n`, this node's Members have been
      sent on it, and `n`'s Members have been handled. */
  lemma EstablishedLeadsToPeer(net: Net, m: NodeId, n: NodeId)
    requires Reachable(net) && m in net.nodes && n in net.nodes[m].world.server.est
    ensures var id := net.nodes[m].world.server.est[n];
            && id in net.nodes[m].world.server.conns
            && End(m, id) in net.peer && net.peer[End(m, id)].node == n
            && Sent(net, End(m, id)) != []
            && GreetedAt(net.log, End(m, id))
  {
    ReachableInv(net);
    assert NodeFits(net, m);
  }

  /** In every run: an envelope that arrives from the network is at the node it is addressed to. */
  lemma EnvelopesArriveAtHome(net: Net, note: Note)
    requires Reachable(net) && note in net.log && note.Delivered?
    ensures note.envelope.to.node == note.node
  {
    ReachableInv(net);
    var i :| 0 <= i < |net.log| && net.log[i] == note;
    assert NoteFits(net, net.log[i]);
  }

  /** In every run: what one end of a connection has queued is nothing, or its Members once and
      first, and no end handles anything before the Members of the far end. */
  lemma HandshakeDiscipline(net: Net, m: NodeId, id: Id, k: nat)
    requires Reachable(net) && m in net.nodes
    ensures Disciplined(Sent(net, End(m, id)), m)
    ensures k < |net.log| && net.log[k].Handled? ==>
              && (net.log[k].frame.MembersFrame? <==> !GreetedAt(net.log[..k], net.log[k].at))
              && (net.log[k].frame.MembersFrame? ==>
                    net.log[k].at in net.peer && net.log[k].frame.from == net.peer[net.log[k].at].node)
  {
    hide Reachable, Inv, NodeFits, LogFits, LinksFit, NoteFits, Disciplined;
    ReachableInv(net);
    InvFacts(net, m);
    SentIsDisciplined(net, m, id);
    if k < |net.log| && net.log[k].Handled? {
      LoggedFits(net, net.log[k]);
      HandledFits(net, net.log[k]);
    }
  }

  lemma SentIsDisciplined(net: Net, m: NodeId, id: Id)
    requires m in net.nodes && NodeFits(net, m)
    ensures Disciplined(Sent(net, End(m, id)), m)
  {
  }

  lemma HandledFits(net: Net, note: Note)
    requires note.Handled? && NoteFits(net, note)
    ensures note.frame.MembersFrame? ==> note.at in net.peer && note.frame.from == net.peer[note.at].node
  {
  }

  /** In every run: when two connections between the same nodes were opened from different sides, the
      two sides never each close a different one; neither closes the one that the node that sorts
      higher opened. */
  lemma DuplicatesResolvedAlike(net: Net, one: Note, two: Note)
    requires Reachable(net) && one in net.log && two in net.log
    requires one.DuplicateClosed? && two.DuplicateClosed?
    ensures one.closed in net.peer && one.kept in net.peer
    ensures Opener(net, one.closed) != Opener(net, one.kept) ==>
              && Less(Opener(net, one.closed), Opener(net, one.kept))
              && !(two.closed == net.peer[one.kept] && two.kept == net.peer[one.closed])
  {
    ReachableInv(net);
    LoggedFits(net, one);
    LoggedFits(net, two);
    NodeOrderTotal(Opener(net, one.closed), Opener(net, one.kept));
    assert LinksFit(net);
    hide Less, Inv, Reachable, LinksFit;
    if two.closed == net.peer[one.kept] && two.kept == net.peer[one.closed] {
      SameOpener(net, one.kept);
      SameOpener(net, one.closed);
    }
  }

  lemma LoggedFits(net: Net, note: Note)
    requires Inv(net) && note in net.log
    ensures NoteFits(net, note)
  {
    var i :| 0 <= i < |net.log| && net.log[i] == note;
    assert NoteFits(net, net.log[i]);
  }

  lemma SameOpener(net: Net, e: End)
    requires LinksFit(net) && e in net.peer
    ensures net.peer[e] in net.peer && Opener(net, net.peer[e]) == Opener(net, e)
  {
  }

  /** The live end `e` has finished its side of the handshake. */
  ghost predicate Settled(net: Net, e: End) {
    && e.node in net.nodes
    && e.id in net.nodes[e.node].world.server.conns
    && GreetedAt(net.log, e)
  }

  lemma SettledIsEstablished(net: Net, e: End)
    requires Inv(net) && GreetingsFirst(net) && Settled(net, e)
    ensures e in net.peer && net.peer[e] in net.peer && net.peer[net.peer[e]] == e && e.node in net.nodes
    ensures var est := net.nodes[e.node].world.server.est;
            net.peer[e].node in est && est[net.peer[e].node] == e.id
  {
    hide Valid, ConnsFit, SentFitsAll, InboxFits, LogFits;
    assert NodeFits(net, e.node);
    assert net.nodes[e.node].Done(e.id) > 0;
  }

  /** In every run: a connection that both ends have settled on is the one that each of the two nodes
      has established for the other, and there is no second one. */
  lemma NodesAgreeOnConnection(net: Net, e: End, other: End)
    requires Reachable(net) && Settled(net, e)
    ensures e in net.peer
    ensures net.nodes[e.node].world.server.est.Keys >= {net.peer[e].node}
    ensures net.nodes[e.node].world.server.est[net.peer[e].node] == e.id
    ensures Settled(net, net.peer[e]) ==>
              && e.node in net.nodes[net.peer[e].node].world.server.est
              && net.nodes[net.peer[e].node].world.server.est[e.node] == net.peer[e].id
    ensures Settled(net, other) && other.node == e.node ==>
              other in net.peer && (net.peer[other].node == net.peer[e].node ==> other == e)
  {
    hide Inv, GreetingsFirst, Reachable, Settled;
    ReachableInv(net);
    SettledIsEstablished(net, e);
    if Settled(net, net.peer[e]) {
      SettledIsEstablished(net, net.peer[e]);
    }
    if Settled(net, other) {
      SettledIsEstablished(net, other);
    }
  }

  // ----- which connection to close, at both ends

  /** Servers `a` and `b` have two connections between them; each has established one and is greeted on the
      other. They choose the same connection to close exactly when the two were opened from different sides, or
      both servers established the same one first. */
  lemma SidesAgreeExactly(a: Server, b: Server, firstA: Id, secondA: Id, firstB: Id, secondB: Id, sameOrder: bool)
    requires Valid(a) && Valid(b) && a.node != b.node && firstA != secondA && firstB != secondB
    requires secondA in a.conns && b.node in a.est && a.est[b.node] == firstA
    requires secondB in b.conns && a.node in b.est && b.est[a.node] == firstB
    requires var farFirst := if sameOrder then firstB else secondB;
             var farSecond := if sameOrder then secondB else firstB;
             && a.conns[firstA].isClient != b.conns[farFirst].isClient
             && a.conns[secondA].isClient != b.conns[farSecond].isClient
    ensures var closeA := ChooseConnectionToClose(a, secondA, b.node);
            var closeB := ChooseConnectionToClose(b, secondB, a.node);
            && closeA in {Some(firstA), Some(secondA)} && closeB in {Some(firstB), Some(secondB)}
            && ((closeA == Some(firstA) <==> closeB == Some(if sameOrder then firstB else secondB)) <==>
                  a.conns[firstA].isClient != a.conns[secondA].isClient || sameOrder)
  {
    NodeOrderTotal(a.node, b.node);
    hide Less;
  }
}
