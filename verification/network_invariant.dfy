/** What holds in every reachable state of a cluster. */
module NetworkInvariant {
  import opened Ids
  import opened ClusterState
  import opened ClusterSteps
  import opened Network

  // ----- one node

  /** A connection knows from which side it was opened, and its first frame is Members. */
  ghost predicate ConnsFit(net: Net, m: NodeId)
    requires m in net.nodes
  {
    var w := net.nodes[m].world;
    && (forall id | id in w.server.conns ::
          && (w.server.conns[id].isClient <==> End(m, id) in net.clients)
          && (!w.server.conns[id].isClient ==> End(m, id) in net.peer)
          && (w.server.conns[id].membersSent <==> w.Sent(id) != []))
  }

  /** Nothing, or one Members frame of this node and then only other frames. */
  ghost predicate Disciplined(sent: seq<Frame>, m: NodeId) {
    && (sent != [] ==> sent[0].MembersFrame? && sent[0].from == m)
    && (forall i | 1 <= i < |sent| :: !sent[i].MembersFrame?)
  }

  ghost predicate SentFitsAll(net: Net, m: NodeId)
    requires m in net.nodes
  {
    var w := net.nodes[m].world;
    && w.sent.Keys <= w.server.ids
    && (forall id | id in w.sent :: Disciplined(w.sent[id], m))
    && (forall id, i | id in w.sent && 0 <= i < |w.sent[id]| && w.sent[id][i].EnvelopeFrame? ::
          End(m, id) in net.peer && net.peer[End(m, id)].node == w.sent[id][i].envelope.to.node)
  }

  /** The established connection of `n` leads to `n`, and its Members frame has been handled; every
      live connection whose Members frame has been handled is established. */
  ghost predicate EstFits(net: Net, m: NodeId)
    requires m in net.nodes
  {
    var node := net.nodes[m];
    var s := node.world.server;
    && (forall n | n in s.est ::
          && End(m, s.est[n]) in net.peer && net.peer[End(m, s.est[n])].node == n
          && node.Done(s.est[n]) > 0)
    && (forall id | id in s.conns && node.Done(id) > 0 ::
          && End(m, id) in net.peer
          && net.peer[End(m, id)].node in s.est
          && s.est[net.peer[End(m, id)].node] == id)
  }

  /** The inbox holds the frames that follow those already done. */
  ghost predicate InboxFits(net: Net, m: NodeId)
    requires m in net.nodes
  {
    var node := net.nodes[m];
    var s := node.world.server;
    && node.done.Keys <= s.ids
    && (node.inbox != [] ==>
          var e := End(m, node.inboxId);
          && e in net.peer
          && e.id in s.ids
          && node.Done(e.id) + |node.inbox| <= |Sent(net, net.peer[e])|
          && node.inbox == Sent(net, net.peer[e])[node.Done(e.id)..node.Done(e.id) + |node.inbox|]
          && (e.id in s.conns ==> s.conns[e.id].membersSent)
          && (node.Done(e.id) == 0 ==> e.id in s.conns))
  }

  ghost predicate NodeFits(net: Net, m: NodeId)
    requires m in net.nodes
  {
    && net.nodes[m].world.server.node == m
    && Valid(net.nodes[m].world.server)
    && ConnsFit(net, m)
    && SentFitsAll(net, m)
    && EstFits(net, m)
    && InboxFits(net, m)
  }

  // ----- connections between nodes

  ghost predicate KnownEnd(net: Net, e: End) {
    e.node in net.nodes && e.id in net.nodes[e.node].world.server.ids
  }

  /** Connections join two ends at different nodes, exactly one of which opened it. */
  ghost predicate LinksFit(net: Net) {
    && (forall e | e in net.clients :: KnownEnd(net, e))
    && (forall e | e in net.peer ::
          && KnownEnd(net, e)
          && net.peer[e] in net.peer
          && net.peer[net.peer[e]] == e
          && net.peer[e].node != e.node
          && (e in net.clients <==> net.peer[e] !in net.clients))
  }

  // ----- the past

  /** What may be in the log: envelopes delivered at their own node, and of two connections opened
      from different sides, only the one opened by the lower node closed as a duplicate. */
  ghost predicate NoteFits(net: Net, note: Note) {
    match note
    case Handled(at, frame) =>
      at in net.peer && (frame.MembersFrame? ==> frame.from == net.peer[at].node)
    case Delivered(at, e) => e.to.node == at
    case DuplicateClosed(closed, kept) =>
      && closed in net.peer && kept in net.peer && closed != kept
      && closed.node == kept.node && net.peer[closed].node == net.peer[kept].node
      && (Opener(net, closed) != Opener(net, kept) ==> Less(Opener(net, closed), Opener(net, kept)))
  }

  ghost predicate LogFits(net: Net) {
    forall i {:trigger net.log[i]} | 0 <= i < |net.log| :: NoteFits(net, net.log[i])
  }

  ghost predicate Inv(net: Net) {
    && (forall m {:trigger NodeFits(net, m)} | m in net.nodes :: NodeFits(net, m))
    && LinksFit(net)
    && LogFits(net)
  }

  lemma InitialInv(net: Net)
    requires Initial(net)
    ensures Inv(net)
  {
  }

  // ----- what an action leaves alone

  /** From `net` to `net'` only node `m` changes, frames are only added to its connections, and
      connections are only added. */
  ghost predicate Extends(net: Net, net': Net, m: NodeId) {
    && m in net.nodes
    && net'.nodes.Keys == net.nodes.Keys
    && (forall n | n in net.nodes && n != m :: net'.nodes[n] == net.nodes[n])
    && net.nodes[m].world.server.ids <= net'.nodes[m].world.server.ids
    && (forall e | e in net.peer :: e in net'.peer && net'.peer[e] == net.peer[e])
    && net.clients <= net'.clients
    && (forall e | e in net'.clients && e !in net.clients :: e.node == m && e.id !in net.nodes[m].world.server.ids)
    && (forall id :: net.nodes[m].world.Sent(id) <= net'.nodes[m].world.Sent(id))
  }

  lemma OthersKept(net: Net, net': Net, m: NodeId, n: NodeId)
    requires Extends(net, net', m) && LinksFit(net)
    requires n in net.nodes && n != m && NodeFits(net, n)
    ensures NodeFits(net', n)
  {
    hide Valid, ConnsFit, SentFitsAll, EstFits, InboxFits, Extends, LinksFit;
    ExtendsFacts(net, net', m);
    OthersConnsKept(net, net', m, n);
    OthersInboxKept(net, net', m, n);
  }

  lemma ExtendsFacts(net: Net, net': Net, m: NodeId)
    requires Extends(net, net', m)
    ensures m in net.nodes && net'.nodes.Keys == net.nodes.Keys
    ensures forall n | n in net.nodes && n != m :: net'.nodes[n] == net.nodes[n]
  {
  }

  lemma OthersConnsKept(net: Net, net': Net, m: NodeId, n: NodeId)
    requires Extends(net, net', m) && n in net.nodes && n != m
    requires ConnsFit(net, n) && SentFitsAll(net, n) && EstFits(net, n)
    ensures ConnsFit(net', n) && SentFitsAll(net', n) && EstFits(net', n)
  {
    hide Disciplined;
  }

  lemma OthersInboxKept(net: Net, net': Net, m: NodeId, n: NodeId)
    requires Extends(net, net', m) && LinksFit(net) && n in net.nodes && n != m && InboxFits(net, n)
    ensures InboxFits(net', n)
  {
    var node := net.nodes[n];
    if node.inbox != [] {
      var e := End(n, node.inboxId);
      assert Sent(net, net.peer[e]) <= Sent(net', net'.peer[e]);
    }
  }

  lemma NotesKept(net: Net, net': Net, m: NodeId, note: Note)
    requires Extends(net, net', m) && LinksFit(net) && NoteFits(net, note)
    ensures NoteFits(net', note)
  {
    if note.DuplicateClosed? {
      assert KnownEnd(net, note.closed) && KnownEnd(net, note.kept);
    }
  }

  // ----- the node that acts

  /** What one event does to what connection `id` has sent: nothing, or one more frame, which is
      this node's Members exactly when it is the first. */
  ghost predicate SentStep(w: World, w': World, ev: Event, id: Id) {
    var sent, sent' := w.Sent(id), w'.Sent(id);
    var before := id in w.server.conns && w.server.conns[id].membersSent;
    if sent' == sent then id in w'.server.conns ==> (w'.server.conns[id].membersSent <==> before)
    else
      && sent < sent' && |sent'| == |sent| + 1
      && (id in w.server.conns || (ev.Accept? && ev.id == id && id !in w.server.ids))
      && (id in w'.server.conns ==> w'.server.conns[id].membersSent)
      && var frame := sent'[|sent|];
         && (frame.MembersFrame? <==> !before)
         && (frame.MembersFrame? ==> frame.from == w.server.node)
         && (frame.EnvelopeFrame? ==>
               frame.envelope.to.node in w.server.est && w.server.est[frame.envelope.to.node] == id)
  }

  ghost predicate Stepped(w: World, w': World, ev: Event) {
    && Valid(w.server) && Valid(w'.server)
    && Evolved(w.server, w'.server, ev)
    && (w.sent.Keys <= w.server.ids ==> w'.sent.Keys <= w'.server.ids)
    && forall id :: SentStep(w, w', ev, id)
  }

  lemma AppendsOne(w: World, ev: Event, id: Id)
    requires Sound(w.server)
    ensures Apply(w, ev).Sent(id) ==
              w.Sent(id) + if !ev.Cleanup? && id in Step(w.server, ev).sent then [Step(w.server, ev).sent[id]] else []
  {
  }

  lemma ApplySteps(w: World, ev: Event)
    requires Valid(w.server) && Allowed(w.server, ev)
    ensures Stepped(w, Apply(w, ev), ev)
  {
    ApplyKeeps(w, ev);
    ApplyEvolves(w, ev);
    StepEvolves(w.server, ev);
    var w' := Apply(w, ev);
    forall id ensures SentStep(w, w', ev, id) {
      AppendsOne(w, ev, id);
    }
    if w.sent.Keys <= w.server.ids && !ev.Cleanup? {
      forall id | id in w'.sent ensures id in w'.server.ids {
        assert id in w.sent || id in Step(w.server, ev).sent;
        assert ev.Accept? ==> ev.id in w'.server.ids;
      }
    }
  }

  /** `net'` is `net` after `ev` at node `m`; ends that appear are clients unless accepted. */
  ghost predicate Acts(net: Net, net': Net, m: NodeId, ev: Event) {
    && Extends(net, net', m)
    && NodeFits(net, m)
    && LinksFit(net)
    && Stepped(net.nodes[m].world, net'.nodes[m].world, ev)
    && (forall id | id in net'.nodes[m].world.server.ids && id !in net.nodes[m].world.server.ids ::
          End(m, id) in net'.clients <==> !ev.Accept?)
    && (ev.Accept? ==> End(m, ev.id) in net'.peer)
  }

  lemma ConnsKept(net: Net, net': Net, m: NodeId, ev: Event)
    requires Acts(net, net', m, ev)
    ensures ConnsFit(net', m)
  {
    var w, w' := net.nodes[m].world, net'.nodes[m].world;
    forall id | id in w'.server.conns
      ensures w'.server.conns[id].isClient <==> End(m, id) in net'.clients
      ensures !w'.server.conns[id].isClient ==> End(m, id) in net'.peer
      ensures w'.server.conns[id].membersSent <==> w'.Sent(id) != []
    {
      assert SentStep(w, w', ev, id);
      assert id in w'.server.ids;
      assert id in w.server.conns ==> id in w.server.ids;
    }
  }

  lemma SentKept(net: Net, net': Net, m: NodeId, ev: Event)
    requires Acts(net, net', m, ev)
    ensures SentFitsAll(net', m)
  {
    hide LinksFit, ConnsFit, InboxFits, Disciplined, SentStep, Evolved, EstFits;
    var w, w' := net.nodes[m].world, net'.nodes[m].world;
    forall id | id in w'.sent
      ensures Disciplined(w'.sent[id], m)
      ensures forall i | 0 <= i < |w'.sent[id]| && w'.sent[id][i].EnvelopeFrame? ::
                End(m, id) in net'.peer && net'.peer[End(m, id)].node == w'.sent[id][i].envelope.to.node
    {
      assert w'.Sent(id) == w'.sent[id];
      assert id in w.sent ==> w.Sent(id) == w.sent[id];
      SentKeptOn(net, net', m, ev, id);
    }
  }

  lemma SentKeptOn(net: Net, net': Net, m: NodeId, ev: Event, id: Id)
    requires m in net.nodes && m in net'.nodes && SentFitsAll(net, m) && ConnsFit(net, m) && EstFits(net, m)
    requires SentStep(net.nodes[m].world, net'.nodes[m].world, ev, id) && net.nodes[m].world.server.node == m
    requires forall e | e in net.peer :: e in net'.peer && net'.peer[e] == net.peer[e]
    requires id in net.nodes[m].world.server.conns ==> id in net.nodes[m].world.server.ids
    requires net.nodes[m].world.sent.Keys <= net.nodes[m].world.server.ids
    ensures var sent := net'.nodes[m].world.Sent(id);
            && Disciplined(sent, m)
            && forall i | 0 <= i < |sent| && sent[i].EnvelopeFrame? ::
                 End(m, id) in net'.peer && net'.peer[End(m, id)].node == sent[i].envelope.to.node
  {
    var sent := net.nodes[m].world.Sent(id);
    assert Disciplined(sent, m);
  }

  /** Established entries stay right when connections are greeted, here with the frames handled so
      far in `done` and `done'`: greeting a connection marks it as done. */
  lemma EstKept(net: Net, net': Net, m: NodeId, ev: Event)
    requires m in net.nodes && m in net'.nodes && EstFits(net, m)
    requires forall e | e in net.peer :: e in net'.peer && net'.peer[e] == net.peer[e]
    requires var s, s' := net.nodes[m].world.server, net'.nodes[m].world.server;
             && Sound(s) && Sound(s') && Evolved(s, s', ev)
             && net.nodes[m].done.Keys <= s.ids
    requires forall id :: net'.nodes[m].Done(id) > 0 <==> net.nodes[m].Done(id) > 0 || (ev.Got? && id == ev.id)
    requires ev.Got? ==>
               && End(m, ev.id) in net.peer
               && (ev.frame.MembersFrame? ==> ev.frame.from == net.peer[End(m, ev.id)].node)
               && (!ev.frame.MembersFrame? ==> net.nodes[m].Done(ev.id) > 0)
               && ev.id in net.nodes[m].world.server.ids
    ensures EstFits(net', m)
  {
    var s, s' := net.nodes[m].world.server, net'.nodes[m].world.server;
    forall n | n in s'.est
      ensures End(m, s'.est[n]) in net'.peer && net'.peer[End(m, s'.est[n])].node == n
      ensures net'.nodes[m].Done(s'.est[n]) > 0
    {
    }
    forall id | id in s'.conns && net'.nodes[m].Done(id) > 0
      ensures End(m, id) in net'.peer && net'.peer[End(m, id)].node in s'.est
      ensures s'.est[net'.peer[End(m, id)].node] == id
    {
      assert id in s.conns;
    }
  }

  /** The first message of an inbox: Members comes first and nothing else does, and it names the
      node at the far end. */
  lemma InboxHead(net: Net, m: NodeId)
    requires m in net.nodes && NodeFits(net, m) && LinksFit(net)
    requires forall n {:trigger NodeFits(net, n)} | n in net.nodes :: NodeFits(net, n)
    requires net.nodes[m].inbox != []
    ensures var node := net.nodes[m];
            var far := net.peer[End(m, node.inboxId)];
            && (node.inbox[0].MembersFrame? <==> node.Done(node.inboxId) == 0)
            && (node.inbox[0].MembersFrame? ==> node.inbox[0].from == far.node)
            && (node.inbox[0].EnvelopeFrame? ==> node.inbox[0].envelope.to.node == m)
  {
    var node := net.nodes[m];
    var far := net.peer[End(m, node.inboxId)];
    assert KnownEnd(net, far) && NodeFits(net, far.node);
    var sent := Sent(net, far);
    assert node.inbox[0] == sent[node.Done(node.inboxId)];
    assert far.id in net.nodes[far.node].world.sent;
  }

  lemma HandlingAllowed(net: Net, m: NodeId, fails: set<Id>, connected: map<Id, NodeId>)
    requires Inv(net) && Enabled(net, Handling(m, fails, connected))
    ensures m in net.nodes && net.nodes[m].inbox != []
    ensures Valid(net.nodes[m].world.server) && Sound(net.nodes[m].world.server)
    ensures Allowed(net.nodes[m].world.server, HandlingEvent(net.nodes[m], fails, connected))
  {
    InboxHead(net, m);
  }

  lemma InboxKept(net: Net, net': Net, m: NodeId, ev: Event)
    requires Acts(net, net', m, ev) && ev.Got? && net.nodes[m].inbox != []
    requires ev.id == net.nodes[m].inboxId && ev.frame == net.nodes[m].inbox[0]
    requires var node, node' := net.nodes[m], net'.nodes[m];
             && node'.done.Keys == node.done.Keys + {ev.id}
             && (node'.inbox != [] ==>
                   && node'.inbox == node.inbox[1..] && node'.inboxId == ev.id
                   && node'.Done(ev.id) == node.Done(ev.id) + 1)
    ensures InboxFits(net', m)
  {
    hide Valid, Sound, EstFits, ConnsFit, LogFits;
    var node, node' := net.nodes[m], net'.nodes[m];
    var far := net.peer[End(m, ev.id)];
    assert far.node != m;
    assert Sent(net', far) == Sent(net, far);
    var d, k := node.Done(ev.id), |node.inbox|;
    assert Sent(net, far)[d..d + k][1..] == Sent(net, far)[d + 1..d + k];
  }

  // ----- actions

  lemma ExtendsInv(net: Net, net': Net, m: NodeId, notes: seq<Note>)
    requires Inv(net) && Extends(net, net', m)
    requires NodeFits(net', m) && LinksFit(net')
    requires net'.log == net.log + notes
    requires forall note | note in notes :: NoteFits(net', note)
    ensures Inv(net')
  {
    forall n | n in net'.nodes ensures NodeFits(net', n) {
      if n != m {
        OthersKept(net, net', m, n);
      }
    }
    forall i | 0 <= i < |net'.log| ensures NoteFits(net', net'.log[i]) {
      if i < |net.log| {
        NotesKept(net, net', m, net.log[i]);
      } else {
        assert net'.log[i] in notes;
      }
    }
  }

  lemma SentOnlyGrows(w: World, w': World, ev: Event)
    requires Stepped(w, w', ev)
    ensures forall id :: w.Sent(id) <= w'.Sent(id)
  {
    forall id ensures w.Sent(id) <= w'.Sent(id) {
      assert SentStep(w, w', ev, id);
    }
  }

  /** An event at `m` keeps the invariant when the inbox and the connections still fit. */
  lemma ActsKeeps(net: Net, net': Net, m: NodeId, ev: Event, notes: seq<Note>)
    requires Inv(net) && Acts(net, net', m, ev) && LinksFit(net')
    requires InboxFits(net', m)
    requires forall id :: net'.nodes[m].Done(id) > 0 <==> net.nodes[m].Done(id) > 0 || (ev.Got? && id == ev.id)
    requires ev.Got? ==>
               && net.nodes[m].inbox != []
               && ev.id == net.nodes[m].inboxId && ev.frame == net.nodes[m].inbox[0]
    requires net'.log == net.log + notes
    requires forall note | note in notes :: NoteFits(net, note)
    ensures Inv(net')
  {
    ConnsKept(net, net', m, ev);
    SentKept(net, net', m, ev);
    if ev.Got? {
      InboxHead(net, m);
    }
    EstKept(net, net', m, ev);
    forall note | note in notes ensures NoteFits(net', note) {
      NotesKept(net, net', m, note);
    }
    ExtendsInv(net, net', m, notes);
  }

  /** An accepted connection: `world` is the world of `m` after accepting `client` under `id`. */
  lemma AcceptedLink(net: Net, net': Net, m: NodeId, world: World, id: Id, client: End, ok: bool)
    requires Inv(net) && m in net.nodes && Stepped(net.nodes[m].world, world, Accept(id, ok))
    requires id !in net.nodes[m].world.server.ids && world.server.ids == net.nodes[m].world.server.ids + {id}
    requires client in net.clients && client !in net.peer && client.node != m
    requires net' == WithNode(net, m, net.nodes[m].(world := world))
                       .(peer := net.peer[End(m, id) := client][client := End(m, id)])
    ensures Acts(net, net', m, Accept(id, ok)) && LinksFit(net')
  {
    hide Inv, NodeFits, Stepped, LinksFit, Extends;
    InvFacts(net, m);
    AcceptedExtends(net, net', m, world, id, client, ok);
    AcceptedKnown(net, net', m, world, id, client);
    AcceptedFits(net, net', End(m, id), client);
  }

  lemma InvFacts(net: Net, m: NodeId)
    requires Inv(net) && m in net.nodes
    ensures NodeFits(net, m) && LinksFit(net) && LogFits(net)
    ensures Valid(net.nodes[m].world.server) && Sound(net.nodes[m].world.server) && net.nodes[m].world.server.node == m
  {
  }

  lemma AcceptedExtends(net: Net, net': Net, m: NodeId, world: World, id: Id, client: End, ok: bool)
    requires m in net.nodes && LinksFit(net) && Stepped(net.nodes[m].world, world, Accept(id, ok))
    requires id !in net.nodes[m].world.server.ids && world.server.ids == net.nodes[m].world.server.ids + {id}
    requires client in net.clients && client !in net.peer && client.node != m
    requires net' == WithNode(net, m, net.nodes[m].(world := world))
                       .(peer := net.peer[End(m, id) := client][client := End(m, id)])
    ensures Extends(net, net', m) && End(m, id) !in net'.clients
  {
    SentOnlyGrows(net.nodes[m].world, world, Accept(id, ok));
    assert KnownEnd(net, client) && !KnownEnd(net, End(m, id));
    hide Stepped;
  }

  lemma AcceptedKnown(net: Net, net': Net, m: NodeId, world: World, id: Id, client: End)
    requires m in net.nodes && id !in net.nodes[m].world.server.ids
    requires world.server.ids == net.nodes[m].world.server.ids + {id}
    requires net'.nodes == net.nodes[m := net.nodes[m].(world := world)]
    ensures !KnownEnd(net, End(m, id)) && KnownEnd(net', End(m, id))
    ensures forall f :: KnownEnd(net, f) ==> KnownEnd(net', f)
  {
  }

  lemma AcceptedFits(net: Net, net': Net, e: End, client: End)
    requires LinksFit(net) && e != client && e.node != client.node
    requires client in net.clients && client !in net.peer && !KnownEnd(net, e)
    requires net'.peer == net.peer[e := client][client := e] && net'.clients == net.clients
    requires KnownEnd(net', e) && forall f :: KnownEnd(net, f) ==> KnownEnd(net', f)
    ensures LinksFit(net')
  {
    assert e !in net.peer && e !in net.clients;
    assert forall f | f in net.peer :: f != e && f != client && net.peer[f] != e && net.peer[f] != client;
    forall f | f in net'.peer
      ensures KnownEnd(net', f)
      ensures net'.peer[f] in net'.peer && net'.peer[net'.peer[f]] == f
      ensures net'.peer[f].node != f.node
      ensures f in net'.clients <==> net'.peer[f] !in net'.clients
    {
    }
  }

  lemma AcceptIds(w: World, id: Id, ok: bool)
    requires Sound(w.server)
    ensures Apply(w, Accept(id, ok)).server.ids == w.server.ids + {id}
  {
  }

  lemma AcceptingKeeps(net: Net, m: NodeId, id: Id, client: End, ok: bool)
    requires Inv(net) && Enabled(net, Accepting(m, id, client, ok))
    ensures Inv(DoAccept(net, m, id, client, ok))
  {
    hide Step, Apply, Inv, Valid, Sound, Stepped, Acts, InboxFits;
    InvFacts(net, m);
    var w, net' := net.nodes[m].world, DoAccept(net, m, id, client, ok);
    AcceptedInbox(net, m, id, client, ok);
    ApplySteps(w, Accept(id, ok));
    AcceptIds(w, id, ok);
    AcceptedLink(net, net', m, Apply(w, Accept(id, ok)), id, client, ok);
    ActsKeeps(net, net', m, Accept(id, ok), []);
  }

  lemma AcceptedInbox(net: Net, m: NodeId, id: Id, client: End, ok: bool)
    requires Inv(net) && Enabled(net, Accepting(m, id, client, ok))
    requires Sound(net.nodes[m].world.server)
    ensures InboxFits(DoAccept(net, m, id, client, ok), m)
  {
    hide Valid, Step;
    assert NodeFits(net, m);
    AcceptIds(net.nodes[m].world, id, ok);
  }

  lemma FreshEndsUnknown(net: Net, m: NodeId, ids: set<Id>)
    requires LinksFit(net) && m in net.nodes
    ensures forall e | e in FreshEnds(m, net.nodes[m].world.server.ids, ids) ::
              e !in net.peer && e !in net.clients && e.node == m && e.id !in net.nodes[m].world.server.ids
  {
  }

  /** New client ends leave the existing connections as they are. */
  lemma FreshEndsLink(net: Net, net': Net, m: NodeId, node: Node, log: seq<Note>, ev: Event)
    requires Inv(net) && m in net.nodes && Stepped(net.nodes[m].world, node.world, ev) && !ev.Accept?
    requires net' == WithNode(net, m, node).(
               clients := net.clients + FreshEnds(m, net.nodes[m].world.server.ids, node.world.server.ids),
               log := log)
    ensures Acts(net, net', m, ev) && LinksFit(net')
  {
    SentOnlyGrows(net.nodes[m].world, node.world, ev);
    FreshEndsUnknown(net, m, node.world.server.ids);
    forall f | KnownEnd(net, f) ensures KnownEnd(net', f) {
    }
    forall e | e in net'.peer ensures e in net'.clients <==> net'.peer[e] !in net'.clients {
      assert KnownEnd(net, e) && KnownEnd(net, net.peer[e]);
    }
  }

  lemma ActingKeeps(net: Net, m: NodeId, ev: Event)
    requires Inv(net) && Enabled(net, Acting(m, ev))
    ensures Inv(DoEvent(net, m, ev))
  {
    hide Step;
    var w, net' := net.nodes[m].world, DoEvent(net, m, ev);
    ApplySteps(w, ev);
    FreshEndsLink(net, net', m, net.nodes[m].(world := Apply(w, ev)), net.log, ev);
    ActsKeeps(net, net', m, ev, []);
  }

  /** Reading fills the inbox and changes nothing else. */
  lemma SameWorldFits(net: Net, net': Net, m: NodeId)
    requires m in net.nodes && m in net'.nodes && NodeFits(net, m)
    requires net'.nodes[m].world == net.nodes[m].world && net'.nodes[m].done == net.nodes[m].done
    requires net'.peer == net.peer && net'.clients == net.clients
    ensures ConnsFit(net', m) && SentFitsAll(net', m) && EstFits(net', m)
  {
    hide Valid, Disciplined;
    assert forall i :: net'.nodes[m].Done(i) == net.nodes[m].Done(i);
  }

  lemma ReadingFits(net: Net, net': Net, m: NodeId, inbox: seq<Frame>, id: Id)
    requires Inv(net) && m in net.nodes
    requires net' == WithNode(net, m, net.nodes[m].(inbox := inbox, inboxId := id))
    requires InboxFits(net', m)
    ensures Inv(net')
  {
    hide Inv, Valid, ConnsFit, SentFitsAll, EstFits, InboxFits, LinksFit, LogFits;
    InvFacts(net, m);
    SameWorldFits(net, net', m);
    SameLinksFit(net, net', m);
    ExtendsInv(net, net', m, []);
  }

  lemma SameLinksFit(net: Net, net': Net, m: NodeId)
    requires LinksFit(net) && m in net.nodes && net'.nodes.Keys == net.nodes.Keys
    requires forall n | n in net.nodes :: net'.nodes[n].world == net.nodes[n].world
    requires net'.peer == net.peer && net'.clients == net.clients
    ensures LinksFit(net')
  {
    forall f | KnownEnd(net, f) ensures KnownEnd(net', f) {
    }
  }

  lemma ReadInboxFits(net: Net, m: NodeId, id: Id, count: nat)
    requires Inv(net) && Enabled(net, Reading(m, id, count))
    ensures InboxFits(DoRead(net, m, id, count), m)
  {
    hide Valid, Allowed, SentFitsAll, EstFits, LogFits;
    var node := net.nodes[m];
    var far := net.peer[End(m, id)];
    assert KnownEnd(net, End(m, id)) && far.node != m;
    assert Sent(DoRead(net, m, id, count), far) == Sent(net, far);
    assert NodeFits(net, m);
    assert node.Done(id) == 0 ==> id in node.world.server.conns;
  }

  lemma ReadingKeeps(net: Net, m: NodeId, id: Id, count: nat)
    requires Inv(net) && Enabled(net, Reading(m, id, count))
    ensures Inv(DoRead(net, m, id, count))
  {
    ReadInboxFits(net, m, id, count);
    hide Valid, Allowed, Inv, InboxFits;
    var node := net.nodes[m];
    var sent := Sent(net, net.peer[End(m, id)]);
    ReadingFits(net, DoRead(net, m, id, count), m, sent[node.Done(id)..node.Done(id) + count], id);
  }

  /** Between two connections of one pair of nodes opened from different sides, the one chosen to
      close was opened by the node that sorts lower. */
  lemma ChoiceFits(net: Net, m: NodeId, id: Id, from: NodeId)
    requires m in net.nodes && NodeFits(net, m) && LinksFit(net)
    requires End(m, id) in net.peer && net.peer[End(m, id)].node == from
    requires id in net.nodes[m].world.server.conns && net.nodes[m].Done(id) == 0
    ensures var s := net.nodes[m].world.server;
            match ChooseConnectionToClose(s, id, from)
            case None => true
            case Some(close) =>
              && from in s.est
              && NoteFits(net, DuplicateClosed(End(m, close), End(m, if close == id then s.est[from] else id)))
  {
    NodeOrderTotal(m, from);
    var s := net.nodes[m].world.server;
    if from in s.est {
      assert s.est[from] != id;
      assert s.conns[s.est[from]].isClient <==> End(m, s.est[from]) in net.clients;
    }
  }

  lemma HandlingNotes(net: Net, m: NodeId)
    requires Inv(net) && m in net.nodes && net.nodes[m].inbox != []
    ensures var node := net.nodes[m];
            forall note | note in Notes(m, node.world.server, node.inboxId, node.inbox[0]) :: NoteFits(net, note)
  {
    InboxHead(net, m);
    assert NodeFits(net, m);
    var node := net.nodes[m];
    var s, id, frame := node.world.server, node.inboxId, node.inbox[0];
    var first := Handled(End(m, id), frame);
    assert NoteFits(net, first);
    match frame {
      case MembersFrame(from, _) =>
        ChoiceFits(net, m, id, from);
      case EnvelopeFrame(e) =>
        assert NoteFits(net, Delivered(m, e));
      case _ =>
    }
  }

  /** The inbox after handling its first message. */
  lemma HandledInbox(net: Net, net': Net, m: NodeId, ev: Event)
    requires Inv(net) && Acts(net, net', m, ev) && ev.Got? && net.nodes[m].inbox != []
    requires ev.id == net.nodes[m].inboxId && ev.frame == net.nodes[m].inbox[0]
    requires var node, node' := net.nodes[m], net'.nodes[m];
             || (node'.inbox == node.inbox[1..] && node'.inboxId == ev.id
                 && node'.done == node.done[ev.id := node.Done(ev.id) + 1])
             || (node'.inbox == [] && node'.done == node.done[ev.id := node.Done(ev.id) + |node.inbox|])
    ensures InboxFits(net', m)
    ensures forall id :: net'.nodes[m].Done(id) > 0 <==> net.nodes[m].Done(id) > 0 || id == ev.id
  {
    hide Acts, InboxFits;
    InboxKept(net, net', m, ev);
  }

  lemma HandlingFits(net: Net, net': Net, m: NodeId, ev: Event, node': Node, notes: seq<Note>)
    requires Inv(net) && m in net.nodes && net.nodes[m].inbox != [] && ev.Got?
    requires ev.id == net.nodes[m].inboxId && ev.frame == net.nodes[m].inbox[0]
    requires Stepped(net.nodes[m].world, node'.world, ev)
    requires var node := net.nodes[m];
             || (node'.inbox == node.inbox[1..] && node'.inboxId == ev.id
                 && node'.done == node.done[ev.id := node.Done(ev.id) + 1])
             || (node'.inbox == [] && node'.done == node.done[ev.id := node.Done(ev.id) + |node.inbox|])
    requires net' == WithNode(net, m, node').(
               clients := net.clients + FreshEnds(m, net.nodes[m].world.server.ids, node'.world.server.ids),
               log := net.log + notes)
    requires forall note | note in notes :: NoteFits(net, note)
    ensures Inv(net')
  {
    FreshEndsLink(net, net', m, node', net.log + notes, ev);
    HandledInbox(net, net', m, ev);
    ActsKeeps(net, net', m, ev, notes);
  }

  lemma HandlingKeeps(net: Net, m: NodeId, fails: set<Id>, connected: map<Id, NodeId>)
    requires Inv(net) && Enabled(net, Handling(m, fails, connected))
    ensures Inv(DoHandle(net, m, fails, connected))
  {
    hide Step;
    var node := net.nodes[m];
    var ev := HandlingEvent(node, fails, connected);
    HandlingAllowed(net, m, fails, connected);
    HandlingNotes(net, m);
    ApplySteps(node.world, ev);
    HandlingFits(net, DoHandle(net, m, fails, connected), m, ev, HandledNode(node, ev),
                 Notes(m, node.world.server, node.inboxId, node.inbox[0]));
  }

  lemma ActionKeeps(net: Net, a: Action)
    requires Inv(net) && Enabled(net, a)
    ensures Inv(Do(net, a))
  {
    match a {
      case Accepting(m, id, client, ok) => AcceptingKeeps(net, m, id, client, ok);
      case Acting(m, ev) => ActingKeeps(net, m, ev);
      case Reading(m, id, count) => ReadingKeeps(net, m, id, count);
      case Handling(m, fails, connected) => HandlingKeeps(net, m, fails, connected);
    }
  }

  /** The invariant holds after every run. */
  lemma {:induction false} RunKeeps(net: Net, actions: seq<Action>)
    requires Inv(net) && IsNetRun(net, actions)
    ensures Inv(NetRun(net, actions))
    decreases actions
  {
    if actions != [] {
      ActionKeeps(net, actions[0]);
      RunKeeps(Do(net, actions[0]), actions[1..]);
    }
  }
}
