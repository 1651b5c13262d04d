/** Runs in which something goes wrong: two nodes that have two connections between them, both opened by the same
    node, close one each; and an error on one of these loses messages read from the other. */
module NetworkExamples {
  import opened Base
  import opened Ids
  import opened Membership
  import opened TimerWheels
  import opened ClusterState
  import opened ClusterLemmas
  import opened Network
  import opened NetworkTheorems

  // ----- one node

  /** A connection without its timer. */
  datatype Face = Face(node: Option<NodeId>, isClient: bool, membersSent: bool)

  function FaceOf(c: Conn): Face {
    Face(c.node, c.isClient, c.membersSent)
  }

  ghost predicate HasFaces(conns: map<Id, Conn>, faces: map<Id, Face>) {
    && conns.Keys == faces.Keys
    && forall id | id in faces :: FaceOf(conns[id]) == faces[id]
  }

  /** What matters of a server and its output. */
  datatype Sketch = Sketch(
    node: NodeId,
    faces: map<Id, Face>,
    est: map<NodeId, Id>,
    counter: nat,
    marks: set<Mark>,
    ids: set<Id>,
    sent: map<Id, seq<Frame>>)

  ghost predicate Looks(w: World, k: Sketch) {
    && Valid(w.server)
    && w.server.node == k.node && w.server.est == k.est && w.server.ids == k.ids
    && HasFaces(w.server.conns, k.faces)
    && w.server.members == Members(k.node, k.counter, k.marks)
    && w.sent == k.sent && w.failed == {}
  }

  function Fresh(at: NodeId): Sketch {
    Sketch(at, map[], map[], 1, {Added(at, Dot(at, 0))}, {}, map[])
  }

  function FreshWorld(at: NodeId): World {
    World(Server(at, map[], map[], EmptyWheel(5), Members(at, 1, {Added(at, Dot(at, 0))}), {}), map[], [], {})
  }

  function Joined(k: Sketch, peer: NodeId, id: Id): Sketch {
    k.(faces := k.faces[id := Face(Some(peer), true, false)],
       counter := k.counter + 1,
       marks := k.marks + {Added(peer, Dot(k.node, k.counter))},
       ids := k.ids + {id})
  }

  function Greeting(k: Sketch, id: Id): Sketch
    requires id in k.faces
  {
    k.(faces := k.faces[id := k.faces[id].(membersSent := true)], sent := k.sent[id := [MembersFrame(k.node, k.marks)]])
  }

  function Accepted(k: Sketch, id: Id): Sketch {
    Greeting(k.(faces := k.faces[id := Face(None, false, false)], ids := k.ids + {id}), id)
  }

  function Greeted(k: Sketch, id: Id, from: NodeId, marks: set<Mark>): Sketch
    requires id in k.faces
  {
    k.(faces := k.faces[id := k.faces[id].(node := Some(from))], est := k.est[from := id], marks := k.marks + marks)
  }

  lemma FreshLooks(at: NodeId)
    ensures Looks(FreshWorld(at), Fresh(at))
  {
  }

  /** Nobody has been greeted yet, so a join tells nobody. */
  lemma JoinLooks(w: World, k: Sketch, peer: NodeId, id: Id)
    requires Looks(w, k) && id !in k.ids && (forall i | i in k.faces :: !k.faces[i].membersSent)
    ensures Looks(Apply(w, Join(peer, {}, Some(id))), Joined(k, peer, id))
  {
    hide Valid, Sound, Ready, Append, InitConnection;
    LooksFacts(w, k);
    ApplyKeeps(w, Join(peer, {}, Some(id)));
    NoneReady(w.server.(members := w.server.members.AfterAdd(peer)), k.faces);
    OpenedFaces(w.server.(members := w.server.members.AfterAdd(peer)), k.faces, id, peer);
    AppendNone(w.sent);
    JoinIsQuiet(w.server, peer, id);
  }

  lemma NoneReady(s: Server, faces: map<Id, Face>)
    requires HasFaces(s.conns, faces) && (forall i | i in faces :: !faces[i].membersSent)
    ensures Ready(s) == {}
  {
  }

  lemma OpenedFaces(s: Server, faces: map<Id, Face>, id: Id, peer: NodeId)
    requires HasFaces(s.conns, faces) && s.wheel.write < |s.wheel.data|
    ensures var s' := InitConnection(s, id, Some(peer));
            && HasFaces(s'.conns, faces[id := Face(Some(peer), true, false)])
            && s'.node == s.node && s'.est == s.est && s'.ids == s.ids + {id} && s'.members == s.members
  {
  }

  lemma JoinIsQuiet(s: Server, peer: NodeId, id: Id)
    requires Sound(s) && Ready(s.(members := s.members.AfterAdd(peer))) == {}
    ensures var r := Step(s, Join(peer, {}, Some(id)));
            && r.sent == map[] && r.errs == {} && r.up == []
            && r.server == InitConnection(s.(members := s.members.AfterAdd(peer)), id, Some(peer))
  {
    hide Ready, InitConnection;
  }

  lemma GreetingLooks(w: World, k: Sketch, id: Id)
    requires Looks(w, k) && id in k.faces && !k.faces[id].membersSent && id !in k.sent
    ensures Looks(Apply(w, FirstRead(id, true)), Greeting(k, id))
  {
    hide Valid, Sound, Append;
    LooksFacts(w, k);
    ApplyKeeps(w, FirstRead(id, true));
    AppendFirst(w.sent, id, MembersFrame(k.node, k.marks));
    GreetedFaces(w.server, k.faces, id);
  }

  lemma GreetedFaces(s: Server, faces: map<Id, Face>, id: Id)
    requires HasFaces(s.conns, faces) && id in faces
    ensures id in s.conns && s.conns[id].membersSent == faces[id].membersSent
    ensures HasFaces(s.conns[id := s.conns[id].(membersSent := true)], faces[id := faces[id].(membersSent := true)])
  {
    assert FaceOf(s.conns[id]) == faces[id];
  }

  lemma AppendFirst(sent: map<Id, seq<Frame>>, id: Id, frame: Frame)
    requires id !in sent
    ensures Append(sent, map[id := frame]) == sent[id := [frame]]
  {
    var all := Append(sent, map[id := frame]);
    forall i | i in sent ensures all[i] == sent[i] {
      assert sent[i] + [] == sent[i];
    }
    assert [] + [frame] == [frame];
  }

  lemma AcceptLooks(w: World, k: Sketch, id: Id)
    requires Looks(w, k) && id !in k.ids && id !in k.sent
    ensures Looks(Apply(w, Accept(id, true)), Accepted(k, id))
  {
    hide Valid, Sound, Append, InitConnection;
    LooksFacts(w, k);
    ApplyKeeps(w, Accept(id, true));
    AppendFirst(w.sent, id, MembersFrame(k.node, k.marks));
    AcceptedFaces(w.server, k.faces, id);
    var s := InitConnection(w.server, id, None);
    GreetedFaces(s, k.faces[id := Face(None, false, false)], id);
  }

  lemma AcceptedFaces(s: Server, faces: map<Id, Face>, id: Id)
    requires HasFaces(s.conns, faces) && s.wheel.write < |s.wheel.data|
    ensures var s' := InitConnection(s, id, None);
            && HasFaces(s'.conns, faces[id := Face(None, false, false)])
            && s'.node == s.node && s'.est == s.est && s'.ids == s.ids + {id} && s'.members == s.members
  {
  }

  // ----- greetings

  /** Nothing was removed from these marks, and these nodes were added. */
  ghost predicate AddsAll(marks: set<Mark>, nodes: set<NodeId>) {
    && (forall mark | mark in marks :: mark.Added?)
    && (forall n | n in nodes :: exists mark :: mark in marks && mark.node == n)
  }

  lemma AddsAreMembers(ms: Members, nodes: set<NodeId>)
    requires AddsAll(ms.marks, nodes)
    ensures nodes <= ms.All()
  {
    forall n | n in nodes ensures n in ms.All() {
      var x :| x in ms.marks && x.node == n;
      assert x.Added? && Removed(x.node, x.dot) !in ms.marks;
    }
  }

  /** The check finds nothing to do when all peers are members and nobody answers. */
  lemma CheckIsQuiet(s: Server)
    requires Valid(s) && s.node in s.members.All() && KnownPeers(s) <= s.members.All()
    ensures CheckConnections(s, map[]) == s
  {
    ConnectNone(s);
    assert Wanted(map[], ToConnect(s)) == map[];
    assert EstablishedWith(s, KnownPeers(s) - s.members.All()) == {};
    DropNone(s);
  }

  /** All peers are among these nodes. */
  ghost predicate PeersAmong(faces: map<Id, Face>, nodes: set<NodeId>) {
    forall i | i in faces && faces[i].node.Some? :: faces[i].node.value in nodes
  }

  /** A greeting on `id`, given what establishing the connection leaves behind. */
  lemma GreetedLooks(w: World, k: Sketch, k': Sketch, id: Id, from: NodeId, marks: set<Mark>, nodes: set<NodeId>)
    requires Looks(w, k) && id in k.faces && k.faces[id].membersSent && NamedOnce(w.server, id, from)
    requires var s := EstablishConnection(w.server, id, from, marks);
             && s.est == k'.est && HasFaces(s.conns, k'.faces)
    requires k' == k.(faces := k'.faces, est := k'.est, marks := k.marks + marks)
    requires AddsAll(k'.marks, nodes) && PeersAmong(k'.faces, nodes) && k.node in nodes
    ensures Looks(Apply(w, Got(id, MembersFrame(from, marks), {}, map[])), k')
  {
    hide Valid, Sound, EstablishConnection, Append, Members.All, KnownPeers, NamedOnce, AddsAll, PeersAmong, HasFaces;
    var ev := Got(id, MembersFrame(from, marks), {}, map[]);
    LooksFacts(w, k);
    GreetedFaces(w.server, k.faces, id);
    var s := EstablishConnection(w.server, id, from, marks);
    EstablishKeeps(w.server, id, from, marks);
    EstablishLeaves(w.server, id, from, marks);
    AddsAreMembers(s.members, nodes);
    PeersKnown(s, k'.faces, nodes);
    CheckIsQuiet(s);
    AppendNone(w.sent);
    WheelFacts(s);
    assert Step(w.server, ev) == Quiet(s);
  }

  lemma WheelFacts(s: Server)
    requires Valid(s)
    ensures s.wheel.write < |s.wheel.data|
  {
  }

  lemma PeersKnown(s: Server, faces: map<Id, Face>, nodes: set<NodeId>)
    requires HasFaces(s.conns, faces) && PeersAmong(faces, nodes)
    ensures KnownPeers(s) <= nodes
  {
    forall peer | peer in KnownPeers(s) ensures peer in nodes {
      var i :| i in s.conns && s.conns[i].node == Some(peer);
      assert FaceOf(s.conns[i]) == faces[i];
    }
  }

  lemma EstablishLeaves(s: Server, id: Id, from: NodeId, marks: set<Mark>)
    requires Valid(s)
    ensures var s' := EstablishConnection(s, id, from, marks);
            s'.node == s.node && s'.ids == s.ids && s'.members == s.members.Joined(marks)
  {
  }

  /** The first greeting by a node. */
  lemma FirstGreetingLooks(w: World, k: Sketch, id: Id, from: NodeId, marks: set<Mark>, nodes: set<NodeId>)
    requires Looks(w, k) && id in k.faces && k.faces[id].membersSent
    requires from !in k.est && (forall n | n in k.est :: k.est[n] != id)
    requires AddsAll(k.marks + marks, nodes) && PeersAmong(k.faces, nodes) && k.node in nodes && from in nodes
    ensures Looks(Apply(w, Got(id, MembersFrame(from, marks), {}, map[])), Greeted(k, id, from, marks))
  {
    hide EstablishConnection, Apply, Valid, AddsAll, NamedOnce, HasFaces;
    FirstEstablishes(w, k, id, from, marks);
    GreetedLooks(w, k, Greeted(k, id, from, marks), id, from, marks, nodes);
  }

  lemma FirstEstablishes(w: World, k: Sketch, id: Id, from: NodeId, marks: set<Mark>)
    requires Looks(w, k) && id in k.faces && from !in k.est && (forall n | n in k.est :: k.est[n] != id)
    ensures NamedOnce(w.server, id, from)
    ensures var s := EstablishConnection(w.server, id, from, marks);
            s.est == k.est[from := id] && HasFaces(s.conns, Greeted(k, id, from, marks).faces)
  {
  }

  function Dropped(k: Sketch, id: Id): Sketch {
    k.(faces := k.faces - {id})
  }

  /** Of two connections to `from`, the one that was established first is the one to close. */
  ghost predicate ClosesSaved(k: Sketch, from: NodeId, saved: Id)
    requires saved in k.faces
  {
    if k.faces[saved].isClient then Less(k.node, from) else Less(from, k.node)
  }

  lemma SecondEstablishes(w: World, k: Sketch, id: Id, from: NodeId, marks: set<Mark>, saved: Id)
    requires Looks(w, k) && id in k.faces && k.est == map[from := saved] && saved != id && saved in k.faces
    requires ClosesSaved(k, from, saved)
    ensures ChooseConnectionToClose(w.server, id, from) == Some(saved)
    ensures var s := EstablishConnection(w.server, id, from, marks);
            s.est == map[from := id] && HasFaces(s.conns, Greeted(Dropped(k, saved), id, from, marks).faces)
  {
    var joined := w.server.(members := w.server.members.Joined(marks));
    assert FaceOf(w.server.conns[saved]) == k.faces[saved];
    assert ChooseConnectionToClose(joined, id, from) == Some(saved);
    hide Less, ClosesSaved, ChooseConnectionToClose;
    var dropped := Drop(joined, {saved});
    DropKeeps(joined, {saved});
    assert dropped.est == map[];
    assert HasFaces(dropped.conns, Dropped(k, saved).faces);
    hide Drop, Valid, Sound;
    RegisterFaces(dropped, Dropped(k, saved).faces, id, from);
  }

  lemma RegisterFaces(s: Server, faces: map<Id, Face>, id: Id, from: NodeId)
    requires s.wheel.Ok() && (forall i | i in s.conns :: s.conns[i].slot < |s.wheel.data|)
    requires HasFaces(s.conns, faces) && id in faces
    ensures Register(s, id, from).est == s.est[from := id]
    ensures HasFaces(Register(s, id, from).conns, faces[id := faces[id].(node := Some(from))])
  {
  }

  /** A second greeting by a node, on another connection, that closes the first connection. */
  lemma SecondGreetingLooks(w: World, k: Sketch, id: Id, from: NodeId, marks: set<Mark>, saved: Id,
      nodes: set<NodeId>)
    requires Looks(w, k) && id in k.faces && k.faces[id].membersSent
    requires k.est == map[from := saved] && saved != id && saved in k.faces && ClosesSaved(k, from, saved)
    requires AddsAll(k.marks + marks, nodes) && PeersAmong(k.faces, nodes) && k.node in nodes && from in nodes
    ensures Looks(Apply(w, Got(id, MembersFrame(from, marks), {}, map[])), Greeted(Dropped(k, saved), id, from, marks))
  {
    var k' := Greeted(Dropped(k, saved), id, from, marks);
    SecondEstablishes(w, k, id, from, marks, saved);
    EstablishedOnce(w.server, id, from, saved);
    StillAmong(k, id, from, marks, saved, nodes);
    hide EstablishConnection, Apply, ChooseConnectionToClose, Valid, AddsAll, NamedOnce, PeersAmong, HasFaces,
         ClosesSaved;
    GreetedLooks(w, k, k', id, from, marks, nodes);
  }

  lemma EstablishedOnce(s: Server, id: Id, from: NodeId, saved: Id)
    requires s.est == map[from := saved]
    ensures NamedOnce(s, id, from)
  {
    hide ChooseConnectionToClose;
  }

  lemma StillAmong(k: Sketch, id: Id, from: NodeId, marks: set<Mark>, saved: Id, nodes: set<NodeId>)
    requires id in k.faces && saved != id && k.est == map[from := saved]
    requires PeersAmong(k.faces, nodes) && from in nodes
    ensures var k' := Greeted(Dropped(k, saved), id, from, marks);
            && PeersAmong(k'.faces, nodes) && k'.est == map[from := id]
            && k' == k.(faces := k'.faces, est := k'.est, marks := k.marks + marks)
  {
  }

  // ----- several nodes

  /** A reachable cluster in which every node looks as in `ks` and has nothing left to handle. */
  ghost predicate Shows(net: Net, ks: map<NodeId, Sketch>, done: map<NodeId, map<Id, nat>>) {
    && Reachable(net) && net.nodes.Keys == ks.Keys && done.Keys == ks.Keys
    && forall at | at in ks :: NodeShows(net.nodes[at], at, ks[at], done[at])
  }

  ghost predicate NodeShows(node: Node, at: NodeId, k: Sketch, done: map<Id, nat>) {
    k.node == at && Looks(node.world, k) && node.inbox == [] && node.done == done
  }

  lemma {:induction false} NetRunMore(net: Net, actions: seq<Action>, a: Action)
    requires IsNetRun(net, actions) && Enabled(NetRun(net, actions), a)
    ensures IsNetRun(net, actions + [a]) && NetRun(net, actions + [a]) == Do(NetRun(net, actions), a)
    decreases |actions|
  {
    hide Enabled, Do;
    if actions == [] {
      assert [a][1..] == [] && [] + [a] == [a];
    } else {
      NetRunMore(Do(net, actions[0]), actions[1..], a);
      assert (actions + [a])[1..] == actions[1..] + [a];
    }
  }

  lemma ReachMore(net: Net, a: Action)
    requires Reachable(net) && Enabled(net, a)
    ensures Reachable(Do(net, a))
  {
    var start, actions :| Initial(start) && IsNetRun(start, actions) && net == NetRun(start, actions);
    NetRunMore(start, actions, a);
    hide Initial, IsNetRun, NetRun, Enabled, Do;
    assert Initial(start) && IsNetRun(start, actions + [a]);
  }

  lemma WithShows(net: Net, net': Net, ks: map<NodeId, Sketch>, done: map<NodeId, map<Id, nat>>, at: NodeId,
      node: Node, k: Sketch, d: map<Id, nat>)
    requires Shows(net, ks, done) && Reachable(net') && at in ks
    requires net'.nodes == net.nodes[at := node] && NodeShows(node, at, k, d)
    ensures Shows(net', ks[at := k], done[at := d])
  {
    hide NodeShows, Reachable;
  }

  lemma LooksFacts(w: World, k: Sketch)
    requires Looks(w, k)
    ensures Valid(w.server) && Sound(w.server) && w.server.node == k.node && w.server.ids == k.ids && w.sent == k.sent
    ensures w.failed == {} && w.server.wheel.write < |w.server.wheel.data|
    ensures w.server.est == k.est && HasFaces(w.server.conns, k.faces)
  {
  }

  lemma NodeFacts(net: Net, ks: map<NodeId, Sketch>, done: map<NodeId, map<Id, nat>>, at: NodeId)
    requires Shows(net, ks, done) && at in ks
    ensures Reachable(net) && at in net.nodes && at in done && ks[at].node == at
    ensures Looks(net.nodes[at].world, ks[at]) && net.nodes[at].inbox == [] && net.nodes[at].done == done[at]
  {
    assert NodeShows(net.nodes[at], at, ks[at], done[at]);
  }

  /** An event at one node. */
  lemma ActingShows(net: Net, ks: map<NodeId, Sketch>, done: map<NodeId, map<Id, nat>>, at: NodeId, ev: Event,
      k: Sketch)
    returns (net': Net)
    requires Shows(net, ks, done) && at in ks && !ev.Accept? && !ev.Got? && k.node == at
    requires Allowed(net.nodes[at].world.server, ev)
    requires Sound(net.nodes[at].world.server) && Looks(Apply(net.nodes[at].world, ev), k)
    ensures Shows(net', ks[at := k], done)
    ensures net'.peer == net.peer && net'.log == net.log
    ensures net'.clients == net.clients + FreshEnds(at, ks[at].ids, k.ids)
  {
    hide Reachable, Apply, Looks, Valid, Sound, Allowed, Shows;
    NodeFacts(net, ks, done, at);
    var node := net.nodes[at];
    LooksFacts(node.world, ks[at]);
    LooksFacts(Apply(node.world, ev), k);
    net' := ActingDoes(net, at, ev);
    WithShows(net, net', ks, done, at, node.(world := Apply(node.world, ev)), k, done[at]);
    DoneSame(net, ks, done, at);
  }

  /** An event at a node that has nothing left to handle. */
  lemma ActingDoes(net: Net, at: NodeId, ev: Event) returns (net': Net)
    requires Reachable(net) && at in net.nodes && net.nodes[at].inbox == [] && !ev.Accept? && !ev.Got?
    requires Valid(net.nodes[at].world.server) && Sound(net.nodes[at].world.server)
    requires Allowed(net.nodes[at].world.server, ev)
    ensures var world := Apply(net.nodes[at].world, ev);
            && Reachable(net')
            && net' == net.(nodes := net.nodes[at := net.nodes[at].(world := world)],
                            clients := net.clients + FreshEnds(at, net.nodes[at].world.server.ids, world.server.ids))
  {
    hide Reachable, Apply, Valid, Sound, Allowed;
    assert Enabled(net, Acting(at, ev));
    ReachMore(net, Acting(at, ev));
    net' := DoEvent(net, at, ev);
    assert net' == Do(net, Acting(at, ev));
  }

  lemma Joins(net: Net, ks: map<NodeId, Sketch>, done: map<NodeId, map<Id, nat>>, at: NodeId, peer: NodeId, id: Id)
    returns (net': Net)
    requires Shows(net, ks, done) && at in ks && id !in ks[at].ids
    requires forall i | i in ks[at].faces :: !ks[at].faces[i].membersSent
    ensures Shows(net', ks[at := Joined(ks[at], peer, id)], done)
    ensures net'.peer == net.peer && net'.clients == net.clients + {End(at, id)} && net'.log == net.log
  {
    hide Shows, Reachable, Looks, Valid, Sound, Apply;
    NodeFacts(net, ks, done, at);
    LooksFacts(net.nodes[at].world, ks[at]);
    JoinLooks(net.nodes[at].world, ks[at], peer, id);
    net' := ActingShows(net, ks, done, at, Join(peer, {}, Some(id)), Joined(ks[at], peer, id));
    assert FreshEnds(at, ks[at].ids, ks[at].ids + {id}) == {End(at, id)};
  }

  lemma Greets(net: Net, ks: map<NodeId, Sketch>, done: map<NodeId, map<Id, nat>>, at: NodeId, id: Id)
    returns (net': Net)
    requires Shows(net, ks, done) && at in ks && id in ks[at].faces && !ks[at].faces[id].membersSent
    requires id !in ks[at].sent
    ensures Shows(net', ks[at := Greeting(ks[at], id)], done)
    ensures net'.peer == net.peer && net'.clients == net.clients && net'.log == net.log
  {
    hide Shows, Reachable, Looks, Valid, Sound, Apply;
    NodeFacts(net, ks, done, at);
    LooksFacts(net.nodes[at].world, ks[at]);
    GreetingLooks(net.nodes[at].world, ks[at], id);
    net' := ActingShows(net, ks, done, at, FirstRead(id, true), Greeting(ks[at], id));
    assert FreshEnds(at, ks[at].ids, ks[at].ids) == {};
  }

  lemma Accepts(net: Net, ks: map<NodeId, Sketch>, done: map<NodeId, map<Id, nat>>, at: NodeId, id: Id, client: End)
    returns (net': Net)
    requires Shows(net, ks, done) && at in ks && id !in ks[at].ids && id !in ks[at].sent
    requires client in net.clients && client !in net.peer && client.node != at
    ensures Shows(net', ks[at := Accepted(ks[at], id)], done)
    ensures net'.peer == net.peer[End(at, id) := client][client := End(at, id)]
    ensures net'.clients == net.clients && net'.log == net.log
  {
    var a := Accepting(at, id, client, true);
    var node := net.nodes[at];
    NodeFacts(net, ks, done, at);
    LooksFacts(node.world, ks[at]);
    AcceptLooks(node.world, ks[at], id);
    hide Reachable, Apply, Looks, Valid, Sound, Shows;
    assert Enabled(net, a);
    ReachMore(net, a);
    net' := DoAccept(net, at, id, client, true);
    assert net' == Do(net, a);
    WithShows(net, net', ks, done, at, node.(world := Apply(node.world, Accept(id, true))), Accepted(ks[at], id),
        done[at]);
    DoneSame(net, ks, done, at);
  }

  lemma DoneSame(net: Net, ks: map<NodeId, Sketch>, done: map<NodeId, map<Id, nat>>, at: NodeId)
    requires Shows(net, ks, done) && at in ks
    ensures done[at := done[at]] == done
  {
  }

  /** A node reads all frames that the far end of a connection has queued. */
  lemma ReadingDoes(net: Net, at: NodeId, id: Id, far: End, frames: seq<Frame>) returns (net': Net)
    requires Reachable(net) && at in net.nodes && Valid(net.nodes[at].world.server) && net.nodes[at].inbox == []
    requires id in net.nodes[at].world.server.conns && net.nodes[at].world.server.conns[id].membersSent
    requires End(at, id) in net.peer && net.peer[End(at, id)] == far && Sent(net, far) == frames
    requires net.nodes[at].Done(id) == 0
    ensures Reachable(net') && net' == net.(nodes := net.nodes[at := net.nodes[at].(inbox := frames, inboxId := id)])
  {
    hide Reachable, Valid, Sent;
    var a := Reading(at, id, |frames|);
    assert Enabled(net, a);
    ReachMore(net, a);
    net' := DoRead(net, at, id, |frames|);
    assert net' == Do(net, a);
    assert frames[0..|frames|] == frames;
  }

  /** A node handles the first message it has read, without an error and without opening connections. */
  lemma HandlingDoes(net: Net, at: NodeId, ev: Event) returns (net': Net)
    requires Reachable(net) && at in net.nodes && net.nodes[at].inbox != []
    requires Valid(net.nodes[at].world.server) && Sound(net.nodes[at].world.server)
    requires ev == Got(net.nodes[at].inboxId, net.nodes[at].inbox[0], {}, map[])
    requires Step(net.nodes[at].world.server, ev).errs == {}
    requires Apply(net.nodes[at].world, ev).server.ids == net.nodes[at].world.server.ids
    ensures var node := net.nodes[at];
            var node' := Node(Apply(node.world, ev), node.inbox[1..], node.inboxId,
                              node.done[node.inboxId := node.Done(node.inboxId) + 1]);
            && Reachable(net')
            && net' == net.(nodes := net.nodes[at := node'],
                            log := net.log + Notes(at, node.world.server, node.inboxId, node.inbox[0]))
  {
    hide Reachable, Valid, Sound, Notes, Step, Apply;
    var s := net.nodes[at].world.server;
    var a := Handling(at, {}, map[]);
    assert Enabled(net, a);
    ReachMore(net, a);
    net' := DoHandle(net, at, {}, map[]);
    assert net' == Do(net, a);
    assert FreshEnds(at, s.ids, s.ids) == {};
  }

  /** One frame is handled on a connection. */
  function HeardOn(done: map<Id, nat>, id: Id): map<Id, nat> {
    done[id := 1]
  }

  /** What a node needs to read from the far end of a connection. */
  lemma CanRead(net: Net, ks: map<NodeId, Sketch>, done: map<NodeId, map<Id, nat>>, at: NodeId, id: Id, far: End)
    requires Shows(net, ks, done) && at in ks && id in ks[at].faces && ks[at].faces[id].membersSent
    requires far.node in ks && far.id in ks[far.node].sent && at in done && id !in done[at]
    ensures Reachable(net) && at in net.nodes && Valid(net.nodes[at].world.server) && net.nodes[at].inbox == []
    ensures at in done
    ensures id in net.nodes[at].world.server.conns && net.nodes[at].world.server.conns[id].membersSent
    ensures Sent(net, far) == ks[far.node].sent[far.id] && net.nodes[at].Done(id) == 0
    ensures net.nodes[at].world.server.ids == ks[at].ids && net.nodes[at].done == done[at]
  {
    NodeFacts(net, ks, done, at);
    NodeFacts(net, ks, done, far.node);
    LooksFacts(net.nodes[at].world, ks[at]);
    LooksFacts(net.nodes[far.node].world, ks[far.node]);
    hide Reachable, Looks, Valid, Sound, Shows;
    assert FaceOf(net.nodes[at].world.server.conns[id]) == ks[at].faces[id];
  }

  lemma ReadingAndHandling(net: Net, at: NodeId, id: Id, far: End, frame: Frame, ev: Event) returns (net': Net)
    requires Reachable(net) && at in net.nodes && Valid(net.nodes[at].world.server) && net.nodes[at].inbox == []
    requires id in net.nodes[at].world.server.conns && net.nodes[at].world.server.conns[id].membersSent
    requires End(at, id) in net.peer && net.peer[End(at, id)] == far && Sent(net, far) == [frame]
    requires net.nodes[at].Done(id) == 0 && ev == Got(id, frame, {}, map[]) && frame.MembersFrame?
    requires Sound(net.nodes[at].world.server) && Step(net.nodes[at].world.server, ev).errs == {}
    requires Apply(net.nodes[at].world, ev).server.ids == net.nodes[at].world.server.ids
    ensures var node := net.nodes[at];
            && Reachable(net')
            && net' == net.(nodes := net.nodes[at := Node(Apply(node.world, ev), [], id, HeardOn(node.done, id))],
                            log := net.log + Notes(at, node.world.server, id, frame))
  {
    hide Reachable, Valid, Sound, Notes, Step, Apply, Sent;
    var net1 := ReadingDoes(net, at, id, far, [frame]);
    net' := HandlingDoes(net1, at, ev);
    var node := Node(Apply(net.nodes[at].world, ev), [], id, HeardOn(net.nodes[at].done, id));
    assert net1.nodes[at := node] == net.nodes[at := node];
    assert [frame][1..] == [];
  }

  /** One node reads and handles the only frame that the far end has queued, its Members. */
  lemma Hears(net: Net, ks: map<NodeId, Sketch>, done: map<NodeId, map<Id, nat>>, at: NodeId, id: Id, far: End,
      frame: Frame, k: Sketch)
    returns (net': Net)
    requires Shows(net, ks, done) && at in ks && id in ks[at].faces && ks[at].faces[id].membersSent
    requires End(at, id) in net.peer && net.peer[End(at, id)] == far
    requires far.node in ks && far.id in ks[far.node].sent && ks[far.node].sent[far.id] == [frame]
    requires frame.MembersFrame? && at in done && id !in done[at] && k.node == at && k.ids == ks[at].ids
    requires Sound(net.nodes[at].world.server) && Looks(Apply(net.nodes[at].world, Got(id, frame, {}, map[])), k)
    ensures Shows(net', ks[at := k], done[at := HeardOn(done[at], id)])
    ensures net'.peer == net.peer && net'.clients == net.clients
    ensures net'.log == net.log + Notes(at, net.nodes[at].world.server, id, frame)
  {
    var ev := Got(id, frame, {}, map[]);
    hide Reachable, Looks, Valid, Sound, Shows, Notes, Step, Apply, Sent, HasFaces;
    CanRead(net, ks, done, at, id, far);
    LooksFacts(Apply(net.nodes[at].world, ev), k);
    NoErrors(net.nodes[at].world.server, ev);
    net' := ReadingAndHandling(net, at, id, far, frame, ev);
    WithShows(net, net', ks, done, at, net'.nodes[at], k, HeardOn(done[at], id));
  }

  lemma NoErrors(s: Server, ev: Event)
    requires Sound(s) && ev.Got? && ev.frame.MembersFrame?
    ensures Step(s, ev).errs == {}
  {
    hide GotMembers;
  }

  // ----- two connections from the same side

  /** `m` has opened connections 1 and 2 to `n` and both sides have sent their Members on both. */
  function Caller(m: NodeId, n: NodeId): Sketch {
    Greeting(Greeting(Joined(Joined(Fresh(m), n, 1), n, 2), 1), 2)
  }

  function Called(n: NodeId): Sketch {
    Accepted(Accepted(Fresh(n), 1), 2)
  }

  function Wires(m: NodeId, n: NodeId): map<End, End> {
    map[End(n, 1) := End(m, 1), End(m, 1) := End(n, 1), End(n, 2) := End(m, 2), End(m, 2) := End(n, 2)]
  }

  /** A fresh cluster of these nodes. */
  lemma FreshNet(ks: map<NodeId, Sketch>, done: map<NodeId, map<Id, nat>>) returns (net: Net)
    requires done.Keys == ks.Keys && forall m | m in ks :: ks[m] == Fresh(m) && done[m] == map[]
    ensures Shows(net, ks, done)
    ensures net.peer == map[] && net.clients == {} && net.log == []
  {
    net := Net(map m | m in ks :: Node(FreshWorld(m), [], 0, map[]), map[], {}, []);
    forall m | m in ks ensures NodeShows(net.nodes[m], m, ks[m], done[m]) {
      FreshLooks(m);
    }
    assert Initial(net) && IsNetRun(net, []) && NetRun(net, []) == net;
  }

  lemma TwoConnections(m: NodeId, n: NodeId) returns (net: Net)
    requires m != n
    ensures Shows(net, map[m := Caller(m, n), n := Called(n)], map[m := map[], n := map[]])
    ensures net.peer == Wires(m, n) && net.clients == {End(m, 1), End(m, 2)} && net.log == []
  {
    hide Shows;
    var none: map<NodeId, map<Id, nat>> := map[m := map[], n := map[]];
    var k0, k1 := Fresh(m), Joined(Fresh(m), n, 1);
    var k2 := Joined(k1, n, 2);
    var k3 := Greeting(k2, 1);
    var c0, c1 := Fresh(n), Accepted(Fresh(n), 1);
    net := FreshNet(map[m := k0, n := c0], none);
    net := Joins(net, map[m := k0, n := c0], none, m, n, 1);
    Replaced(m, n, k0, c0, k1, c0);
    net := Joins(net, map[m := k1, n := c0], none, m, n, 2);
    Replaced(m, n, k1, c0, k2, c0);
    net := Accepts(net, map[m := k2, n := c0], none, n, 1, End(m, 1));
    Replaced(m, n, k2, c0, k2, c1);
    net := Accepts(net, map[m := k2, n := c1], none, n, 2, End(m, 2));
    Replaced(m, n, k2, c1, k2, Called(n));
    net := Greets(net, map[m := k2, n := Called(n)], none, m, 1);
    Replaced(m, n, k2, Called(n), k3, Called(n));
    net := Greets(net, map[m := k3, n := Called(n)], none, m, 2);
    Replaced(m, n, k3, Called(n), Caller(m, n), Called(n));
  }

  lemma Replaced<V>(m: NodeId, n: NodeId, a: V, b: V, a': V, b': V)
    requires m != n
    ensures map[m := a, n := b][m := a'] == map[m := a', n := b]
    ensures map[m := a, n := b][n := b'] == map[m := a, n := b']
  {
  }

  /** What two nodes add to the membership on their own. */
  lemma Adds(m: NodeId, n: NodeId)
    ensures AddsAll(Caller(m, n).marks + Called(n).marks, {m, n})
    ensures AddsAll(Called(n).marks + Caller(m, n).marks, {m, n})
    ensures AddsAll((Caller(m, n).marks + Called(n).marks) + Called(n).marks, {m, n})
    ensures AddsAll((Called(n).marks + Caller(m, n).marks) + Caller(m, n).marks, {m, n})
  {
    var a, b := Added(m, Dot(m, 0)), Added(n, Dot(n, 0));
    var km, kn := Caller(m, n).marks, Called(n).marks;
    assert a in km && b in kn;
    assert a in km + kn && b in km + kn && a in kn + km && b in kn + km;
    assert a in (km + kn) + kn && b in (km + kn) + kn && a in (kn + km) + km && b in (kn + km) + km;
  }

  /** One node hears a greeting for the first time. */
  lemma HearsFirst(net: Net, ks: map<NodeId, Sketch>, done: map<NodeId, map<Id, nat>>, at: NodeId, id: Id, far: End,
      from: NodeId, marks: set<Mark>, nodes: set<NodeId>)
    returns (net': Net)
    requires Shows(net, ks, done) && at in ks && id in ks[at].faces && ks[at].faces[id].membersSent
    requires End(at, id) in net.peer && net.peer[End(at, id)] == far && ks[at].node == at
    requires far.node in ks && far.id in ks[far.node].sent && ks[far.node].sent[far.id] == [MembersFrame(from, marks)]
    requires at in done && id !in done[at] && from !in ks[at].est && forall n | n in ks[at].est :: ks[at].est[n] != id
    requires AddsAll(ks[at].marks + marks, nodes) && PeersAmong(ks[at].faces, nodes) && at in nodes && from in nodes
    ensures Shows(net', ks[at := Greeted(ks[at], id, from, marks)], done[at := HeardOn(done[at], id)])
    ensures net'.peer == net.peer && net'.clients == net.clients
            && net'.log == net.log + [Handled(End(at, id), MembersFrame(from, marks))]
  {
    hide Shows, Looks, Valid, Sound, Apply, AddsAll, PeersAmong, Reachable, ChooseConnectionToClose;
    NodeFacts(net, ks, done, at);
    var w := net.nodes[at].world;
    LooksFacts(w, ks[at]);
    FirstGreetingLooks(w, ks[at], id, from, marks, nodes);
    net' := Hears(net, ks, done, at, id, far, MembersFrame(from, marks), Greeted(ks[at], id, from, marks));
    FirstNotes(at, w.server, id, from, marks);
  }

  lemma FirstNotes(at: NodeId, s: Server, id: Id, from: NodeId, marks: set<Mark>)
    requires from !in s.est
    ensures Notes(at, s, id, MembersFrame(from, marks)) == [Handled(End(at, id), MembersFrame(from, marks))]
  {
  }

  /** One node hears a second greeting by the same node, and closes the connection of the first. */
  lemma HearsSecond(net: Net, ks: map<NodeId, Sketch>, done: map<NodeId, map<Id, nat>>, at: NodeId, id: Id, far: End,
      from: NodeId, marks: set<Mark>, saved: Id, nodes: set<NodeId>)
    returns (net': Net)
    requires Shows(net, ks, done) && at in ks && id in ks[at].faces && ks[at].faces[id].membersSent
    requires End(at, id) in net.peer && net.peer[End(at, id)] == far && ks[at].node == at
    requires far.node in ks && far.id in ks[far.node].sent && ks[far.node].sent[far.id] == [MembersFrame(from, marks)]
    requires at in done && id !in done[at] && ks[at].est == map[from := saved] && saved != id && saved in ks[at].faces
    requires ClosesSaved(ks[at], from, saved)
    requires AddsAll(ks[at].marks + marks, nodes) && PeersAmong(ks[at].faces, nodes) && at in nodes && from in nodes
    ensures Shows(net', ks[at := Greeted(Dropped(ks[at], saved), id, from, marks)], done[at := HeardOn(done[at], id)])
    ensures net'.peer == net.peer && net'.clients == net.clients
    ensures net.log <= net'.log && DuplicateClosed(End(at, saved), End(at, id)) in net'.log
  {
    hide Shows, Looks, Valid, Sound, Apply, AddsAll, PeersAmong, Reachable, ChooseConnectionToClose, ClosesSaved;
    NodeFacts(net, ks, done, at);
    var w := net.nodes[at].world;
    LooksFacts(w, ks[at]);
    SecondGreetingLooks(w, ks[at], id, from, marks, saved, nodes);
    SecondEstablishes(w, ks[at], id, from, marks, saved);
    var frame := MembersFrame(from, marks);
    net' := Hears(net, ks, done, at, id, far, frame, Greeted(Dropped(ks[at], saved), id, from, marks));
    assert Notes(at, w.server, id, frame)[1] == DuplicateClosed(End(at, saved), End(at, id));
    assert Notes(at, w.server, id, frame)[1] in net'.log;
  }

  /** The caller handles the greeting on connection 1, then that on connection 2, and closes connection 1. */
  lemma CallerCloses(net: Net, m: NodeId, n: NodeId) returns (net': Net, k: Sketch, d: map<Id, nat>)
    requires Less(m, n) && m != n && net.peer == Wires(m, n)
    requires Shows(net, map[m := Caller(m, n), n := Called(n)], map[m := map[], n := map[]])
    ensures Shows(net', map[m := k, n := Called(n)], map[m := d, n := map[]])
    ensures k.sent == Caller(m, n).sent && net'.peer == net.peer && net'.clients == net.clients
    ensures DuplicateClosed(End(m, 1), End(m, 2)) in net'.log
  {
    hide Shows, Reachable, AddsAll, PeersAmong, ClosesSaved, Less, Caller, Called;
    Adds(m, n);
    CallerFacts(m, n);
    var km, kn := Caller(m, n), Called(n);
    var k1 := Greeted(km, 1, n, kn.marks);
    var d0: map<Id, nat> := map[];
    var d1 := HeardOn(d0, 1);
    k, d := Greeted(Dropped(k1, 1), 2, n, kn.marks), HeardOn(d1, 2);
    net' := HearsFirst(net, map[m := km, n := kn], map[m := d0, n := d0], m, 1, End(n, 1), n, kn.marks, {m, n});
    Replaced(m, n, km, kn, k1, kn);
    Replaced(m, n, d0, d0, d1, d0);
    net' := HearsSecond(net', map[m := k1, n := kn], map[m := d1, n := d0], m, 2, End(n, 2), n, kn.marks, 1, {m, n});
    Replaced(m, n, k1, kn, k, kn);
    Replaced(m, n, d1, d0, d, d0);
  }

  /** The other side handles the greetings in the other order, and closes connection 2. */
  lemma CalledCloses(net: Net, m: NodeId, n: NodeId, k: Sketch, d: map<Id, nat>) returns (net': Net)
    requires Less(m, n) && m != n && net.peer == Wires(m, n) && k.sent == Caller(m, n).sent
    requires Shows(net, map[m := k, n := Called(n)], map[m := d, n := map[]])
    ensures Reachable(net') && net'.peer == net.peer && net'.clients == net.clients && net.log <= net'.log
    ensures DuplicateClosed(End(n, 2), End(n, 1)) in net'.log
  {
    hide Shows, Reachable, AddsAll, PeersAmong, ClosesSaved, Less, Caller, Called;
    Adds(m, n);
    CallerFacts(m, n);
    var km, kn := Caller(m, n), Called(n);
    var c1 := Greeted(kn, 2, m, km.marks);
    var c2 := Greeted(Dropped(c1, 2), 1, m, km.marks);
    var d0: map<Id, nat> := map[];
    var e1 := HeardOn(d0, 2);
    net' := HearsFirst(net, map[m := k, n := kn], map[m := d, n := d0], n, 2, End(m, 2), m, km.marks, {m, n});
    Replaced(m, n, k, kn, k, c1);
    Replaced(m, n, d, d0, d, e1);
    net' := HearsSecond(net', map[m := k, n := c1], map[m := d, n := e1], n, 1, End(m, 1), m, km.marks, 2, {m, n});
    Replaced(m, n, k, c1, k, c2);
    Replaced(m, n, d, e1, d, HeardOn(e1, 1));
    NodeFacts(net', map[m := k, n := c2], map[m := d, n := HeardOn(e1, 1)], n);
  }

  /** A run in which two nodes each close one of the two connections between them, not the same one: `m`, which
      sorts lower, has joined `n` twice, and the Members frames are handled in different orders. */
  lemma CrossClosingHappens(m: NodeId, n: NodeId) returns (net: Net)
    requires Less(m, n)
    ensures Reachable(net) && net.peer == Wires(m, n) && net.clients == {End(m, 1), End(m, 2)}
    ensures DuplicateClosed(End(m, 1), End(m, 2)) in net.log && DuplicateClosed(End(n, 2), End(n, 1)) in net.log
  {
    hide Shows, Reachable, Less, Caller, Called;
    OrderFacts(m, n);
    var start := TwoConnections(m, n);
    var half, k, d := CallerCloses(start, m, n);
    net := CalledCloses(half, m, n, k, d);
    assert forall note | note in half.log :: note in net.log;
  }

  /** Two notes of a run: each of two nodes has closed a connection to the other as a duplicate and kept the one
      that the other has closed. */
  ghost predicate CrossClosed(net: Net, one: Note, two: Note) {
    && one in net.log && two in net.log && one.DuplicateClosed? && two.DuplicateClosed?
    && one.closed in net.peer && one.kept in net.peer
    && two.closed == net.peer[one.kept] && two.kept == net.peer[one.closed]
  }

  ghost predicate CrossClosedBetween(net: Net, one: Note, two: Note, m: NodeId, n: NodeId, sameSide: bool) {
    && Reachable(net) && CrossClosed(net, one, two)
    && one.closed.node == m && two.closed.node == n
    && (sameSide <==> Opener(net, one.closed) == Opener(net, one.kept))
  }

  /** Two nodes can close different connections, in some run, exactly when the two connections between them were
      opened from the same side. */
  lemma CrossClosingExactly(m: NodeId, n: NodeId, sameSide: bool)
    requires Less(m, n)
    ensures (exists net, one, two :: CrossClosedBetween(net, one, two, m, n, sameSide)) <==> sameSide
  {
    hide Reachable, Less;
    if sameSide {
      OrderFacts(m, n);
      var net := CrossClosingHappens(m, n);
      var one, two := DuplicateClosed(End(m, 1), End(m, 2)), DuplicateClosed(End(n, 2), End(n, 1));
      assert CrossClosedBetween(net, one, two, m, n, true);
    } else {
      forall net, one, two ensures !CrossClosedBetween(net, one, two, m, n, false) {
        if CrossClosedBetween(net, one, two, m, n, false) {
          DuplicatesResolvedAlike(net, one, two);
        }
      }
    }
  }

  lemma OrderFacts(m: NodeId, n: NodeId)
    requires Less(m, n)
    ensures m != n
  {
    NodeOrderTotal(m, n);
  }

  /** What the greetings need to know about the two sides. */
  lemma CallerFacts(m: NodeId, n: NodeId)
    requires Less(m, n)
    ensures var km, kn := Caller(m, n), Called(n);
            && km.node == m && kn.node == n && km.est == map[] && kn.est == map[]
            && km.faces == map[1 := Face(Some(n), true, true), 2 := Face(Some(n), true, true)]
            && kn.faces == map[1 := Face(None, false, true), 2 := Face(None, false, true)]
            && km.sent == map[1 := [MembersFrame(m, km.marks)], 2 := [MembersFrame(m, km.marks)]]
            && kn.sent == map[1 := [MembersFrame(n, kn.marks)], 2 := [MembersFrame(n, kn.marks)]]
            && PeersAmong(km.faces, {m, n}) && PeersAmong(kn.faces, {m, n})
            && PeersAmong(Greeted(km, 1, n, kn.marks).faces, {m, n})
            && PeersAmong(Greeted(kn, 2, m, km.marks).faces, {m, n})
            && ClosesSaved(Greeted(km, 1, n, kn.marks), n, 1) && ClosesSaved(Greeted(kn, 2, m, km.marks), m, 2)
  {
    hide Less;
  }

  // ----- messages lost to another connection's error

  /** Exactly when handling a message loses the ones read after it: when it is a delta that is news, and a
      connection that should be told it cannot be written to. */
  lemma InboxLostExactly(node: Node, fails: set<Id>, connected: map<Id, NodeId>)
    requires node.inbox != [] && Valid(node.world.server)
    ensures var s := node.world.server;
            HandledNode(node, HandlingEvent(node, fails, connected)).inbox != node.inbox[1..] <==>
              && |node.inbox| > 1 && node.inbox[0].DeltaFrame? && !(node.inbox[0].delta <= s.members.marks)
              && exists id :: id in s.conns && s.conns[id].membersSent && id in fails
  {
    hide EstablishConnection, CheckConnections;
    var s := node.world.server;
    if exists id :: id in s.conns && s.conns[id].membersSent && id in fails {
      var id :| id in s.conns && s.conns[id].membersSent && id in fails;
      assert id in Ready(s) * fails;
    } else {
      assert Ready(s) * fails == {};
    }
  }

  /** The node adds `peer` once more and tells everyone, without connecting. */
  function Told(k: Sketch, peer: NodeId): Sketch {
    var mark := Added(peer, Dot(k.node, k.counter));
    k.(counter := k.counter + 1,
       marks := k.marks + {mark},
       sent := map id | id in k.sent :: k.sent[id] + [DeltaFrame({mark})])
  }

  lemma ToldLooks(w: World, k: Sketch, peer: NodeId)
    requires Looks(w, k) && k.faces.Keys == k.sent.Keys && (forall i | i in k.faces :: k.faces[i].membersSent)
    ensures Looks(Apply(w, Join(peer, {}, None)), Told(k, peer))
  {
    hide Valid, Sound, Append, Ready;
    var ev := Join(peer, {}, None);
    LooksFacts(w, k);
    ApplyKeeps(w, ev);
    AllReady(w.server.(members := w.server.members.AfterAdd(peer)), k.faces);
    var frame := DeltaFrame({Added(peer, Dot(k.node, k.counter))});
    AppendToAll(w.sent, frame);
    assert Step(w.server, ev).sent == map id | id in w.sent.Keys :: frame;
  }

  lemma AllReady(s: Server, faces: map<Id, Face>)
    requires HasFaces(s.conns, faces) && (forall i | i in faces :: faces[i].membersSent)
    ensures Ready(s) == faces.Keys && Ready(s) - {} == faces.Keys && Ready(s) * {} == {}
  {
    forall i | i in s.conns ensures s.conns[i].membersSent {
      assert FaceOf(s.conns[i]) == faces[i];
    }
  }

  lemma AppendToAll(sent: map<Id, seq<Frame>>, frame: Frame)
    ensures Append(sent, map id | id in sent.Keys :: frame) == map id | id in sent :: sent[id] + [frame]
  {
  }

  lemma Tells(net: Net, ks: map<NodeId, Sketch>, done: map<NodeId, map<Id, nat>>, at: NodeId, peer: NodeId)
    returns (net': Net)
    requires Shows(net, ks, done) && at in ks && ks[at].faces.Keys == ks[at].sent.Keys
    requires forall i | i in ks[at].faces :: ks[at].faces[i].membersSent
    ensures Shows(net', ks[at := Told(ks[at], peer)], done)
    ensures net'.peer == net.peer && net'.clients == net.clients && net'.log == net.log
  {
    hide Shows, Reachable, Looks, Valid, Sound, Apply;
    NodeFacts(net, ks, done, at);
    LooksFacts(net.nodes[at].world, ks[at]);
    ToldLooks(net.nodes[at].world, ks[at], peer);
    net' := ActingShows(net, ks, done, at, Join(peer, {}, None), Told(ks[at], peer));
    assert FreshEnds(at, ks[at].ids, ks[at].ids) == {};
  }

  /** `n` has greeted `m` on both connections and then told it two deltas. */
  function Teller(m: NodeId, n: NodeId): Sketch {
    Told(Told(Called(n), m), m)
  }

  function News(m: NodeId, n: NodeId, counter: nat): Frame {
    DeltaFrame({Added(m, Dot(n, counter))})
  }

  lemma TellerFacts(m: NodeId, n: NodeId)
    requires m != n
    ensures var k := Called(n);
            && k.node == n && k.faces.Keys == {1, 2} && k.faces[1].membersSent && k.faces[2].membersSent
            && k.sent.Keys == {1, 2} && Told(k, m).sent.Keys == {1, 2} && Teller(m, n).sent.Keys == {1, 2}
            && Teller(m, n).sent[1] == [MembersFrame(n, k.marks), News(m, n, 1), News(m, n, 2)]
            && Teller(m, n).node == n
    ensures var k := Caller(m, n);
            && k.node == m && k.est == map[] && k.faces.Keys == {1, 2}
            && k.faces[1].membersSent && k.faces[2].membersSent
            && PeersAmong(k.faces, {m, n}) && !(News(m, n, 1).delta <= k.marks + Called(n).marks)
  {
    hide Caller, Called, Teller, Told, News, PeersAmong;
    TellerTold(m, n);
    CallerUnaware(m, n);
  }

  lemma TellerTold(m: NodeId, n: NodeId)
    requires m != n
    ensures var k := Called(n);
            && k.node == n && k.faces.Keys == {1, 2} && k.faces[1].membersSent && k.faces[2].membersSent
            && k.sent.Keys == {1, 2} && Told(k, m).sent.Keys == {1, 2} && Teller(m, n).sent.Keys == {1, 2}
            && Teller(m, n).sent[1] == [MembersFrame(n, k.marks), News(m, n, 1), News(m, n, 2)]
            && Teller(m, n).node == n
  {
  }

  lemma CallerUnaware(m: NodeId, n: NodeId)
    requires m != n
    ensures var k := Caller(m, n);
            && k.node == m && k.est == map[] && k.faces.Keys == {1, 2}
            && k.faces[1].membersSent && k.faces[2].membersSent
            && PeersAmong(k.faces, {m, n}) && !(News(m, n, 1).delta <= k.marks + Called(n).marks)
  {
    var mark := Added(m, Dot(n, 1));
    assert mark in News(m, n, 1).delta && mark !in Caller(m, n).marks + Called(n).marks;
  }

  lemma ToldTwice(m: NodeId, n: NodeId) returns (net: Net)
    requires m != n
    ensures Shows(net, map[m := Caller(m, n), n := Teller(m, n)], map[m := map[], n := map[]])
    ensures net.peer == Wires(m, n)
  {
    hide Shows, Caller, Called;
    TellerFacts(m, n);
    var none: map<NodeId, map<Id, nat>> := map[m := map[], n := map[]];
    var km, kn := Caller(m, n), Called(n);
    net := TwoConnections(m, n);
    net := Tells(net, map[m := km, n := kn], none, n, m);
    Replaced(m, n, km, kn, km, Told(kn, m));
    net := Tells(net, map[m := km, n := Told(kn, m)], none, n, m);
    Replaced(m, n, km, Told(kn, m), km, Teller(m, n));
  }

  /** A run at whose end `m` has read two deltas from connection 1 and has two connections to tell. */
  lemma TwoDeltasRead(m: NodeId, n: NodeId) returns (net: Net)
    requires m != n
    ensures Reachable(net) && m in net.nodes && net.nodes[m].inboxId == 1
    ensures net.nodes[m].inbox == [News(m, n, 1), News(m, n, 2)]
    ensures Looks(net.nodes[m].world, GreetedCallerSketch(m, n))
  {
    hide Shows, Reachable, Looks, Valid, Sound, Apply, Step, Caller, Called, Teller, AddsAll, PeersAmong, Sent,
         News, Told;
    TellerFacts(m, n);
    Adds(m, n);
    var km, kt := Caller(m, n), Teller(m, n);
    var ks, none: map<NodeId, map<Id, nat>> := map[m := km, n := kt], map[m := map[], n := map[]];
    net := ToldTwice(m, n);
    NodeFacts(net, ks, none, m);
    var w := net.nodes[m].world;
    CanRead(net, ks, none, m, 1, End(n, 1));
    LooksFacts(w, km);
    var greeting := MembersFrame(n, Called(n).marks);
    var ev := Got(1, greeting, {}, map[]);
    FirstGreetingLooks(w, km, 1, n, Called(n).marks, {m, n});
    LooksFacts(Apply(w, ev), Greeted(km, 1, n, Called(n).marks));
    NoErrors(w.server, ev);
    var frames := kt.sent[1];
    net := ReadingDoes(net, m, 1, End(n, 1), frames);
    net := HandlingDoes(net, m, ev);
    assert frames[1..] == [News(m, n, 1), News(m, n, 2)];
  }

  /** `m` has read two deltas from connection 1, and handling the first of them fails on connection 2 only. */
  ghost predicate LosesHealthyInbox(net: Net, m: NodeId, n: NodeId) {
    && Enabled(net, Handling(m, {2}, map[]))
    && net.nodes[m].inbox == [News(m, n, 1), News(m, n, 2)] && net.nodes[m].inboxId == 1
    && Sound(net.nodes[m].world.server)
    && var node := HandledNode(net.nodes[m], HandlingEvent(net.nodes[m], {2}, map[]));
       && node.inbox == [] && node.world.failed == {2}
       && 1 in node.world.server.conns && n in node.world.server.est && node.world.server.est[n] == 1
  }

  /** A run in which a write error on connection 2 loses a message read from connection 1, which has no error. */
  lemma HealthyInboxLost(m: NodeId, n: NodeId) returns (net: Net)
    requires m != n
    ensures Reachable(net) && LosesHealthyInbox(net, m, n)
  {
    hide Reachable, LosesHealthyInbox, Looks, News, GreetedCallerSketch;
    net := TwoDeltasRead(m, n);
    LostInbox(net, m, n);
  }

  lemma LostInbox(net: Net, m: NodeId, n: NodeId)
    requires m != n && m in net.nodes && net.nodes[m].inboxId == 1
    requires net.nodes[m].inbox == [News(m, n, 1), News(m, n, 2)]
    requires Looks(net.nodes[m].world, GreetedCallerSketch(m, n))
    ensures LosesHealthyInbox(net, m, n)
  {
    hide Caller, Called, Looks, Valid, Sound, Apply, HandledNode, LosesHealthyInbox, Greeted;
    GreetedCaller(m, n);
    var k := GreetedCallerSketch(m, n);
    LooksFacts(net.nodes[m].world, k);
    assert 1 in net.nodes[m].world.server.conns;
    RestLost(net.nodes[m], k, {2});
    LostAll(net, m, n, k);
  }

  lemma LostAll(net: Net, m: NodeId, n: NodeId, k: Sketch)
    requires m in net.nodes && net.nodes[m].inboxId == 1 && net.nodes[m].inbox == [News(m, n, 1), News(m, n, 2)]
    requires Valid(net.nodes[m].world.server) && Sound(net.nodes[m].world.server) && k.est == map[n := 1]
    requires var node' := HandledNode(net.nodes[m], HandlingEvent(net.nodes[m], {2}, map[]));
             && node'.inbox == [] && node'.world.failed == {2}
             && 1 in node'.world.server.conns && node'.world.server.est == k.est
    ensures LosesHealthyInbox(net, m, n)
  {
    hide Valid, Sound, HandledNode, News;
  }

  function GreetedCallerSketch(m: NodeId, n: NodeId): Sketch {
    Greeted(Caller(m, n), 1, n, Called(n).marks)
  }

  lemma GreetedCaller(m: NodeId, n: NodeId)
    requires m != n
    ensures var k := GreetedCallerSketch(m, n);
            && k.faces.Keys == {1, 2} && k.est == map[n := 1] && (forall i | i in k.faces :: k.faces[i].membersSent)
            && !(News(m, n, 1).delta <= k.marks) && News(m, n, 1).DeltaFrame?
  {
    TellerFacts(m, n);
  }

  /** Handling a delta that is news, when `fails` are connections to be told. */
  lemma RestLost(node: Node, k: Sketch, fails: set<Id>)
    requires Looks(node.world, k) && Sound(node.world.server) && node.inbox != [] && node.inbox[0].DeltaFrame?
    requires !(node.inbox[0].delta <= k.marks) && fails != {} && fails <= k.faces.Keys
    requires forall i | i in k.faces :: k.faces[i].membersSent
    ensures var node' := HandledNode(node, HandlingEvent(node, fails, map[]));
            && node'.inbox == [] && node'.world.failed == fails
            && node'.world.server.conns == node.world.server.conns && node'.world.server.est == k.est
  {
    hide Valid, Sound, Append, Ready, EstablishConnection, CheckConnections;
    var s := node.world.server;
    AllReady(s.(members := s.members.Joined(node.inbox[0].delta)), k.faces);
    assert k.faces.Keys * fails == fails;
  }
}
