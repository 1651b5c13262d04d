/** A run after which two settled neighbours differ on who is a member, with nothing left to happen: two nodes
    join a third at the same time. */
module NeighboursExample {
  import opened Base
  import opened Ids
  import opened Membership
  import opened ClusterState
  import opened Network
  import opened NetworkTheorems
  import opened NetworkExamples
  import opened Neighbours

  /** Three nodes that look like this. */
  function Trio<V>(a: NodeId, b: NodeId, c: NodeId, x: V, y: V, z: V): map<NodeId, V> {
    map[a := x, b := y, c := z]
  }

  lemma TrioWith<V>(a: NodeId, b: NodeId, c: NodeId, x: V, y: V, z: V, v: V)
    requires a != b && b != c && a != c
    ensures Trio(a, b, c, x, y, z)[a := v] == Trio(a, b, c, v, y, z)
    ensures Trio(a, b, c, x, y, z)[b := v] == Trio(a, b, c, x, v, z)
    ensures Trio(a, b, c, x, y, z)[c := v] == Trio(a, b, c, x, y, v)
    ensures var t := Trio(a, b, c, x, y, z); t.Keys == {a, b, c} && t[a] == x && t[b] == y && t[c] == z
  {
  }

  /** `m` has opened connection 1 to `hub` and greeted on it. */
  function Guest(m: NodeId, hub: NodeId): Sketch {
    Greeting(Joined(Fresh(m), hub, 1), 1)
  }

  function Spokes(a: NodeId, hub: NodeId, c: NodeId): map<End, End> {
    map[End(hub, 1) := End(a, 1), End(a, 1) := End(hub, 1)][End(hub, 2) := End(c, 1)][End(c, 1) := End(hub, 2)]
  }

  lemma FreshFacts(m: NodeId)
    ensures Fresh(m).ids == {} && Fresh(m).sent == map[]
    ensures Accepted(Fresh(m), 1).ids == {1} && Accepted(Fresh(m), 1).sent.Keys == {1}
    ensures Accepted(Accepted(Fresh(m), 1), 2) == Called(m)
  {
  }

  /** Both guests have joined the hub. */
  lemma GuestsJoined(a: NodeId, hub: NodeId, c: NodeId) returns (net: Net)
    requires a != hub && hub != c && a != c
    ensures Shows(net, Trio(a, hub, c, Joined(Fresh(a), hub, 1), Fresh(hub), Joined(Fresh(c), hub, 1)),
                  Trio(a, hub, c, map[], map[], map[]))
    ensures net.peer == map[] && net.clients == {End(a, 1), End(c, 1)} && net.log == []
  {
    hide Shows, Trio, Joined;
    var none: map<Id, nat> := map[];
    var d := Trio(a, hub, c, none, none, none);
    var a0, a1, c0, c1, h := Fresh(a), Joined(Fresh(a), hub, 1), Fresh(c), Joined(Fresh(c), hub, 1), Fresh(hub);
    TrioWith(a, hub, c, none, none, none, none);
    TrioWith(a, hub, c, a0, h, c0, a1);
    net := FreshNet(Trio(a, hub, c, a0, h, c0), d);
    net := Joins(net, Trio(a, hub, c, a0, h, c0), d, a, hub, 1);
    TrioWith(a, hub, c, a1, h, c0, c1);
    net := Joins(net, Trio(a, hub, c, a1, h, c0), d, c, hub, 1);
  }

  /** The hub has accepted both. */
  lemma GuestsAccepted(a: NodeId, hub: NodeId, c: NodeId) returns (net: Net)
    requires a != hub && hub != c && a != c
    ensures Shows(net, Trio(a, hub, c, Joined(Fresh(a), hub, 1), Called(hub), Joined(Fresh(c), hub, 1)),
                  Trio(a, hub, c, map[], map[], map[]))
    ensures net.peer == Spokes(a, hub, c) && net.log == []
  {
    hide Shows, Trio, Fresh, Joined, Accepted, Called;
    FreshFacts(hub);
    var none: map<Id, nat> := map[];
    var d := Trio(a, hub, c, none, none, none);
    var a1, c1, h0, h1 := Joined(Fresh(a), hub, 1), Joined(Fresh(c), hub, 1), Fresh(hub), Accepted(Fresh(hub), 1);
    net := GuestsJoined(a, hub, c);
    TrioWith(a, hub, c, a1, h0, c1, h1);
    net := Accepts(net, Trio(a, hub, c, a1, h0, c1), d, hub, 1, End(a, 1));
    TrioWith(a, hub, c, a1, h1, c1, Called(hub));
    net := Accepts(net, Trio(a, hub, c, a1, h1, c1), d, hub, 2, End(c, 1));
  }

  /** Everybody has greeted. */
  lemma GuestsGreeted(a: NodeId, hub: NodeId, c: NodeId) returns (net: Net)
    requires a != hub && hub != c && a != c
    ensures Shows(net, Trio(a, hub, c, Guest(a, hub), Called(hub), Guest(c, hub)),
                  Trio(a, hub, c, map[], map[], map[]))
    ensures net.peer == Spokes(a, hub, c) && net.log == []
  {
    hide Shows, Trio, Called;
    var none: map<Id, nat> := map[];
    var d := Trio(a, hub, c, none, none, none);
    var a1, c1, h := Joined(Fresh(a), hub, 1), Joined(Fresh(c), hub, 1), Called(hub);
    net := GuestsAccepted(a, hub, c);
    TrioWith(a, hub, c, a1, h, c1, Guest(a, hub));
    net := Greets(net, Trio(a, hub, c, a1, h, c1), d, a, 1);
    TrioWith(a, hub, c, Guest(a, hub), h, c1, Guest(c, hub));
    net := Greets(net, Trio(a, hub, c, Guest(a, hub), h, c1), d, c, 1);
  }

  /** A guest that has heard the hub, and the hub that has heard both guests. */
  function Settler(m: NodeId, hub: NodeId): Sketch {
    Greeted(Guest(m, hub), 1, hub, Called(hub).marks)
  }

  function HubOfOne(a: NodeId, hub: NodeId): Sketch {
    Greeted(Called(hub), 1, a, Guest(a, hub).marks)
  }

  function HubOfTwo(a: NodeId, hub: NodeId, c: NodeId): Sketch {
    Greeted(HubOfOne(a, hub), 2, c, Guest(c, hub).marks)
  }

  /** What the greetings need to know. */
  lemma GuestFacts(m: NodeId, hub: NodeId)
    requires m != hub
    ensures var k := Guest(m, hub);
            && k.node == m && k.est == map[] && k.faces == map[1 := Face(Some(hub), true, true)]
            && k.marks == {Added(m, Dot(m, 0)), Added(hub, Dot(m, 1))}
            && k.sent == map[1 := [MembersFrame(m, k.marks)]]
            && AddsAll(k.marks + Called(hub).marks, {m, hub}) && PeersAmong(k.faces, {m, hub})
    ensures Settler(m, hub).sent == Guest(m, hub).sent
    ensures Called(hub).marks == {Added(hub, Dot(hub, 0))}
  {
    var all := Guest(m, hub).marks + Called(hub).marks;
    assert Added(m, Dot(m, 0)) in all && Added(hub, Dot(m, 1)) in all;
  }

  lemma HubFacts(a: NodeId, hub: NodeId, c: NodeId)
    requires a != hub && hub != c && a != c
    ensures var k := Called(hub);
            && k.node == hub && k.est == map[] && k.faces.Keys == {1, 2}
            && k.faces[1].membersSent && k.faces[2].membersSent
            && k.sent == map[1 := [MembersFrame(hub, k.marks)], 2 := [MembersFrame(hub, k.marks)]]
            && PeersAmong(k.faces, {a, hub, c})
            && AddsAll(k.marks + Guest(a, hub).marks, {a, hub})
            && HubOfOne(a, hub).sent == k.sent && HubOfTwo(a, hub, c).sent == k.sent
    ensures var k := HubOfOne(a, hub);
            && k.node == hub && k.est == map[a := 1] && k.faces.Keys == {1, 2} && k.faces[2].membersSent
            && PeersAmong(k.faces, {a, hub, c}) && PeersAmong(Called(hub).faces, {a, hub})
            && AddsAll(k.marks + Guest(c, hub).marks, {a, hub, c})
  {
    var one := Called(hub).marks + Guest(a, hub).marks;
    assert Added(a, Dot(a, 0)) in one && Added(hub, Dot(hub, 0)) in one;
    var two := one + Guest(c, hub).marks;
    assert Added(a, Dot(a, 0)) in two && Added(hub, Dot(hub, 0)) in two && Added(c, Dot(c, 0)) in two;
  }

  /** The notes that the guests and the hub leave. */
  function GuestNotes(a: NodeId, hub: NodeId, c: NodeId): seq<Note> {
    [Handled(End(a, 1), MembersFrame(hub, Called(hub).marks)),
     Handled(End(c, 1), MembersFrame(hub, Called(hub).marks))]
  }

  function HubNotes(a: NodeId, hub: NodeId, c: NodeId): seq<Note> {
    [Handled(End(hub, 1), MembersFrame(a, Guest(a, hub).marks)),
     Handled(End(hub, 2), MembersFrame(c, Guest(c, hub).marks))]
  }

  lemma GuestsHear(a: NodeId, hub: NodeId, c: NodeId) returns (net: Net)
    requires a != hub && hub != c && a != c
    ensures Shows(net, Trio(a, hub, c, Settler(a, hub), Called(hub), Settler(c, hub)),
                  Trio(a, hub, c, map[1 := 1], map[], map[1 := 1]))
    ensures net.peer == Spokes(a, hub, c) && net.log == GuestNotes(a, hub, c)
  {
    hide Shows, Trio, Guest, Called, AddsAll, PeersAmong;
    GuestFacts(a, hub);
    GuestFacts(c, hub);
    HubFacts(a, hub, c);
    var none, one: map<Id, nat> := map[], map[1 := 1];
    var ka, kh, kc := Guest(a, hub), Called(hub), Guest(c, hub);
    TrioWith(a, hub, c, ka, kh, kc, Settler(a, hub));
    TrioWith(a, hub, c, none, none, none, one);
    net := GuestsGreeted(a, hub, c);
    net := HearsFirst(net, Trio(a, hub, c, ka, kh, kc), Trio(a, hub, c, none, none, none), a, 1, End(hub, 1),
                      hub, kh.marks, {a, hub});
    TrioWith(a, hub, c, Settler(a, hub), kh, kc, Settler(c, hub));
    TrioWith(a, hub, c, one, none, none, one);
    net := HearsFirst(net, Trio(a, hub, c, Settler(a, hub), kh, kc), Trio(a, hub, c, one, none, none), c, 1,
                      End(hub, 2), hub, kh.marks, {c, hub});
  }

  lemma HubHearsOne(a: NodeId, hub: NodeId, c: NodeId) returns (net: Net)
    requires a != hub && hub != c && a != c
    ensures Shows(net, Trio(a, hub, c, Settler(a, hub), HubOfOne(a, hub), Settler(c, hub)),
                  Trio(a, hub, c, map[1 := 1], map[1 := 1], map[1 := 1]))
    ensures net.peer == Spokes(a, hub, c) && net.log == GuestNotes(a, hub, c) + HubNotes(a, hub, c)[..1]
  {
    hide Shows, Trio, Guest, Called, HubOfOne, HubOfTwo, Settler, AddsAll, PeersAmong;
    GuestFacts(a, hub);
    HubFacts(a, hub, c);
    HubOfOneIs(a, hub);
    var none, one: map<Id, nat> := map[], map[1 := 1];
    var sa, sc, h0 := Settler(a, hub), Settler(c, hub), Called(hub);
    net := GuestsHear(a, hub, c);
    TrioWith(a, hub, c, sa, h0, sc, HubOfOne(a, hub));
    TrioWith(a, hub, c, one, none, one, one);
    net := HearsFirst(net, Trio(a, hub, c, sa, h0, sc), Trio(a, hub, c, one, none, one), hub, 1, End(a, 1),
                      a, Guest(a, hub).marks, {a, hub});
  }

  lemma HubOfOneIs(a: NodeId, hub: NodeId)
    ensures 1 in Called(hub).faces && HubOfOne(a, hub) == Greeted(Called(hub), 1, a, Guest(a, hub).marks)
  {
  }

  lemma HubOfTwoIs(a: NodeId, hub: NodeId, c: NodeId)
    ensures 2 in HubOfOne(a, hub).faces
    ensures HubOfTwo(a, hub, c) == Greeted(HubOfOne(a, hub), 2, c, Guest(c, hub).marks)
  {
  }

  lemma HubHearsBoth(a: NodeId, hub: NodeId, c: NodeId) returns (net: Net)
    requires a != hub && hub != c && a != c
    ensures Shows(net, Trio(a, hub, c, Settler(a, hub), HubOfTwo(a, hub, c), Settler(c, hub)),
                  Trio(a, hub, c, map[1 := 1], map[1 := 1, 2 := 1], map[1 := 1]))
    ensures net.peer == Spokes(a, hub, c) && net.log == GuestNotes(a, hub, c) + HubNotes(a, hub, c)
  {
    hide Shows, Trio, Guest, Called, HubOfOne, HubOfTwo, Settler, AddsAll, PeersAmong;
    GuestFacts(c, hub);
    HubFacts(a, hub, c);
    HubOfTwoIs(a, hub, c);
    var one, two: map<Id, nat> := map[1 := 1], map[1 := 1, 2 := 1];
    var sa, sc, h1 := Settler(a, hub), Settler(c, hub), HubOfOne(a, hub);
    net := HubHearsOne(a, hub, c);
    TrioWith(a, hub, c, sa, h1, sc, HubOfTwo(a, hub, c));
    TrioWith(a, hub, c, one, one, one, two);
    net := HearsFirst(net, Trio(a, hub, c, sa, h1, sc), Trio(a, hub, c, one, one, one), hub, 2, End(c, 1),
                      c, Guest(c, hub).marks, {a, hub, c});
  }

  // ----- nothing is left to happen

  /** A node that knows these nodes as members, and has a connection to each other one of them. */
  lemma NodeContent(w: World, k: Sketch, nodes: set<NodeId>)
    requires Looks(w, k) && AddsAll(k.marks, nodes) && (forall mark | mark in k.marks :: mark.node in nodes)
    requires forall n | n in nodes && n != k.node :: exists i :: i in k.faces && k.faces[i].node == Some(n)
    ensures w.server.members.All() == nodes && ToConnect(w.server) == {}
  {
    AddsAreMembers(w.server.members, nodes);
    forall n | n in nodes && n != k.node ensures n in KnownPeers(w.server) {
      var i :| i in k.faces && k.faces[i].node == Some(n);
      assert FaceOf(w.server.conns[i]) == k.faces[i];
    }
  }

  lemma SettlerFacts(m: NodeId, hub: NodeId)
    requires m != hub
    ensures var k := Settler(m, hub);
            && k.node == m && k.est == map[hub := 1] && k.faces == map[1 := Face(Some(hub), true, true)]
            && k.sent == map[1 := [MembersFrame(m, Guest(m, hub).marks)]]
            && AddsAll(k.marks, {m, hub}) && (forall mark | mark in k.marks :: mark.node in {m, hub})
  {
    GuestFacts(m, hub);
  }

  lemma HubOfTwoFacts(a: NodeId, hub: NodeId, c: NodeId)
    requires a != hub && hub != c && a != c
    ensures var k := HubOfTwo(a, hub, c);
            && k.node == hub && k.est == map[a := 1, c := 2]
            && k.faces == map[1 := Face(Some(a), false, true), 2 := Face(Some(c), false, true)]
            && k.sent == map[1 := [MembersFrame(hub, Called(hub).marks)], 2 := [MembersFrame(hub, Called(hub).marks)]]
  {
    hide AddsAll, PeersAmong, Guest;
    HubFacts(a, hub, c);
  }

  lemma HubOfTwoMarks(a: NodeId, hub: NodeId, c: NodeId)
    requires a != hub && hub != c && a != c
    ensures var k := HubOfTwo(a, hub, c);
            AddsAll(k.marks, {a, hub, c}) && (forall mark | mark in k.marks :: mark.node in {a, hub, c})
  {
    hide Guest, Called, AddsAll;
    HubFacts(a, hub, c);
    GuestFacts(a, hub);
    GuestFacts(c, hub);
    HubOfOneIs(a, hub);
    HubOfTwoIs(a, hub, c);
  }

  /** Nothing is waiting, nobody wants another connection, and everything sent on any connection was handled. */
  ghost predicate AtRest(net: Net) {
    && (forall m | m in net.nodes ::
          && net.nodes[m].inbox == [] && net.nodes[m].world.failed == {}
          && ToConnect(net.nodes[m].world.server) == {})
    && (forall e | e in net.peer :: Delivers(net, e))
  }

  /** Each of two nodes has the other established, on the two ends of one connection. */
  ghost predicate Neighbouring(net: Net, e: End) {
    && e in net.peer && net.peer[e] in net.peer && net.peer[net.peer[e]] == e
    && e.node in net.nodes && net.peer[e].node in net.nodes
    && var far := net.peer[e];
       && far.node in net.nodes[e.node].world.server.est && net.nodes[e.node].world.server.est[far.node] == e.id
       && e.node in net.nodes[far.node].world.server.est && net.nodes[far.node].world.server.est[e.node] == far.id
  }

  lemma OneDelivers(net: Net, k: Sketch, e: End, frame: Frame)
    requires e.node in net.nodes && Looks(net.nodes[e.node].world, k)
    requires e.id in k.faces && e.id in k.sent && k.sent[e.id] == [frame]
    requires e in net.peer && Handled(net.peer[e], frame) in net.log
    ensures Delivers(net, e)
  {
    hide Valid;
  }

  /** What holds at the end of the run, node by node. */
  ghost predicate Ends(net: Net, a: NodeId, hub: NodeId, c: NodeId) {
    && Reachable(net) && net.nodes.Keys == {a, hub, c} && net.peer == Spokes(a, hub, c)
    && net.log == GuestNotes(a, hub, c) + HubNotes(a, hub, c)
    && NodeEnds(net.nodes[a], Settler(a, hub))
    && NodeEnds(net.nodes[hub], HubOfTwo(a, hub, c))
    && NodeEnds(net.nodes[c], Settler(c, hub))
  }

  ghost predicate NodeEnds(node: Node, k: Sketch) {
    Looks(node.world, k) && node.inbox == []
  }

  lemma RunEnds(a: NodeId, hub: NodeId, c: NodeId) returns (net: Net)
    requires a != hub && hub != c && a != c
    ensures Ends(net, a, hub, c)
  {
    hide Shows, Reachable, Trio, Looks, Settler, HubOfTwo;
    net := HubHearsBoth(a, hub, c);
    var one, two: map<Id, nat> := map[1 := 1], map[1 := 1, 2 := 1];
    var ks := Trio(a, hub, c, Settler(a, hub), HubOfTwo(a, hub, c), Settler(c, hub));
    var done := Trio(a, hub, c, one, two, one);
    TrioWith(a, hub, c, Settler(a, hub), HubOfTwo(a, hub, c), Settler(c, hub), Settler(a, hub));
    NodeFacts(net, ks, done, a);
    NodeFacts(net, ks, done, hub);
    NodeFacts(net, ks, done, c);
    ShowsNodes(net, ks, done);
  }

  lemma ShowsNodes(net: Net, ks: map<NodeId, Sketch>, done: map<NodeId, map<Id, nat>>)
    requires Shows(net, ks, done)
    ensures net.nodes.Keys == ks.Keys
  {
  }

  lemma AllDeliver(net: Net, a: NodeId, hub: NodeId, c: NodeId)
    requires a != hub && hub != c && a != c && Ends(net, a, hub, c)
    ensures forall e | e in net.peer :: Delivers(net, e)
  {
    hide Reachable, Looks, Delivers, Guest, Called, HubOfTwo, Settler;
    SettlerFacts(a, hub);
    SettlerFacts(c, hub);
    HubOfTwoFacts(a, hub, c);
    var guests, hubs := GuestNotes(a, hub, c), HubNotes(a, hub, c);
    assert guests[0] in net.log && guests[1] in net.log && hubs[0] in net.log && hubs[1] in net.log;
    OneDelivers(net, Settler(a, hub), End(a, 1), MembersFrame(a, Guest(a, hub).marks));
    OneDelivers(net, Settler(c, hub), End(c, 1), MembersFrame(c, Guest(c, hub).marks));
    OneDelivers(net, HubOfTwo(a, hub, c), End(hub, 1), MembersFrame(hub, Called(hub).marks));
    OneDelivers(net, HubOfTwo(a, hub, c), End(hub, 2), MembersFrame(hub, Called(hub).marks));
  }

  ghost predicate Content(node: Node, nodes: set<NodeId>, est: map<NodeId, Id>) {
    && node.inbox == [] && node.world.failed == {} && ToConnect(node.world.server) == {}
    && node.world.server.members.All() == nodes && node.world.server.est == est
  }

  lemma SettlerContent(node: Node, m: NodeId, hub: NodeId)
    requires m != hub && NodeEnds(node, Settler(m, hub))
    ensures Content(node, {m, hub}, map[hub := 1])
  {
    hide Looks, Settler, AddsAll, ToConnect, Members.All;
    var k := Settler(m, hub);
    SettlerFacts(m, hub);
    LooksFacts(node.world, k);
    assert k.faces[1].node == Some(hub);
    NodeContent(node.world, k, {m, hub});
  }

  lemma HubContent(node: Node, a: NodeId, hub: NodeId, c: NodeId)
    requires a != hub && hub != c && a != c && NodeEnds(node, HubOfTwo(a, hub, c))
    ensures Content(node, {a, hub, c}, map[a := 1, c := 2])
  {
    hide Looks, HubOfTwo, AddsAll, ToConnect, Members.All;
    var k := HubOfTwo(a, hub, c);
    HubOfTwoFacts(a, hub, c);
    HubOfTwoMarks(a, hub, c);
    LooksFacts(node.world, k);
    assert k.faces[1].node == Some(a) && k.faces[2].node == Some(c);
    NodeContent(node.world, k, {a, hub, c});
  }

  /** A run at whose end everything is at rest, the hub and `c` are settled neighbours, and the hub counts `a` as a
      member while `c` has never heard of it. */
  lemma NeighboursDisagree(a: NodeId, hub: NodeId, c: NodeId) returns (net: Net)
    requires a != hub && hub != c && a != c
    ensures Reachable(net) && AtRest(net) && Neighbouring(net, End(c, 1)) && net.peer[End(c, 1)] == End(hub, 2)
    ensures net.nodes[hub].world.server.members.All() == {a, hub, c}
    ensures net.nodes[c].world.server.members.All() == {hub, c}
  {
    hide Reachable, NodeEnds, Delivers, ToConnect, Members.All, Settler, HubOfTwo, GuestNotes, HubNotes;
    net := RunEnds(a, hub, c);
    AllDeliver(net, a, hub, c);
    SettlerContent(net.nodes[a], a, hub);
    SettlerContent(net.nodes[c], c, hub);
    HubContent(net.nodes[hub], a, hub, c);
  }
}
