/** A cluster: one server per node, connections between them, and frames in flight. Every action is
    one event at one node. Connections are first-in first-out; nothing forces a frame to arrive. */
module Network {
  import opened Ids
  import opened Messages
  import opened ClusterState

  /** One end of a connection: the node it belongs to and that node's socket id for it. */
  datatype End = End(node: NodeId, id: Id)

  /** A node with the messages it has read from `inboxId` and not handled yet. `done` counts, per
      connection, the frames from the far end that are handled or lost to an error. */
  datatype Node = Node(world: World, inbox: seq<Frame>, inboxId: Id, done: map<Id, nat>) {
    function Done(id: Id): nat {
      if id in done then done[id] else 0
    }
  }

  /** What happened, in order. */
  datatype Note =
    | Handled(at: End, frame: Frame)
    | Delivered(node: NodeId, envelope: Envelope<Payload>)
    | DuplicateClosed(closed: End, kept: End)

  /** `peer` joins the two ends of each accepted connection, `clients` are the ends on the side that
      connected. */
  datatype Net = Net(nodes: map<NodeId, Node>, peer: map<End, End>, clients: set<End>, log: seq<Note>)

  datatype Action =
    | Accepting(at: NodeId, id: Id, client: End, ok: bool)
    | Acting(at: NodeId, ev: Event)
    | Reading(at: NodeId, id: Id, count: nat)
    | Handling(at: NodeId, fails: set<Id>, connected: map<Id, NodeId>)

  /** All frames that end `e` has queued so far. */
  function Sent(net: Net, e: End): seq<Frame> {
    if e.node in net.nodes then net.nodes[e.node].world.Sent(e.id) else []
  }

  /** The node that opened the connection of which `e` is one end. */
  function Opener(net: Net, e: End): NodeId
    requires e in net.clients || e in net.peer
  {
    if e in net.clients then e.node else net.peer[e].node
  }

  ghost predicate Enabled(net: Net, a: Action) {
    && a.at in net.nodes
    && var node := net.nodes[a.at];
       var s := node.world.server;
       && Valid(s)
       && match a
          case Accepting(at, id, client, _) =>
            && node.inbox == []
            && id !in s.ids
            && client in net.clients && client !in net.peer
            && client.node != at
          case Acting(_, ev) =>
            && node.inbox == []
            && !ev.Accept? && !ev.Got?
            && Allowed(s, ev)
          case Reading(at, id, count) =>
            && node.inbox == []
            && id in s.conns && s.conns[id].membersSent
            && End(at, id) in net.peer
            && node.Done(id) + count <= |Sent(net, net.peer[End(at, id)])|
          case Handling(_, _, connected) =>
            node.inbox != [] && FreshIds(s, connected)
  }

  function FreshEnds(at: NodeId, before: set<Id>, after: set<Id>): set<End> {
    set id | id in after - before :: End(at, id)
  }

  /** What handling the first message of the inbox reports. */
  function Notes(at: NodeId, s: Server, id: Id, frame: Frame): seq<Note> {
    [Handled(End(at, id), frame)] +
    match frame
    case MembersFrame(from, _) =>
      (match ChooseConnectionToClose(s, id, from)
       case None => []
       case Some(close) =>
         [DuplicateClosed(End(at, close), End(at, if close == id && from in s.est then s.est[from] else id))])
    case EnvelopeFrame(e) => [Delivered(at, e)]
    case _ => []
  }

  function WithNode(net: Net, at: NodeId, node: Node): Net {
    net.(nodes := net.nodes[at := node])
  }

  function HandlingEvent(node: Node, fails: set<Id>, connected: map<Id, NodeId>): Event
    requires node.inbox != []
  {
    Got(node.inboxId, node.inbox[0], fails, connected)
  }

  /** The node after handling its first message; an error loses the rest of the inbox. */
  function HandledNode(node: Node, ev: Event): Node
    requires node.inbox != [] && Sound(node.world.server)
  {
    var id := node.inboxId;
    var world := Apply(node.world, ev);
    if Step(node.world.server, ev).errs == {}
    then Node(world, node.inbox[1..], id, node.done[id := node.Done(id) + 1])
    else Node(world, [], id, node.done[id := node.Done(id) + |node.inbox|])
  }

  ghost function DoAccept(net: Net, at: NodeId, id: Id, client: End, ok: bool): Net
    requires at in net.nodes && Sound(net.nodes[at].world.server)
  {
    var node := net.nodes[at];
    WithNode(net, at, node.(world := Apply(node.world, Accept(id, ok))))
      .(peer := net.peer[End(at, id) := client][client := End(at, id)])
  }

  ghost function DoEvent(net: Net, at: NodeId, ev: Event): Net
    requires at in net.nodes && Sound(net.nodes[at].world.server)
  {
    var node := net.nodes[at];
    var world := Apply(node.world, ev);
    WithNode(net, at, node.(world := world))
      .(clients := net.clients + FreshEnds(at, node.world.server.ids, world.server.ids))
  }

  ghost function DoRead(net: Net, at: NodeId, id: Id, count: nat): Net
    requires at in net.nodes && End(at, id) in net.peer
    requires net.nodes[at].Done(id) + count <= |Sent(net, net.peer[End(at, id)])|
  {
    var node := net.nodes[at];
    var from := Sent(net, net.peer[End(at, id)]);
    WithNode(net, at, node.(inbox := from[node.Done(id)..node.Done(id) + count], inboxId := id))
  }

  ghost function DoHandle(net: Net, at: NodeId, fails: set<Id>, connected: map<Id, NodeId>): Net
    requires at in net.nodes && Sound(net.nodes[at].world.server) && net.nodes[at].inbox != []
  {
    var node := net.nodes[at];
    var s := node.world.server;
    var node' := HandledNode(node, HandlingEvent(node, fails, connected));
    WithNode(net, at, node')
      .(clients := net.clients + FreshEnds(at, s.ids, node'.world.server.ids),
        log := net.log + Notes(at, s, node.inboxId, node.inbox[0]))
  }

  ghost function Do(net: Net, a: Action): Net
    requires Enabled(net, a)
  {
    match a
    case Accepting(at, id, client, ok) => DoAccept(net, at, id, client, ok)
    case Acting(at, ev) => DoEvent(net, at, ev)
    case Reading(at, id, count) => DoRead(net, at, id, count)
    case Handling(at, fails, connected) => DoHandle(net, at, fails, connected)
  }

  /** Every node starts alone, without connections. */
  ghost predicate Initial(net: Net) {
    && net.peer == map[] && net.clients == {} && net.log == []
    && forall m | m in net.nodes ::
         var node := net.nodes[m];
         && node.world.server.node == m && Valid(node.world.server)
         && node.world.server.conns == map[] && node.world.server.ids == {}
         && node.world.sent == map[] && node.world.failed == {} && node.world.up == []
         && node.inbox == [] && node.done == map[]
  }

  ghost predicate IsNetRun(net: Net, actions: seq<Action>)
    decreases actions
  {
    actions == [] || (Enabled(net, actions[0]) && IsNetRun(Do(net, actions[0]), actions[1..]))
  }

  ghost function NetRun(net: Net, actions: seq<Action>): Net
    requires IsNetRun(net, actions)
    decreases actions
  {
    if actions == [] then net else NetRun(Do(net, actions[0]), actions[1..])
  }
}
