/**
 * A network of nodes: links that come up at each end separately, frames in
 * flight, actions executed one at a time, and crashes between any two actions.
 */
module Network {
  import opened MeshTypes
  import opened ControlData
  import opened ControlModel
  import opened ControlSafety
  import opened NodeContract

  /** One end of a link incarnation; link ids are fresh within one boot of a node. */
  datatype End = End(node: NodeId, boot: nat, link: LinkId)

  datatype Flight = Flight(from: End, to: End, frame: ControlFrame)

  /**
   * `todo` holds the actions of the last event that are not executed yet, `table`
   * the routes last handed to the forwarder; `stored` survives crashes.
   */
  datatype Node = Node(plane: Plane, boot: nat, stored: nat, todo: seq<ControlAction>, table: map<NodeId, Route>)

  datatype Name = Name(origin: NodeId, version: Version)

  /** `issued` is history: every LSA originated since the last crash that could forget it. */
  datatype Net = Net(nodes: map<NodeId, Node>, peer: map<End, End>, dead: set<End>, wire: seq<Flight>, issued: map<Name, Lsa>)

  datatype Move =
    | Connect(a: End, b: End)
    | Cut(end: End)
    | Local(node: NodeId, now: Time, event: ControlEvent)
    | Deliver(index: nat, now: Time)
    | Execute(node: NodeId)
    | Lose(index: nat)
    | Crash(node: NodeId, epoch: nat)

  function Without(wire: seq<Flight>, i: nat): seq<Flight>
    requires i < |wire|
  {
    wire[..i] + wire[i + 1..]
  }

  /** The frame survives the size limits of the wire encoding. */
  predicate Encodable(frame: ControlFrame) {
    match frame
    case LsaFrame(lsa) => ValidLsa(lsa)
    case DigestFrame(entries) => |entries| <= MAX_DIGEST_ENTRIES
    case DigestReqFrame(origins) => |origins| <= MAX_DIGEST_REQ_ORIGINS
  }

  /** The events a node's surroundings may raise; frames only arrive through `Deliver`. */
  ghost predicate Allowed(net: Net, n: NodeId, event: ControlEvent)
    requires n in net.nodes
  {
    var node := net.nodes[n];
    match event
    case LinkUp(link, peer, cost) =>
      && End(n, node.boot, link) in net.peer && net.peer[End(n, node.boot, link)].node == peer
      && link !in node.plane.adjacencies
      && |Peers(LinksAfter(node.plane.adjacencies, event))| <= MAX_LSA_ADJACENCIES
    case LinkDown(link) => End(n, node.boot, link) in net.peer
    case Frame(_, _) => false
    case _ => true
  }

  function DeadAfter(net: Net, n: NodeId, event: ControlEvent): set<End>
    requires n in net.nodes
  {
    var e := if event.LinkDown? then End(n, net.nodes[n].boot, event.link) else End(n, 0, 0);
    if event.LinkDown? && e in net.peer then net.dead + {e, net.peer[e]} else net.dead
  }

  function IssuedAfter(net: Net, n: NodeId, q: Plane): map<Name, Lsa>
    requires n in net.nodes
  {
    if q.mySeq != net.nodes[n].plane.mySeq && IsActive(q.lsdb, n)
    then net.issued[Name(n, q.lsdb[n].version) := q.lsdb[n].state.lsa]
    else net.issued
  }

  /** Node `n` reacts to `event` with `r`; its actions are queued for execution. */
  function React(net: Net, n: NodeId, event: ControlEvent, r: Outcome, wire: seq<Flight>): Net
    requires n in net.nodes
  {
    var node := net.nodes[n];
    net.(nodes := net.nodes[n := node.(plane := r.plane, todo := r.actions)],
         dead := DeadAfter(net, n, event), wire := wire, issued := IssuedAfter(net, n, r.plane))
  }

  /** The node without its first action, which may write the disk or hand a table to the forwarder. */
  function Executed(node: Node): Node
    requires node.todo != []
  {
    var action := node.todo[0];
    node.(todo := node.todo[1..],
          stored := if action.PersistSeq? then action.number else node.stored,
          table := if action.PublishRoutes? then action.table.routes else node.table)
  }

  /** What the action puts on the wire. */
  function Sent(net: Net, n: NodeId, action: ControlAction): seq<Flight>
    requires n in net.nodes
  {
    if !action.Send? then []
    else
      var e := End(n, net.nodes[n].boot, action.link);
      if e in net.peer && Encodable(action.frame) then [Flight(e, net.peer[e], action.frame)] else []
  }

  function ExecuteAction(net: Net, n: NodeId): Net
    requires n in net.nodes && net.nodes[n].todo != []
  {
    net.(nodes := net.nodes[n := Executed(net.nodes[n])], wire := net.wire + Sent(net, n, net.nodes[n].todo[0]))
  }

  ghost predicate Touches(net: Net, n: NodeId, e: End) {
    e.node == n || (e in net.peer && net.peer[e].node == n)
  }

  /** Volatile state is lost, every link of the node dies, and numbering resumes after `stored`. */
  ghost function CrashNode(net: Net, n: NodeId, epoch: nat): Net
    requires n in net.nodes
  {
    var node := net.nodes[n];
    var kept := Version(node.plane.epoch, node.stored);
    net.(nodes := net.nodes[n := Node(NewPlane(n, epoch, node.stored), node.boot + 1, node.stored, [], map[])],
         dead := net.dead + (set e | e in net.peer && Touches(net, n, e)),
         issued := map m | m in net.issued && (m.origin == n ==> m.version.AtMost(kept)) :: net.issued[m])
  }

  /** Two unused ends of running nodes. */
  ghost predicate CanConnect(net: Net, a: End, b: End) {
    && a != b && a !in net.peer && b !in net.peer
    && a.node in net.nodes && net.nodes[a.node].boot == a.boot
    && b.node in net.nodes && net.nodes[b.node].boot == b.boot
  }

  function Connected(net: Net, a: End, b: End): Net {
    net.(peer := net.peer[a := b][b := a])
  }

  function CutOff(net: Net, e: End): Net
    requires e in net.peer
  {
    net.(dead := net.dead + {e, net.peer[e]})
  }

  /** A node handles its next input only when all earlier actions are executed. */
  ghost predicate Idle(net: Net, n: NodeId) {
    n in net.nodes && net.nodes[n].todo == [] && CountersLeft(net.nodes[n].plane)
  }

  ghost predicate Handles(net: Net, n: NodeId, now: Time, event: ControlEvent, wire: seq<Flight>, net': Net)
    requires n in net.nodes
  {
    var p := net.nodes[n].plane;
    PlaneOk(p) ==> net' == React(net, n, event, Handle(p, now, event), wire)
  }

  ghost predicate Next(net: Net, move: Move, net': Net) {
    match move
    case Connect(a, b) => CanConnect(net, a, b) && net' == Connected(net, a, b)
    case Cut(e) => e in net.peer && net' == CutOff(net, e)
    case Local(n, now, event) =>
      Idle(net, n) && Allowed(net, n, event) && Handles(net, n, now, event, net.wire, net')
    case Deliver(i, now) =>
      && i < |net.wire|
      && (var to := net.wire[i].to;
          && Idle(net, to.node)
          && net.nodes[to.node].boot == to.boot && to.link in net.nodes[to.node].plane.adjacencies
          && Handles(net, to.node, now, Frame(to.link, net.wire[i].frame), Without(net.wire, i), net'))
    case Execute(n) =>
      && n in net.nodes && net.nodes[n].todo != []
      && (net.nodes[n].todo[0].PersistSeq? ==> net.nodes[n].stored <= net.nodes[n].todo[0].number)
      && net' == ExecuteAction(net, n)
    case Lose(i) =>
      i < |net.wire| && net.wire[i].from in net.dead && net' == net.(wire := Without(net.wire, i))
    case Crash(n, epoch) =>
      n in net.nodes && net.nodes[n].plane.epoch <= epoch && net' == CrashNode(net, n, epoch)
  }

  /** Nodes that have just started, with nothing connected. */
  ghost predicate Init(net: Net) {
    && |net.nodes| <= MAX_LSDB_ENTRIES
    && (forall n :: n in net.nodes ==>
          net.nodes[n] == Node(NewPlane(n, net.nodes[n].plane.epoch, net.nodes[n].stored), 0, net.nodes[n].stored, [], map[]))
    && net.peer == map[] && net.dead == {} && net.wire == [] && net.issued == map[]
  }
}
