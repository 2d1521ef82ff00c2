/** Every move of the network keeps its invariant: authentic entries, persisted versions, covered links. */
module NetSafety {
  import opened MeshTypes
  import opened ControlData
  import opened ControlModel
  import opened ControlSafety
  import opened NodeContract
  import opened Network
  import opened NetInvariant
  import opened NetMoves

  /** A plane whose own LSA stays within the limits peers accept. */
  ghost predicate PlaneFine(p: Plane) {
    PlaneOk(p) && CacheOk(p) && |Peers(p.adjacencies)| <= MAX_LSA_ADJACENCIES
  }

  ghost predicate PlanesFine(net: Net) {
    forall n :: n in net.nodes ==> PlaneFine(net.nodes[n].plane)
  }

  /** The forwarder has the published routes, or the action that hands them over is still waiting. */
  ghost predicate Handed(node: Node) {
    && (forall t :: PublishRoutes(t) in node.todo ==> t == node.plane.routes)
    && (node.table == node.plane.routes.routes || exists t :: PublishRoutes(t) in node.todo)
  }

  ghost predicate AllHanded(net: Net) {
    forall n :: n in net.nodes ==> Handed(net.nodes[n])
  }

  ghost predicate NetHolds(net: Net) {
    Shape(net) && Authentic(net) && CoveredAll(net) && Tidy(net)
  }

  ghost predicate NetInv(net: Net) {
    NetHolds(net) && PlanesFine(net) && AllHanded(net)
  }

  // ------------------------------------------------------------ reacting to an event

  /** Peers accept a node's own LSA exactly as long as it has at most 256 distinct peers. */
  lemma OwnLsaIsValid(q: Plane)
    requires PlaneOk(q) && IsActive(q.lsdb, q.me)
    ensures ValidLsa(q.lsdb[q.me].state.lsa) <==> |Peers(q.adjacencies)| <= MAX_LSA_ADJACENCIES
  {
    AscendingFacts(Peers(q.adjacencies));
  }

  lemma PeersStayFew(net: Net, n: NodeId, event: ControlEvent)
    requires n in net.nodes && (event.Frame? || Allowed(net, n, event))
    requires |Peers(net.nodes[n].plane.adjacencies)| <= MAX_LSA_ADJACENCIES
    ensures |Peers(LinksAfter(net.nodes[n].plane.adjacencies, event))| <= MAX_LSA_ADJACENCIES
  {
    if event.LinkDown? {
      var adjs := net.nodes[n].plane.adjacencies;
      SubsetSize(Peers(adjs - {event.link}), Peers(adjs));
    }
  }

  /** The event comes from the node's surroundings, or from a flight that is itself in order. */
  ghost predicate Expected(net: Net, n: NodeId, event: ControlEvent)
    requires n in net.nodes
  {
    if event.Frame? then
      event.frame.LsaFrame? ==>
        Genuine(net, event.frame.lsa) && Persisted(net, event.frame.lsa.origin, event.frame.lsa.version)
    else Allowed(net, n, event)
  }

  lemma PlaneOkShape(p: Plane)
    requires PlaneOk(p)
    ensures PlaneShape(p, p.me)
  {
  }

  /** A plane that meets its contract and stays well-formed makes a proper reaction. */
  lemma OutcomeIsReaction(net: Net, n: NodeId, event: ControlEvent, r: Outcome, wire: seq<Flight>)
    requires Shape(net) && n in net.nodes && net.nodes[n].todo == [] && Expected(net, n, event)
    requires |Peers(net.nodes[n].plane.adjacencies)| <= MAX_LSA_ADJACENCIES
    requires Contract(net.nodes[n].plane, event, r) && PlaneOk(r.plane)
    requires forall flight :: flight in wire ==> flight in net.wire
    ensures Reaction(net, n, event, r, wire) && |Peers(r.plane.adjacencies)| <= MAX_LSA_ADJACENCIES
  {
    assert NodeShape(net, n);
    PlaneOkShape(r.plane);
    PeersStayFew(net, n, event);
    if r.plane.mySeq != net.nodes[n].plane.mySeq {
      OwnLsaIsValid(r.plane);
    }
  }

  lemma ReactKeeps(net: Net, n: NodeId, event: ControlEvent, r: Outcome, wire: seq<Flight>)
    requires NetHolds(net) && Reaction(net, n, event, r, wire) && Consumes(net, n, event, wire)
    ensures NetHolds(React(net, n, event, r, wire))
  {
    ReactShape(net, n, event, r, wire);
    ReactIssued(net, n, event, r, wire);
    ReactDatabases(net, n, event, r, wire);
    ReactTodos(net, n, event, r, wire);
    ReactWire(net, n, event, r, wire);
    ReactCounters(net, n, event, r, wire);
    ReactCovered(net, n, event, r, wire);
    ReactTidy(net, n, event, r, wire);
  }

  lemma ReactTidy(net: Net, n: NodeId, event: ControlEvent, r: Outcome, wire: seq<Flight>)
    requires Tidy(net) && Shape(net) && n in net.nodes
    ensures Tidy(React(net, n, event, r, wire))
  {
    if event.LinkDown? && End(n, net.nodes[n].boot, event.link) in net.peer {
      assert EndShape(net, End(n, net.nodes[n].boot, event.link));
    }
  }

  lemma HandleIsFine(p: Plane, now: Time, event: ControlEvent)
    requires PlaneFine(p)
    ensures Fits(p.lsdb, p.me)
    ensures var r := Handle(p, now, event); Contract(p, event, r) && PlaneOk(r.plane) && CacheOk(r.plane)
  {
    HandleKeeps(p, now, event);
    StepContract(p, now, event, TablesOf(p));
  }

  lemma ReactHands(net: Net, n: NodeId, event: ControlEvent, r: Outcome, wire: seq<Flight>)
    requires AllHanded(net) && n in net.nodes && net.nodes[n].todo == [] && Publishes(net.nodes[n].plane, r)
    ensures AllHanded(React(net, n, event, r, wire))
  {
    assert Handed(net.nodes[n]);
    if r.plane.routes.routes != net.nodes[n].plane.routes.routes {
      assert PublishRoutes(r.plane.routes) in r.actions;
    }
  }

  lemma HandlesKeeps(net: Net, n: NodeId, now: Time, event: ControlEvent, wire: seq<Flight>, net': Net)
    requires NetInv(net) && n in net.nodes && net.nodes[n].todo == [] && Expected(net, n, event)
    requires Consumes(net, n, event, wire) && Handles(net, n, now, event, wire, net')
    requires forall flight :: flight in wire ==> flight in net.wire
    ensures NetInv(net')
  {
    var p := net.nodes[n].plane;
    assert PlaneFine(p);
    var r := Handle(p, now, event);
    HandleIsFine(p, now, event);
    OutcomeIsReaction(net, n, event, r, wire);
    ReactKeeps(net, n, event, r, wire);
    assert PlaneFine(r.plane);
    FineAfter(net, n, event, r, wire);
    PublishesExactly(p, now, event, TablesOf(p));
    ReactHands(net, n, event, r, wire);
  }

  lemma FineAfter(net: Net, n: NodeId, event: ControlEvent, r: Outcome, wire: seq<Flight>)
    requires PlanesFine(net) && n in net.nodes && PlaneFine(r.plane)
    ensures PlanesFine(React(net, n, event, r, wire))
  {
  }

  lemma DeliveryIsExpected(net: Net, i: nat)
    requires Shape(net) && WireOk(net) && i < |net.wire|
    requires var to := net.wire[i].to;
             to.node in net.nodes && net.nodes[to.node].boot == to.boot && to.link in net.nodes[to.node].plane.adjacencies
    ensures var flight, wire := net.wire[i], Without(net.wire, i);
            var event := Frame(flight.to.link, flight.frame);
            && Expected(net, flight.to.node, event) && Consumes(net, flight.to.node, event, wire)
            && (forall other :: other in wire ==> other in net.wire)
  {
    var flight := net.wire[i];
    WithoutMembers(net.wire, i);
    assert FlightOk(net, flight) && EndShape(net, flight.from);
  }

  lemma LocalKeeps(net: Net, n: NodeId, now: Time, event: ControlEvent, net': Net)
    requires NetInv(net) && Idle(net, n) && Allowed(net, n, event) && Handles(net, n, now, event, net.wire, net')
    ensures NetInv(net')
  {
    HandlesKeeps(net, n, now, event, net.wire, net');
  }

  lemma DeliverKeeps(net: Net, i: nat, now: Time, net': Net)
    requires NetInv(net) && i < |net.wire| && Idle(net, net.wire[i].to.node)
    requires var to := net.wire[i].to;
             && net.nodes[to.node].boot == to.boot && to.link in net.nodes[to.node].plane.adjacencies
             && Handles(net, to.node, now, Frame(to.link, net.wire[i].frame), Without(net.wire, i), net')
    ensures NetInv(net')
  {
    DeliveryIsExpected(net, i);
    HandlesKeeps(net, net.wire[i].to.node, now, Frame(net.wire[i].to.link, net.wire[i].frame), Without(net.wire, i), net');
  }

  lemma ExecuteKeeps(net: Net, n: NodeId)
    requires NetInv(net) && n in net.nodes && net.nodes[n].todo != []
    ensures NetInv(ExecuteAction(net, n))
  {
    ExecuteAuthentic(net, n);
    ExecuteCovered(net, n);
    ExecuteFrame(net, n);
    SamePlanesFine(net, ExecuteAction(net, n));
    ExecuteHands(net, n);
  }

  lemma ExecutedIsHanded(node: Node)
    requires Handed(node) && node.todo != []
    ensures Handed(Executed(node))
  {
    assert node.todo == [node.todo[0]] + node.todo[1..];
  }

  lemma ExecuteHands(net: Net, n: NodeId)
    requires AllHanded(net) && n in net.nodes && net.nodes[n].todo != []
    ensures AllHanded(ExecuteAction(net, n))
  {
    ExecutedIsHanded(net.nodes[n]);
    assert ExecuteAction(net, n).nodes == net.nodes[n := Executed(net.nodes[n])];
  }

  lemma SamePlanesFine(net: Net, net': Net)
    requires PlanesFine(net)
    requires forall m :: m in net'.nodes ==> m in net.nodes && net'.nodes[m].plane == net.nodes[m].plane
    ensures PlanesFine(net')
  {
  }

  lemma CrashKeeps(net: Net, n: NodeId, epoch: nat)
    requires NetHolds(net) && n in net.nodes && net.nodes[n].plane.epoch <= epoch
    ensures NetHolds(CrashNode(net, n, epoch))
  {
    CrashShape(net, n, epoch);
    CrashIssued(net, n, epoch);
    CrashDatabases(net, n, epoch);
    CrashTodos(net, n, epoch);
    CrashWire(net, n, epoch);
    CrashCovered(net, n, epoch);
    assert CountersOk(CrashNode(net, n, epoch));
  }

  lemma FirstPlaneFine(n: NodeId, epoch: nat, stored: nat)
    ensures PlaneFine(NewPlane(n, epoch, stored))
  {
    NewPlaneOk(n, epoch, stored);
    assert Peers(map[]) == {};
  }

  lemma CrashFine(net: Net, n: NodeId, epoch: nat, q: Plane)
    requires PlanesFine(net) && n in net.nodes && q == NewPlane(n, epoch, net.nodes[n].stored) && PlaneFine(q)
    ensures PlanesFine(CrashNode(net, n, epoch))
  {
  }

  lemma CrashHands(net: Net, n: NodeId, epoch: nat)
    requires AllHanded(net) && n in net.nodes
    ensures AllHanded(CrashNode(net, n, epoch))
  {
    var nodes := CrashNode(net, n, epoch).nodes;
    forall m | m in nodes ensures Handed(nodes[m]) {
      assert m != n ==> nodes[m] == net.nodes[m];
    }
  }

  lemma CrashMoveKeeps(net: Net, n: NodeId, epoch: nat)
    requires NetInv(net) && n in net.nodes && net.nodes[n].plane.epoch <= epoch
    ensures NetInv(CrashNode(net, n, epoch))
  {
    CrashKeeps(net, n, epoch);
    FirstPlaneFine(n, epoch, net.nodes[n].stored);
    CrashFine(net, n, epoch, NewPlane(n, epoch, net.nodes[n].stored));
    CrashHands(net, n, epoch);
  }

  lemma LinkMoveHolds(net: Net, move: Move, net': Net)
    requires NetHolds(net) && (move.Connect? || move.Cut? || move.Lose?) && Next(net, move, net')
    ensures NetHolds(net') && net'.nodes == net.nodes
  {
    match move
    case Connect(a, b) => ConnectKeeps(net, a, b);
    case Cut(e) => CutKeeps(net, e);
    case Lose(i) => LoseKeeps(net, i, net');
  }

  lemma SameNodesFine(net: Net, net': Net)
    requires PlanesFine(net) && AllHanded(net) && net'.nodes == net.nodes
    ensures PlanesFine(net') && AllHanded(net')
  {
  }

  lemma LinkMoveKeeps(net: Net, move: Move, net': Net)
    requires NetInv(net) && (move.Connect? || move.Cut? || move.Lose?) && Next(net, move, net')
    ensures NetInv(net')
  {
    LinkMoveHolds(net, move, net');
    SameNodesFine(net, net');
  }

  /** Every move keeps the invariant. */
  lemma MoveKeeps(net: Net, move: Move, net': Net)
    requires NetInv(net) && Next(net, move, net')
    ensures NetInv(net')
  {
    if move.Local? {
      LocalKeeps(net, move.node, move.now, move.event, net');
    } else if move.Deliver? {
      DeliverKeeps(net, move.index, move.now, net');
    } else if move.Execute? {
      ExecuteKeeps(net, move.node);
    } else if move.Crash? {
      CrashMoveKeeps(net, move.node, move.epoch);
    } else {
      LinkMoveKeeps(net, move, net');
    }
  }
}
