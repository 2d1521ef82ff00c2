/** Hop-by-hop delivery over route tables in which every hop strictly lowers the remaining cost. */
module Delivery {
  import opened MeshTypes
  import opened ControlData
  import opened Forwarding

  datatype Port = Port(node: NodeId, link: LinkId)

  /** The published route tables of a network, where each open link leads, and which links are down. */
  datatype Fabric = Fabric(routes: map<NodeId, map<NodeId, Route>>, far: map<Port, Port>, down: map<NodeId, set<LinkId>>)

  /** Following the route from `u` to `d` gets there, or strictly closer to it, over a link that is up. */
  ghost predicate HopIsGood(fab: Fabric, u: NodeId, d: NodeId)
    requires u in fab.routes && d in fab.routes[u]
  {
    var k := fab.routes[u][d].nextHop;
    && d != u && Port(u, k) in fab.far && u in fab.down && k !in fab.down[u]
    && (var f := fab.far[Port(u, k)];
        && f.node in fab.routes
        && (f.node != d ==>
              d in fab.routes[f.node] && fab.routes[f.node][d].cost < fab.routes[u][d].cost && fab.routes[f.node][d].nextHop != f.link))
  }

  ghost predicate Coherent(fab: Fabric) {
    && (forall u :: u in fab.routes ==> u in fab.down)
    && forall u, d :: u in fab.routes && d in fab.routes[u] ==> HopIsGood(fab, u, d)
  }

  function NextNode(fab: Fabric, u: NodeId, d: NodeId): Port
    requires u in fab.routes && d in fab.routes[u] && Port(u, fab.routes[u][d].nextHop) in fab.far
  {
    fab.far[Port(u, fab.routes[u][d].nextHop)]
  }

  /** The number of links a packet from `u` to `d` crosses. */
  ghost function HopCount(fab: Fabric, u: NodeId, d: NodeId): nat
    requires Coherent(fab) && u in fab.routes && (u == d || d in fab.routes[u])
    decreases if u == d then 0 else 1 + fab.routes[u][d].cost
  {
    if u == d then 0 else
      assert HopIsGood(fab, u, d);
      1 + HopCount(fab, NextNode(fab, u, d).node, d)
  }

  datatype Fate = Arrived(node: NodeId, ttl: nat) | Lost(node: NodeId, reason: DropReason)

  /** What happens to a unicast packet that reaches `u` over `incoming`, when every queue lets it through. */
  ghost function Journey(fab: Fabric, u: NodeId, incoming: Option<LinkId>, d: NodeId, ttl: nat): Fate
    requires u in fab.routes && u in fab.down
    decreases ttl
  {
    if ttl == 0 then Lost(u, TtlExceeded)
    else
      match Decide(u, fab.routes[u], fab.down[u], incoming, d)
      case Local => Arrived(u, ttl)
      case Unroutable => Lost(u, NoRoute)
      case Looping => Lost(u, LoopDetected)
      case Via(k) =>
        if Port(u, k) in fab.far && fab.far[Port(u, k)].node in fab.routes && fab.far[Port(u, k)].node in fab.down
        then Journey(fab, fab.far[Port(u, k)].node, Some(fab.far[Port(u, k)].link), d, ttl - 1)
        else Lost(u, LinkIsDown)
  }

  /** The packet did not come in on the link it has to leave by. */
  ghost predicate Onward(fab: Fabric, u: NodeId, incoming: Option<LinkId>, d: NodeId)
    requires u in fab.routes
  {
    u != d && d in fab.routes[u] ==> incoming != Some(fab.routes[u][d].nextHop)
  }

  /** A packet arrives exactly when its TTL exceeds the hop count; otherwise only the TTL stops it. */
  lemma {:induction false} JourneySucceeds(fab: Fabric, u: NodeId, incoming: Option<LinkId>, d: NodeId, ttl: nat)
    requires Coherent(fab) && u in fab.routes && (u == d || d in fab.routes[u]) && Onward(fab, u, incoming, d)
    ensures var n := HopCount(fab, u, d);
            if n < ttl then Journey(fab, u, incoming, d, ttl) == Arrived(d, ttl - n)
            else Journey(fab, u, incoming, d, ttl).Lost? && Journey(fab, u, incoming, d, ttl).reason == TtlExceeded
    decreases ttl
  {
    if ttl > 0 && u != d {
      assert HopIsGood(fab, u, d);
      var f := NextNode(fab, u, d);
      assert Decide(u, fab.routes[u], fab.down[u], incoming, d) == Via(fab.routes[u][d].nextHop);
      assert Journey(fab, u, incoming, d, ttl) == Journey(fab, f.node, Some(f.link), d, ttl - 1);
      JourneySucceeds(fab, f.node, Some(f.link), d, ttl - 1);
    }
  }

  /** What remains of the way from `u` to `d`. */
  function Remaining(fab: Fabric, u: NodeId, d: NodeId): nat
    requires u in fab.routes && (u == d || d in fab.routes[u])
  {
    if u == d then 0 else 1 + fab.routes[u][d].cost
  }

  /** The nodes a packet from `u` to `d` visits, in order. */
  ghost function Visited(fab: Fabric, u: NodeId, d: NodeId): seq<NodeId>
    requires Coherent(fab) && u in fab.routes && (u == d || d in fab.routes[u])
    decreases Remaining(fab, u, d)
  {
    if u == d then [d] else
      assert HopIsGood(fab, u, d);
      [u] + Visited(fab, NextNode(fab, u, d).node, d)
  }

  /** Every visited node has a route to `d`, and none is farther from it than the first. */
  lemma {:induction false} VisitedIsCloser(fab: Fabric, u: NodeId, d: NodeId, n: NodeId)
    requires Coherent(fab) && u in fab.routes && (u == d || d in fab.routes[u]) && n in Visited(fab, u, d)
    ensures n in fab.routes && (n == d || d in fab.routes[n]) && Remaining(fab, n, d) <= Remaining(fab, u, d)
    decreases Remaining(fab, u, d)
  {
    if u != d && n != u {
      assert HopIsGood(fab, u, d);
      VisitedIsCloser(fab, NextNode(fab, u, d).node, d, n);
    }
  }

  /** No node is visited twice; there is one more node than hops, and the remaining cost bounds both. */
  lemma {:induction false} NoNodeTwice(fab: Fabric, u: NodeId, d: NodeId)
    requires Coherent(fab) && u in fab.routes && (u == d || d in fab.routes[u])
    ensures forall i, j :: 0 <= i < j < |Visited(fab, u, d)| ==> Visited(fab, u, d)[i] != Visited(fab, u, d)[j]
    ensures |Visited(fab, u, d)| == HopCount(fab, u, d) + 1
    ensures HopCount(fab, u, d) <= Remaining(fab, u, d)
    decreases Remaining(fab, u, d)
  {
    if u != d {
      assert HopIsGood(fab, u, d);
      var f := NextNode(fab, u, d).node;
      var rest := Visited(fab, f, d);
      NoNodeTwice(fab, f, d);
      if u in rest {
        VisitedIsCloser(fab, f, d, u);
      }
    }
  }
}
