/**
 * A network at rest forwards without loops: when nothing is under way and no
 * recomputation is pending, agreement on the database makes every hop lead
 * strictly closer to the destination.
 */
module Convergence {
  import opened MeshTypes
  import opened ControlData
  import opened Spf
  import opened ControlModel
  import opened ControlSafety
  import opened Network
  import opened NetInvariant
  import opened NetSafety
  import opened NetAgreement
  import opened Delivery
  import Runs

  // ------------------------------------------------------------ graphs

  /** A path is its first edge followed by a path from there. */
  lemma {:induction false} PathTail(g: Graph, src: NodeId, path: seq<Adjacency>)
    requires IsPath(g, src, path) && path != []
    ensures IsPath(g, path[0].peer, path[1..]) && PathEnd(path[0].peer, path[1..]) == PathEnd(src, path)
    ensures Cost(path) == path[0].cost + Cost(path[1..])
    decreases |path|
  {
    var n := |path| - 1;
    if n > 0 {
      PathTail(g, src, path[..n]);
      assert path[1..][..n - 1] == path[..n][1..];
    } else {
      assert path[1..] == [] && path[..n] == [];
    }
  }

  lemma {:induction false} SameMutual(a: Lsdb, b: Lsdb, o: NodeId, edges: seq<Adjacency>)
    requires forall x :: LiveLsa(a, x) == LiveLsa(b, x)
    ensures Mutual(a, o, edges) == Mutual(b, o, edges)
  {
    if edges != [] {
      SameMutual(a, b, o, edges[1..]);
      assert LiveLsa(a, edges[0].peer) == LiveLsa(b, edges[0].peer);
    }
  }

  /** The graph depends on the live LSAs only. */
  lemma SameGraph(a: Lsdb, b: Lsdb)
    requires forall x :: LiveLsa(a, x) == LiveLsa(b, x)
    ensures BidirectionalGraph(a) == BidirectionalGraph(b)
  {
    forall o ensures IsActive(a, o) == IsActive(b, o) {
      assert LiveLsa(a, o) == LiveLsa(b, o);
    }
    forall o | IsActive(a, o) ensures Mutual(a, o, a[o].state.lsa.adjacencies) == Mutual(b, o, b[o].state.lsa.adjacencies) {
      assert LiveLsa(a, o) == LiveLsa(b, o);
      SameMutual(a, b, o, a[o].state.lsa.adjacencies);
    }
  }

  /** Two linked nodes with exact tables of one graph: the first hop is strictly closer, at its own reckoning too. */
  lemma NextHopIsCloser(
    g: Graph, u: NodeId, adjsU: Adjacencies, routesU: map<NodeId, Route>, f: NodeId, adjsF: Adjacencies, routesF: map<NodeId, Route>, d: NodeId)
    requires ExactFor(g, u, adjsU, routesU, d) && ExactFor(g, f, adjsF, routesF, d)
    requires d in routesU && (routesU[d].nextHop in adjsU ==> adjsU[routesU[d].nextHop].peer == f)
    ensures f == d || (d in routesF && routesF[d].cost < routesU[d].cost)
  {
    var path: seq<Adjacency> :| IsBest(g, u, d, path) && RouteFollows(adjsU, routesU[d], path);
    PathTail(g, u, path);
    if f != d {
      assert Reaches(g, f, path[1..], d);
      var best: seq<Adjacency> :| IsBest(g, f, d, best) && RouteFollows(adjsF, routesF[d], best);
    }
  }

  lemma NextHopIsOpen(g: Graph, u: NodeId, adjs: Adjacencies, routes: map<NodeId, Route>, d: NodeId)
    requires ExactFor(g, u, adjs, routes, d) && d in routes
    ensures routes[d].nextHop in adjs
  {
    var path: seq<Adjacency> :| IsBest(g, u, d, path) && RouteFollows(adjs, routes[d], path);
  }

  // ------------------------------------------------------------ a network at rest

  /**
   * Nothing is under way on live links, no recomputation is pending, and every
   * open end has an open far end that does not hold live what has expired here.
   */
  ghost predicate AtRest(net: Net) {
    && (forall flight :: flight in net.wire ==> flight.from in net.dead)
    && (forall n :: n in net.nodes ==> net.nodes[n].todo == [] && net.nodes[n].plane.pending.None?)
    && (forall n, k {:trigger EndOf(net, n, k)} ::
          n in net.nodes && k in net.nodes[n].plane.adjacencies ==> Opposed(net, EndOf(net, n, k)) && Reconciled(net, EndOf(net, n, k)))
  }

  function EndOf(net: Net, n: NodeId, k: LinkId): End
    requires n in net.nodes
  {
    End(n, net.nodes[n].boot, k)
  }

  ghost predicate Opposed(net: Net, e: End) {
    Live(net, e) && Live(net, net.peer[e])
  }

  /** No origin is expired at one end of the link and live at the other. */
  ghost predicate Reconciled(net: Net, e: End)
    requires Live(net, e)
  {
    var a, b := net.nodes[e.node].plane.lsdb, net.nodes[net.peer[e].node].plane.lsdb;
    forall o :: !(IsTombstone(a, o) && IsActive(b, o)) && !(IsTombstone(b, o) && IsActive(a, o))
  }

  lemma RestIsQuiet(net: Net, n: NodeId, k: LinkId)
    requires AtRest(net) && n in net.nodes && k in net.nodes[n].plane.adjacencies
    ensures QuietLink(net, EndOf(net, n, k))
  {
    assert Opposed(net, EndOf(net, n, k));
  }

  /** The two nodes hold the same live LSAs. */
  ghost predicate SameLive(net: Net, m: NodeId, n: NodeId) {
    && m in net.nodes && n in net.nodes
    && forall o :: LiveLsa(net.nodes[m].plane.lsdb, o) == LiveLsa(net.nodes[n].plane.lsdb, o)
  }

  /** Linked nodes at rest hold the same live LSAs. */
  lemma RestAgrees(net: Net, n: NodeId, k: LinkId)
    requires Shape(net) && Authentic(net) && CoveredAll(net) && AtRest(net)
    requires n in net.nodes && k in net.nodes[n].plane.adjacencies
    ensures SameLive(net, n, net.nodes[n].plane.adjacencies[k].peer)
  {
    var e := EndOf(net, n, k);
    RestIsQuiet(net, n, k);
    assert NodeShape(net, n);
    forall o ensures LiveLsa(net.nodes[n].plane.lsdb, o) == LiveLsa(net.nodes[net.peer[e].node].plane.lsdb, o) {
      QuietLinkAgreesExactly(net, e, o);
    }
  }

  /** Linked nodes at rest compute on the same graph. */
  lemma RestSharesGraph(net: Net, n: NodeId, k: LinkId)
    requires Shape(net) && Authentic(net) && CoveredAll(net) && AtRest(net)
    requires n in net.nodes && k in net.nodes[n].plane.adjacencies
    ensures var f := net.nodes[n].plane.adjacencies[k].peer;
            f in net.nodes && BidirectionalGraph(net.nodes[n].plane.lsdb) == BidirectionalGraph(net.nodes[f].plane.lsdb)
  {
    RestAgrees(net, n, k);
    SameGraph(net.nodes[n].plane.lsdb, net.nodes[net.nodes[n].plane.adjacencies[k].peer].plane.lsdb);
  }

  /** Every node's published table is exact for its own database. */
  lemma RestIsExact(p: Plane, d: NodeId)
    requires PlaneOk(p) && CacheOk(p) && p.pending.None?
    ensures ExactFor(BidirectionalGraph(p.lsdb), p.me, p.adjacencies, p.routes.routes, d)
  {
    OwnLsaMirrors(p);
    RoutesExact(p.me, p.lsdb, p.adjacencies, d);
  }

  lemma {:induction false} AdvertisedPeers(adjs: Adjacencies, peers: seq<NodeId>)
    requires forall p :: p in peers ==> p in Peers(adjs)
    ensures forall e :: e in AdvertisedEdges(adjs, peers) ==> e.peer in peers
    ensures forall q :: q in peers ==> exists e :: e in AdvertisedEdges(adjs, peers) && e.peer == q
  {
    if peers != [] {
      AdvertisedPeers(adjs, peers[1..]);
      var edges := AdvertisedEdges(adjs, peers);
      assert edges[0] in edges && edges[0].peer == peers[0];
      forall q | q in peers ensures exists e :: e in edges && e.peer == q {
        if q != peers[0] {
          assert q in peers[1..];
          var e :| e in AdvertisedEdges(adjs, peers[1..]) && e.peer == q;
          assert e in edges;
        }
      }
    }
  }

  lemma OwnLsaMirrors(p: Plane)
    requires DbOk(p)
    ensures Mirrors(p.me, p.lsdb, p.adjacencies)
  {
    if IsActive(p.lsdb, p.me) {
      AdvertisedPeers(p.adjacencies, Ascending(Peers(p.adjacencies)));
      forall e | e in p.lsdb[p.me].state.lsa.adjacencies ensures exists k :: k in p.adjacencies && p.adjacencies[k].peer == e.peer {
        assert e.peer in Peers(p.adjacencies);
      }
    }
  }

  /** The tables the forwarders have, where open links lead, and links known to be down. */
  function FabricOf(net: Net, down: map<NodeId, set<LinkId>>): Fabric {
    var ports := set n, k | n in net.nodes && k in net.nodes[n].plane.adjacencies && EndOf(net, n, k) in net.peer :: Port(n, k);
    Fabric(map n | n in net.nodes :: net.nodes[n].table,
           map p | p in ports :: Port(net.peer[EndOf(net, p.node, p.link)].node, net.peer[EndOf(net, p.node, p.link)].link),
           down)
  }

  /** A node's forwarder never considers one of its open links down. */
  ghost predicate DownIsClosed(net: Net, down: map<NodeId, set<LinkId>>) {
    forall n :: n in net.nodes ==> n in down && down[n] !! net.nodes[n].plane.adjacencies.Keys
  }

  ghost predicate Closer(net: Net, u: NodeId, f: NodeId, d: NodeId) {
    && u in net.nodes && f in net.nodes
    && (f != d ==> var ru, rf := net.nodes[u].plane.routes.routes, net.nodes[f].plane.routes.routes;
                   d in ru && d in rf && rf[d].cost < ru[d].cost)
  }

  lemma RestNodeIsExact(net: Net, n: NodeId, d: NodeId)
    requires Shape(net) && PlanesFine(net) && n in net.nodes && net.nodes[n].plane.pending.None?
    ensures var p := net.nodes[n].plane; ExactFor(BidirectionalGraph(p.lsdb), n, p.adjacencies, p.routes.routes, d)
  {
    assert NodeShape(net, n) && PlaneFine(net.nodes[n].plane);
    RestIsExact(net.nodes[n].plane, d);
  }

  /** At rest, the node behind the next hop is the destination or strictly closer to it. */
  lemma RestHopIsCloser(net: Net, u: NodeId, d: NodeId)
    requires NetInv(net) && AtRest(net) && u in net.nodes && d in net.nodes[u].plane.routes.routes
    ensures var p := net.nodes[u].plane; var k := p.routes.routes[d].nextHop;
            k in p.adjacencies && d != u && Closer(net, u, p.adjacencies[k].peer, d)
  {
    var p := net.nodes[u].plane;
    var g, k := BidirectionalGraph(p.lsdb), p.routes.routes[d].nextHop;
    RestNodeIsExact(net, u, d);
    NextHopIsOpen(g, u, p.adjacencies, p.routes.routes, d);
    RestSharesGraph(net, u, k);
    var f := p.adjacencies[k].peer;
    RestNodeIsExact(net, f, d);
    NextHopIsCloser(g, u, p.adjacencies, p.routes.routes, f, net.nodes[f].plane.adjacencies, net.nodes[f].plane.routes.routes, d);
  }

  /** The two ends of an open link name each other. */
  lemma OpenLinkIsMutual(net: Net, u: NodeId, k: LinkId)
    requires Shape(net) && AtRest(net) && u in net.nodes && k in net.nodes[u].plane.adjacencies
    ensures var e := EndOf(net, u, k);
            && e in net.peer
            && (var f := net.peer[e];
                && f.node == net.nodes[u].plane.adjacencies[k].peer && f.node in net.nodes
                && f.link in net.nodes[f.node].plane.adjacencies
                && net.nodes[f.node].plane.adjacencies[f.link].peer == u)
  {
    var e := EndOf(net, u, k);
    assert Opposed(net, e) && NodeShape(net, u);
    var f := net.peer[e];
    assert EndShape(net, e) && EndShape(net, f) && NodeShape(net, f.node);
  }

  /** `fab` holds the published tables, and leads from each open end to its far end. */
  ghost predicate HasTables(net: Net, down: map<NodeId, set<LinkId>>, fab: Fabric) {
    && fab.down == down
    && (forall n :: n in net.nodes <==> n in fab.routes)
    && (forall n :: n in net.nodes ==> fab.routes[n] == net.nodes[n].plane.routes.routes)
    && (forall n, k {:trigger EndOf(net, n, k)} ::
          n in net.nodes && k in net.nodes[n].plane.adjacencies && EndOf(net, n, k) in net.peer ==>
            var f := net.peer[EndOf(net, n, k)]; Port(n, k) in fab.far && fab.far[Port(n, k)] == Port(f.node, f.link))
  }

  /** At rest the forwarders have the published tables. */
  lemma FabricHasTables(net: Net, down: map<NodeId, set<LinkId>>)
    requires AllHanded(net) && AtRest(net)
    ensures HasTables(net, down, FabricOf(net, down))
  {
    forall n | n in net.nodes ensures net.nodes[n].table == net.nodes[n].plane.routes.routes {
      assert Handed(net.nodes[n]) && net.nodes[n].todo == [];
    }
  }

  lemma RestHopIsGood(net: Net, down: map<NodeId, set<LinkId>>, fab: Fabric, u: NodeId, d: NodeId)
    requires NetInv(net) && AtRest(net) && DownIsClosed(net, down) && HasTables(net, down, fab)
    requires u in net.nodes && d in net.nodes[u].plane.routes.routes
    ensures HopIsGood(fab, u, d)
  {
    var k := net.nodes[u].plane.routes.routes[d].nextHop;
    RestHopIsCloser(net, u, d);
    OpenLinkIsMutual(net, u, k);
    var f := net.peer[EndOf(net, u, k)];
    if f.node != d {
      RestHopIsCloser(net, f.node, d);
    }
  }

  lemma CoherentTables(net: Net, down: map<NodeId, set<LinkId>>, fab: Fabric)
    requires NetInv(net) && AtRest(net) && DownIsClosed(net, down) && HasTables(net, down, fab)
    ensures Coherent(fab)
  {
    forall u, d | u in fab.routes && d in fab.routes[u] ensures HopIsGood(fab, u, d) {
      RestHopIsGood(net, down, fab, u, d);
    }
  }

  /** The tables of a network at rest are coherent. */
  lemma RestIsCoherent(net: Net, down: map<NodeId, set<LinkId>>)
    requires NetInv(net) && AtRest(net) && DownIsClosed(net, down)
    ensures Coherent(FabricOf(net, down))
  {
    FabricHasTables(net, down);
    CoherentTables(net, down, FabricOf(net, down));
  }

  // ------------------------------------------------------------ connected components

  /** The node's own LSA has not expired at the node itself. */
  ghost predicate OwnLive(net: Net, n: NodeId) {
    n in net.nodes && IsActive(net.nodes[n].plane.lsdb, n)
  }

  /** A walk over open links from `u` to `d`, through nodes whose own LSA is live. */
  ghost predicate IsWalk(net: Net, u: NodeId, d: NodeId, walk: seq<Port>)
    decreases |walk|
  {
    OwnLive(net, d) &&
    if walk == [] then u == d
    else
      var last := walk[|walk| - 1];
      && IsWalk(net, u, last.node, walk[..|walk| - 1])
      && last.link in net.nodes[last.node].plane.adjacencies && net.nodes[last.node].plane.adjacencies[last.link].peer == d
  }

  /** Both nodes are in one connected component of open links. */
  ghost predicate SameComponent(net: Net, u: NodeId, d: NodeId) {
    exists walk :: IsWalk(net, u, d, walk)
  }

  lemma SameLiveJoins(net: Net, a: NodeId, b: NodeId, c: NodeId)
    requires SameLive(net, a, b) && SameLive(net, b, c)
    ensures SameLive(net, a, c)
  {
    forall o ensures LiveLsa(net.nodes[a].plane.lsdb, o) == LiveLsa(net.nodes[c].plane.lsdb, o) {
      assert LiveLsa(net.nodes[b].plane.lsdb, o) == LiveLsa(net.nodes[c].plane.lsdb, o);
    }
  }

  /** At rest, all nodes of a component hold the same live LSAs. */
  lemma {:induction false} WalkAgrees(net: Net, u: NodeId, d: NodeId, walk: seq<Port>)
    requires Shape(net) && Authentic(net) && CoveredAll(net) && AtRest(net) && IsWalk(net, u, d, walk)
    ensures SameLive(net, u, d)
    decreases |walk|
  {
    if walk != [] {
      var last := walk[|walk| - 1];
      WalkAgrees(net, u, last.node, walk[..|walk| - 1]);
      RestAgrees(net, last.node, last.link);
      SameLiveJoins(net, u, last.node, d);
    }
  }

  lemma OwnLsaLists(p: Plane, q: NodeId)
    requires DbOk(p) && IsActive(p.lsdb, p.me)
    ensures Advertises(p.lsdb, p.me, q) <==> exists k :: k in p.adjacencies && p.adjacencies[k].peer == q
  {
    var peers := Ascending(Peers(p.adjacencies));
    AdvertisedPeers(p.adjacencies, peers);
    var edges := p.lsdb[p.me].state.lsa.adjacencies;
    assert edges == AdvertisedEdges(p.adjacencies, peers);
    if q in peers {
      var e :| e in edges && e.peer == q;
    }
    assert q in peers <==> q in Peers(p.adjacencies);
  }

  /** Who advertises whom depends on the live LSAs only. */
  lemma SameAdvertises(net: Net, m: NodeId, n: NodeId, x: NodeId, y: NodeId)
    requires SameLive(net, m, n)
    ensures Advertises(net.nodes[m].plane.lsdb, x, y) == Advertises(net.nodes[n].plane.lsdb, x, y)
  {
    assert LiveLsa(net.nodes[m].plane.lsdb, x) == LiveLsa(net.nodes[n].plane.lsdb, x);
  }

  lemma OwnAdvertises(net: Net, x: NodeId, y: NodeId)
    requires Shape(net) && PlanesFine(net) && OwnLive(net, x)
    ensures var adjs := net.nodes[x].plane.adjacencies;
            Advertises(net.nodes[x].plane.lsdb, x, y) <==> exists k :: k in adjs && adjs[k].peer == y
  {
    assert NodeShape(net, x) && PlaneFine(net.nodes[x].plane);
    OwnLsaLists(net.nodes[x].plane, y);
  }

  /** The edges of the graph are the mutual advertisements. */
  lemma EdgeFor(lsdb: Lsdb, x: NodeId, y: NodeId) returns (e: Adjacency)
    requires Advertises(lsdb, x, y) && Advertises(lsdb, y, x)
    ensures x in BidirectionalGraph(lsdb) && e in BidirectionalGraph(lsdb)[x] && e.peer == y
  {
    var i :| 0 <= i < |lsdb[x].state.lsa.adjacencies| && lsdb[x].state.lsa.adjacencies[i].peer == y;
    e := lsdb[x].state.lsa.adjacencies[i];
  }

  lemma EdgeIsMutual(lsdb: Lsdb, x: NodeId, e: Adjacency)
    requires x in BidirectionalGraph(lsdb) && e in BidirectionalGraph(lsdb)[x]
    ensures Advertises(lsdb, x, e.peer) && Advertises(lsdb, e.peer, x)
  {
    assert e in lsdb[x].state.lsa.adjacencies;
  }

  /** At rest, the ends of an open link between nodes with live LSAs advertise each other. */
  lemma OpenLinkIsAdvertised(net: Net, x: NodeId, k: LinkId)
    requires NetInv(net) && AtRest(net) && OwnLive(net, x) && k in net.nodes[x].plane.adjacencies
    requires OwnLive(net, net.nodes[x].plane.adjacencies[k].peer)
    ensures var lsdb, y := net.nodes[x].plane.lsdb, net.nodes[x].plane.adjacencies[k].peer;
            Advertises(lsdb, x, y) && Advertises(lsdb, y, x)
  {
    var y := net.nodes[x].plane.adjacencies[k].peer;
    RestAgrees(net, x, k);
    OpenLinkIsMutual(net, x, k);
    OwnAdvertises(net, x, y);
    OwnAdvertises(net, y, x);
    SameAdvertises(net, x, y, y, x);
  }

  /** A link that a node advertises and whose far end is live in its database is open to a node with a live LSA. */
  lemma AdvertisedIsOpen(net: Net, x: NodeId, y: NodeId) returns (k: LinkId)
    requires NetInv(net) && AtRest(net) && x in net.nodes
    requires Advertises(net.nodes[x].plane.lsdb, x, y) && IsActive(net.nodes[x].plane.lsdb, y)
    ensures k in net.nodes[x].plane.adjacencies && net.nodes[x].plane.adjacencies[k].peer == y && OwnLive(net, y)
  {
    OwnAdvertises(net, x, y);
    k :| k in net.nodes[x].plane.adjacencies && net.nodes[x].plane.adjacencies[k].peer == y;
    RestAgrees(net, x, k);
    assert LiveLsa(net.nodes[x].plane.lsdb, y) == LiveLsa(net.nodes[y].plane.lsdb, y);
  }

  lemma WalkSharesGraph(net: Net, u: NodeId, d: NodeId, walk: seq<Port>)
    requires NetInv(net) && AtRest(net) && IsWalk(net, u, d, walk)
    ensures u in net.nodes && BidirectionalGraph(net.nodes[u].plane.lsdb) == BidirectionalGraph(net.nodes[d].plane.lsdb)
  {
    WalkAgrees(net, u, d, walk);
    SameGraph(net.nodes[u].plane.lsdb, net.nodes[d].plane.lsdb);
  }

  ghost predicate HasEdge(g: Graph, x: NodeId, y: NodeId) {
    x in g && exists e :: e in g[x] && e.peer == y
  }

  ghost predicate IsLink(net: Net, x: NodeId, k: LinkId, y: NodeId) {
    x in net.nodes && k in net.nodes[x].plane.adjacencies && net.nodes[x].plane.adjacencies[k].peer == y
  }

  /** Each open link from a node that walks from `u` lead to is an edge of `g`. */
  ghost predicate StepsAreEdges(net: Net, g: Graph, u: NodeId) {
    forall x, k, y, walk :: IsWalk(net, u, x, walk) && IsLink(net, x, k, y) && OwnLive(net, y) ==> HasEdge(g, x, y)
  }

  lemma RestStepsAreEdges(net: Net, u: NodeId)
    requires NetInv(net) && AtRest(net) && u in net.nodes
    ensures StepsAreEdges(net, BidirectionalGraph(net.nodes[u].plane.lsdb), u)
  {
    forall x, k, y, walk | IsWalk(net, u, x, walk) && IsLink(net, x, k, y) && OwnLive(net, y)
      ensures HasEdge(BidirectionalGraph(net.nodes[u].plane.lsdb), x, y) {
      WalkSharesGraph(net, u, x, walk);
      OpenLinkIsAdvertised(net, x, k);
      var e := EdgeFor(net.nodes[x].plane.lsdb, x, y);
    }
  }

  lemma {:induction false} WalkIsPath(net: Net, g: Graph, u: NodeId, d: NodeId, walk: seq<Port>) returns (path: seq<Adjacency>)
    requires StepsAreEdges(net, g, u) && IsWalk(net, u, d, walk)
    ensures IsPath(g, u, path) && PathEnd(u, path) == d && |path| == |walk|
    decreases |walk|
  {
    if walk == [] {
      path := [];
    } else {
      var last := walk[|walk| - 1];
      path := WalkIsPath(net, g, u, last.node, walk[..|walk| - 1]);
      assert IsLink(net, last.node, last.link, d);
      var e :| e in g[last.node] && e.peer == d;
      Extend(g, u, path, e);
      path := path + [e];
    }
  }

  lemma {:induction false} PathIsWalk(net: Net, u: NodeId, path: seq<Adjacency>) returns (walk: seq<Port>)
    requires NetInv(net) && AtRest(net) && OwnLive(net, u) && IsPath(BidirectionalGraph(net.nodes[u].plane.lsdb), u, path)
    ensures IsWalk(net, u, PathEnd(u, path), walk)
    decreases |path|
  {
    if path == [] {
      walk := [];
    } else {
      var n := |path| - 1;
      var x := PathEnd(u, path[..n]);
      walk := PathIsWalk(net, u, path[..n]);
      WalkSharesGraph(net, u, x, walk);
      EdgeIsMutual(net.nodes[x].plane.lsdb, x, path[n]);
      var k := AdvertisedIsOpen(net, x, path[n].peer);
      var longer := walk + [Port(x, k)];
      assert longer[..|walk|] == walk && longer[|walk|] == Port(x, k);
      walk := longer;
    }
  }

  lemma {:induction false} PathStartsInGraph(g: Graph, src: NodeId, path: seq<Adjacency>)
    requires IsPath(g, src, path) && path != []
    ensures src in g
    decreases |path|
  {
    if |path| > 1 {
      PathStartsInGraph(g, src, path[..|path| - 1]);
    }
  }

  /** At rest, a node has a route to exactly the other nodes of its connected component. */
  lemma RoutesAreComponent(net: Net, u: NodeId, d: NodeId)
    requires NetInv(net) && AtRest(net) && u in net.nodes && u != d
    ensures d in net.nodes[u].plane.routes.routes <==> SameComponent(net, u, d)
  {
    var g := BidirectionalGraph(net.nodes[u].plane.lsdb);
    RestNodeIsExact(net, u, d);
    if d in net.nodes[u].plane.routes.routes {
      var path :| Reaches(g, u, path, d);
      PathStartsInGraph(g, u, path);
      var walk := PathIsWalk(net, u, path);
    }
    RestStepsAreEdges(net, u);
    if walk :| IsWalk(net, u, d, walk) {
      var path := WalkIsPath(net, g, u, d, walk);
      assert Reaches(g, u, path, d);
    }
  }

  // ------------------------------------------------------------ delivery

  /** What happens at rest to a packet from `u`: it arrives exactly if `d` is in the component and the TTL exceeds the hop count. */
  ghost predicate Delivers(net: Net, fab: Fabric, u: NodeId, d: NodeId, ttl: nat)
    requires Coherent(fab) && u in fab.routes
  {
    (d in fab.routes[u] <==> u != d && SameComponent(net, u, d)) && FateIs(fab, u, d, ttl)
  }

  ghost predicate FateIs(fab: Fabric, u: NodeId, d: NodeId, ttl: nat)
    requires Coherent(fab) && u in fab.routes
  {
    var fate := Journey(fab, u, None, d, ttl);
    if u == d || d in fab.routes[u]
    then var n := HopCount(fab, u, d);
         if n < ttl then fate == Arrived(d, ttl - n) else fate.Lost? && fate.reason == Forwarding.TtlExceeded
    else fate == Lost(u, if ttl == 0 then Forwarding.TtlExceeded else Forwarding.NoRoute)
  }

  /**
   * At rest, a unicast packet reaches exactly the nodes of the connected
   * component of its source, if and only if its TTL exceeds the number of hops.
   * It is never dropped as looping, and for want of a route only at the source
   * and only if the destination is not in the component.
   */
  lemma RestDelivers(net: Net, down: map<NodeId, set<LinkId>>, fab: Fabric, u: NodeId, d: NodeId, ttl: nat)
    requires NetInv(net) && AtRest(net) && DownIsClosed(net, down) && fab == FabricOf(net, down) && u in net.nodes
    ensures Coherent(fab) && u in fab.routes && Delivers(net, fab, u, d, ttl)
  {
    RestIsCoherent(net, down);
    RestHasRoutes(net, down, u, d);
    FateAtRest(fab, u, d, ttl);
  }

  /** On coherent tables the fate of a packet is decided by its TTL, and by the table of its source. */
  lemma FateAtRest(fab: Fabric, u: NodeId, d: NodeId, ttl: nat)
    requires Coherent(fab) && u in fab.routes
    ensures FateIs(fab, u, d, ttl)
  {
    if u == d || d in fab.routes[u] {
      JourneySucceeds(fab, u, None, d, ttl);
    }
  }

  lemma RestHasRoutes(net: Net, down: map<NodeId, set<LinkId>>, u: NodeId, d: NodeId)
    requires NetInv(net) && AtRest(net) && u in net.nodes
    ensures var fab := FabricOf(net, down);
            u in fab.routes && (d in fab.routes[u] ==> u != d) && (u != d ==> (d in fab.routes[u] <==> SameComponent(net, u, d)))
  {
    if u == d {
      RestNodeIsExact(net, u, d);
    } else {
      RoutesAreComponent(net, u, d);
    }
  }

  /** The same for every point of every run that starts from scratch: whatever happened before, rest means delivery. */
  lemma RunDelivers(
    nets: seq<Net>, moves: seq<Move>, i: nat, down: map<NodeId, set<LinkId>>, fab: Fabric, u: NodeId, d: NodeId, ttl: nat)
    requires Runs.Chain(nets, moves, Next) && Init(nets[0]) && i <= |moves| && AtRest(nets[i])
    requires DownIsClosed(nets[i], down) && fab == FabricOf(nets[i], down) && u in nets[i].nodes
    ensures Coherent(fab) && u in fab.routes && Delivers(nets[i], fab, u, d, ttl)
  {
    RunKeeps(nets, moves, i);
    RestDelivers(nets[i], down, fab, u, d, ttl);
  }
}
