/**
 * Shortest paths over the mutually advertised part of a link-state database.
 *
 * `Run` is the relaxation loop on values; `Exact` says what it finds without
 * mentioning any queue: a least-cost path, and among those the least first hop.
 */
module Spf {
  import opened MeshTypes
  import opened ControlData

  type Graph = map<NodeId, seq<Adjacency>>

  // ---------------------------------------------------------------- the graph

  predicate Advertises(lsdb: Lsdb, from: NodeId, to: NodeId) {
    IsActive(lsdb, from) && exists i :: 0 <= i < |lsdb[from].state.lsa.adjacencies| && lsdb[from].state.lsa.adjacencies[i].peer == to
  }

  /** The advertised edges whose far end advertises `origin` back, in order. */
  function Mutual(lsdb: Lsdb, origin: NodeId, edges: seq<Adjacency>): (r: seq<Adjacency>)
    ensures forall e :: e in r <==> e in edges && Advertises(lsdb, e.peer, origin)
  {
    if edges == [] then []
    else
      (if Advertises(lsdb, edges[0].peer, origin) then [edges[0]] else []) + Mutual(lsdb, origin, edges[1..])
  }

  function BidirectionalGraph(lsdb: Lsdb): (g: Graph)
    ensures Closed(g)
    ensures |g| <= |lsdb|
  {
    var active := set o | o in lsdb && IsActive(lsdb, o);
    var g := map o | o in active :: Mutual(lsdb, o, lsdb[o].state.lsa.adjacencies);
    SubsetSize(active, lsdb.Keys);
    assert g.Keys == active;
    g
  }

  /** Every edge leads to a node that has an edge list of its own. */
  ghost predicate Closed(g: Graph) {
    forall u, e :: u in g && e in g[u] ==> e.peer in g
  }

  // ------------------------------------------------------------------- paths

  /** The node a path from `src` ends at. */
  function PathEnd(src: NodeId, path: seq<Adjacency>): NodeId {
    if path == [] then src else path[|path| - 1].peer
  }

  ghost predicate IsPath(g: Graph, src: NodeId, path: seq<Adjacency>) {
    path == [] ||
    (var before := path[..|path| - 1];
     IsPath(g, src, before) && PathEnd(src, before) in g && path[|path| - 1] in g[PathEnd(src, before)])
  }

  function Cost(path: seq<Adjacency>): (c: nat) {
    if path == [] then 0 else Cost(path[..|path| - 1]) + path[|path| - 1].cost
  }

  ghost predicate Reaches(g: Graph, src: NodeId, path: seq<Adjacency>, dst: NodeId) {
    path != [] && IsPath(g, src, path) && PathEnd(src, path) == dst
  }

  // -------------------------------------------------------------- the search

  /** A heap entry: a node and the distance it had when it was pushed. */
  datatype Candidate = Candidate(cost: nat, node: NodeId)

  datatype Search = Search(
    distance: map<NodeId, nat>, pathHops: map<NodeId, nat>, firstPeer: map<NodeId, NodeId>,
    pending: seq<Candidate>)

  function Start(me: NodeId): Search {
    Search(map[me := 0], map[me := 0], map[], [Candidate(0, me)])
  }

  predicate NoLater(a: Candidate, b: Candidate) {
    a.cost < b.cost || (a.cost == b.cost && a.node <= b.node)
  }

  /** The heap, listed in the order in which it yields its entries. */
  ghost predicate Ordered(heap: seq<Candidate>) {
    heap == [] || ((forall x :: x in heap ==> NoLater(heap[0], x)) && Ordered(heap[1..]))
  }

  function Push(heap: seq<Candidate>, c: Candidate): (r: seq<Candidate>)
    ensures forall x :: x in r <==> x == c || x in heap
    ensures |r| == |heap| + 1
    ensures Ordered(heap) ==> Ordered(r)
  {
    if heap == [] || NoLater(c, heap[0]) then [c] + heap
    else
      assert heap == [heap[0]] + heap[1..];
      [heap[0]] + Push(heap[1..], c)
  }

  /** u32 saturating addition. */
  function SaturatingCost(cost: nat, edge: nat): nat {
    Min(cost + edge, U32_MAX)
  }

  /** The first hop a path gains when it is extended from `node` along an edge to `peer`. */
  function FirstVia(s: Search, me: NodeId, node: NodeId, peer: NodeId): NodeId
    requires node == me || node in s.firstPeer
  {
    if node == me then peer else s.firstPeer[node]
  }

  ghost predicate Shaped(s: Search, me: NodeId) {
    && me in s.distance && s.distance[me] == 0
    && (forall v :: v in s.pathHops <==> v in s.distance)
    && (forall v :: v in s.firstPeer <==> v in s.distance && v != me)
  }

  function Relax(s: Search, me: NodeId, node: NodeId, known: nat, edge: Adjacency): (r: Search)
    requires Shaped(s, me) && node in s.distance
    ensures Shaped(r, me) && forall v :: v in s.distance ==> v in r.distance
  {
    var cost := SaturatingCost(known, edge.cost);
    var hops := Min(s.pathHops[node] + 1, U8_MAX);
    var first := FirstVia(s, me, node, edge.peer);
    var replace :=
      || edge.peer !in s.distance
      || cost < s.distance[edge.peer]
      || (cost == s.distance[edge.peer] && edge.peer in s.firstPeer && first < s.firstPeer[edge.peer]);
    if replace then
      Search(s.distance[edge.peer := cost], s.pathHops[edge.peer := hops], s.firstPeer[edge.peer := first],
             Push(s.pending, Candidate(cost, edge.peer)))
    else s
  }

  function Pop(s: Search): Search
    requires s.pending != []
  {
    s.(pending := s.pending[1..])
  }

  function RelaxAll(s: Search, me: NodeId, node: NodeId, known: nat, edges: seq<Adjacency>): (r: Search)
    requires Shaped(s, me) && node in s.distance
    ensures Shaped(r, me) && forall v :: v in s.distance ==> v in r.distance
    decreases |edges|
  {
    if edges == [] then s else RelaxAll(Relax(s, me, node, known, edges[0]), me, node, known, edges[1..])
  }

  /** One iteration of the search loop. */
  function Visit(g: Graph, me: NodeId, s: Search): (r: Search)
    requires Shaped(s, me) && s.pending != []
    ensures Shaped(r, me)
  {
    var Candidate(known, node) := s.pending[0];
    if node !in s.distance || s.distance[node] != known || node !in g then Pop(s)
    else RelaxAll(Pop(s), me, node, known, g[node])
  }

  // ----------------------------------------------------------- the invariant

  /**
   * `done` collects the nodes whose current distance has been taken from the
   * heap; `level` is the cost the heap has reached.
   */
  ghost predicate HeapOk(s: Search, done: set<NodeId>, level: nat) {
    && Ordered(s.pending)
    && (forall v :: v in done ==> v in s.distance && s.distance[v] <= level)
    && (forall v :: v in s.distance && v !in done ==> Candidate(s.distance[v], v) in s.pending)
    && (forall x :: x in s.pending ==> level <= x.cost && x.node in s.distance && s.distance[x.node] <= x.cost)
  }

  /** No path through `u` and then `edge` improves on what is known of the edge's far end. */
  ghost predicate EdgeRelaxed(s: Search, me: NodeId, u: NodeId, edge: Adjacency)
    requires Shaped(s, me) && u in s.distance
  {
    && edge.peer in s.distance
    && s.distance[edge.peer] <= s.distance[u] + edge.cost
    && (edge.peer != me && s.distance[edge.peer] == s.distance[u] + edge.cost ==>
          s.firstPeer[edge.peer] <= FirstVia(s, me, u, edge.peer))
  }

  ghost predicate Settled(g: Graph, me: NodeId, s: Search, done: set<NodeId>)
    requires Shaped(s, me)
  {
    forall u, e :: u in done && u in g && e in g[u] ==> u in s.distance && EdgeRelaxed(s, me, u, e)
  }

  ghost predicate Within(s: Search, bound: nat) {
    forall v :: v in s.distance ==> s.distance[v] <= bound
  }

  ghost predicate OnGraph(g: Graph, me: NodeId, s: Search) {
    forall v :: v in s.distance ==> v == me || v in g
  }

  /** What relaxing one edge does to the maps, when u32 saturation is out of reach. */
  lemma RelaxEffect(s: Search, me: NodeId, node: NodeId, edge: Adjacency)
    requires Shaped(s, me) && node in s.distance && s.distance[node] + U16_MAX <= U32_MAX
    ensures var r := Relax(s, me, node, s.distance[node], edge);
            var cost := s.distance[node] + edge.cost;
            && (r == s || (edge.peer != me
                           && r.distance == s.distance[edge.peer := cost]
                           && r.firstPeer == s.firstPeer[edge.peer := FirstVia(s, me, node, edge.peer)]
                           && r.pending == Push(s.pending, Candidate(cost, edge.peer))
                           && (edge.peer in s.distance ==> cost <= s.distance[edge.peer])))
            && (node != edge.peer ==> EdgeRelaxed(r, me, node, edge))
            && (forall u, e :: u in s.distance && u != edge.peer && EdgeRelaxed(s, me, u, e) ==> EdgeRelaxed(r, me, u, e))
  {
  }

  /** Relaxing an edge out of a node at the current level leaves every done node as it was. */
  lemma RelaxKeeps(me: NodeId, s: Search, done: set<NodeId>, node: NodeId, edge: Adjacency)
    requires Shaped(s, me) && node in s.distance && HeapOk(s, done, s.distance[node]) && node in done
    requires s.distance[node] + U16_MAX <= U32_MAX
    ensures var r := Relax(s, me, node, s.distance[node], edge);
            && HeapOk(r, done, s.distance[node])
            && (edge.peer in done ==> r == s && EdgeRelaxed(s, me, node, edge))
  {
    RelaxEffect(s, me, node, edge);
    var r := Relax(s, me, node, s.distance[node], edge);
  }

  /** Relaxing every edge of the newest done node settles that node and unsettles none. */
  lemma {:induction false} RelaxAllKeeps(
    g: Graph, me: NodeId, s: Search, done: set<NodeId>, node: NodeId, edges: seq<Adjacency>, bound: nat)
    requires Shaped(s, me) && node in s.distance && HeapOk(s, done, s.distance[node]) && node in done
    requires s.distance[node] + U16_MAX <= bound <= U32_MAX && Within(s, bound)
    requires OnGraph(g, me, s) && forall e :: e in edges ==> e.peer in g
    ensures var r := RelaxAll(s, me, node, s.distance[node], edges);
            && HeapOk(r, done, s.distance[node]) && Within(r, bound) && OnGraph(g, me, r)
            && (forall u, e :: u in done && EdgeRelaxed(s, me, u, e) ==> EdgeRelaxed(r, me, u, e))
            && (forall e :: e in edges ==> EdgeRelaxed(r, me, node, e))
    decreases |edges|
  {
    if edges != [] {
      var t := Relax(s, me, node, s.distance[node], edges[0]);
      RelaxEffect(s, me, node, edges[0]);
      RelaxKeeps(me, s, done, node, edges[0]);
      assert t.distance[node] == s.distance[node];
      RelaxAllKeeps(g, me, t, done, node, edges[1..], bound);
      assert EdgeRelaxed(t, me, node, edges[0]);
    }
  }

  /** A distance found through `done` nodes never exceeds this. */
  ghost function Ceiling(done: set<NodeId>): nat {
    U16_MAX * |done|
  }

  ghost predicate Inv(g: Graph, me: NodeId, s: Search, done: set<NodeId>, level: nat) {
    && Closed(g) && |g| <= MAX_LSDB_ENTRIES
    && Shaped(s, me) && OnGraph(g, me, s)
    && HeapOk(s, done, level)
    && Settled(g, me, s, done)
    && Within(s, Ceiling(done))
  }

  ghost function DoneAfter(s: Search, done: set<NodeId>): set<NodeId>
    requires s.pending != []
  {
    var Candidate(known, node) := s.pending[0];
    if node in s.distance && s.distance[node] == known then done + {node} else done
  }

  ghost function Unvisited(g: Graph, me: NodeId, done: set<NodeId>): nat {
    |g.Keys + {me} - done|
  }

  /** A settled node that comes off the heap again changes nothing. */
  lemma {:induction false} RelaxAllIdle(me: NodeId, s: Search, node: NodeId, edges: seq<Adjacency>)
    requires Shaped(s, me) && node in s.distance && s.distance[node] + U16_MAX <= U32_MAX
    requires forall e :: e in edges ==> EdgeRelaxed(s, me, node, e)
    ensures RelaxAll(s, me, node, s.distance[node], edges) == s
    decreases |edges|
  {
    if edges != [] {
      assert EdgeRelaxed(s, me, node, edges[0]);
      assert Relax(s, me, node, s.distance[node], edges[0]) == s;
      RelaxAllIdle(me, s, node, edges[1..]);
    }
  }

  lemma DoneSize(g: Graph, me: NodeId, s: Search, done: set<NodeId>, level: nat)
    requires Inv(g, me, s, done, level)
    ensures Ceiling(done) + U16_MAX <= U32_MAX
  {
    SubsetSize(done, g.Keys + {me});
  }

  /** Taking the front entry raises the level to its cost and leaves the maps alone. */
  lemma PopKeeps(g: Graph, me: NodeId, s: Search, done: set<NodeId>, level: nat)
    requires Inv(g, me, s, done, level) && s.pending != []
    ensures var t := Pop(s);
            && |t.pending| < |s.pending|
            && Shaped(t, me) && Settled(g, me, t, done) && Within(t, Ceiling(done))
            && HeapOk(t, DoneAfter(s, done), s.pending[0].cost)
  {
    var Candidate(known, node) := s.pending[0];
    var t := Pop(s);
    assert s.pending == [s.pending[0]] + t.pending;
    forall x | x in t.pending ensures x in s.pending && known <= x.cost {
      assert NoLater(s.pending[0], x);
    }
    forall u, e | u in done && u in g && e in g[u] ensures u in t.distance && EdgeRelaxed(t, me, u, e) {
      assert EdgeRelaxed(s, me, u, e);
    }
  }

  /** The first time a node leaves the heap at its distance, it becomes settled. */
  lemma FreshVisit(g: Graph, me: NodeId, s: Search, done: set<NodeId>, level: nat)
    requires Inv(g, me, s, done, level) && s.pending != []
    requires var Candidate(known, node) := s.pending[0]; node !in done && s.distance[node] == known
    ensures Inv(g, me, Visit(g, me, s), DoneAfter(s, done), s.pending[0].cost)
  {
    var Candidate(known, node) := s.pending[0];
    var t, d := Pop(s), done + {node};
    PopKeeps(g, me, s, done, level);
    DoneSize(g, me, s, done, level);
    assert Ceiling(d) == Ceiling(done) + U16_MAX;
    if node in g {
      RelaxAllKeeps(g, me, t, d, node, g[node], Ceiling(d));
    }
  }

  /** A superseded heap entry, or a second entry of a settled node, is discarded. */
  lemma StaleVisit(g: Graph, me: NodeId, s: Search, done: set<NodeId>, level: nat)
    requires Inv(g, me, s, done, level) && s.pending != []
    requires var Candidate(known, node) := s.pending[0]; node in done || s.distance[node] != known
    ensures Visit(g, me, s) == Pop(s) && DoneAfter(s, done) == done
  {
    var Candidate(known, node) := s.pending[0];
    if node in g && s.distance[node] == known {
      DoneSize(g, me, s, done, level);
      PopKeeps(g, me, s, done, level);
      RelaxAllIdle(me, Pop(s), node, g[node]);
    }
  }

  /** One iteration keeps the invariant and shrinks the termination measure. */
  lemma VisitKeeps(g: Graph, me: NodeId, s: Search, done: set<NodeId>, level: nat)
    requires Inv(g, me, s, done, level) && s.pending != []
    ensures var r := Visit(g, me, s);
            && Inv(g, me, r, DoneAfter(s, done), s.pending[0].cost)
            && (|| Unvisited(g, me, DoneAfter(s, done)) < Unvisited(g, me, done)
                || (DoneAfter(s, done) == done && |r.pending| < |s.pending|))
  {
    var Candidate(known, node) := s.pending[0];
    if node !in done && s.distance[node] == known {
      FreshVisit(g, me, s, done, level);
      assert node in g.Keys + {me} - done;
      SubsetSize(g.Keys + {me} - (done + {node}), g.Keys + {me} - done);
    } else {
      PopKeeps(g, me, s, done, level);
      StaleVisit(g, me, s, done, level);
    }
  }

  /** The search loop, from any state that satisfies the invariant. */
  function Run(g: Graph, me: NodeId, s: Search, ghost done: set<NodeId>, ghost level: nat): (r: Search)
    requires Inv(g, me, s, done, level)
    ensures Shaped(r, me)
    decreases Unvisited(g, me, done), |s.pending|
  {
    if s.pending == [] then s
    else
      VisitKeeps(g, me, s, done, level);
      Run(g, me, Visit(g, me, s), DoneAfter(s, done), s.pending[0].cost)
  }

  lemma StartInv(g: Graph, me: NodeId)
    requires Closed(g) && |g| <= MAX_LSDB_ENTRIES
    ensures Inv(g, me, Start(me), {}, 0)
  {
  }

  function Dijkstra(g: Graph, me: NodeId): (r: Search)
    requires Closed(g) && |g| <= MAX_LSDB_ENTRIES
    ensures Shaped(r, me)
  {
    StartInv(g, me);
    Run(g, me, Start(me), {}, 0)
  }

  // ------------------------------------------------------------- exactness

  /** Nothing is better than what the maps record: the loop's result is a lower bound on every path. */
  ghost predicate NoBetter(g: Graph, me: NodeId, s: Search, path: seq<Adjacency>)
    requires Shaped(s, me)
  {
    var v := PathEnd(me, path);
    && v in s.distance
    && s.distance[v] <= Cost(path)
    && (path != [] && v != me && s.distance[v] == Cost(path) ==> s.firstPeer[v] <= path[0].peer)
  }

  lemma {:induction false} SettledIsOptimal(g: Graph, me: NodeId, s: Search, path: seq<Adjacency>)
    requires Shaped(s, me) && Settled(g, me, s, s.distance.Keys) && IsPath(g, me, path)
    ensures NoBetter(g, me, s, path)
    decreases |path|
  {
    if path != [] {
      var before, last := path[..|path| - 1], path[|path| - 1];
      SettledIsOptimal(g, me, s, before);
      assert EdgeRelaxed(s, me, PathEnd(me, before), last);
    }
  }

  /** Each recorded distance, hop count and first hop comes from a real path. */
  ghost predicate Witnessed(g: Graph, me: NodeId, s: Search, paths: map<NodeId, seq<Adjacency>>)
    requires Shaped(s, me)
  {
    forall v :: v in s.distance ==> v in paths && IsWitness(g, me, s, v, paths[v])
  }

  ghost predicate IsWitness(g: Graph, me: NodeId, s: Search, v: NodeId, path: seq<Adjacency>)
    requires Shaped(s, me) && v in s.distance
  {
    && IsPath(g, me, path) && PathEnd(me, path) == v
    && Cost(path) == s.distance[v]
    && s.pathHops[v] == Min(|path|, U8_MAX)
    && (v != me ==> path != [] && path[0].peer == s.firstPeer[v])
    && (v == me ==> path == [])
  }

  lemma Extend(g: Graph, me: NodeId, path: seq<Adjacency>, edge: Adjacency)
    requires IsPath(g, me, path) && PathEnd(me, path) in g && edge in g[PathEnd(me, path)]
    ensures IsPath(g, me, path + [edge]) && PathEnd(me, path + [edge]) == edge.peer
    ensures Cost(path + [edge]) == Cost(path) + edge.cost
  {
    assert (path + [edge])[..|path|] == path;
  }

  lemma RelaxWitnessed(
    g: Graph, me: NodeId, s: Search, node: NodeId, edge: Adjacency, paths: map<NodeId, seq<Adjacency>>)
    returns (after: map<NodeId, seq<Adjacency>>)
    requires Shaped(s, me) && node in s.distance && s.distance[node] + U16_MAX <= U32_MAX
    requires node in g && edge in g[node] && Witnessed(g, me, s, paths)
    ensures Witnessed(g, me, Relax(s, me, node, s.distance[node], edge), after)
  {
    after := paths;
    var t := Relax(s, me, node, s.distance[node], edge);
    RelaxEffect(s, me, node, edge);
    if t != s {
      assert IsWitness(g, me, s, node, paths[node]);
      Extend(g, me, paths[node], edge);
      after := paths[edge.peer := paths[node] + [edge]];
      forall v | v in t.distance && v != edge.peer ensures IsWitness(g, me, t, v, after[v]) {
        assert IsWitness(g, me, s, v, paths[v]);
      }
    }
  }

  lemma {:induction false} RelaxAllWitnessed(
    g: Graph, me: NodeId, s: Search, done: set<NodeId>, node: NodeId, edges: seq<Adjacency>,
    paths: map<NodeId, seq<Adjacency>>) returns (after: map<NodeId, seq<Adjacency>>)
    requires Shaped(s, me) && node in s.distance && HeapOk(s, done, s.distance[node]) && node in done
    requires s.distance[node] + U16_MAX <= U32_MAX
    requires node in g && forall e :: e in edges ==> e in g[node]
    requires Witnessed(g, me, s, paths)
    ensures Witnessed(g, me, RelaxAll(s, me, node, s.distance[node], edges), after)
    decreases |edges|
  {
    after := paths;
    if edges != [] {
      RelaxEffect(s, me, node, edges[0]);
      RelaxKeeps(me, s, done, node, edges[0]);
      after := RelaxWitnessed(g, me, s, node, edges[0], paths);
      after := RelaxAllWitnessed(g, me, Relax(s, me, node, s.distance[node], edges[0]), done, node, edges[1..], after);
    }
  }

  /** The whole run: what is left is settled everywhere and witnessed everywhere. */
  lemma {:induction false} RunExact(
    g: Graph, me: NodeId, s: Search, done: set<NodeId>, level: nat, paths: map<NodeId, seq<Adjacency>>)
    returns (after: map<NodeId, seq<Adjacency>>)
    requires Inv(g, me, s, done, level) && Witnessed(g, me, s, paths)
    ensures var r := Run(g, me, s, done, level);
            Settled(g, me, r, r.distance.Keys) && Witnessed(g, me, r, after) && OnGraph(g, me, r) && Within(r, U32_MAX)
    decreases Unvisited(g, me, done), |s.pending|
  {
    after := paths;
    DoneSize(g, me, s, done, level);
    if s.pending != [] {
      var Candidate(known, node) := s.pending[0];
      var t := Pop(s);
      VisitKeeps(g, me, s, done, level);
      PopKeeps(g, me, s, done, level);
      assert Witnessed(g, me, t, paths) by {
        forall v | v in t.distance ensures v in paths && IsWitness(g, me, t, v, paths[v]) {
          assert IsWitness(g, me, s, v, paths[v]);
        }
      }
      if s.distance[node] == known && node in g {
        after := RelaxAllWitnessed(g, me, t, done + {node}, node, g[node], paths);
      }
      after := RunExact(g, me, Visit(g, me, s), DoneAfter(s, done), known, after);
    }
  }

  // ------------------------------------------------------------ route tables

  type Adjacencies = map<LinkId, Adjacency>

  predicate Preferred(adjs: Adjacencies, a: LinkId, b: LinkId)
    requires a in adjs && b in adjs
  {
    adjs[a].cost < adjs[b].cost || (adjs[a].cost == adjs[b].cost && a <= b)
  }

  /** The link to `peer` with the least (cost, link) among `links`. */
  function BestAmong(adjs: Adjacencies, peer: NodeId, links: seq<LinkId>): (r: Option<LinkId>)
    requires StrictlyAscending(links) && forall k :: k in links ==> k in adjs
    ensures r.None? ==> forall k :: k in links ==> adjs[k].peer != peer
    ensures r.Some? ==> r.value in links && adjs[r.value].peer == peer
    ensures r.Some? ==> forall k :: k in links && adjs[k].peer == peer ==> Preferred(adjs, r.value, k)
  {
    if links == [] then None
    else
      var k := links[0];
      var best := BestAmong(adjs, peer, links[1..]);
      if adjs[k].peer == peer && (best.None? || adjs[k].cost <= adjs[best.value].cost) then Some(k) else best
  }

  function BestLinkTo(adjs: Adjacencies, peer: NodeId): (r: Option<LinkId>)
    ensures r.None? <==> forall k :: k in adjs ==> adjs[k].peer != peer
    ensures r.Some? ==> r.value in adjs && adjs[r.value].peer == peer
    ensures r.Some? ==> forall k :: k in adjs && adjs[k].peer == peer ==> Preferred(adjs, r.value, k)
  {
    AscendingFacts(adjs.Keys);
    BestAmong(adjs, peer, Ascending(adjs.Keys))
  }

  function ShortestPaths(me: NodeId, lsdb: Lsdb, adjs: Adjacencies): (r: map<NodeId, Route>)
    requires |lsdb| <= MAX_LSDB_ENTRIES
  {
    var s := Dijkstra(BidirectionalGraph(lsdb), me);
    map d | d in s.distance && d != me && BestLinkTo(adjs, s.firstPeer[d]).Some? ::
      Route(BestLinkTo(adjs, s.firstPeer[d]).value, s.distance[d], s.pathHops[d])
  }

  /** The node's own live LSA names only peers it has a link to. */
  ghost predicate Mirrors(me: NodeId, lsdb: Lsdb, adjs: Adjacencies) {
    IsActive(lsdb, me) ==>
      forall e :: e in lsdb[me].state.lsa.adjacencies ==> exists k :: k in adjs && adjs[k].peer == e.peer
  }

  /** A least-cost path whose first hop is least among all least-cost paths. */
  ghost predicate IsBest(g: Graph, me: NodeId, d: NodeId, path: seq<Adjacency>) {
    && Reaches(g, me, path, d)
    && forall other: seq<Adjacency> :: Reaches(g, me, other, d) ==>
         Cost(path) < Cost(other) || (Cost(path) == Cost(other) && path[0].peer <= other[0].peer)
  }

  ghost predicate RouteFollows(adjs: Adjacencies, route: Route, path: seq<Adjacency>)
    requires path != []
  {
    && BestLinkTo(adjs, path[0].peer) == Some(route.nextHop)
    && route.cost == Cost(path) <= U32_MAX
    && route.hops == Min(|path|, U8_MAX)
  }

  /** A path's first edge leaves the source. */
  lemma {:induction false} FirstEdge(g: Graph, src: NodeId, path: seq<Adjacency>)
    requires IsPath(g, src, path) && path != []
    ensures src in g && path[0] in g[src]
    decreases |path|
  {
    if |path| > 1 {
      FirstEdge(g, src, path[..|path| - 1]);
    }
  }

  /** The search finds exactly the reachable nodes, each with a best path. */
  lemma DijkstraExact(g: Graph, me: NodeId, d: NodeId)
    requires Closed(g) && |g| <= MAX_LSDB_ENTRIES && d != me
    ensures var s := Dijkstra(g, me);
            && (d in s.distance <==> exists path :: Reaches(g, me, path, d))
            && (d in s.distance ==> exists path :: IsBest(g, me, d, path) && IsWitness(g, me, s, d, path))
            && Within(s, U32_MAX)
  {
    var s := Dijkstra(g, me);
    StartInv(g, me);
    assert IsWitness(g, me, Start(me), me, []);
    var paths := RunExact(g, me, Start(me), {}, 0, map[me := []]);
    forall path | Reaches(g, me, path, d) ensures NoBetter(g, me, s, path) {
      SettledIsOptimal(g, me, s, path);
    }
    if d in s.distance {
      var path := paths[d];
      assert IsWitness(g, me, s, d, path);
      assert Reaches(g, me, path, d);
      assert IsBest(g, me, d, path);
    }
  }

  /** What a correct table says about `d`: a route exactly if it is reachable, along a best path. */
  ghost predicate ExactFor(g: Graph, me: NodeId, adjs: Adjacencies, routes: map<NodeId, Route>, d: NodeId) {
    if d == me then d !in routes
    else
      && (d in routes <==> exists path :: Reaches(g, me, path, d))
      && (d in routes ==> exists path :: IsBest(g, me, d, path) && RouteFollows(adjs, routes[d], path))
  }

  /** Over the graph: exactly the reachable nodes get a route, and each route follows a best path. */
  lemma RoutesExact(me: NodeId, lsdb: Lsdb, adjs: Adjacencies, d: NodeId)
    requires |lsdb| <= MAX_LSDB_ENTRIES && Mirrors(me, lsdb, adjs)
    ensures ExactFor(BidirectionalGraph(lsdb), me, adjs, ShortestPaths(me, lsdb, adjs), d)
  {
    var g, routes := BidirectionalGraph(lsdb), ShortestPaths(me, lsdb, adjs);
    var s := Dijkstra(g, me);
    if d != me {
      DijkstraExact(g, me, d);
      if d in s.distance {
        var path :| IsBest(g, me, d, path) && IsWitness(g, me, s, d, path);
        FirstEdge(g, me, path);
        assert path[0] in lsdb[me].state.lsa.adjacencies;
        assert d in routes && RouteFollows(adjs, routes[d], path);
      }
    }
  }

  // ----------------------------------------------------- the same over the LSAs

  /** Live LSAs of both ends list the edge: that of `u` with this cost, that of the peer with any. */
  ghost predicate Confirmed(lsdb: Lsdb, u: NodeId, edge: Adjacency) {
    && IsActive(lsdb, u) && edge in lsdb[u].state.lsa.adjacencies
    && IsActive(lsdb, edge.peer) && exists back :: back in lsdb[edge.peer].state.lsa.adjacencies && back.peer == u
  }

  /** Each edge of the path is confirmed where it starts. */
  ghost predicate Confirms(lsdb: Lsdb, src: NodeId, path: seq<Adjacency>) {
    forall i :: 0 <= i < |path| ==> Confirmed(lsdb, PathEnd(src, path[..i]), path[i])
  }

  ghost predicate Joins(lsdb: Lsdb, src: NodeId, path: seq<Adjacency>, dst: NodeId) {
    path != [] && Confirms(lsdb, src, path) && path[|path| - 1].peer == dst
  }

  /** No confirmed path costs less, and none of equal cost starts with a smaller neighbour. */
  ghost predicate Unbeaten(lsdb: Lsdb, src: NodeId, path: seq<Adjacency>, dst: NodeId)
    requires path != []
  {
    forall other: seq<Adjacency> :: Joins(lsdb, src, other, dst) ==>
      Cost(path) < Cost(other) || (Cost(path) == Cost(other) && path[0].peer <= other[0].peer)
  }

  /** The edges of the graph are the confirmed ones, each at the cost its own LSA gives it. */
  lemma GraphIsConfirmed(lsdb: Lsdb, u: NodeId, edge: Adjacency)
    ensures var g := BidirectionalGraph(lsdb); u in g && edge in g[u] <==> Confirmed(lsdb, u, edge)
  {
  }

  lemma ConfirmsLast(lsdb: Lsdb, src: NodeId, path: seq<Adjacency>, before: seq<Adjacency>, last: Adjacency)
    requires path != [] && before == path[..|path| - 1] && last == path[|path| - 1]
    ensures Confirms(lsdb, src, path) <==> Confirms(lsdb, src, before) && Confirmed(lsdb, PathEnd(src, before), last)
  {
    assert forall i :: 0 <= i < |before| ==> before[i] == path[i] && before[..i] == path[..i];
  }

  lemma {:induction false} PathIsConfirmed(lsdb: Lsdb, src: NodeId, path: seq<Adjacency>)
    ensures IsPath(BidirectionalGraph(lsdb), src, path) <==> Confirms(lsdb, src, path)
  {
    if path != [] {
      var before, last := path[..|path| - 1], path[|path| - 1];
      PathIsConfirmed(lsdb, src, before);
      GraphIsConfirmed(lsdb, PathEnd(src, before), last);
      ConfirmsLast(lsdb, src, path, before, last);
    }
  }

  /**
   * Exactly the nodes that confirmed edges lead to get a route. It costs what the
   * LSAs say an unbeaten path costs, and leaves by the best link to its first node.
   */
  lemma ShortestPathsExact(me: NodeId, lsdb: Lsdb, adjs: Adjacencies, d: NodeId)
    requires |lsdb| <= MAX_LSDB_ENTRIES && Mirrors(me, lsdb, adjs)
    ensures var routes := ShortestPaths(me, lsdb, adjs);
            && (d in routes <==> d != me && exists path :: Joins(lsdb, me, path, d))
            && (d in routes ==> exists path :: Joins(lsdb, me, path, d) && Unbeaten(lsdb, me, path, d) && RouteFollows(adjs, routes[d], path))
  {
    var g, routes := BidirectionalGraph(lsdb), ShortestPaths(me, lsdb, adjs);
    RoutesExact(me, lsdb, adjs, d);
    forall path: seq<Adjacency> ensures Reaches(g, me, path, d) <==> Joins(lsdb, me, path, d) {
      PathIsConfirmed(lsdb, me, path);
    }
    if d in routes {
      var path: seq<Adjacency> :| IsBest(g, me, d, path) && RouteFollows(adjs, routes[d], path);
      assert Joins(lsdb, me, path, d) && Unbeaten(lsdb, me, path, d);
    }
  }
}
