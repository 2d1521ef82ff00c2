/** The loops of the control plane, each proved equal to the function that specifies it. */
module ControlLoops {
  import opened MeshTypes
  import opened ControlData
  import opened Spf
  import opened ControlModel

  // ------------------------------------------------------------ ordered iteration

  /** Two strictly ascending lists with the same members are the same list. */
  lemma {:induction false} AscendingIsUnique(a: seq<Id>, b: seq<Id>)
    requires StrictlyAscending(a) && StrictlyAscending(b) && forall x :: x in a <==> x in b
    ensures a == b
    decreases |a| + |b|
  {
    assert a != [] ==> a[0] in a;
    assert b != [] ==> b[0] in b;
    if a != [] && b != [] {
      assert a == [a[0]] + a[1..] && b == [b[0]] + b[1..];
      assert a[0] in b && b[0] in a;
      assert a[0] == b[0];
      forall x ensures x in a[1..] <==> x in b[1..] {
        assert x in a[1..] ==> x in a && a[0] < x;
        assert x in b[1..] ==> x in b && b[0] < x;
      }
      AscendingIsUnique(a[1..], b[1..]);
    }
  }

  lemma {:induction false} AscendingAppend(a: seq<Id>, x: Id)
    requires StrictlyAscending(a) && forall y :: y in a ==> y < x
    ensures StrictlyAscending(a + [x])
  {
    if a != [] {
      forall y | y in a[1..] ensures y < x {
        assert y in a;
      }
      AscendingAppend(a[1..], x);
      var tail := (a + [x])[1..];
      assert tail == a[1..] + [x];
      forall y | y in tail ensures a[0] < y {
        assert a[0] in a;
        assert y in a[1..] || y == x;
      }
      assert (a + [x])[0] == a[0];
    } else {
      assert ([x])[1..] == [];
    }
  }

  /** In an ascending list, what comes before position `i` is smaller. */
  lemma {:induction false} AscendingBefore(a: seq<Id>, i: nat)
    requires StrictlyAscending(a) && i < |a|
    ensures forall y :: y in a[..i] ==> y < a[i]
    decreases i
  {
    if i > 0 {
      AscendingBefore(a[1..], i - 1);
      assert a[..i] == [a[0]] + a[1..][..i - 1];
      assert a[i] == a[1..][i - 1] && a[i] in a[1..];
    }
  }

  // ------------------------------------------------------------ loops

  lemma LeastCost(adjs: Adjacencies, p: NodeId, k: LinkId)
    requires k in adjs && adjs[k].peer == p && forall j :: j in adjs && adjs[j].peer == p ==> adjs[k].cost <= adjs[j].cost
    ensures BestLinkTo(adjs, p).Some? && adjs[BestLinkTo(adjs, p).value].cost == adjs[k].cost
  {
  }

  /** `best` holds, for each peer, the least cost of a link to it. */
  ghost predicate CheapestPerPeer(adjs: Adjacencies, best: map<NodeId, LinkCost>) {
    && (forall k :: k in adjs ==> adjs[k].peer in best && best[adjs[k].peer] <= adjs[k].cost)
    && (forall p :: p in best ==> exists k :: k in adjs && adjs[k] == Adjacency(p, best[p]))
  }

  method CollectBestCosts(adjs: Adjacencies) returns (best: map<NodeId, LinkCost>)
    ensures CheapestPerPeer(adjs, best)
  {
    best := map[];
    ghost var via: map<NodeId, LinkId> := map[];
    var links, i := Ascending(adjs.Keys), 0;
    while i < |links|
      invariant 0 <= i <= |links|
      invariant forall j :: 0 <= j < i ==> var a := adjs[links[j]]; a.peer in best && best[a.peer] <= a.cost
      invariant forall p :: p in best ==> p in via && via[p] in adjs && adjs[via[p]] == Adjacency(p, best[p])
    {
      var a := adjs[links[i]];
      if a.peer !in best || a.cost < best[a.peer] {
        best := best[a.peer := a.cost];
        via := via[a.peer := links[i]];
      }
      i := i + 1;
    }
    forall k | k in adjs ensures adjs[k].peer in best && best[adjs[k].peer] <= adjs[k].cost {
      assert k in links;
    }
  }

  lemma CheapestIsBest(adjs: Adjacencies, best: map<NodeId, LinkCost>, p: NodeId)
    requires CheapestPerPeer(adjs, best) && p in best
    ensures BestLinkTo(adjs, p).Some? && adjs[BestLinkTo(adjs, p).value].cost == best[p]
  {
    var k :| k in adjs && adjs[k] == Adjacency(p, best[p]);
    LeastCost(adjs, p, k);
  }

  lemma CheapestPeers(adjs: Adjacencies, best: map<NodeId, LinkCost>)
    requires CheapestPerPeer(adjs, best)
    ensures best.Keys == Peers(adjs)
  {
  }

  lemma {:induction false} AdvertisedAt(adjs: Adjacencies, peers: seq<NodeId>, j: nat)
    requires (forall p :: p in peers ==> p in Peers(adjs)) && j < |peers|
    ensures BestLinkTo(adjs, peers[j]).Some?
    ensures AdvertisedEdges(adjs, peers)[j] == Adjacency(peers[j], adjs[BestLinkTo(adjs, peers[j]).value].cost)
  {
    assert peers[0] in Peers(adjs);
    if j > 0 {
      AdvertisedAt(adjs, peers[1..], j - 1);
    }
  }

  lemma NextEdge(adjs: Adjacencies, best: map<NodeId, LinkCost>, peers: seq<NodeId>, i: nat)
    requires CheapestPerPeer(adjs, best) && (forall p :: p in peers ==> p in Peers(adjs)) && i < |peers| && peers[i] in best
    ensures AdvertisedEdges(adjs, peers)[i] == Adjacency(peers[i], best[peers[i]])
  {
    CheapestIsBest(adjs, best, peers[i]);
    AdvertisedAt(adjs, peers, i);
  }

  lemma SliceGrows<T>(s: seq<T>, i: nat)
    requires i < |s|
    ensures s[..i + 1] == s[..i] + [s[i]]
  {
  }

  /** The edges the node advertises, peer by peer. */
  method AdvertiseEdges(adjs: Adjacencies) returns (edges: seq<Adjacency>)
    ensures edges == OwnEdges(adjs)
  {
    var best := CollectBestCosts(adjs);
    CheapestPeers(adjs, best);
    var peers, i := Ascending(best.Keys), 0;
    ghost var target := AdvertisedEdges(adjs, peers);
    edges := [];
    while i < |peers|
      invariant 0 <= i <= |peers|
      invariant edges == target[..i]
    {
      NextEdge(adjs, best, peers, i);
      SliceGrows(target, i);
      edges := edges + [Adjacency(peers[i], best[peers[i]])];
      i := i + 1;
    }
  }

  /** The newest version a digest names for each origin. */
  method CollectRemote(entries: seq<DigestEntry>) returns (remote: map<NodeId, Version>)
    ensures IsRemote(entries, remote)
  {
    remote := map[];
    var i := 0;
    while i < |entries|
      invariant 0 <= i <= |entries|
      invariant IsRemote(entries[..i], remote)
    {
      var e := entries[i];
      assert entries[..i + 1][..i] == entries[..i] && entries[..i + 1][i] == e;
      if e.origin !in remote || remote[e.origin].Below(e.version) {
        remote := remote[e.origin := e.version];
      }
      i := i + 1;
    }
    assert entries[..i] == entries;
  }

  /** The mutually advertised edges of every live origin. */
  method BuildGraph(lsdb: Lsdb) returns (graph: Graph)
    ensures graph == BidirectionalGraph(lsdb)
  {
    graph := map[];
    var origins, i := Ascending(lsdb.Keys), 0;
    while i < |origins|
      invariant 0 <= i <= |origins|
      invariant forall o :: o in graph <==> o in origins[..i] && IsActive(lsdb, o)
      invariant forall o :: o in graph ==> graph[o] == Mutual(lsdb, o, lsdb[o].state.lsa.adjacencies)
    {
      var o := origins[i];
      assert origins[..i + 1] == origins[..i] + [o];
      if lsdb[o].state.Active? {
        graph := graph[o := Mutual(lsdb, o, lsdb[o].state.lsa.adjacencies)];
      }
      i := i + 1;
    }
    assert origins[..i] == origins;
  }

  /** The search loop. */
  method SearchPaths(graph: Graph, me: NodeId) returns (s: Search)
    requires Closed(graph) && |graph| <= MAX_LSDB_ENTRIES
    ensures s == Dijkstra(graph, me)
  {
    StartInv(graph, me);
    s := Start(me);
    ghost var done: set<NodeId>, level := {}, 0;
    while s.pending != []
      invariant Inv(graph, me, s, done, level)
      invariant Run(graph, me, s, done, level) == Dijkstra(graph, me)
      decreases Unvisited(graph, me, done), |s.pending|
    {
      VisitKeeps(graph, me, s, done, level);
      ghost var after, cost := DoneAfter(s, done), s.pending[0].cost;
      s := VisitFront(graph, me, s);
      done, level := after, cost;
    }
  }

  /** Takes the front entry off the heap; unless it is outdated, tries the edges of its node. */
  method VisitFront(graph: Graph, me: NodeId, s: Search) returns (r: Search)
    requires Spf.Shaped(s, me) && s.pending != []
    ensures r == Visit(graph, me, s)
  {
    var Candidate(known, node) := s.pending[0];
    r := s.(pending := s.pending[1..]);
    if node in r.distance && r.distance[node] == known && node in graph {
      r := RelaxEdges(me, r, node, known, graph[node]);
    }
  }

  /** Least-cost routes, with the least first hop among those. */
  method ComputeRoutes(me: NodeId, lsdb: Lsdb, adjs: Adjacencies) returns (routes: map<NodeId, Route>)
    requires |lsdb| <= MAX_LSDB_ENTRIES
    ensures routes == ShortestPaths(me, lsdb, adjs)
  {
    var graph := BuildGraph(lsdb);
    var s := SearchPaths(graph, me);
    routes := map d | d in s.distance && d != me && BestLinkTo(adjs, s.firstPeer[d]).Some? ::
      Route(BestLinkTo(adjs, s.firstPeer[d]).value, s.distance[d], s.pathHops[d]);
  }

  /** Tries one edge: a cheaper path wins, and among equals the smaller first hop. */
  method TryEdge(me: NodeId, s: Search, node: NodeId, known: nat, edge: Adjacency) returns (r: Search)
    requires Spf.Shaped(s, me) && node in s.distance
    ensures r == Relax(s, me, node, known, edge)
  {
    r := s;
    var cost := SaturatingCost(known, edge.cost);
    var hops := Min(s.pathHops[node] + 1, U8_MAX);
    var first := if node == me then edge.peer else s.firstPeer[node];
    var replace := edge.peer !in s.distance || cost < s.distance[edge.peer];
    if !replace && cost == s.distance[edge.peer] && edge.peer in s.firstPeer {
      replace := first < s.firstPeer[edge.peer];
    }
    if replace {
      r := Search(s.distance[edge.peer := cost], s.pathHops[edge.peer := hops], s.firstPeer[edge.peer := first],
                  Push(s.pending, Candidate(cost, edge.peer)));
    }
  }

  /** The inner loop: tries every edge out of a node that has just left the heap. */
  method RelaxEdges(me: NodeId, s: Search, node: NodeId, known: nat, edges: seq<Adjacency>) returns (r: Search)
    requires Spf.Shaped(s, me) && node in s.distance
    ensures r == RelaxAll(s, me, node, known, edges)
  {
    r := s;
    var i := 0;
    while i < |edges|
      invariant 0 <= i <= |edges|
      invariant Spf.Shaped(r, me) && node in r.distance
      invariant RelaxAll(r, me, node, known, edges[i..]) == RelaxAll(s, me, node, known, edges)
    {
      assert edges[i..][0] == edges[i] && edges[i..][1..] == edges[i + 1..];
      r := TryEdge(me, r, node, known, edges[i]);
      i := i + 1;
    }
  }

  lemma {:induction false} SendLsasAppend(lsdb: Lsdb, link: LinkId, a: seq<NodeId>, o: NodeId)
    ensures SendLsas(lsdb, link, a + [o])
         == SendLsas(lsdb, link, a) + (if IsActive(lsdb, o) then [Send(link, LsaFrame(lsdb[o].state.lsa))] else [])
  {
    FirstOfSum(a, [o]);
    if a == [] {
      assert [o][1..] == [] && SendLsas(lsdb, link, []) == [];
    } else {
      SendLsasAppend(lsdb, link, a[1..], o);
    }
  }

  /** `picked` lists, in order, exactly the origins so far that satisfy `p`. */
  ghost predicate Picks(picked: seq<NodeId>, origins: seq<NodeId>, p: NodeId -> bool) {
    StrictlyAscending(picked) && forall o :: o in picked <==> o in origins && p(o)
  }

  lemma PicksNext(picked: seq<NodeId>, origins: seq<NodeId>, i: nat, p: NodeId -> bool)
    requires StrictlyAscending(origins) && i < |origins| && Picks(picked, origins[..i], p)
    ensures Picks(if p(origins[i]) then picked + [origins[i]] else picked, origins[..i + 1], p)
  {
    AscendingBefore(origins, i);
    SliceGrows(origins, i);
    if p(origins[i]) {
      AscendingAppend(picked, origins[i]);
    }
  }

  lemma PicksAll(picked: seq<NodeId>, origins: seq<NodeId>, p: NodeId -> bool, s: set<NodeId>)
    requires Picks(picked, origins, p) && forall o :: o in s <==> o in origins && p(o)
    ensures picked == Ascending(s)
  {
    AscendingFacts(s);
    AscendingIsUnique(picked, Ascending(s));
  }

  ghost predicate IsRemote(entries: seq<DigestEntry>, remote: map<NodeId, Version>) {
    forall o :: RemoteVersion(entries, o) == if o in remote then Some(remote[o]) else None
  }

  ghost function Wanted(p: Plane, entries: seq<DigestEntry>): NodeId -> bool {
    (o: NodeId) => o != p.me && RemoteAhead(p.lsdb, entries, o)
  }

  ghost function Newer(p: Plane, entries: seq<DigestEntry>): NodeId -> bool {
    (o: NodeId) => LocalAhead(p.lsdb, entries, o)
  }

  lemma Compared(p: Plane, entries: seq<DigestEntry>, remote: map<NodeId, Version>, o: NodeId)
    requires IsRemote(entries, remote)
    ensures Wanted(p, entries)(o) <==> o != p.me && o in remote && (o !in p.lsdb || p.lsdb[o].version.Below(remote[o]))
    ensures Newer(p, entries)(o) <==> o in p.lsdb && (o !in remote || remote[o].Below(p.lsdb[o].version))
  {
  }

  /** Goes through the origins of both sides in order: offers what is newer here, collects what is newer there. */
  method CompareOrigins(p: Plane, link: LinkId, ghost entries: seq<DigestEntry>, remote: map<NodeId, Version>, origins: seq<NodeId>)
    returns (requested: seq<NodeId>, actions: seq<ControlAction>, ghost offered: seq<NodeId>)
    requires IsRemote(entries, remote) && StrictlyAscending(origins) && forall o :: o in origins ==> o in p.lsdb || o in remote
    ensures Picks(requested, origins, Wanted(p, entries)) && Picks(offered, origins, Newer(p, entries))
    ensures actions == SendLsas(p.lsdb, link, offered)
  {
    requested, actions, offered := [], [], [];
    var i := 0;
    while i < |origins|
      invariant 0 <= i <= |origins|
      invariant Picks(requested, origins[..i], Wanted(p, entries)) && Picks(offered, origins[..i], Newer(p, entries))
      invariant actions == SendLsas(p.lsdb, link, offered)
    {
      var o := origins[i];
      Compared(p, entries, remote, o);
      PicksNext(requested, origins, i, Wanted(p, entries));
      PicksNext(offered, origins, i, Newer(p, entries));
      SendLsasAppend(p.lsdb, link, offered, o);
      if o in remote && (o !in p.lsdb || p.lsdb[o].version.Below(remote[o])) {
        if o != p.me {
          requested := requested + [o];
        }
      } else if o !in remote || remote[o].Below(p.lsdb[o].version) {
        offered := offered + [o];
        if p.lsdb[o].state.Active? {
          actions := actions + [Send(link, LsaFrame(p.lsdb[o].state.lsa))];
        }
      }
      i := i + 1;
    }
    assert origins[..i] == origins;
  }

  /** Compares a digest with the database and answers it. */
  method AnswerDigest(p: Plane, link: LinkId, entries: seq<DigestEntry>) returns (actions: seq<ControlAction>)
    ensures actions == ReceiveDigest(p, link, entries)
  {
    if link !in p.adjacencies || |entries| > MAX_DIGEST_ENTRIES {
      return [];
    }
    var remote := CollectRemote(entries);
    var origins := Ascending(p.lsdb.Keys + remote.Keys);
    AscendingFacts(p.lsdb.Keys + remote.Keys);
    var requested, offers, offered := CompareOrigins(p, link, entries, remote, origins);
    AllOriginsSeen(p, entries, remote, origins);
    PicksAll(requested, origins, Wanted(p, entries), Requested(p, entries));
    PicksAll(offered, origins, Newer(p, entries), Offered(p, entries));
    actions := offers;
    if requested != [] {
      actions := actions + [Send(link, DigestReqFrame(requested))];
    }
  }

  lemma AllOriginsSeen(p: Plane, entries: seq<DigestEntry>, remote: map<NodeId, Version>, origins: seq<NodeId>)
    requires IsRemote(entries, remote) && forall o :: o in origins <==> o in p.lsdb || o in remote
    ensures forall o :: o in Requested(p, entries) <==> o in origins && o != p.me && RemoteAhead(p.lsdb, entries, o)
    ensures forall o :: o in Offered(p, entries) <==> o in origins && LocalAhead(p.lsdb, entries, o)
  {
    forall o ensures o in Requested(p, entries) <==> o in origins && o != p.me && RemoteAhead(p.lsdb, entries, o) {
      assert RemoteVersion(entries, o) == if o in remote then Some(remote[o]) else None;
    }
  }
}
