/** What every event keeps true of one node's control plane, over whole runs. */
module ControlSafety {
  import opened MeshTypes
  import opened ControlData
  import opened Sorting
  import opened TopicAds
  import opened Spf
  import opened ControlModel

  // ------------------------------------------------------------ the invariant

  /** The database is bounded, keyed by origin, and holds the node's own LSA before any other. */
  ghost predicate DbHolds(p: Plane, own: Lsa) {
    && |p.lsdb| <= MAX_LSDB_ENTRIES
    && (p.adjacencies != map[] || p.lsdb != map[] ==> p.me in p.lsdb)
    && (p.me in p.lsdb ==> p.lsdb[p.me].version == Version(p.epoch, p.mySeq))
    && (forall o :: IsActive(p.lsdb, o) ==>
          p.lsdb[o].state.lsa.origin == o && p.lsdb[o].state.lsa.version == p.lsdb[o].version)
    && (IsActive(p.lsdb, p.me) ==> p.lsdb[p.me].state.lsa == own)
    && ValidTopicAds(p.topicAds)
  }

  /** The live own LSA mirrors the current adjacencies and topic ads. */
  ghost predicate DbOk(p: Plane) {
    DbHolds(p, OwnLsa(p))
  }

  /** The hold stays in its range, and only the newest generation can fire. */
  ghost predicate SpfOk(p: Plane) {
    && SPF_INITIAL_HOLD_MS <= p.holdMs <= SPF_MAX_HOLD_MS
    && (p.pending.Some? ==> p.pending.value.generation == p.generation)
    && p.routes.version + (if p.pending.Some? then 1 else 0) <= p.generation
  }

  ghost predicate PlaneOk(p: Plane) {
    DbOk(p) && SpfOk(p)
  }

  /** With no recomputation pending, the published tables are `tables`. */
  ghost predicate CacheHolds(p: Plane, tables: Tables) {
    p.pending.None? ==> p.routes.routes == tables.routes && p.publishedAds == tables.ads
  }

  ghost predicate CacheOk(p: Plane)
    requires |p.lsdb| <= MAX_LSDB_ENTRIES
  {
    CacheHolds(p, TablesOf(p))
  }

  lemma {:induction false} TagMembers(node: NodeId, ads: seq<TopicAd>, d: DiscoveredTopicAd)
    ensures multiset(Tag(node, ads))[d] == if d.node == node then multiset(ads)[d.ad] else 0
  {
    if ads != [] {
      TagMembers(node, ads[1..], d);
      assert ads == [ads[0]] + ads[1..];
      assert d == DiscoveredTopicAd(d.node, d.ad);
    }
  }

  /** How often the live LSAs of the given origins advertise `d`. */
  ghost function Advertised(lsdb: Lsdb, d: DiscoveredTopicAd): nat {
    if IsActive(lsdb, d.node) then multiset(lsdb[d.node].state.lsa.topics)[d.ad] else 0
  }

  lemma {:induction false} DiscoveredInMembers(lsdb: Lsdb, origins: seq<NodeId>, d: DiscoveredTopicAd)
    requires StrictlyAscending(origins)
    ensures multiset(DiscoveredIn(lsdb, origins))[d] == if d.node in origins then Advertised(lsdb, d) else 0
  {
    if origins != [] {
      var o := origins[0];
      var here := if IsActive(lsdb, o) then Tag(o, lsdb[o].state.lsa.topics) else [];
      DiscoveredInMembers(lsdb, origins[1..], d);
      if IsActive(lsdb, o) {
        TagMembers(o, lsdb[o].state.lsa.topics, d);
      }
      assert multiset(here + DiscoveredIn(lsdb, origins[1..]))[d] == multiset(here)[d] + multiset(DiscoveredIn(lsdb, origins[1..]))[d];
    }
  }

  /** The published ads are the sorted list of exactly the ads of the live LSAs. */
  lemma DiscoveredExactly(lsdb: Lsdb, d: DiscoveredTopicAd)
    ensures SortedBy(Discovered(lsdb), DiscoveredAtMost)
    ensures multiset(Discovered(lsdb))[d] == Advertised(lsdb, d)
  {
    DiscoveredOrder();
    SortBySorts(DiscoveredIn(lsdb, Ascending(lsdb.Keys)), DiscoveredAtMost);
    AscendingFacts(lsdb.Keys);
    DiscoveredInMembers(lsdb, Ascending(lsdb.Keys), d);
  }

  lemma EmptyDatabase(me: NodeId)
    ensures ShortestPaths(me, map[], map[]) == map[]
    ensures Discovered(map[]) == []
  {
    assert Ascending({}) == [];
    var routes := ShortestPaths(me, map[], map[]);
    assert forall d :: d !in routes;
  }

  lemma NewPlaneOk(me: NodeId, epoch: nat, lastSeq: nat)
    ensures PlaneOk(NewPlane(me, epoch, lastSeq)) && CacheOk(NewPlane(me, epoch, lastSeq))
  {
    EmptyDatabase(me);
  }

  ghost predicate SameDatabase(p: Plane, q: Plane) {
    && q.me == p.me && q.epoch == p.epoch && q.mySeq == p.mySeq
    && q.adjacencies == p.adjacencies && q.topicAds == p.topicAds && q.lsdb == p.lsdb
  }

  lemma SameDatabaseOk(p: Plane, q: Plane)
    requires SameDatabase(p, q)
    ensures OwnLsa(q) == OwnLsa(p)
    ensures DbOk(p) ==> DbOk(q)
  {
  }

  lemma DirtyKeeps(p: Plane, now: Time)
    requires SpfOk(p)
    ensures var q := MarkSpfDirty(p, now).plane; SameDatabase(p, q) && SpfOk(q) && q.pending.Some?
  {
  }

  lemma GrowsByOne<T>(m: map<NodeId, T>, k: NodeId, v: T)
    ensures |m[k := v]| == |m| + if k in m then 0 else 1
  {
    assert m[k := v].Keys == m.Keys + {k};
    assert |m[k := v].Keys| == |m[k := v]|;
    assert |m.Keys| == |m|;
  }

  /** A database that is about to get a new own LSA: everything but the own entry is in order. */
  ghost predicate Announcing(p: Plane) {
    && |p.lsdb| <= MAX_LSDB_ENTRIES && (p.lsdb != map[] ==> p.me in p.lsdb) && SpfOk(p) && ValidTopicAds(p.topicAds)
    && forall o :: IsActive(p.lsdb, o) ==>
         p.lsdb[o].state.lsa.origin == o && p.lsdb[o].state.lsa.version == p.lsdb[o].version
  }

  lemma AnnounceKeeps(p: Plane, now: Time, lsa: Lsa, flood: seq<ControlAction>)
    requires Announcing(p) && lsa.origin == p.me && lsa.version == Version(p.epoch, p.mySeq)
    ensures var q := Announce(p, now, lsa, flood).plane;
            && SameDatabase(p.(lsdb := p.lsdb[p.me := Installed(lsa, now)]), q)
            && DbHolds(q, lsa) && SpfOk(q) && q.pending.Some?
  {
    GrowsByOne(p.lsdb, p.me, Installed(lsa, now));
    DirtyKeeps(p.(lsdb := p.lsdb[p.me := Installed(lsa, now)]), now);
  }

  /** Originating installs a fresh own LSA that mirrors the adjacencies; it cannot run out of room. */
  lemma OriginateKeeps(p: Plane, now: Time)
    requires Announcing(p)
    ensures Fits(p.lsdb, p.me) && PlaneOk(Originate(p, now).plane) && Originate(p, now).plane.pending.Some?
  {
    var q := p.(mySeq := p.mySeq + 1);
    var lsa := OwnLsa(q);
    AnnounceKeeps(q, now, lsa, Flood(q.adjacencies, lsa, None));
    SameDatabaseOk(q.(lsdb := q.lsdb[q.me := Installed(lsa, now)]), Originate(p, now).plane);
  }

  lemma EntryKeeps(p: Plane, now: Time, origin: NodeId, entry: LsdbEntry)
    requires DbOk(p) && SpfOk(p) && Fits(p.lsdb, origin) && p.me in p.lsdb
    requires entry.state.Active? ==> origin != p.me && entry.state.lsa.origin == origin && entry.state.lsa.version == entry.version
    requires origin == p.me ==> entry.version == p.lsdb[p.me].version
    ensures var q := MarkSpfDirty(p.(lsdb := p.lsdb[origin := entry]), now).plane; PlaneOk(q) && q.pending.Some?
  {
    var r := p.(lsdb := p.lsdb[origin := entry]);
    GrowsByOne(p.lsdb, origin, entry);
    assert DbHolds(r, OwnLsa(p));
    assert OwnLsa(r) == OwnLsa(p);
    DirtyKeeps(r, now);
    SameDatabaseOk(r, MarkSpfDirty(r, now).plane);
  }

  lemma ReceiveLsaKeeps(p: Plane, now: Time, link: LinkId, lsa: Lsa)
    requires PlaneOk(p)
    ensures var q := ReceiveLsa(p, now, link, lsa).plane; PlaneOk(q) && (q == p || q.pending.Some?)
  {
    if link in p.adjacencies && lsa.origin != p.me && Fits(p.lsdb, lsa.origin) {
      EntryKeeps(p, now, lsa.origin, Installed(lsa, now));
    }
  }

  lemma ExpireKeeps(p: Plane, now: Time, origin: NodeId, version: Version)
    requires PlaneOk(p)
    ensures var q := Expire(p, now, origin, version).plane; PlaneOk(q) && (q == p || q.pending.Some?)
  {
    if IsActive(p.lsdb, origin) && p.lsdb[origin].version == version {
      EntryKeeps(p, now, origin, LsdbEntry(version, Tombstone));
    }
  }

  /** A plane whose adjacencies or topic ads have just changed is ready to announce its next LSA. */
  lemma ChangedIsAnnouncing(p: Plane, adjs: Adjacencies, ads: seq<TopicAd>)
    requires PlaneOk(p) && ValidTopicAds(ads)
    ensures Announcing(p.(adjacencies := adjs)) && Announcing(p.(topicAds := ads)) && Announcing(p)
  {
  }

  lemma TimerKeeps(p: Plane, now: Time, timer: ControlTimer, tables: Tables)
    requires PlaneOk(p) && CacheHolds(p, tables)
    ensures Fits(p.lsdb, p.me)
    ensures var q := HandleTimer(p, now, timer, tables).plane;
            PlaneOk(q) && (q.pending.Some? || (SameDatabase(p, q) && CacheHolds(q, tables)))
  {
    match timer
    case DigestTimer(link) =>
    case SpfHold(generation) => SameDatabaseOk(p, FireSpf(p, now, generation, tables).plane);
    case LsaRefresh(version) => OriginateKeeps(p, now);
    case LsaExpire(origin, version) => ExpireKeeps(p, now, origin, version);
  }

  lemma OwnChangeKeeps(p: Plane, now: Time, event: ControlEvent, tables: Tables)
    requires PlaneOk(p) && (event.LinkUp? || event.LinkDown? || event.LocalTopicAdsChanged?)
    ensures Fits(p.lsdb, p.me)
    ensures var q := Step(p, now, event, tables).plane; PlaneOk(q) && (q == p || q.pending.Some?)
  {
    match event
    case LinkUp(link, peer, cost) =>
      ChangedIsAnnouncing(p, p.adjacencies[link := Adjacency(peer, cost)], p.topicAds);
      OriginateKeeps(p.(adjacencies := p.adjacencies[link := Adjacency(peer, cost)]), now);
    case LinkDown(link) =>
      ChangedIsAnnouncing(p, p.adjacencies - {link}, p.topicAds);
      OriginateKeeps(p.(adjacencies := p.adjacencies - {link}), now);
    case LocalTopicAdsChanged(ads) =>
      if ValidTopicAds(SortBy(ads, AdAtMost)) {
        ChangedIsAnnouncing(p, p.adjacencies, SortBy(ads, AdAtMost));
        OriginateKeeps(p.(topicAds := SortBy(ads, AdAtMost)), now);
      }
  }

  /**
   * Every event keeps the invariant; in particular the entry reserved for the
   * own LSA is always free. It also leaves a recomputation pending unless the
   * database and the published tables are still in step.
   */
  lemma StepKeeps(p: Plane, now: Time, event: ControlEvent, tables: Tables)
    requires PlaneOk(p) && CacheHolds(p, tables)
    ensures Fits(p.lsdb, p.me)
    ensures var q := Step(p, now, event, tables).plane;
            PlaneOk(q) && (q.pending.Some? || (SameDatabase(p, q) && CacheHolds(q, tables)))
  {
    match event
    case Frame(link, LsaFrame(lsa)) => ReceiveLsaKeeps(p, now, link, lsa);
    case Frame(link, _) =>
    case Timer(timer) => TimerKeeps(p, now, timer, tables);
    case _ => OwnChangeKeeps(p, now, event, tables);
  }

  /** After every event, published tables are either due for recomputation or exactly those of the database. */
  lemma HandleKeeps(p: Plane, now: Time, event: ControlEvent)
    requires PlaneOk(p) && CacheOk(p)
    ensures Fits(p.lsdb, p.me)
    ensures var q := Handle(p, now, event).plane; PlaneOk(q) && CacheOk(q)
  {
    StepKeeps(p, now, event, TablesOf(p));
  }

  // ------------------------------------------------------------ own edges

  /** Some link has this peer and cost, and no link to the peer costs less. */
  ghost predicate IsCheapest(adjs: Adjacencies, e: Adjacency) {
    (exists k :: k in adjs && adjs[k] == e) && forall k :: k in adjs && adjs[k].peer == e.peer ==> e.cost <= adjs[k].cost
  }

  lemma {:induction false} EdgesAreCheapest(adjs: Adjacencies, peers: seq<NodeId>, e: Adjacency)
    requires forall p :: p in peers ==> p in Peers(adjs)
    ensures e in AdvertisedEdges(adjs, peers) <==> e.peer in peers && IsCheapest(adjs, e)
  {
    if peers != [] {
      EdgesAreCheapest(adjs, peers[1..], e);
      assert peers[0] in Peers(adjs);
      var best := BestLinkTo(adjs, peers[0]).value;
      assert Adjacency(peers[0], adjs[best].cost) == adjs[best] && IsCheapest(adjs, adjs[best]);
      assert AdvertisedEdges(adjs, peers) == [adjs[best]] + AdvertisedEdges(adjs, peers[1..]);
    }
  }

  /** A node advertises each peer once, at the cost of the cheapest link to it. */
  lemma OwnEdgesExactly(adjs: Adjacencies, e: Adjacency)
    ensures e in OwnEdges(adjs) <==> IsCheapest(adjs, e)
    ensures |OwnEdges(adjs)| == |Peers(adjs)|
  {
    AscendingFacts(Peers(adjs));
    EdgesAreCheapest(adjs, Ascending(Peers(adjs)), e);
    if IsCheapest(adjs, e) {
      assert e.peer in Peers(adjs);
    }
  }

  // ------------------------------------------------------------ publishing

  /** Each table is handed out exactly when it changes, as it now is, and a changed route table has the next version. */
  ghost predicate Publishes(p: Plane, r: Outcome) {
    && (forall t :: PublishRoutes(t) in r.actions <==> r.plane.routes.routes != p.routes.routes && t == r.plane.routes)
    && r.plane.routes.version == p.routes.version + (if r.plane.routes.routes == p.routes.routes then 0 else 1)
    && (forall ads :: PublishTopicAds(ads) in r.actions <==> r.plane.publishedAds != p.publishedAds && ads == r.plane.publishedAds)
  }

  /** The event leaves the tables alone and hands out none. */
  ghost predicate KeepsTables(p: Plane, r: Outcome) {
    && r.plane.routes == p.routes && r.plane.publishedAds == p.publishedAds
    && forall a :: a in r.actions ==> !a.PublishRoutes? && !a.PublishTopicAds?
  }

  lemma OriginateKeepsTables(p: Plane, now: Time)
    requires Fits(p.lsdb, p.me)
    ensures KeepsTables(p, Originate(p, now))
  {
  }

  lemma ChangeKeepsTables(p: Plane, now: Time, event: ControlEvent, tables: Tables)
    requires Fits(p.lsdb, p.me) && !event.Frame? && !event.Timer?
    ensures KeepsTables(p, Step(p, now, event, tables))
  {
    match event
    case LinkUp(link, peer, cost) => OriginateKeepsTables(p.(adjacencies := p.adjacencies[link := Adjacency(peer, cost)]), now);
    case LinkDown(link) => OriginateKeepsTables(p.(adjacencies := p.adjacencies - {link}), now);
    case LocalTopicAdsChanged(ads) => OriginateKeepsTables(p.(topicAds := SortBy(ads, AdAtMost)), now);
  }

  lemma FrameKeepsTables(p: Plane, now: Time, link: LinkId, frame: ControlFrame)
    ensures KeepsTables(p, HandleFrame(p, now, link, frame))
  {
  }

  lemma TimerPublishes(p: Plane, now: Time, timer: ControlTimer, tables: Tables)
    requires Fits(p.lsdb, p.me)
    ensures Publishes(p, HandleTimer(p, now, timer, tables))
  {
    if timer.LsaRefresh? {
      OriginateKeepsTables(p, now);
    }
  }

  /** Whatever the event, the tables handed out are those now in force, exactly when they are new. */
  lemma PublishesExactly(p: Plane, now: Time, event: ControlEvent, tables: Tables)
    requires Fits(p.lsdb, p.me)
    ensures Publishes(p, Step(p, now, event, tables))
  {
    match event
    case Frame(link, frame) => FrameKeepsTables(p, now, link, frame);
    case Timer(timer) => TimerPublishes(p, now, timer, tables);
    case _ => ChangeKeepsTables(p, now, event, tables);
  }

  // ------------------------------------------------------------ versions

  /** How a database may change: entries stay, versions only rise, and a tombstone outlives its version. */
  ghost predicate Grew(before: Lsdb, after: Lsdb) {
    forall o :: o in before ==>
      && o in after
      && (|| before[o].version.Below(after[o].version)
          || after[o] == before[o]
          || (after[o].version == before[o].version && after[o].state.Tombstone?))
  }

  lemma GrewTransitive(a: Lsdb, b: Lsdb, c: Lsdb)
    requires Grew(a, b) && Grew(b, c)
    ensures Grew(a, c)
  {
    forall o | o in a
      ensures o in c && (a[o].version.Below(c[o].version) || c[o] == a[o]
                         || (c[o].version == a[o].version && c[o].state.Tombstone?)) {
      assert o in b;
    }
  }
}
