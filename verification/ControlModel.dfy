/**
 * The link-state control plane of one node, as a function from a state, a time
 * and an event to the next state and the actions to execute, in order.
 */
module ControlModel {
  import opened MeshTypes
  import opened ControlData
  import opened Sorting
  import opened TopicAds
  import opened Spf

  datatype Plane = Plane(
    me: NodeId, epoch: nat, mySeq: nat,
    adjacencies: Adjacencies, topicAds: seq<TopicAd>, lsdb: Lsdb,
    routes: RouteTable, publishedAds: seq<DiscoveredTopicAd>,
    pending: Option<PendingSpf>, generation: nat, holdMs: nat, lastChange: Option<Time>)

  datatype Outcome = Outcome(plane: Plane, actions: seq<ControlAction>)

  function NewPlane(me: NodeId, epoch: nat, lastSeq: nat): Plane {
    Plane(me, epoch, lastSeq, map[], [], map[], RouteTable(0, map[]), [], None, 0, SPF_INITIAL_HOLD_MS, None)
  }

  // ------------------------------------------------------------ own LSA

  function Peers(adjs: Adjacencies): set<NodeId> {
    set k | k in adjs :: adjs[k].peer
  }

  /** One edge per peer, at the cost of the best link to it, in peer order. */
  function AdvertisedEdges(adjs: Adjacencies, peers: seq<NodeId>): (r: seq<Adjacency>)
    requires forall p :: p in peers ==> p in Peers(adjs)
    ensures |r| == |peers|
  {
    if peers == [] then []
    else
      assert peers[0] in Peers(adjs);
      [Adjacency(peers[0], adjs[BestLinkTo(adjs, peers[0]).value].cost)] + AdvertisedEdges(adjs, peers[1..])
  }

  function OwnEdges(adjs: Adjacencies): (r: seq<Adjacency>) {
    AdvertisedEdges(adjs, Ascending(Peers(adjs)))
  }

  function OwnLsa(p: Plane): Lsa {
    Lsa(p.me, Version(p.epoch, p.mySeq), DEFAULT_LSA_TTL_SEC, OwnEdges(p.adjacencies), p.topicAds)
  }

  // ------------------------------------------------------------ database

  function Installed(lsa: Lsa, now: Time): LsdbEntry {
    LsdbEntry(lsa.version, Active(lsa, now, After(now, lsa.ttlSec * 1_000)))
  }

  predicate Fits(lsdb: Lsdb, origin: NodeId) {
    origin in lsdb || |lsdb| < MAX_LSDB_ENTRIES
  }

  function ExpiryTimer(lsa: Lsa, now: Time): ControlAction {
    SetTimer(LsaExpire(lsa.origin, lsa.version), After(now, lsa.ttlSec * 1_000))
  }

  predicate ValidLsa(lsa: Lsa) {
    && 1 <= lsa.ttlSec <= MAX_LSA_TTL_SEC
    && |lsa.adjacencies| <= MAX_LSA_ADJACENCIES
    && ValidTopicAds(lsa.topics)
  }

  predicate IsNewer(lsdb: Lsdb, lsa: Lsa) {
    lsa.origin !in lsdb || lsdb[lsa.origin].version.Below(lsa.version)
  }

  // ------------------------------------------------------------ messages

  function SendAll(links: seq<LinkId>, frame: ControlFrame): (r: seq<ControlAction>)
    ensures forall a :: a in r <==> a.Send? && a.link in links && a.frame == frame
  {
    if links == [] then [] else [Send(links[0], frame)] + SendAll(links[1..], frame)
  }

  function Flood(adjs: Adjacencies, lsa: Lsa, except: Option<LinkId>): (r: seq<ControlAction>)
    ensures forall a :: a in r <==> a.Send? && a.link in adjs && except != Some(a.link) && a.frame == LsaFrame(lsa)
  {
    SendAll(Ascending(set k | k in adjs && except != Some(k)), LsaFrame(lsa))
  }

  function DigestOf(lsdb: Lsdb, origins: seq<NodeId>): (r: seq<DigestEntry>)
    requires forall o :: o in origins ==> o in lsdb
    ensures forall e :: e in r <==> e.origin in origins && e.version == lsdb[e.origin].version
  {
    if origins == [] then []
    else [DigestEntry(origins[0], lsdb[origins[0]].version)] + DigestOf(lsdb, origins[1..])
  }

  function Digest(lsdb: Lsdb): (r: seq<DigestEntry>)
    ensures forall e :: e in r <==> e.origin in lsdb && e.version == lsdb[e.origin].version
  {
    DigestOf(lsdb, Ascending(lsdb.Keys))
  }

  /** The live LSAs of the given origins, in that order. */
  function SendLsas(lsdb: Lsdb, link: LinkId, origins: seq<NodeId>): (r: seq<ControlAction>)
    ensures forall a :: a in r <==>
      && a.Send? && a.link == link && a.frame.LsaFrame?
      && exists o :: o in origins && IsActive(lsdb, o) && a.frame.lsa == lsdb[o].state.lsa
  {
    if origins == [] then []
    else
      (if IsActive(lsdb, origins[0]) then [Send(link, LsaFrame(lsdb[origins[0]].state.lsa))] else [])
      + SendLsas(lsdb, link, origins[1..])
  }

  // ------------------------------------------------------------ SPF scheduling

  predicate WasQuiet(p: Plane, now: Time) {
    p.lastChange.Some? && now - p.lastChange.value >= SPF_QUIET_RESET_MS
  }

  function MarkSpfDirty(p: Plane, now: Time): Outcome {
    var quiet := WasQuiet(p, now);
    var q := p.(lastChange := Some(now), holdMs := if quiet then SPF_INITIAL_HOLD_MS else p.holdMs);
    if p.pending.Some? && !quiet then Outcome(q, [])
    else
      var next := PendingSpf(p.generation + 1, After(now, q.holdMs));
      Outcome(q.(generation := next.generation, pending := Some(next)), [SetTimer(SpfHold(next.generation), next.at)])
  }

  function DiscoveredIn(lsdb: Lsdb, origins: seq<NodeId>): seq<DiscoveredTopicAd> {
    if origins == [] then []
    else
      (if IsActive(lsdb, origins[0]) then Tag(origins[0], lsdb[origins[0]].state.lsa.topics) else [])
      + DiscoveredIn(lsdb, origins[1..])
  }

  function Tag(node: NodeId, ads: seq<TopicAd>): seq<DiscoveredTopicAd> {
    if ads == [] then [] else [DiscoveredTopicAd(node, ads[0])] + Tag(node, ads[1..])
  }

  function Discovered(lsdb: Lsdb): seq<DiscoveredTopicAd> {
    SortBy(DiscoveredIn(lsdb, Ascending(lsdb.Keys)), DiscoveredAtMost)
  }

  // ------------------------------------------------------------ handlers

  /** The two counters that abort the process when they run out have room left. */
  predicate CountersLeft(p: Plane) {
    p.mySeq < U64_MAX && p.generation < U64_MAX
  }

  /** Installs the node's new LSA, then persists its number before sending it anywhere. */
  function Announce(p: Plane, now: Time, lsa: Lsa, flood: seq<ControlAction>): Outcome {
    var dirty := MarkSpfDirty(p.(lsdb := p.lsdb[p.me := Installed(lsa, now)]), now);
    Outcome(dirty.plane,
            [PersistSeq(p.mySeq)] + flood
            + [ExpiryTimer(lsa, now), SetTimer(LsaRefresh(lsa.version), After(now, lsa.ttlSec * 1_000 / 5))]
            + dirty.actions)
  }

  function Originate(p: Plane, now: Time): Outcome
    requires Fits(p.lsdb, p.me)
  {
    var q := p.(mySeq := p.mySeq + 1);
    Announce(q, now, OwnLsa(q), Flood(q.adjacencies, OwnLsa(q), None))
  }

  /** An outdated LSA is answered with the newer live one. */
  function AnswerStale(lsdb: Lsdb, link: LinkId, lsa: Lsa): seq<ControlAction> {
    if IsActive(lsdb, lsa.origin) && lsa.version.Below(lsdb[lsa.origin].version)
    then [Send(link, LsaFrame(lsdb[lsa.origin].state.lsa))]
    else []
  }

  function ReceiveLsa(p: Plane, now: Time, link: LinkId, lsa: Lsa): Outcome {
    if link !in p.adjacencies || !ValidLsa(lsa) then Outcome(p, [])
    else if lsa.origin == p.me || !IsNewer(p.lsdb, lsa) then Outcome(p, AnswerStale(p.lsdb, link, lsa))
    else if !Fits(p.lsdb, lsa.origin) then Outcome(p, [])
    else
      var dirty := MarkSpfDirty(p.(lsdb := p.lsdb[lsa.origin := Installed(lsa, now)]), now);
      Outcome(dirty.plane, Flood(p.adjacencies, lsa, Some(link)) + [ExpiryTimer(lsa, now)] + dirty.actions)
  }

  /** The newest version a digest names for `origin`. */
  function RemoteVersion(entries: seq<DigestEntry>, origin: NodeId): (r: Option<Version>)
    ensures r.None? <==> forall e :: e in entries ==> e.origin != origin
    ensures r.Some? ==> DigestEntry(origin, r.value) in entries
    ensures r.Some? ==> forall e :: e in entries && e.origin == origin ==> e.version.AtMost(r.value)
  {
    if entries == [] then None
    else
      var last := entries[|entries| - 1];
      var best := RemoteVersion(entries[..|entries| - 1], origin);
      if last.origin == origin && (best.None? || best.value.Below(last.version)) then Some(last.version) else best
  }

  predicate RemoteAhead(lsdb: Lsdb, entries: seq<DigestEntry>, origin: NodeId) {
    var remote := RemoteVersion(entries, origin);
    remote.Some? && (origin !in lsdb || lsdb[origin].version.Below(remote.value))
  }

  predicate LocalAhead(lsdb: Lsdb, entries: seq<DigestEntry>, origin: NodeId) {
    var remote := RemoteVersion(entries, origin);
    origin in lsdb && (remote.None? || remote.value.Below(lsdb[origin].version))
  }

  function Requested(p: Plane, entries: seq<DigestEntry>): (r: set<NodeId>)
    ensures forall o :: o in r <==> o != p.me && RemoteAhead(p.lsdb, entries, o)
  {
    set e | e in entries && e.origin != p.me && RemoteAhead(p.lsdb, entries, e.origin) :: e.origin
  }

  function Offered(p: Plane, entries: seq<DigestEntry>): set<NodeId> {
    set o | o in p.lsdb && LocalAhead(p.lsdb, entries, o)
  }

  function ReceiveDigest(p: Plane, link: LinkId, entries: seq<DigestEntry>): seq<ControlAction> {
    if link !in p.adjacencies || |entries| > MAX_DIGEST_ENTRIES then []
    else
      var requested := Ascending(Requested(p, entries));
      SendLsas(p.lsdb, link, Ascending(Offered(p, entries)))
      + (if requested == [] then [] else [Send(link, DigestReqFrame(requested))])
  }

  function ReceiveDigestReq(p: Plane, link: LinkId, origins: seq<NodeId>): seq<ControlAction> {
    if link !in p.adjacencies || |origins| > MAX_DIGEST_REQ_ORIGINS then []
    else SendLsas(p.lsdb, link, Ascending(set o | o in origins))
  }

  function DigestDue(p: Plane, now: Time, link: LinkId): seq<ControlAction> {
    [Send(link, DigestFrame(Digest(p.lsdb))), SetTimer(DigestTimer(link), After(now, DIGEST_INTERVAL_MS))]
  }

  function Expire(p: Plane, now: Time, origin: NodeId, version: Version): Outcome {
    if !IsActive(p.lsdb, origin) || p.lsdb[origin].version != version then Outcome(p, [])
    else if now < p.lsdb[origin].state.expiresAt then
      Outcome(p, [SetTimer(LsaExpire(origin, version), p.lsdb[origin].state.expiresAt)])
    else MarkSpfDirty(p.(lsdb := p.lsdb[origin := LsdbEntry(version, Tombstone)]), now)
  }

  /** The tables that a recomputation publishes. */
  datatype Tables = Tables(routes: map<NodeId, Route>, ads: seq<DiscoveredTopicAd>)

  /** Publishes the tables where they differ from the published ones. */
  function Publish(p: Plane, tables: Tables): Outcome {
    var table := if tables.routes == p.routes.routes then p.routes else RouteTable(p.routes.version + 1, tables.routes);
    Outcome(p.(routes := table, publishedAds := tables.ads),
            (if tables.routes == p.routes.routes then [] else [PublishRoutes(table)])
            + (if tables.ads == p.publishedAds then [] else [PublishTopicAds(tables.ads)]))
  }

  function FireSpf(p: Plane, now: Time, generation: nat, tables: Tables): Outcome {
    if p.pending.None? || p.pending.value.generation != generation then Outcome(p, [])
    else if now < p.pending.value.at then Outcome(p, [SetTimer(SpfHold(generation), p.pending.value.at)])
    else Publish(p.(pending := None, holdMs := Min(p.holdMs * 2, SPF_MAX_HOLD_MS)), tables)
  }

  function HandleFrame(p: Plane, now: Time, link: LinkId, frame: ControlFrame): Outcome {
    match frame
    case LsaFrame(lsa) => ReceiveLsa(p, now, link, lsa)
    case DigestFrame(entries) => Outcome(p, ReceiveDigest(p, link, entries))
    case DigestReqFrame(origins) => Outcome(p, ReceiveDigestReq(p, link, origins))
  }

  function HandleTimer(p: Plane, now: Time, timer: ControlTimer, tables: Tables): Outcome
    requires Fits(p.lsdb, p.me)
  {
    match timer
    case DigestTimer(link) => Outcome(p, if link in p.adjacencies then DigestDue(p, now, link) else [])
    case SpfHold(generation) => FireSpf(p, now, generation, tables)
    case LsaRefresh(version) =>
      if IsActive(p.lsdb, p.me) && p.lsdb[p.me].version == version then Originate(p, now) else Outcome(p, [])
    case LsaExpire(origin, version) => Expire(p, now, origin, version)
  }

  /** The reaction to one event, given the tables a recomputation would find now. */
  function Step(p: Plane, now: Time, event: ControlEvent, tables: Tables): Outcome
    requires Fits(p.lsdb, p.me)
  {
    match event
    case LinkUp(link, peer, cost) =>
      var r := Originate(p.(adjacencies := p.adjacencies[link := Adjacency(peer, cost)]), now);
      Outcome(r.plane, r.actions + DigestDue(r.plane, now, link))
    case LinkDown(link) =>
      if link !in p.adjacencies then Outcome(p, [])
      else Originate(p.(adjacencies := p.adjacencies - {link}), now)
    case LocalTopicAdsChanged(ads) =>
      var sorted := SortBy(ads, AdAtMost);
      if !ValidTopicAds(sorted) || sorted == p.topicAds then Outcome(p, [])
      else Originate(p.(topicAds := sorted), now)
    case Frame(link, frame) => HandleFrame(p, now, link, frame)
    case Timer(timer) => HandleTimer(p, now, timer, tables)
  }

  function TablesOf(p: Plane): Tables
    requires |p.lsdb| <= MAX_LSDB_ENTRIES
  {
    Tables(ShortestPaths(p.me, p.lsdb, p.adjacencies), Discovered(p.lsdb))
  }

  function Handle(p: Plane, now: Time, event: ControlEvent): Outcome
    requires Fits(p.lsdb, p.me) && |p.lsdb| <= MAX_LSDB_ENTRIES
  {
    Step(p, now, event, TablesOf(p))
  }
}
