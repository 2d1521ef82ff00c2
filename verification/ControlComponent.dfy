/** The link-state control plane as a component that changes its fields in place. */
module ControlComponent {
  import opened MeshTypes
  import opened ControlData
  import opened Sorting
  import opened TopicAds
  import opened Spf
  import opened ControlModel
  import opened ControlSafety
  import opened ControlLoops

  class ControlPlane {
    const me: NodeId
    const epoch: nat
    var mySeq: nat
    var adjacencies: Adjacencies
    var topicAds: seq<TopicAd>
    var lsdb: Lsdb
    var routes: RouteTable
    var publishedAds: seq<DiscoveredTopicAd>
    var pending: Option<PendingSpf>
    var generation: nat
    var holdMs: nat
    var lastChange: Option<Time>

    function View(): Plane
      reads this
    {
      Plane(me, epoch, mySeq, adjacencies, topicAds, lsdb, routes, publishedAds, pending, generation, holdMs, lastChange)
    }

    /** Well-formed, with published tables up to date unless a recomputation is pending. */
    ghost predicate Valid()
      reads this
    {
      PlaneOk(View()) && CacheOk(View())
    }

    constructor (me: NodeId, epoch: nat, lastSeq: nat)
      ensures View() == NewPlane(me, epoch, lastSeq) && Valid()
    {
      this.me, this.epoch, mySeq := me, epoch, lastSeq;
      adjacencies, topicAds, lsdb := map[], [], map[];
      routes, publishedAds := RouteTable(0, map[]), [];
      pending, generation, holdMs, lastChange := None, 0, SPF_INITIAL_HOLD_MS, None;
      new;
      NewPlaneOk(me, epoch, lastSeq);
    }

    method MarkDirty(now: Time) returns (actions: seq<ControlAction>)
      requires generation < U64_MAX
      modifies this
      ensures Outcome(View(), actions) == MarkSpfDirty(old(View()), now)
    {
      var quiet := WasQuiet(View(), now);
      lastChange := Some(now);
      if quiet {
        holdMs := SPF_INITIAL_HOLD_MS;
      }
      if pending.Some? && !quiet {
        return [];
      }
      generation := generation + 1;
      var at := After(now, holdMs);
      pending := Some(PendingSpf(generation, at));
      return [SetTimer(SpfHold(generation), at)];
    }

    /** Stores an LSA if there is room, and returns the timer that will expire it. */
    method Install(lsa: Lsa, now: Time) returns (timer: Option<ControlAction>)
      modifies this
      ensures timer == if Fits(old(lsdb), lsa.origin) then Some(ExpiryTimer(lsa, now)) else None
      ensures View() == old(View()).(lsdb := if timer.Some? then old(lsdb)[lsa.origin := Installed(lsa, now)] else old(lsdb))
    {
      if lsa.origin !in lsdb && |lsdb| >= MAX_LSDB_ENTRIES {
        return None;
      }
      lsdb := lsdb[lsa.origin := Installed(lsa, now)];
      return Some(ExpiryTimer(lsa, now));
    }

    /** Originates the next own LSA: installed here, persisted first, then flooded. */
    method OriginateLsa(now: Time) returns (actions: seq<ControlAction>)
      requires Fits(lsdb, me) && CountersLeft(View())
      modifies this
      ensures Outcome(View(), actions) == Originate(old(View()), now)
    {
      mySeq := mySeq + 1;
      var edges := AdvertiseEdges(adjacencies);
      var lsa := Lsa(me, Version(epoch, mySeq), DEFAULT_LSA_TTL_SEC, edges, topicAds);
      var expiry := Install(lsa, now);
      actions := [PersistSeq(mySeq)] + Flood(adjacencies, lsa, None);
      actions := actions + [expiry.value, SetTimer(LsaRefresh(lsa.version), After(now, lsa.ttlSec * 1_000 / 5))];
      var dirty := MarkDirty(now);
      actions := actions + dirty;
    }

    method ReceiveLsa(now: Time, link: LinkId, lsa: Lsa) returns (actions: seq<ControlAction>)
      requires generation < U64_MAX
      modifies this
      ensures Outcome(View(), actions) == ControlModel.ReceiveLsa(old(View()), now, link, lsa)
    {
      if link !in adjacencies || !ValidLsa(lsa) {
        return [];
      }
      if lsa.origin == me || !IsNewer(lsdb, lsa) {
        return AnswerStale(lsdb, link, lsa);
      }
      var expiry := Install(lsa, now);
      if expiry.None? {
        return [];
      }
      actions := Flood(adjacencies, lsa, Some(link)) + [expiry.value];
      var dirty := MarkDirty(now);
      actions := actions + dirty;
    }

    method HandleExpire(now: Time, origin: NodeId, version: Version) returns (actions: seq<ControlAction>)
      requires generation < U64_MAX
      modifies this
      ensures Outcome(View(), actions) == Expire(old(View()), now, origin, version)
    {
      if origin !in lsdb || lsdb[origin].version != version || lsdb[origin].state.Tombstone? {
        return [];
      }
      if now < lsdb[origin].state.expiresAt {
        return [SetTimer(LsaExpire(origin, version), lsdb[origin].state.expiresAt)];
      }
      lsdb := lsdb[origin := LsdbEntry(version, Tombstone)];
      actions := MarkDirty(now);
    }

    /** Publishes each table if it differs from the one published last. */
    method PublishTables(tables: Tables) returns (actions: seq<ControlAction>)
      modifies this
      ensures Outcome(View(), actions) == Publish(old(View()), tables)
    {
      actions := [];
      if tables.routes != routes.routes {
        routes := RouteTable(routes.version + 1, tables.routes);
        actions := [PublishRoutes(routes)];
      }
      if tables.ads != publishedAds {
        publishedAds := tables.ads;
        actions := actions + [PublishTopicAds(tables.ads)];
      }
    }

    /** Both tables, computed from the database as it is. */
    method ComputeTables() returns (tables: Tables)
      requires |lsdb| <= MAX_LSDB_ENTRIES
      ensures tables == TablesOf(View())
    {
      var shortest := ComputeRoutes(me, lsdb, adjacencies);
      tables := Tables(shortest, Discovered(lsdb));
    }

    /** Recomputes and publishes both tables when the newest hold has run out. */
    method HandleSpf(now: Time, firing: nat) returns (actions: seq<ControlAction>, ghost tables: Tables)
      requires |lsdb| <= MAX_LSDB_ENTRIES
      modifies this
      ensures tables == TablesOf(old(View()))
      ensures Outcome(View(), actions) == FireSpf(old(View()), now, firing, tables)
    {
      tables := TablesOf(View());
      if pending.None? || pending.value.generation != firing {
        return [], tables;
      }
      if now < pending.value.at {
        return [SetTimer(SpfHold(firing), pending.value.at)], tables;
      }
      var found := ComputeTables();
      pending := None;
      holdMs := Min(holdMs * 2, SPF_MAX_HOLD_MS);
      actions := PublishTables(found);
    }

    method HandleTimer(now: Time, timer: ControlTimer) returns (actions: seq<ControlAction>, ghost tables: Tables)
      requires Fits(lsdb, me) && |lsdb| <= MAX_LSDB_ENTRIES && CountersLeft(View())
      modifies this
      ensures tables == TablesOf(old(View()))
      ensures Outcome(View(), actions) == ControlModel.HandleTimer(old(View()), now, timer, tables)
    {
      tables := TablesOf(View());
      match timer
      case DigestTimer(link) => actions := if link in adjacencies then DigestDue(View(), now, link) else [];
      case SpfHold(firing) => actions, tables := HandleSpf(now, firing);
      case LsaRefresh(version) =>
        if me in lsdb && lsdb[me].version == version && lsdb[me].state.Active? {
          actions := OriginateLsa(now);
        } else {
          actions := [];
        }
      case LsaExpire(origin, version) => actions := HandleExpire(now, origin, version);
    }

    method HandleFrame(now: Time, link: LinkId, frame: ControlFrame) returns (actions: seq<ControlAction>)
      requires generation < U64_MAX
      modifies this
      ensures Outcome(View(), actions) == ControlModel.HandleFrame(old(View()), now, link, frame)
    {
      match frame
      case LsaFrame(lsa) => actions := ReceiveLsa(now, link, lsa);
      case DigestFrame(entries) => actions := AnswerDigest(View(), link, entries);
      case DigestReqFrame(origins) => actions := ReceiveDigestReq(View(), link, origins);
    }

    method OpenLink(now: Time, link: LinkId, peer: NodeId, cost: LinkCost) returns (actions: seq<ControlAction>)
      requires Fits(lsdb, me) && CountersLeft(View())
      modifies this
      ensures var r := Originate(old(View()).(adjacencies := old(adjacencies)[link := Adjacency(peer, cost)]), now);
              Outcome(View(), actions) == Outcome(r.plane, r.actions + DigestDue(r.plane, now, link))
    {
      adjacencies := adjacencies[link := Adjacency(peer, cost)];
      actions := OriginateLsa(now);
      actions := actions + DigestDue(View(), now, link);
    }

    method CloseLink(now: Time, link: LinkId) returns (actions: seq<ControlAction>)
      requires Fits(lsdb, me) && CountersLeft(View())
      modifies this
      ensures Outcome(View(), actions)
           == if link in old(adjacencies) then Originate(old(View()).(adjacencies := old(adjacencies) - {link}), now) else Outcome(old(View()), [])
    {
      if link !in adjacencies {
        return [];
      }
      adjacencies := adjacencies - {link};
      actions := OriginateLsa(now);
    }

    method ChangeTopicAds(now: Time, ads: seq<TopicAd>) returns (actions: seq<ControlAction>)
      requires Fits(lsdb, me) && CountersLeft(View())
      modifies this
      ensures var sorted := SortBy(ads, AdAtMost);
              Outcome(View(), actions)
              == if !ValidTopicAds(ads) || sorted == old(topicAds) then Outcome(old(View()), [])
                 else Originate(old(View()).(topicAds := sorted), now)
    {
      var sorted := SortBy(ads, AdAtMost);
      SortKeepsValidity(ads);
      if !ValidTopicAds(sorted) || sorted == topicAds {
        return [];
      }
      topicAds := sorted;
      actions := OriginateLsa(now);
    }

    method React(now: Time, event: ControlEvent) returns (actions: seq<ControlAction>, ghost tables: Tables)
      requires Fits(lsdb, me) && |lsdb| <= MAX_LSDB_ENTRIES && CountersLeft(View())
      modifies this
      ensures tables == TablesOf(old(View()))
      ensures Outcome(View(), actions) == Step(old(View()), now, event, tables)
    {
      tables := TablesOf(View());
      match event
      case LinkUp(link, peer, cost) => actions := OpenLink(now, link, peer, cost);
      case LinkDown(link) => actions := CloseLink(now, link);
      case LocalTopicAdsChanged(ads) =>
        SortKeepsValidity(ads);
        actions := ChangeTopicAds(now, ads);
      case Frame(link, frame) => actions := HandleFrame(now, link, frame);
      case Timer(timer) => actions, tables := HandleTimer(now, timer);
    }

    /** Reacts to one event exactly as the model does, and stays well-formed. */
    method Handle(now: Time, event: ControlEvent) returns (actions: seq<ControlAction>)
      requires Valid() && CountersLeft(View())
      modifies this
      ensures Outcome(View(), actions) == ControlModel.Handle(old(View()), now, event) && Valid()
    {
      HandleKeeps(View(), now, event);
      ghost var tables;
      actions, tables := React(now, event);
    }
  }
}
