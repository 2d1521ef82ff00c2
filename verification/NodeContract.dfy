/**
 * What one event makes a node do, stated about its database and its messages
 * only: the interface between a node's handlers and the network around it.
 */
module NodeContract {
  import opened MeshTypes
  import opened ControlData
  import opened Sorting
  import opened TopicAds
  import opened Spf
  import opened ControlModel
  import opened ControlSafety

  function LinksAfter(adjs: Adjacencies, event: ControlEvent): Adjacencies {
    match event
    case LinkUp(link, peer, cost) => adjs[link := Adjacency(peer, cost)]
    case LinkDown(link) => adjs - {link}
    case _ => adjs
  }

  ghost predicate Sends(actions: seq<ControlAction>, link: LinkId, frame: ControlFrame) {
    Send(link, frame) in actions
  }

  /** The entry of `origin` is live and was not there, at this version, before. */
  ghost predicate IsNews(before: Lsdb, after: Lsdb, origin: NodeId) {
    IsActive(after, origin) && (origin !in before || before[origin].version != after[origin].version)
  }

  /** The database only grows, and the counters advance by at most one. */
  ghost predicate Advances(p: Plane, event: ControlEvent, q: Plane) {
    && q.me == p.me && q.epoch == p.epoch
    && p.mySeq <= q.mySeq <= p.mySeq + 1
    && q.adjacencies == LinksAfter(p.adjacencies, event)
    && Grew(p.lsdb, q.lsdb)
    && (q.mySeq != p.mySeq ==> IsActive(q.lsdb, q.me))
    && (forall o :: o in q.lsdb ==> IsNews(p.lsdb, q.lsdb, o) || (o in p.lsdb && q.lsdb[o].version == p.lsdb[o].version))
  }

  ghost predicate NoPersist(actions: seq<ControlAction>) {
    forall a :: a in actions ==> !a.PersistSeq?
  }

  /** A new sequence number is persisted by the very first action, and by no other. */
  ghost predicate PersistsFirst(p: Plane, r: Outcome) {
    if r.plane.mySeq == p.mySeq then NoPersist(r.actions)
    else r.actions != [] && r.actions[0] == PersistSeq(r.plane.mySeq) && NoPersist(r.actions[1..])
  }

  /** News is either the node's next own LSA or the LSA just received. */
  ghost predicate NewsIsGenuine(p: Plane, event: ControlEvent, q: Plane) {
    forall o :: IsNews(p.lsdb, q.lsdb, o) ==>
      || (o == p.me && q.mySeq == p.mySeq + 1)
      || (o != p.me && event.Frame? && event.frame == LsaFrame(q.lsdb[o].state.lsa) && ValidLsa(event.frame.lsa))
  }

  /** News is flooded on every link but the one it came from. */
  ghost predicate NewsIsFlooded(p: Plane, event: ControlEvent, r: Outcome) {
    forall o, k :: IsNews(p.lsdb, r.plane.lsdb, o) && k in r.plane.adjacencies ==>
      || Sends(r.actions, k, LsaFrame(r.plane.lsdb[o].state.lsa))
      || event == Frame(k, LsaFrame(r.plane.lsdb[o].state.lsa))
  }

  /** Only stored live LSAs, true digests, and requests that answer a digest are sent. */
  ghost predicate SendsAreGrounded(event: ControlEvent, r: Outcome) {
    forall k, f :: Sends(r.actions, k, f) ==>
      && k in r.plane.adjacencies
      && match f
         case LsaFrame(lsa) => IsActive(r.plane.lsdb, lsa.origin) && r.plane.lsdb[lsa.origin].state.lsa == lsa
         case DigestFrame(entries) => !event.Frame? && IsDigest(r.plane.lsdb, entries)
         case DigestReqFrame(origins) => event.Frame? && event.frame.DigestFrame? && |origins| <= MAX_DIGEST_REQ_ORIGINS
  }

  ghost predicate IsDigest(lsdb: Lsdb, entries: seq<DigestEntry>) {
    && |entries| <= MAX_DIGEST_ENTRIES
    && forall e :: e in entries <==> e.origin in lsdb && e.version == lsdb[e.origin].version
  }

  ghost predicate Knows(lsdb: Lsdb, origin: NodeId, version: Version) {
    origin in lsdb && version.AtMost(lsdb[origin].version)
  }

  /** Every version a digest names for `origin` is below `version`. */
  ghost predicate Behind(entries: seq<DigestEntry>, origin: NodeId, version: Version) {
    forall e :: e in entries && e.origin == origin ==> e.version.Below(version)
  }

  /** What a frame on a live link achieves. */
  ghost predicate FrameIsServed(p: Plane, k: LinkId, f: ControlFrame, r: Outcome) {
    match f
    case LsaFrame(lsa) =>
      ValidLsa(lsa) && lsa.origin != p.me && Fits(p.lsdb, lsa.origin) ==> Knows(r.plane.lsdb, lsa.origin, lsa.version)
    case DigestFrame(entries) =>
      |entries| <= MAX_DIGEST_ENTRIES ==>
        && (forall e :: e in entries && e.origin != p.me && !Knows(p.lsdb, e.origin, e.version) ==>
              exists origins :: Sends(r.actions, k, DigestReqFrame(origins)) && e.origin in origins)
        && (forall o :: IsActive(p.lsdb, o) && Behind(entries, o, p.lsdb[o].version) ==>
              Sends(r.actions, k, LsaFrame(p.lsdb[o].state.lsa)))
    case DigestReqFrame(origins) =>
      |origins| <= MAX_DIGEST_REQ_ORIGINS ==>
        forall o :: o in origins && IsActive(p.lsdb, o) ==> Sends(r.actions, k, LsaFrame(p.lsdb[o].state.lsa))
  }

  /** A frame that brings no news costs at most a bounded, strictly progressing answer. */
  ghost predicate FrameIsBounded(p: Plane, f: ControlFrame, r: Outcome) {
    && r.plane.mySeq == p.mySeq
    && (!f.LsaFrame? ==> r.plane == p)
    && (f.DigestReqFrame? ==> forall a :: a in r.actions ==> a.Send? && a.frame.LsaFrame?)
    && (f.LsaFrame? && r.plane.lsdb == p.lsdb ==>
          || r.actions == []
          || exists k, lsa :: r.actions == [Send(k, LsaFrame(lsa))] && lsa.origin == f.lsa.origin && f.lsa.version.Below(lsa.version))
    && (f.LsaFrame? && r.plane.lsdb != p.lsdb ==> IsNews(p.lsdb, r.plane.lsdb, f.lsa.origin))
  }

  ghost predicate Contract(p: Plane, event: ControlEvent, r: Outcome) {
    && Advances(p, event, r.plane)
    && PersistsFirst(p, r)
    && NewsIsGenuine(p, event, r.plane)
    && NewsIsFlooded(p, event, r)
    && SendsAreGrounded(event, r)
    && (event.LinkUp? ==> exists entries :: Sends(r.actions, event.link, DigestFrame(entries)))
    && (event.Frame? && event.link in p.adjacencies ==> FrameIsServed(p, event.link, event.frame, r))
    && (event.Frame? ==> FrameIsBounded(p, event.frame, r))
  }

  // ------------------------------------------------------------ own LSAs

  ghost predicate FloodsEverywhere(flood: seq<ControlAction>, adjs: Adjacencies, lsa: Lsa) {
    forall a :: a in flood <==> a.Send? && a.link in adjs && a.frame == LsaFrame(lsa)
  }

  /** `q` is `p` after a change of adjacencies or topic ads, about to announce its next LSA. */
  ghost predicate Readied(p: Plane, event: ControlEvent, q: Plane) {
    && q.me == p.me && q.epoch == p.epoch && q.mySeq == p.mySeq + 1 && q.lsdb == p.lsdb
    && q.adjacencies == LinksAfter(p.adjacencies, event)
    && (p.me in p.lsdb ==> p.lsdb[p.me].version == Version(p.epoch, p.mySeq))
    && !event.Frame?
  }

  lemma AnnounceActions(q: Plane, now: Time, lsa: Lsa, flood: seq<ControlAction>, extra: seq<ControlAction>)
    requires FloodsEverywhere(flood, q.adjacencies, lsa)
    requires forall a :: a in extra ==> !a.PersistSeq?
    ensures var actions := Announce(q, now, lsa, flood).actions + extra;
            && actions[0] == PersistSeq(q.mySeq)
            && NoPersist(actions[1..])
            && (forall k, f :: Sends(actions, k, f) <==> Send(k, f) in extra || (k in q.adjacencies && f == LsaFrame(lsa)))
  {
    var actions := Announce(q, now, lsa, flood).actions + extra;
    assert actions[0] == PersistSeq(q.mySeq);
    var rest := actions[1..];
    assert actions == [actions[0]] + rest;
    assert forall a :: a in rest ==> a in flood || a.SetTimer? || a in extra;
    assert forall a :: a in flood ==> a in actions;
  }

  lemma AnnounceContract(p: Plane, event: ControlEvent, q: Plane, now: Time, lsa: Lsa, flood: seq<ControlAction>, extra: seq<ControlAction>)
    requires Readied(p, event, q) && FloodsEverywhere(flood, q.adjacencies, lsa)
    requires lsa.origin == q.me && lsa.version == Version(q.epoch, q.mySeq)
    requires forall a :: a in extra ==> a.SetTimer? || (a.Send? && a.link in q.adjacencies && a.frame.DigestFrame?)
    requires forall a :: a in extra && a.Send? ==> IsDigest(p.lsdb[p.me := Installed(lsa, now)], a.frame.entries)
    requires event.LinkUp? ==> exists d :: Send(event.link, DigestFrame(d)) in extra
    ensures var r := Announce(q, now, lsa, flood); Contract(p, event, Outcome(r.plane, r.actions + extra))
  {
    var r := Announce(q, now, lsa, flood);
    var actions := r.actions + extra;
    assert r.plane.lsdb == p.lsdb[p.me := Installed(lsa, now)];
    AnnounceActions(q, now, lsa, flood, extra);
    if event.LinkUp? {
      var d :| Send(event.link, DigestFrame(d)) in extra;
      assert Sends(actions, event.link, DigestFrame(d));
    }
  }

  lemma DigestSize(lsdb: Lsdb)
    requires |lsdb| <= MAX_LSDB_ENTRIES
    ensures IsDigest(lsdb, Digest(lsdb))
  {
    DigestOfSize(lsdb, Ascending(lsdb.Keys));
    AscendingFacts(lsdb.Keys);
  }

  lemma {:induction false} DigestOfSize(lsdb: Lsdb, origins: seq<NodeId>)
    requires forall o :: o in origins ==> o in lsdb
    ensures |DigestOf(lsdb, origins)| == |origins|
  {
    if origins != [] {
      DigestOfSize(lsdb, origins[1..]);
    }
  }

  lemma OriginateContract(p: Plane, event: ControlEvent, q: Plane, now: Time)
    requires PlaneOk(p) && Readied(p, event, q.(mySeq := q.mySeq + 1)) && !event.LinkUp?
    ensures Fits(q.lsdb, q.me) && Contract(p, event, Originate(q, now))
  {
    var r := q.(mySeq := q.mySeq + 1);
    var lsa := OwnLsa(r);
    AnnounceContract(p, event, r, now, lsa, Flood(r.adjacencies, lsa, None), []);
    assert Originate(q, now).actions + [] == Originate(q, now).actions;
  }

  lemma LinkUpWith(p: Plane, event: ControlEvent, q: Plane, now: Time, lsa: Lsa, flood: seq<ControlAction>, digest: seq<DigestEntry>, timer: ControlAction)
    requires event.LinkUp? && Readied(p, event, q) && FloodsEverywhere(flood, q.adjacencies, lsa)
    requires lsa.origin == q.me && lsa.version == Version(q.epoch, q.mySeq) && timer.SetTimer?
    requires IsDigest(p.lsdb[p.me := Installed(lsa, now)], digest)
    ensures var r := Announce(q, now, lsa, flood);
            Contract(p, event, Outcome(r.plane, r.actions + [Send(event.link, DigestFrame(digest)), timer]))
  {
    var extra := [Send(event.link, DigestFrame(digest)), timer];
    assert extra[0] in extra;
    AnnounceContract(p, event, q, now, lsa, flood, extra);
  }

  lemma LinkUpShape(p: Plane, now: Time, event: ControlEvent, tables: Tables)
    requires Fits(p.lsdb, p.me) && event.LinkUp?
    ensures var r := p.(adjacencies := LinksAfter(p.adjacencies, event), mySeq := p.mySeq + 1);
            var lsa := OwnLsa(r);
            var a := Announce(r, now, lsa, Flood(r.adjacencies, lsa, None));
            Step(p, now, event, tables)
            == Outcome(a.plane, a.actions + [Send(event.link, DigestFrame(Digest(p.lsdb[p.me := Installed(lsa, now)]))),
                                             SetTimer(DigestTimer(event.link), After(now, DIGEST_INTERVAL_MS))])
  {
  }

  lemma LinkUpContract(p: Plane, now: Time, event: ControlEvent, tables: Tables)
    requires PlaneOk(p) && event.LinkUp?
    ensures Fits(p.lsdb, p.me) && Contract(p, event, Step(p, now, event, tables))
  {
    var r := p.(adjacencies := LinksAfter(p.adjacencies, event), mySeq := p.mySeq + 1);
    var lsa := OwnLsa(r);
    var after := p.lsdb[p.me := Installed(lsa, now)];
    GrowsByOne(p.lsdb, p.me, Installed(lsa, now));
    DigestSize(after);
    LinkUpShape(p, now, event, tables);
    LinkUpWith(p, event, r, now, lsa, Flood(r.adjacencies, lsa, None), Digest(after),
               SetTimer(DigestTimer(event.link), After(now, DIGEST_INTERVAL_MS)));
  }

  // ------------------------------------------------------------ frames

  /** Installing a newer foreign LSA and flooding it on all other links meets the contract. */
  lemma AcceptContract(p: Plane, now: Time, link: LinkId, lsa: Lsa, r: Outcome, flood: seq<ControlAction>, rest: seq<ControlAction>)
    requires PlaneOk(p) && link in p.adjacencies && ValidLsa(lsa) && lsa.origin != p.me && IsNewer(p.lsdb, lsa)
    requires forall a :: a in flood <==> a.Send? && a.link in p.adjacencies && link != a.link && a.frame == LsaFrame(lsa)
    requires forall a :: a in rest ==> a.SetTimer?
    requires r.actions == flood + rest
    requires SameDatabase(p.(lsdb := p.lsdb[lsa.origin := Installed(lsa, now)]), r.plane)
    ensures Contract(p, Frame(link, LsaFrame(lsa)), r)
  {
    assert forall a :: a in flood ==> a in r.actions;
  }

  lemma LsaContract(p: Plane, now: Time, link: LinkId, lsa: Lsa)
    requires PlaneOk(p)
    ensures Contract(p, Frame(link, LsaFrame(lsa)), ReceiveLsa(p, now, link, lsa))
  {
    var r := ReceiveLsa(p, now, link, lsa);
    if link in p.adjacencies && ValidLsa(lsa) && lsa.origin != p.me && IsNewer(p.lsdb, lsa) && Fits(p.lsdb, lsa.origin) {
      var dirty := MarkSpfDirty(p.(lsdb := p.lsdb[lsa.origin := Installed(lsa, now)]), now);
      var flood, rest := Flood(p.adjacencies, lsa, Some(link)), [ExpiryTimer(lsa, now)] + dirty.actions;
      assert r.actions == flood + rest;
      AcceptContract(p, now, link, lsa, r, flood, rest);
    }
  }

  lemma SeqSetSize(entries: seq<DigestEntry>, s: set<NodeId>)
    requires forall o :: o in s ==> exists e :: e in entries && e.origin == o
    ensures |s| <= |entries|
    decreases |entries|
  {
    if entries != [] {
      var rest := entries[1..];
      forall o | o in s - {entries[0].origin} ensures exists e :: e in rest && e.origin == o {
        var e :| e in entries && e.origin == o;
        assert e in rest;
      }
      SeqSetSize(rest, s - {entries[0].origin});
    } else {
      assert s == {};
    }
  }

  /** Offers of what the digest lacks, and a request for what it has, answer the digest. */
  lemma AnswerContract(p: Plane, link: LinkId, entries: seq<DigestEntry>, offers: seq<ControlAction>, requested: seq<NodeId>, request: seq<ControlAction>)
    requires PlaneOk(p) && link in p.adjacencies && |entries| <= MAX_DIGEST_ENTRIES && |requested| <= |entries|
    requires forall a :: a in offers ==>
               a.Send? && a.link == link && a.frame.LsaFrame? &&
               exists o :: IsActive(p.lsdb, o) && a.frame.lsa == p.lsdb[o].state.lsa
    requires forall o :: IsActive(p.lsdb, o) && Behind(entries, o, p.lsdb[o].version) ==>
               Send(link, LsaFrame(p.lsdb[o].state.lsa)) in offers
    requires forall e :: e in entries && e.origin != p.me && !Knows(p.lsdb, e.origin, e.version) ==> e.origin in requested
    requires request == if requested == [] then [] else [Send(link, DigestReqFrame(requested))]
    ensures Contract(p, Frame(link, DigestFrame(entries)), Outcome(p, offers + request))
  {
    var actions := offers + request;
    assert forall a :: a in offers ==> a in actions;
    forall e | e in entries && e.origin != p.me && !Knows(p.lsdb, e.origin, e.version)
      ensures exists origins :: Sends(actions, link, DigestReqFrame(origins)) && e.origin in origins {
      assert request[0] in actions;
      assert Sends(actions, link, DigestReqFrame(requested));
    }
  }

  lemma DigestContract(p: Plane, link: LinkId, entries: seq<DigestEntry>)
    requires PlaneOk(p)
    ensures Contract(p, Frame(link, DigestFrame(entries)), Outcome(p, ReceiveDigest(p, link, entries)))
  {
    if link in p.adjacencies && |entries| <= MAX_DIGEST_ENTRIES {
      var requested := Ascending(Requested(p, entries));
      AscendingFacts(Requested(p, entries));
      SeqSetSize(entries, Requested(p, entries));
      AnswerContract(p, link, entries, SendLsas(p.lsdb, link, Ascending(Offered(p, entries))), requested,
                     if requested == [] then [] else [Send(link, DigestReqFrame(requested))]);
    }
  }

  lemma DigestReqContract(p: Plane, link: LinkId, origins: seq<NodeId>)
    requires PlaneOk(p)
    ensures Contract(p, Frame(link, DigestReqFrame(origins)), Outcome(p, ReceiveDigestReq(p, link, origins)))
  {
  }

  // ------------------------------------------------------------ all events

  lemma ExpireContract(p: Plane, now: Time, origin: NodeId, version: Version)
    requires PlaneOk(p)
    ensures Contract(p, Timer(LsaExpire(origin, version)), Expire(p, now, origin, version))
  {
    var q := Expire(p, now, origin, version).plane;
    assert q.lsdb == p.lsdb || q.lsdb == p.lsdb[origin := LsdbEntry(version, Tombstone)];
  }

  lemma DigestTimerContract(p: Plane, now: Time, link: LinkId)
    requires PlaneOk(p)
    ensures Contract(p, Timer(DigestTimer(link)), Outcome(p, if link in p.adjacencies then DigestDue(p, now, link) else []))
  {
    DigestSize(p.lsdb);
  }

  /** An outcome that leaves the database alone and sends nothing meets the contract of any plain event. */
  lemma QuietContract(p: Plane, event: ControlEvent, r: Outcome)
    requires SameDatabase(p, r.plane) && !event.LinkUp? && !event.LinkDown? && !event.Frame?
    requires forall a :: a in r.actions ==> !a.Send? && !a.PersistSeq?
    ensures Contract(p, event, r)
  {
  }

  lemma SpfContract(p: Plane, now: Time, generation: nat, tables: Tables)
    ensures Contract(p, Timer(SpfHold(generation)), FireSpf(p, now, generation, tables))
  {
    QuietContract(p, Timer(SpfHold(generation)), FireSpf(p, now, generation, tables));
  }

  lemma TimerContract(p: Plane, now: Time, timer: ControlTimer, tables: Tables)
    requires PlaneOk(p)
    ensures Fits(p.lsdb, p.me) && Contract(p, Timer(timer), HandleTimer(p, now, timer, tables))
  {
    match timer
    case DigestTimer(link) => DigestTimerContract(p, now, link);
    case SpfHold(generation) => SpfContract(p, now, generation, tables);
    case LsaRefresh(version) => OriginateContract(p, Timer(timer), p, now);
    case LsaExpire(origin, version) => ExpireContract(p, now, origin, version);
  }

  lemma OwnChangeContract(p: Plane, now: Time, event: ControlEvent, tables: Tables)
    requires PlaneOk(p) && (event.LinkDown? || event.LocalTopicAdsChanged?)
    ensures Fits(p.lsdb, p.me) && Contract(p, event, Step(p, now, event, tables))
  {
    match event
    case LinkDown(link) =>
      if link in p.adjacencies {
        OriginateContract(p, event, p.(adjacencies := p.adjacencies - {link}), now);
      }
    case LocalTopicAdsChanged(ads) => OriginateContract(p, event, p.(topicAds := SortBy(ads, AdAtMost)), now);
  }

  lemma FrameContract(p: Plane, now: Time, link: LinkId, frame: ControlFrame)
    requires PlaneOk(p)
    ensures Contract(p, Frame(link, frame), HandleFrame(p, now, link, frame))
  {
    match frame
    case LsaFrame(lsa) => LsaContract(p, now, link, lsa);
    case DigestFrame(entries) => DigestContract(p, link, entries);
    case DigestReqFrame(origins) => DigestReqContract(p, link, origins);
  }

  /** Every event of a well-formed node meets the contract. */
  lemma StepContract(p: Plane, now: Time, event: ControlEvent, tables: Tables)
    requires PlaneOk(p)
    ensures Fits(p.lsdb, p.me) && Contract(p, event, Step(p, now, event, tables))
  {
    match event
    case LinkUp(_, _, _) => LinkUpContract(p, now, event, tables);
    case Frame(link, frame) => FrameContract(p, now, link, frame);
    case Timer(timer) => TimerContract(p, now, timer, tables);
    case _ => OwnChangeContract(p, now, event, tables);
  }
}
