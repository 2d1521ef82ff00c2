/**
 * What a control plane hands out and when it wants to be woken, stated in times
 * and tables: what its surroundings have heard last, how the recomputation hold
 * grows and shrinks, and that the own LSA is refreshed before it expires.
 */
module ControlTimers {
  import opened MeshTypes
  import opened ControlData
  import opened ControlModel
  import opened ControlSafety
  import opened NodeContract
  import opened ControlRuns
  import opened Sorting
  import opened TopicAds
  import Runs
  import Spf

  // ------------------------------------------------------------ what has been heard

  /** The tables someone knows who takes over whatever is handed out. */
  function Hears(heard: Tables, actions: seq<ControlAction>): Tables {
    if actions == [] then heard
    else
      var before := Hears(heard, actions[..|actions| - 1]);
      match actions[|actions| - 1]
      case PublishRoutes(table) => before.(routes := table.routes)
      case PublishTopicAds(ads) => before.(ads := ads)
      case _ => before
  }

  lemma {:induction false} HearsOnly(heard: Tables, actions: seq<ControlAction>, table: RouteTable, ads: seq<DiscoveredTopicAd>)
    requires forall t :: PublishRoutes(t) in actions ==> t == table
    requires forall a :: PublishTopicAds(a) in actions ==> a == ads
    ensures Hears(heard, actions).routes == if PublishRoutes(table) in actions then table.routes else heard.routes
    ensures Hears(heard, actions).ads == if PublishTopicAds(ads) in actions then ads else heard.ads
  {
    if actions != [] {
      var n := |actions| - 1;
      assert forall a :: a in actions <==> a in actions[..n] || a == actions[n];
      HearsOnly(heard, actions[..n], table, ads);
    }
  }

  ghost predicate Informed(heard: Tables, p: Plane) {
    heard == Tables(p.routes.routes, p.publishedAds)
  }

  lemma PublishingInforms(heard: Tables, p: Plane, r: Outcome)
    requires Informed(heard, p) && Publishes(p, r)
    ensures Informed(Hears(heard, r.actions), r.plane)
  {
    HearsOnly(heard, r.actions, r.plane.routes, r.plane.publishedAds);
  }

  /** A plane with what its surroundings have heard from it. */
  datatype Heard = Heard(plane: Plane, tables: Tables)

  ghost predicate HearsNext(s: Heard, e: TimedEvent, t: Heard) {
    PlaneOk(s.plane) ==> var r := Handle(s.plane, e.now, e.event); t == Heard(r.plane, Hears(s.tables, r.actions))
  }

  ghost predicate WellInformed(s: Heard, n: nat) {
    Ready(s.plane, n) && Informed(s.tables, s.plane)
  }

  lemma InformedNext(s: Heard, e: TimedEvent, t: Heard, n: nat)
    requires WellInformed(s, n + 1) && HearsNext(s, e, t)
    ensures WellInformed(t, n)
  {
    NextIsReady(s.plane, e, n);
    PublishesExactly(s.plane, e.now, e.event, TablesOf(s.plane));
    PublishingInforms(s.tables, s.plane, Handle(s.plane, e.now, e.event));
  }

  /**
   * On every run of a new plane the tables handed out last are those in force, and
   * while no recomputation is pending they are those of the database.
   */
  lemma RunInforms(states: seq<Heard>, events: seq<TimedEvent>, me: NodeId, epoch: nat, lastSeq: nat, i: nat)
    requires Runs.Chain(states, events, HearsNext) && i <= |events|
    requires states[0] == Heard(NewPlane(me, epoch, lastSeq), Tables(map[], [])) && CountersLast(states[0].plane, |events|)
    ensures var s := states[i];
            && s.tables.routes == s.plane.routes.routes && s.tables.ads == s.plane.publishedAds
            && |s.plane.lsdb| <= MAX_LSDB_ENTRIES && (s.plane.pending.None? ==> s.tables == TablesOf(s.plane))
  {
    NewPlaneOk(me, epoch, lastSeq);
    forall s, e, t, n: nat | HearsNext(s, e, t) && WellInformed(s, n) && 0 < n ensures WellInformed(t, n - 1) {
      InformedNext(s, e, t, n - 1);
    }
    Runs.ChainHolds(states, events, HearsNext, WellInformed, i);
  }

  // ------------------------------------------------------------ the hold

  /** The timer of the pending recomputation, not before its time. */
  ghost predicate Fires(p: Plane, now: Time, event: ControlEvent) {
    p.pending.Some? && event == Timer(SpfHold(p.pending.value.generation)) && p.pending.value.at <= now
  }

  /** The last change is at least ten seconds old. */
  ghost predicate Rested(p: Plane, now: Time) {
    p.lastChange.Some? && p.lastChange.value + 10_000 <= now
  }

  /**
   * Firing doubles the hold up to five seconds, a change after ten quiet seconds
   * puts it back to 100 ms. A change schedules a recomputation after the hold
   * unless one is pending that began no ten quiet seconds ago.
   */
  ghost predicate Holds(p: Plane, now: Time, event: ControlEvent, r: Outcome) {
    var q := r.plane;
    if Fires(p, now, event) then
      SameDatabase(p, q) && q.pending.None? && q.holdMs == Min(2 * p.holdMs, 5_000)
    else if SameDatabase(p, q) then
      q.pending == p.pending && q.holdMs == p.holdMs && q.lastChange == p.lastChange
    else
      && q.lastChange == Some(now)
      && q.holdMs == (if Rested(p, now) then 100 else p.holdMs)
      && (if p.pending.Some? && !Rested(p, now) then q.pending == p.pending
          else q.pending == Some(PendingSpf(p.generation + 1, After(now, q.holdMs)))
               && SetTimer(SpfHold(p.generation + 1), After(now, q.holdMs)) in r.actions)
  }

  /** A change of the database that is marked as such. */
  lemma DirtyHolds(p: Plane, q: Plane, now: Time, event: ControlEvent, before: seq<ControlAction>, after: seq<ControlAction>)
    requires !Fires(p, now, event) && !SameDatabase(p, q)
    requires q.pending == p.pending && q.lastChange == p.lastChange && q.generation == p.generation && q.holdMs == p.holdMs
    ensures var d := MarkSpfDirty(q, now); Holds(p, now, event, Outcome(d.plane, before + d.actions + after))
  {
  }

  lemma OriginateHolds(p: Plane, q: Plane, now: Time, event: ControlEvent, after: seq<ControlAction>)
    requires Fits(q.lsdb, q.me) && !Fires(p, now, event) && q.mySeq == p.mySeq
    requires q.pending == p.pending && q.lastChange == p.lastChange && q.generation == p.generation && q.holdMs == p.holdMs
    ensures var r := Originate(q, now); Holds(p, now, event, Outcome(r.plane, r.actions + after))
  {
    var s := q.(mySeq := q.mySeq + 1);
    var lsa := OwnLsa(s);
    var t := s.(lsdb := s.lsdb[s.me := Installed(lsa, now)]);
    var before := [PersistSeq(s.mySeq)] + Flood(s.adjacencies, lsa, None)
                  + [ExpiryTimer(lsa, now), SetTimer(LsaRefresh(lsa.version), After(now, lsa.ttlSec * 1_000 / 5))];
    DirtyHolds(p, t, now, event, before, after);
    assert Originate(q, now) == Outcome(MarkSpfDirty(t, now).plane, before + MarkSpfDirty(t, now).actions);
  }

  lemma ReceiveHolds(p: Plane, now: Time, link: LinkId, lsa: Lsa)
    ensures Holds(p, now, Frame(link, LsaFrame(lsa)), ReceiveLsa(p, now, link, lsa))
  {
    var r := ReceiveLsa(p, now, link, lsa);
    if r.plane != p {
      var t := p.(lsdb := p.lsdb[lsa.origin := Installed(lsa, now)]);
      assert lsa.origin !in p.lsdb || p.lsdb[lsa.origin].version != t.lsdb[lsa.origin].version;
      var before := Flood(p.adjacencies, lsa, Some(link)) + [ExpiryTimer(lsa, now)];
      DirtyHolds(p, t, now, Frame(link, LsaFrame(lsa)), before, []);
      assert r.actions == before + MarkSpfDirty(t, now).actions + [];
    }
  }

  lemma ExpireHolds(p: Plane, now: Time, origin: NodeId, version: Version)
    ensures Holds(p, now, Timer(LsaExpire(origin, version)), Expire(p, now, origin, version))
  {
    var r := Expire(p, now, origin, version);
    if r.plane != p {
      var t := p.(lsdb := p.lsdb[origin := LsdbEntry(version, Tombstone)]);
      assert p.lsdb[origin] != t.lsdb[origin];
      DirtyHolds(p, t, now, Timer(LsaExpire(origin, version)), [], []);
      assert r.actions == [] + MarkSpfDirty(t, now).actions + [];
    }
  }

  lemma TimerHolds(p: Plane, now: Time, timer: ControlTimer, tables: Tables)
    requires Fits(p.lsdb, p.me)
    ensures Holds(p, now, Timer(timer), HandleTimer(p, now, timer, tables))
  {
    match timer
    case LsaRefresh(version) => ChangeHolds(p, p, now, Timer(timer));
    case LsaExpire(origin, version) => ExpireHolds(p, now, origin, version);
    case _ =>
  }

  lemma LinkUpHolds(p: Plane, now: Time, link: LinkId, peer: NodeId, cost: LinkCost, tables: Tables)
    requires Fits(p.lsdb, p.me)
    ensures Holds(p, now, LinkUp(link, peer, cost), Step(p, now, LinkUp(link, peer, cost), tables))
  {
    var q := p.(adjacencies := p.adjacencies[link := Adjacency(peer, cost)]);
    OriginateHolds(p, q, now, LinkUp(link, peer, cost), DigestDue(Originate(q, now).plane, now, link));
  }

  /** Originating with nothing after it. */
  lemma ChangeHolds(p: Plane, q: Plane, now: Time, event: ControlEvent)
    requires Fits(q.lsdb, q.me) && !Fires(p, now, event) && q.mySeq == p.mySeq
    requires q.pending == p.pending && q.lastChange == p.lastChange && q.generation == p.generation && q.holdMs == p.holdMs
    ensures Holds(p, now, event, Originate(q, now))
  {
    OriginateHolds(p, q, now, event, []);
    assert Originate(q, now).actions + [] == Originate(q, now).actions;
  }

  lemma LinkDownHolds(p: Plane, now: Time, link: LinkId, tables: Tables)
    requires Fits(p.lsdb, p.me)
    ensures Holds(p, now, LinkDown(link), Step(p, now, LinkDown(link), tables))
  {
    ChangeHolds(p, p.(adjacencies := p.adjacencies - {link}), now, LinkDown(link));
  }

  lemma AdsHold(p: Plane, now: Time, ads: seq<TopicAd>, tables: Tables)
    requires Fits(p.lsdb, p.me)
    ensures Holds(p, now, LocalTopicAdsChanged(ads), Step(p, now, LocalTopicAdsChanged(ads), tables))
  {
    ChangeHolds(p, p.(topicAds := SortBy(ads, AdAtMost)), now, LocalTopicAdsChanged(ads));
  }

  lemma FrameHolds(p: Plane, now: Time, link: LinkId, frame: ControlFrame, tables: Tables)
    requires Fits(p.lsdb, p.me)
    ensures Holds(p, now, Frame(link, frame), Step(p, now, Frame(link, frame), tables))
  {
    if frame.LsaFrame? {
      ReceiveHolds(p, now, link, frame.lsa);
    }
  }

  /** How every event moves the hold and the pending recomputation. */
  lemma HoldsExactly(p: Plane, now: Time, event: ControlEvent, tables: Tables)
    requires Fits(p.lsdb, p.me)
    ensures Holds(p, now, event, Step(p, now, event, tables))
  {
    match event
    case LinkUp(link, peer, cost) => LinkUpHolds(p, now, link, peer, cost, tables);
    case LinkDown(link) => LinkDownHolds(p, now, link, tables);
    case LocalTopicAdsChanged(ads) => AdsHold(p, now, ads, tables);
    case Frame(link, frame) => FrameHolds(p, now, link, frame, tables);
    case Timer(timer) => TimerHolds(p, now, timer, tables);
  }

  /** The hold after `n` recomputations: 100 ms, doubled each time, at most five seconds. */
  function HoldAfter(n: nat): nat {
    if n == 0 then 100 else Min(2 * HoldAfter(n - 1), 5_000)
  }

  /** How many recomputations there have been since the plane was new or the hold was put back. */
  ghost function Counts(p: Plane, e: TimedEvent, q: Plane, fired: nat): nat {
    if Fires(p, e.now, e.event) then fired + 1
    else if !SameDatabase(p, q) && Rested(p, e.now) then 0
    else fired
  }

  lemma HoldCounts(p: Plane, now: Time, event: ControlEvent, r: Outcome, fired: nat)
    requires Holds(p, now, event, r) && p.holdMs == HoldAfter(fired)
    ensures r.plane.holdMs == HoldAfter(Counts(p, TimedEvent(now, event), r.plane, fired))
  {
  }

  /** The count at state `i` of a run. */
  ghost function CountAt(states: seq<Plane>, events: seq<TimedEvent>, i: nat): nat
    requires i <= |events| && |states| == |events| + 1
    decreases i
  {
    if i == 0 then 0 else Counts(states[i - 1], events[i - 1], states[i], CountAt(states, events, i - 1))
  }

  ghost predicate KeepsCount(p: Plane, e: TimedEvent, q: Plane) {
    forall fired: nat :: p.holdMs == HoldAfter(fired) ==> q.holdMs == HoldAfter(Counts(p, e, q, fired))
  }

  lemma StepKeepsCount(p: Plane, e: TimedEvent, q: Plane)
    requires PlaneOk(p) && Follows(p, e, q)
    ensures KeepsCount(p, e, q)
  {
    assert Fits(p.lsdb, p.me);
    HoldsExactly(p, e.now, e.event, TablesOf(p));
    forall fired: nat | p.holdMs == HoldAfter(fired) ensures q.holdMs == HoldAfter(Counts(p, e, q, fired)) {
      HoldCounts(p, e.now, e.event, Handle(p, e.now, e.event), fired);
    }
  }

  lemma {:induction false} HoldCountsAt(states: seq<Plane>, events: seq<TimedEvent>, i: nat)
    requires |states| == |events| + 1 && i <= |events| && states[0].holdMs == 100
    requires forall j :: 0 <= j < |events| ==> KeepsCount(states[j], events[j], states[j + 1])
    ensures states[i].holdMs == HoldAfter(CountAt(states, events, i))
    decreases i
  {
    if i > 0 {
      HoldCountsAt(states, events, i - 1);
      assert KeepsCount(states[i - 1], events[i - 1], states[i - 1 + 1]);
    }
  }

  /** On every run of a new plane the hold is 100 ms doubled by every recomputation since the last quiet spell, at most 5 s. */
  lemma HoldDoubles(states: seq<Plane>, events: seq<TimedEvent>, me: NodeId, epoch: nat, lastSeq: nat, i: nat)
    requires Runs.Chain(states, events, Follows) && i <= |events|
    requires states[0] == NewPlane(me, epoch, lastSeq) && CountersLast(states[0], |events|)
    ensures states[i].holdMs == HoldAfter(CountAt(states, events, i))
  {
    NewPlaneOk(me, epoch, lastSeq);
    forall j | 0 <= j < |events| ensures KeepsCount(states[j], events[j], states[j + 1]) {
      RunIsSafe(states, events, 0, j);
      StepKeepsCount(states[j], events[j], states[j + 1]);
    }
    HoldCountsAt(states, events, i);
  }

  // ------------------------------------------------------------ lifetimes

  /** A new entry lives as long as its LSA says from now on, and wakes the node for it; an own one is refreshed after a minute. */
  ghost predicate Timed(before: Lsdb, me: NodeId, now: Time, r: Outcome, o: NodeId) {
    IsNews(before, r.plane.lsdb, o) ==>
      var lsa := r.plane.lsdb[o].state.lsa;
      && r.plane.lsdb[o].state == Active(lsa, now, After(now, 1_000 * lsa.ttlSec))
      && SetTimer(LsaExpire(lsa.origin, lsa.version), After(now, 1_000 * lsa.ttlSec)) in r.actions
      && (o == me ==> lsa.ttlSec == 300 && SetTimer(LsaRefresh(lsa.version), After(now, 60_000)) in r.actions)
  }

  /** Originating makes the next own version live, with what the node has to say. */
  ghost predicate Originated(p: Plane, now: Time, q: Plane) {
    && q.me == p.me && q.epoch == p.epoch && q.mySeq == p.mySeq + 1
    && q.topicAds == p.topicAds && q.adjacencies == p.adjacencies
    && q.lsdb == p.lsdb[p.me := Installed(OwnLsa(p.(mySeq := p.mySeq + 1)), now)]
  }

  lemma OriginateOriginates(p: Plane, now: Time)
    requires Fits(p.lsdb, p.me)
    ensures Originated(p, now, Originate(p, now).plane)
  {
  }

  lemma OriginateTimes(p: Plane, now: Time, o: NodeId)
    requires Fits(p.lsdb, p.me)
    ensures Timed(p.lsdb, p.me, now, Originate(p, now), o)
  {
    OriginateOriginates(p, now);
  }

  lemma ReceiveTimes(p: Plane, now: Time, link: LinkId, lsa: Lsa, o: NodeId)
    ensures Timed(p.lsdb, p.me, now, ReceiveLsa(p, now, link, lsa), o)
  {
  }

  lemma TimerTimes(p: Plane, now: Time, timer: ControlTimer, tables: Tables, o: NodeId)
    requires Fits(p.lsdb, p.me)
    ensures Timed(p.lsdb, p.me, now, HandleTimer(p, now, timer, tables), o)
  {
    if timer.LsaRefresh? {
      OriginateTimes(p, now, o);
    }
  }

  /** Every event that brings in a new entry times it. */
  lemma EntriesAreTimed(p: Plane, now: Time, event: ControlEvent, tables: Tables, o: NodeId)
    requires Fits(p.lsdb, p.me)
    ensures Timed(p.lsdb, p.me, now, Step(p, now, event, tables), o)
  {
    match event
    case LinkUp(link, peer, cost) => OriginateTimes(p.(adjacencies := p.adjacencies[link := Adjacency(peer, cost)]), now, o);
    case LinkDown(link) => OriginateTimes(p.(adjacencies := p.adjacencies - {link}), now, o);
    case LocalTopicAdsChanged(ads) => OriginateTimes(p.(topicAds := SortBy(ads, AdAtMost)), now, o);
    case Frame(link, frame) =>
      if frame.LsaFrame? {
        ReceiveTimes(p, now, link, frame.lsa, o);
      }
    case Timer(timer) => TimerTimes(p, now, timer, tables, o);
  }

  /** Each of the other timers does its work exactly when it is still meant, and asks to be woken again when it came early. */
  lemma TimersWork(p: Plane, now: Time, timer: ControlTimer, tables: Tables)
    requires Fits(p.lsdb, p.me)
    ensures var r := HandleTimer(p, now, timer, tables);
            match timer
            case SpfHold(g) =>
              if p.pending.None? || p.pending.value.generation != g then r == Outcome(p, [])
              else p.pending.value.at <= now || r == Outcome(p, [SetTimer(timer, p.pending.value.at)])
            case LsaRefresh(v) =>
              if IsActive(p.lsdb, p.me) && p.lsdb[p.me].version == v
              then IsActive(r.plane.lsdb, p.me) && r.plane.lsdb[p.me].version == Version(p.epoch, p.mySeq + 1)
              else r == Outcome(p, [])
            case LsaExpire(o, v) =>
              if !IsActive(p.lsdb, o) || p.lsdb[o].version != v then r == Outcome(p, [])
              else if now < p.lsdb[o].state.expiresAt then r == Outcome(p, [SetTimer(timer, p.lsdb[o].state.expiresAt)])
              else r.plane.lsdb == p.lsdb[o := LsdbEntry(v, Tombstone)]
            case DigestTimer(link) =>
              && r.plane == p
              && (link !in p.adjacencies ==> r.actions == [])
              && (link in p.adjacencies ==> SetTimer(timer, After(now, 10_000)) in r.actions
                                            && exists entries :: Sends(r.actions, link, DigestFrame(entries)) && IsTrueDigest(p.lsdb, entries))
  {
    if timer.DigestTimer? && timer.link in p.adjacencies {
      assert Sends(HandleTimer(p, now, timer, tables).actions, timer.link, DigestFrame(Digest(p.lsdb)));
    }
    if timer.LsaRefresh? {
      OriginateOriginates(p, now);
    }
  }

  /** The digest names every origin of the database with its version, and nothing else. */
  ghost predicate IsTrueDigest(lsdb: Lsdb, entries: seq<DigestEntry>) {
    forall e :: e in entries <==> e.origin in lsdb && e.version == lsdb[e.origin].version
  }

  /** Valid ads take effect, sorted, and are announced if they are new; invalid ones change nothing. */
  lemma AdsTakeEffect(p: Plane, now: Time, ads: seq<TopicAd>, tables: Tables)
    requires Fits(p.lsdb, p.me)
    ensures var r := Step(p, now, LocalTopicAdsChanged(ads), tables); var q := r.plane;
            if ValidTopicAds(ads) then
              && SortedBy(q.topicAds, AdAtMost) && multiset(q.topicAds) == multiset(ads)
              && (if q.topicAds == p.topicAds then r == Outcome(p, [])
                  else q.mySeq == p.mySeq + 1 && IsActive(q.lsdb, p.me) && q.lsdb[p.me].state.lsa.topics == q.topicAds
                       && q.lsdb[p.me].version == Version(p.epoch, q.mySeq))
            else r == Outcome(p, [])
  {
    AdOrder();
    SortBySorts(ads, AdAtMost);
    SortKeepsValidity(ads);
    OriginateOriginates(p.(topicAds := SortBy(ads, AdAtMost)), now);
  }

  // ------------------------------------------------------------ what is taken in

  /** Within the limits of the protocol. */
  ghost predicate Acceptable(lsa: Lsa) {
    1 <= lsa.ttlSec <= 3_600 && |lsa.adjacencies| <= 256 && ValidTopicAds(lsa.topics)
  }

  /**
   * An LSA counts only on an open link, within its limits, from another node, if
   * it is newer than what is known and there is room for it. Then it is stored and
   * passed on over every other link; otherwise it is answered with the newer live
   * one, if there is one, or ignored.
   */
  lemma ReceivesExactly(p: Plane, now: Time, link: LinkId, lsa: Lsa)
    ensures var r := ReceiveLsa(p, now, link, lsa); var known, o := p.lsdb, lsa.origin;
            if link !in p.adjacencies || !Acceptable(lsa) then r == Outcome(p, [])
            else if o == p.me || (o in known && lsa.version.AtMost(known[o].version)) then
              && r.plane == p
              && r.actions == (if IsActive(known, o) && lsa.version.Below(known[o].version) then [Send(link, LsaFrame(known[o].state.lsa))] else [])
            else if o !in known && |known| >= 1_000 then r == Outcome(p, [])
            else
              && r.plane.lsdb == known[o := LsdbEntry(lsa.version, Active(lsa, now, After(now, 1_000 * lsa.ttlSec)))]
              && forall k, frame :: Sends(r.actions, k, frame) <==> k in p.adjacencies && k != link && frame == LsaFrame(lsa)
  {
  }

  /** Other frames count only on an open link and up to a thousand entries, and change nothing. */
  lemma OversizedIsIgnored(p: Plane, now: Time, link: LinkId, frame: ControlFrame)
    requires !frame.LsaFrame?
    ensures var r := HandleFrame(p, now, link, frame);
            && r.plane == p
            && (link !in p.adjacencies ==> r.actions == [])
            && (frame.DigestFrame? && |frame.entries| > 1_000 ==> r.actions == [])
            && (frame.DigestReqFrame? && |frame.origins| > 1_000 ==> r.actions == [])
  {
  }

  /** The next own version is live, and tells of these links. */
  ghost predicate Announces(p: Plane, adjs: Spf.Adjacencies, q: Plane) {
    && q.adjacencies == adjs && q.mySeq == p.mySeq + 1
    && IsActive(q.lsdb, p.me) && q.lsdb[p.me].version == Version(p.epoch, p.mySeq + 1) && q.lsdb[p.me].state.lsa.adjacencies == OwnEdges(adjs)
  }

  lemma OriginateAnnounces(p: Plane, adjs: Spf.Adjacencies, now: Time)
    requires Fits(p.lsdb, p.me)
    ensures Announces(p, adjs, Originate(p.(adjacencies := adjs), now).plane)
  {
    OriginateOriginates(p.(adjacencies := adjs), now);
  }

  /** A new link is announced, and gets a digest again in ten seconds. */
  lemma NewLinkIsAnnounced(p: Plane, now: Time, link: LinkId, peer: NodeId, cost: LinkCost, tables: Tables)
    requires Fits(p.lsdb, p.me)
    ensures var r := Step(p, now, LinkUp(link, peer, cost), tables);
            Announces(p, p.adjacencies[link := Adjacency(peer, cost)], r.plane) && SetTimer(DigestTimer(link), After(now, 10_000)) in r.actions
  {
    OriginateAnnounces(p, p.adjacencies[link := Adjacency(peer, cost)], now);
  }

  /** A lost link is announced if it was known, and ignored otherwise. */
  lemma LostLinkIsAnnounced(p: Plane, now: Time, link: LinkId, tables: Tables)
    requires Fits(p.lsdb, p.me)
    ensures var r := Step(p, now, LinkDown(link), tables);
            if link in p.adjacencies then Announces(p, p.adjacencies - {link}, r.plane) else r == Outcome(p, [])
  {
    OriginateAnnounces(p, p.adjacencies - {link}, now);
  }

  // ------------------------------------------------------------ the own LSA outlives its refresh

  /** Time does not run back, and no event overtakes the refresh of the own LSA, which is due a minute after it. */
  ghost predicate RefreshOnTime(p: Plane, now: Time) {
    IsActive(p.lsdb, p.me) ==> p.lsdb[p.me].state.receivedAt <= now <= p.lsdb[p.me].state.receivedAt + 60_000 && now < U64_MAX
  }

  ghost predicate FollowsRefreshed(p: Plane, e: TimedEvent, q: Plane) {
    Follows(p, e, q) && RefreshOnTime(p, e.now)
  }

  ghost predicate SameEntry(before: Lsdb, after: Lsdb, o: NodeId) {
    (o in after <==> o in before) && (o in before ==> after[o] == before[o])
  }

  ghost predicate Renewed(p: Plane, q: Plane) {
    q.me == p.me && (IsNews(p.lsdb, q.lsdb, p.me) || SameEntry(p.lsdb, q.lsdb, p.me))
  }

  ghost predicate OwnCurrent(p: Plane) {
    p.me in p.lsdb ==> p.lsdb[p.me].version == Version(p.epoch, p.mySeq)
  }

  lemma OriginateRenews(p: Plane, q: Plane, now: Time)
    requires OwnCurrent(p) && Fits(q.lsdb, q.me) && q.me == p.me && q.epoch == p.epoch && q.mySeq == p.mySeq && q.lsdb == p.lsdb
    ensures Renewed(p, Originate(q, now).plane)
  {
    OriginateOriginates(q, now);
  }

  lemma FrameRenews(p: Plane, now: Time, link: LinkId, frame: ControlFrame)
    ensures Renewed(p, HandleFrame(p, now, link, frame).plane)
  {
  }

  lemma TimerRenews(p: Plane, now: Time, timer: ControlTimer, tables: Tables)
    requires OwnCurrent(p) && Fits(p.lsdb, p.me) && (IsActive(p.lsdb, p.me) ==> now < p.lsdb[p.me].state.expiresAt)
    ensures Renewed(p, HandleTimer(p, now, timer, tables).plane)
  {
    if timer.LsaRefresh? {
      OriginateRenews(p, p, now);
    }
  }

  /** Before it is due, the own entry stays as it is or is replaced by a new one. */
  lemma OwnEntryStays(p: Plane, now: Time, event: ControlEvent, tables: Tables)
    requires OwnCurrent(p) && Fits(p.lsdb, p.me) && (IsActive(p.lsdb, p.me) ==> now < p.lsdb[p.me].state.expiresAt)
    ensures Renewed(p, Step(p, now, event, tables).plane)
  {
    match event
    case LinkUp(link, peer, cost) => OriginateRenews(p, p.(adjacencies := p.adjacencies[link := Adjacency(peer, cost)]), now);
    case LinkDown(link) => OriginateRenews(p, p.(adjacencies := p.adjacencies - {link}), now);
    case LocalTopicAdsChanged(ads) => OriginateRenews(p, p.(topicAds := SortBy(ads, AdAtMost)), now);
    case Frame(link, frame) => FrameRenews(p, now, link, frame);
    case Timer(timer) => TimerRenews(p, now, timer, tables);
  }

  ghost predicate Fresh(p: Plane) {
    p.me in p.lsdb ==> IsActive(p.lsdb, p.me) && p.lsdb[p.me].state.expiresAt == After(p.lsdb[p.me].state.receivedAt, 300_000)
  }

  lemma FreshNext(p: Plane, now: Time, r: Outcome)
    requires Fresh(p) && Renewed(p, r.plane) && Timed(p.lsdb, p.me, now, r, p.me)
    ensures Fresh(r.plane)
  {
  }

  lemma StepFresh(p: Plane, now: Time, event: ControlEvent, tables: Tables)
    requires OwnCurrent(p) && Fits(p.lsdb, p.me) && Fresh(p) && RefreshOnTime(p, now)
    ensures Fresh(Step(p, now, event, tables).plane)
  {
    EntriesAreTimed(p, now, event, tables, p.me);
    OwnEntryStays(p, now, event, tables);
    FreshNext(p, now, Step(p, now, event, tables));
  }

  /** The own LSA, once there, is live and has five minutes from when it was made. */
  ghost predicate Lively(p: Plane, n: nat) {
    Ready(p, n) && Fresh(p)
  }

  lemma LivelyNext(p: Plane, e: TimedEvent, q: Plane, n: nat)
    requires Lively(p, n + 1) && FollowsRefreshed(p, e, q)
    ensures Lively(q, n)
  {
    NextIsReady(p, e, n);
    StepFresh(p, e.now, e.event, TablesOf(p));
  }

  lemma LivelySteps()
    ensures Runs.StepHolds(FollowsRefreshed, Lively)
  {
    forall p, e, q, n: nat | FollowsRefreshed(p, e, q) && Lively(p, n) && 0 < n ensures Lively(q, n - 1) {
      LivelyNext(p, e, q, n - 1);
    }
  }

  lemma NewIsLively(me: NodeId, epoch: nat, lastSeq: nat, n: nat)
    requires CountersLast(NewPlane(me, epoch, lastSeq), n)
    ensures Lively(NewPlane(me, epoch, lastSeq), n)
  {
    NewPlaneOk(me, epoch, lastSeq);
  }

  /** On every run of a new plane whose refresh timers are on time, the own LSA never expires once it has been originated. */
  lemma OwnStaysLive(states: seq<Plane>, events: seq<TimedEvent>, me: NodeId, epoch: nat, lastSeq: nat, i: nat)
    requires Runs.Chain(states, events, FollowsRefreshed) && i <= |events|
    requires states[0] == NewPlane(me, epoch, lastSeq) && CountersLast(states[0], |events|)
    ensures states[i].me in states[i].lsdb ==> IsActive(states[i].lsdb, states[i].me)
  {
    NewIsLively(me, epoch, lastSeq, |events|);
    LivelySteps();
    Runs.ChainHolds(states, events, FollowsRefreshed, Lively, i);
    assert Lively(states[i], |events| - i);
  }
}
