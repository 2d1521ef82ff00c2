/** Safety and timeliness of one node's control plane over whole runs. */
module ControlRuns {
  import opened MeshTypes
  import opened ControlData
  import opened ControlModel
  import opened ControlSafety
  import opened NodeContract
  import Runs
  import Sorting
  import TopicAds

  // ------------------------------------------------------------ the SPF clock

  /** A change at `now` is covered by a recomputation that is due within the largest hold. */
  ghost predicate Marked(p: Plane, now: Time, q: Plane) {
    && q.lastChange == Some(now) && q.pending.Some?
    && if p.pending.Some? && !WasQuiet(p, now)
       then q.pending == p.pending && q.generation == p.generation
       else q.pending.value.at <= After(now, SPF_MAX_HOLD_MS) && q.generation == p.generation + 1
  }

  /** How an event moves the SPF clock: by marking a change of the database, or else at most by firing. */
  ghost predicate Clocked(p: Plane, now: Time, q: Plane) {
    || Marked(p, now, q)
    || (&& SameDatabase(p, q) && q.lastChange == p.lastChange && q.generation == p.generation
        && (q.pending == p.pending || q.pending.None?))
  }

  lemma DirtyMarks(p: Plane, now: Time)
    requires SpfOk(p)
    ensures Marked(p, now, MarkSpfDirty(p, now).plane)
  {
  }

  lemma OriginateMarks(p: Plane, q: Plane, now: Time)
    requires SpfOk(p) && Fits(q.lsdb, q.me)
    requires q.pending == p.pending && q.lastChange == p.lastChange && q.generation == p.generation && q.holdMs == p.holdMs
    ensures Marked(p, now, Originate(q, now).plane)
  {
    var r := q.(mySeq := q.mySeq + 1);
    DirtyMarks(p, now);
    assert Originate(q, now).plane == MarkSpfDirty(r.(lsdb := r.lsdb[r.me := Installed(OwnLsa(r), now)]), now).plane;
  }

  lemma FrameClocked(p: Plane, now: Time, link: LinkId, frame: ControlFrame)
    requires PlaneOk(p)
    ensures Clocked(p, now, HandleFrame(p, now, link, frame).plane)
  {
    if frame.LsaFrame? {
      DirtyMarks(p.(lsdb := p.lsdb[frame.lsa.origin := Installed(frame.lsa, now)]), now);
    }
  }

  lemma TimerClocked(p: Plane, now: Time, timer: ControlTimer, tables: Tables)
    requires PlaneOk(p)
    ensures Fits(p.lsdb, p.me) && Clocked(p, now, HandleTimer(p, now, timer, tables).plane)
  {
    match timer
    case LsaExpire(origin, version) => ExpireClocked(p, now, origin, version);
    case SpfHold(generation) => FireClocked(p, now, generation, tables);
    case _ => OriginateMarks(p, p, now);
  }

  lemma ExpireClocked(p: Plane, now: Time, origin: NodeId, version: Version)
    requires SpfOk(p)
    ensures Clocked(p, now, Expire(p, now, origin, version).plane)
  {
    DirtyMarks(p.(lsdb := p.lsdb[origin := LsdbEntry(version, Tombstone)]), now);
  }

  lemma FireClocked(p: Plane, now: Time, generation: nat, tables: Tables)
    ensures Clocked(p, now, FireSpf(p, now, generation, tables).plane)
  {
  }

  lemma StepClocked(p: Plane, now: Time, event: ControlEvent, tables: Tables)
    requires PlaneOk(p)
    ensures Fits(p.lsdb, p.me) && Clocked(p, now, Step(p, now, event, tables).plane)
  {
    match event
    case LinkUp(link, peer, cost) =>
      OriginateMarks(p, p.(adjacencies := p.adjacencies[link := Adjacency(peer, cost)]), now);
    case LinkDown(link) =>
      OriginateMarks(p, p.(adjacencies := p.adjacencies - {link}), now);
    case LocalTopicAdsChanged(ads) =>
      OriginateMarks(p, p.(topicAds := Sorting.SortBy(ads, TopicAds.AdAtMost)), now);
    case Frame(link, frame) =>
      FrameClocked(p, now, link, frame);
    case Timer(timer) =>
      TimerClocked(p, now, timer, tables);
  }

  // ------------------------------------------------------------ whole runs

  datatype TimedEvent = TimedEvent(now: Time, event: ControlEvent)

  /** Neither 64-bit counter, whose exhaustion aborts the process, runs out within `n` more events. */
  ghost predicate CountersLast(p: Plane, n: nat) {
    p.mySeq + n <= U64_MAX && p.generation + n <= U64_MAX
  }

  ghost predicate Ready(p: Plane, n: nat) {
    PlaneOk(p) && CacheOk(p) && CountersLast(p, n)
  }

  lemma NextIsReady(p: Plane, e: TimedEvent, n: nat)
    requires Ready(p, n + 1)
    ensures Fits(p.lsdb, p.me)
    ensures var q := Handle(p, e.now, e.event).plane;
            Ready(q, n) && Grew(p.lsdb, q.lsdb) && Clocked(p, e.now, q)
  {
    HandleKeeps(p, e.now, e.event);
    StepContract(p, e.now, e.event, TablesOf(p));
    StepClocked(p, e.now, e.event, TablesOf(p));
  }

  ghost function Next(p: Plane, e: TimedEvent): (q: Plane)
    requires PlaneOk(p)
  {
    Handle(p, e.now, e.event).plane
  }

  /** `q` is the state after `e`, if the event is handled at all. */
  ghost predicate Follows(p: Plane, e: TimedEvent, q: Plane) {
    PlaneOk(p) ==> q == Next(p, e)
  }

  ghost predicate DatabaseGrew(p: Plane, q: Plane) {
    Grew(p.lsdb, q.lsdb)
  }

  lemma FollowsSafely(p: Plane, e: TimedEvent, q: Plane, n: nat)
    requires Ready(p, n + 1) && Follows(p, e, q)
    ensures Ready(q, n) && DatabaseGrew(p, q) && Clocked(p, e.now, q)
  {
    NextIsReady(p, e, n);
  }

  lemma RunSteps()
    ensures Runs.StepKeeps(Follows, Ready, DatabaseGrew) && Runs.Preorder(DatabaseGrew)
  {
    forall p, e, q, n: nat | Follows(p, e, q) && Ready(p, n) && 0 < n ensures Ready(q, n - 1) && DatabaseGrew(p, q) {
      FollowsSafely(p, e, q, n - 1);
    }
    forall p: Plane, q: Plane, r: Plane | DatabaseGrew(p, q) && DatabaseGrew(q, r) ensures DatabaseGrew(p, r) {
      GrewTransitive(p.lsdb, q.lsdb, r.lsdb);
    }
  }

  /**
   * Over every run: the database stays bounded and keyed by origin, the own
   * entry always carries the newest own version, no entry is ever removed, no
   * version falls, no tombstone is revived by its own or an older version, and
   * published tables match the database whenever no recomputation is pending.
   */
  lemma RunIsSafe(states: seq<Plane>, events: seq<TimedEvent>, m: nat, n: nat)
    requires Runs.Chain(states, events, Follows) && Ready(states[0], |events|) && m <= n <= |events|
    ensures Ready(states[n], |events| - n)
    ensures Grew(states[m].lsdb, states[n].lsdb)
  {
    RunSteps();
    Runs.ChainKeeps(states, events, Follows, Ready, DatabaseGrew, m, n);
    assert DatabaseGrew(states[m], states[n]);
  }

  // ------------------------------------------------------------ timeliness

  /** Time never runs back, and no event overtakes a recomputation that is already due. */
  ghost predicate OnTime(p: Plane, e: TimedEvent) {
    && (p.lastChange.Some? ==> p.lastChange.value <= e.now)
    && (p.pending.Some? ==> e.now <= p.pending.value.at)
  }

  ghost predicate FollowsOnTime(p: Plane, e: TimedEvent, q: Plane) {
    Follows(p, e, q) && OnTime(p, e)
  }

  /** A pending recomputation is due at most the largest hold after the latest change. */
  ghost predicate ClockOk(p: Plane) {
    p.pending.Some? ==> p.lastChange.Some? && p.pending.value.at <= After(p.lastChange.value, SPF_MAX_HOLD_MS)
  }

  ghost predicate Punctual(p: Plane, n: nat) {
    Ready(p, n) && ClockOk(p)
  }

  /** With timers on time every event keeps the clock, and one that changes the database leaves a recomputation pending. */
  lemma ClockKeeps(p: Plane, e: TimedEvent, q: Plane, n: nat)
    requires Punctual(p, n + 1) && FollowsOnTime(p, e, q)
    ensures Punctual(q, n) && (!SameDatabase(p, q) ==> q.pending.Some? && q.lastChange == Some(e.now))
  {
    FollowsSafely(p, e, q, n);
  }

  lemma NewIsPunctual(me: NodeId, epoch: nat, lastSeq: nat, n: nat)
    requires CountersLast(NewPlane(me, epoch, lastSeq), n)
    ensures Punctual(NewPlane(me, epoch, lastSeq), n)
  {
    NewPlaneOk(me, epoch, lastSeq);
  }

  lemma RunIsPunctual(states: seq<Plane>, events: seq<TimedEvent>, i: nat)
    requires Runs.Chain(states, events, FollowsOnTime) && Punctual(states[0], |events|) && i <= |events|
    ensures Punctual(states[i], |events| - i)
  {
    forall p, e, q, n: nat | FollowsOnTime(p, e, q) && Punctual(p, n) && 0 < n ensures Punctual(q, n - 1) {
      ClockKeeps(p, e, q, n - 1);
    }
    Runs.ChainHolds(states, events, FollowsOnTime, Punctual, i);
  }

  /** A recomputation pending for a change made at `since`. */
  ghost predicate Due(p: Plane, since: Time) {
    p.pending.Some? && p.lastChange.Some? && since <= p.lastChange.value && p.pending.value.at <= After(since, SPF_MAX_HOLD_MS)
  }

  /** While it is pending it is neither put off nor replaced. */
  lemma DueStays(p: Plane, e: TimedEvent, q: Plane, n: nat, since: Time)
    requires Punctual(p, n + 1) && FollowsOnTime(p, e, q) && Due(p, since) && q.pending.Some?
    ensures Due(q, since)
  {
    FollowsSafely(p, e, q, n);
    assert !WasQuiet(p, e.now);
  }

  ghost predicate StillDue(p: Plane, q: Plane, since: Time) {
    Due(p, since) && q.pending.Some? ==> Due(q, since)
  }

  lemma {:induction false} StaysDue(states: seq<Plane>, since: Time, m: nat, i: nat)
    requires m <= i < |states| && Due(states[m], since) && forall n :: m <= n < i ==> StillDue(states[n], states[n + 1], since)
    requires AllPending(states, m, i)
    ensures Due(states[i], since)
    decreases i
  {
    if m < i {
      assert AllPending(states, m, i - 1);
      StaysDue(states, since, m, i - 1);
      assert StillDue(states[i - 1], states[i - 1 + 1], since);
    }
  }

  /** As long as a recomputation stays pending, no event comes more than the largest hold after the change. */
  lemma NotOverdue(states: seq<Plane>, events: seq<TimedEvent>, since: Time, m: nat, i: nat)
    requires Runs.Chain(states, events, FollowsOnTime) && Punctual(states[0], |events|) && m <= i < |events| && Due(states[m], since)
    requires AllPending(states, m, i)
    ensures events[i].now <= After(since, SPF_MAX_HOLD_MS)
  {
    forall n | m <= n < i ensures StillDue(states[n], states[n + 1], since) {
      RunIsPunctual(states, events, n);
      assert FollowsOnTime(states[n], events[n], states[n + 1]);
      if Due(states[n], since) && states[n + 1].pending.Some? {
        DueStays(states[n], events[n], states[n + 1], |events| - n - 1, since);
      }
    }
    StaysDue(states, since, m, i);
    assert FollowsOnTime(states[i], events[i], states[i + 1]);
  }

  lemma ChangeIsDue(states: seq<Plane>, events: seq<TimedEvent>, j: nat)
    requires Runs.Chain(states, events, FollowsOnTime) && Punctual(states[0], |events|)
    requires j < |events| && !SameDatabase(states[j], states[j + 1])
    ensures Due(states[j + 1], events[j].now)
  {
    RunIsPunctual(states, events, j);
    assert FollowsOnTime(states[j], events[j], states[j + 1]);
    ClockKeeps(states[j], events[j], states[j + 1], |events| - j - 1);
  }

  /**
   * On every run of a new control plane with timers on time, for every event
   * that changes the database: no event more than the largest hold later finds
   * the change unreflected. In between there was a moment with no recomputation
   * pending, at which the published tables are those of the database.
   */
  lemma ReflectedInTime(states: seq<Plane>, events: seq<TimedEvent>, me: NodeId, epoch: nat, lastSeq: nat, j: nat, i: nat)
    requires Runs.Chain(states, events, FollowsOnTime) && states[0] == NewPlane(me, epoch, lastSeq) && CountersLast(states[0], |events|)
    requires j < i < |events| && !SameDatabase(states[j], states[j + 1])
    requires After(events[j].now, SPF_MAX_HOLD_MS) < events[i].now
    ensures exists n :: j < n <= i && Reflects(states[n], |events| - n)
  {
    NewIsPunctual(me, epoch, lastSeq, |events|);
    ReflectedFrom(states, events, j, i);
  }

  /** No recomputation is pending, so that the published tables are those of the database. */
  ghost predicate Reflects(p: Plane, n: nat) {
    p.pending.None? && Ready(p, n)
  }

  lemma ReflectedFrom(states: seq<Plane>, events: seq<TimedEvent>, j: nat, i: nat)
    requires Runs.Chain(states, events, FollowsOnTime) && Punctual(states[0], |events|)
    requires j < i < |events| && !SameDatabase(states[j], states[j + 1])
    requires After(events[j].now, SPF_MAX_HOLD_MS) < events[i].now
    ensures exists n :: j < n <= i && Reflects(states[n], |events| - n)
  {
    var since, m := events[j].now, j + 1;
    ChangeIsDue(states, events, j);
    ReflectedSince(states, events, since, m, i);
    var n :| m <= n <= i && Reflects(states[n], |events| - n);
    assert j < n;
  }

  lemma ReflectedSince(states: seq<Plane>, events: seq<TimedEvent>, since: Time, m: nat, i: nat)
    requires Runs.Chain(states, events, FollowsOnTime) && Punctual(states[0], |events|) && m <= i < |events| && Due(states[m], since)
    requires After(since, SPF_MAX_HOLD_MS) < events[i].now
    ensures exists n :: m <= n <= i && Reflects(states[n], |events| - n)
  {
    SomeIdle(states, events, since, m, i);
    var n :| m <= n <= i && states[n].pending.None?;
    RunIsPunctual(states, events, n);
    assert Reflects(states[n], |events| - n);
  }

  ghost predicate AllPending(states: seq<Plane>, m: nat, i: nat)
    requires i < |states|
  {
    forall n :: m <= n <= i ==> states[n].pending.Some?
  }

  lemma SomeIdle(states: seq<Plane>, events: seq<TimedEvent>, since: Time, m: nat, i: nat)
    requires Runs.Chain(states, events, FollowsOnTime) && Punctual(states[0], |events|) && m <= i < |events| && Due(states[m], since)
    requires After(since, SPF_MAX_HOLD_MS) < events[i].now
    ensures !AllPending(states, m, i)
  {
    if AllPending(states, m, i) {
      NotOverdue(states, events, since, m, i);
    }
  }
}
