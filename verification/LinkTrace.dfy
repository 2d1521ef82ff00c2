/**
 * The forwarder acts on its links by operations of the link scheduler and
 * nothing else: every event leaves each link in the state, and sends and
 * overwrites exactly the packets, that replaying the recorded operations gives.
 */
module LinkTrace {
  import opened MeshTypes
  import opened Packets
  import opened Scheduler
  import opened Forwarding

  // ------------------------------------------------------------ replaying

  datatype Replayed = Replayed(links: map<LinkId, Link>, sent: seq<ForwardAction>, lost: seq<Packet>)

  /** One operation on one link. An offer that finds its conflation key queued overwrites that packet. */
  function Replay1(links: map<LinkId, Link>, step: LinkStep): Replayed {
    var q := LinkIn(links, step.link);
    var a := Operate(q, step.op);
    Replayed(links[step.link := a.link],
             if a.sent.Some? then [Transmit(step.link, a.sent.value.packet)] else [],
             Overwritten(q, step.op))
  }

  function Replay(links: map<LinkId, Link>, trace: seq<LinkStep>): Replayed
    decreases |trace|
  {
    if trace == [] then Replayed(links, [], [])
    else
      var first := Replay1(links, trace[0]);
      var rest := Replay(first.links, trace[1..]);
      Replayed(rest.links, first.sent + rest.sent, first.lost + rest.lost)
  }

  lemma {:induction false} ReplayAdds(links: map<LinkId, Link>, s: seq<LinkStep>, t: seq<LinkStep>)
    ensures var a := Replay(links, s); var b := Replay(a.links, t);
            Replay(links, s + t) == Replayed(b.links, a.sent + b.sent, a.lost + b.lost)
    decreases |s|
  {
    FirstOfSum(s, t);
    if s != [] {
      var first := Replay1(links, s[0]);
      var mid := Replay(first.links, s[1..]);
      var last := Replay(mid.links, t);
      ReplayAdds(first.links, s[1..], t);
      Associates(first.sent, mid.sent, last.sent);
      Associates(first.lost, mid.lost, last.lost);
    }
  }

  function Transmits(actions: seq<ForwardAction>): seq<ForwardAction> {
    if actions == [] then [] else (if actions[0].Transmit? then [actions[0]] else []) + Transmits(actions[1..])
  }

  lemma {:induction false} TransmitsAdd(a: seq<ForwardAction>, b: seq<ForwardAction>)
    ensures Transmits(a + b) == Transmits(a) + Transmits(b)
  {
    FirstOfSum(a, b);
    if a != [] {
      TransmitsAdd(a[1..], b);
    }
  }

  lemma {:induction false} NothingTransmitted(actions: seq<ForwardAction>)
    requires forall a :: a in actions ==> !a.Transmit?
    ensures Transmits(actions) == []
  {
    if actions != [] {
      NothingTransmitted(actions[1..]);
    }
  }

  /** The effect on links, on what is sent and on what is overwritten is that of the trace. */
  ghost predicate Replays(links: map<LinkId, Link>, e: Effect) {
    Replay(links, e.trace) == Replayed(e.fwd.links, Transmits(e.actions), e.lost)
  }

  ghost predicate OnlyOffers(trace: seq<LinkStep>) {
    forall s :: s in trace ==> s.op.Offer?
  }

  predicate IsRefusal(a: ForwardAction) {
    a.Backpressure? || (a.Drop? && a.reason.QueueFull?)
  }

  /** The queue for the packet holds as many as it may, and no rival that the packet could replace. */
  ghost predicate IsFull(q: Link, p: Packet) {
    var queue := q.queues[p.header.priority.Index()];
    Capacity(p.header.priority) <= |queue| && forall y :: y in queue ==> !Rivals(y.packet, p)
  }

  /** P0 is pushed back at the link that is full, other packets are dropped for a full queue of their priority. */
  ghost predicate Justified(links: map<LinkId, Link>, a: ForwardAction) {
    match a
    case Backpressure(k, p) => p.header.priority == P0 && IsFull(LinkIn(links, k), p)
    case Drop(QueueFull(priority), p) => p.header.priority == priority != P0 && exists k :: IsFull(LinkIn(links, k), p)
    case _ => false
  }

  /** At some moment of the trace the refusal is justified. */
  ghost predicate JustifiedIn(links: map<LinkId, Link>, trace: seq<LinkStep>, a: ForwardAction) {
    exists n :: 0 <= n <= |trace| && Justified(Replay(links, trace[..n]).links, a)
  }

  ghost predicate RefusesFull(links: map<LinkId, Link>, e: Effect) {
    forall a :: a in e.actions && IsRefusal(a) ==> JustifiedIn(links, e.trace, a)
  }

  /** The effect is that of offering packets to links, where only a full queue refuses. */
  ghost predicate Offers(f: Fwd, e: Effect) {
    Replays(f.links, e) && OnlyOffers(e.trace) && RefusesFull(f.links, e)
  }

  // ------------------------------------------------------------ every part of the forwarder

  lemma ThenOffers(f: Fwd, a: Effect, b: Effect)
    requires Offers(f, a) && Offers(a.fwd, b)
    ensures Offers(f, Then(a, b))
  {
    ReplayAdds(f.links, a.trace, b.trace);
    TransmitsAdd(a.actions, b.actions);
    ThenRefuses(f, a, b);
  }

  lemma JustifiedEarlier(links: map<LinkId, Link>, s: seq<LinkStep>, t: seq<LinkStep>, a: ForwardAction)
    requires JustifiedIn(links, s, a)
    ensures JustifiedIn(links, s + t, a)
  {
    var n :| 0 <= n <= |s| && Justified(Replay(links, s[..n]).links, a);
    PrefixOfSum(s, t, n);
    assert n <= |s + t|;
  }

  lemma JustifiedLater(links: map<LinkId, Link>, s: seq<LinkStep>, t: seq<LinkStep>, a: ForwardAction)
    requires JustifiedIn(Replay(links, s).links, t, a)
    ensures JustifiedIn(links, s + t, a)
  {
    var n :| 0 <= n <= |t| && Justified(Replay(Replay(links, s).links, t[..n]).links, a);
    ReplayAdds(links, s, t[..n]);
    PrefixOfSum(s, t, n);
    assert 0 <= |s| + n <= |s + t|;
  }

  lemma ThenRefuses(f: Fwd, a: Effect, b: Effect)
    requires Replays(f.links, a) && RefusesFull(f.links, a) && RefusesFull(a.fwd.links, b)
    ensures RefusesFull(f.links, Then(a, b))
  {
    forall x | x in Then(a, b).actions && IsRefusal(x) ensures JustifiedIn(f.links, a.trace + b.trace, x) {
      if x in a.actions {
        JustifiedEarlier(f.links, a.trace, b.trace, x);
      } else {
        JustifiedLater(f.links, a.trace, b.trace, x);
      }
    }
  }

  lemma QuietOffers(f: Fwd, f': Fwd, actions: seq<ForwardAction>)
    requires f'.links == f.links && forall a :: a in actions ==> !a.Transmit? && !IsRefusal(a)
    ensures Offers(f, Act(f', actions))
  {
    NothingTransmitted(actions);
  }

  lemma SingleStep(links: map<LinkId, Link>, step: LinkStep)
    ensures Replay(links, [step]) == Replay1(links, step)
  {
    assert [step][1..] == [];
    var r := Replay1(links, step);
    assert r.sent + [] == r.sent && r.lost + [] == r.lost;
  }

  lemma LaunchReplays(f: Fwd, link: LinkId, q: Link)
    ensures var a := TrySend(q); var e := Launch(f, link, q);
            && e.fwd.links == f.links[link := a.link]
            && Transmits(e.actions) == if a.sent.Some? then [Transmit(link, a.sent.value.packet)] else []
  {
    var e := Launch(f, link, q);
    if e.actions != [] {
      assert e.actions[1..] == [];
    }
  }

  lemma EnqueueOffers(f: Fwd, link: LinkId, x: Queued)
    ensures Offers(f, Enqueue(f, link, x))
  {
    if link in f.down {
      QuietOffers(f, f, Enqueue(f, link, x).actions);
    } else if Admit(LinkOf(f, link), x).Full? {
      NothingTransmitted(Enqueue(f, link, x).actions);
      FullIsJustified(f, link, x);
    } else {
      SingleStep(f.links, LinkStep(link, Offer(x)));
      LaunchReplays(f, link, Admit(LinkOf(f, link), x).link);
    }
  }

  lemma FullIsJustified(f: Fwd, link: LinkId, x: Queued)
    requires link !in f.down && Admit(LinkOf(f, link), x).Full?
    ensures RefusesFull(f.links, Enqueue(f, link, x))
  {
    AdmitsExactly(LinkOf(f, link), x);
    assert IsFull(LinkIn(f.links, link), x.packet);
    var e := Enqueue(f, link, x);
    assert e.trace[..0] == [] && Replay(f.links, []).links == f.links;
    forall a | a in e.actions && IsRefusal(a) ensures JustifiedIn(f.links, e.trace, a) {
      assert Justified(Replay(f.links, e.trace[..0]).links, a);
    }
  }

  lemma PermitReplays(f: Fwd, link: LinkId, op: LinkOp)
    requires !op.Offer?
    ensures Replays(f.links, Permit(f, link, op)) && RefusesFull(f.links, Permit(f, link, op))
    ensures Permit(f, link, op).trace == if link in f.down then [] else [LinkStep(link, op)]
  {
    if link !in f.down {
      SingleStep(f.links, LinkStep(link, op));
      LaunchReplays(f, link, Prepared(LinkOf(f, link), op));
    }
  }

  lemma {:induction false} FanOutOffers(
    f: Fwd, incoming: Option<LinkId>, p: Packet, ds: seq<NodeId>, verdict: NodeId -> Verdict, ttl: byte, links: seq<LinkId>)
    ensures Offers(f, FanOut(f, incoming, p, ds, verdict, ttl, links))
    decreases |links|
  {
    if links == [] {
      QuietOffers(f, f, []);
    } else {
      var x := Queued(incoming, Subset(p, Select(ds, verdict, Via(links[0])), ttl));
      var branch := Enqueue(f, links[0], x);
      EnqueueOffers(f, links[0], x);
      FanOutOffers(branch.fwd, incoming, p, ds, verdict, ttl, links[1..]);
      ThenOffers(f, branch, FanOut(branch.fwd, incoming, p, ds, verdict, ttl, links[1..]));
    }
  }

  lemma SplitOffers(f: Fwd, incoming: Option<LinkId>, p: Packet, m: Result<seq<NodeId>, MulticastError>)
    requires p.header.ttl > 0
    ensures Offers(f, SplitMulticast(f, incoming, p, m))
  {
    if m.Err? {
      QuietOffers(f, f, SplitMulticast(f, incoming, p, m).actions);
    } else {
      var ds, verdict, ttl := m.value, DecideAt(f, incoming), p.header.ttl - 1;
      QuietOffers(f, f, Staying(f.me, p, ds, verdict));
      FanOutOffers(f, incoming, p, ds, verdict, ttl, LinksFor(ds, verdict));
      ThenOffers(f, Act(f, Staying(f.me, p, ds, verdict)), FanOut(f, incoming, p, ds, verdict, ttl, LinksFor(ds, verdict)));
    }
  }

  lemma UnicastOffers(f: Fwd, incoming: Option<LinkId>, p: Packet)
    requires p.header.ttl > 0
    ensures Offers(f, ForwardUnicast(f, incoming, p))
  {
    match Decide(f.me, f.routes, f.down, incoming, p.header.destination)
    case Via(link) => EnqueueOffers(f, link, Queued(incoming, p.(header := p.header.(ttl := p.header.ttl - 1))));
    case _ => QuietOffers(f, f, ForwardUnicast(f, incoming, p).actions);
  }

  lemma ProcessOffers(f: Fwd, incoming: Option<LinkId>, p: Packet)
    ensures Offers(f, ProcessPacket(f, incoming, p))
  {
    if p.header.ttl > 0 && p.header.packetType.Multicast? {
      SplitOffers(f, incoming, p, MulticastPayload(p.destinations, p.payload));
    } else if p.header.ttl > 0 && p.header.packetType.Unicast? {
      UnicastOffers(f, incoming, p);
    } else {
      QuietOffers(f, f, ProcessPacket(f, incoming, p).actions);
    }
  }

  lemma ResplitOffers(f: Fwd, x: Queued, m: Result<seq<NodeId>, MulticastError>)
    ensures Offers(f, ResplitMulticast(f, x, m).effect)
  {
    if m.Err? {
      QuietOffers(f, f, ResplitMulticast(f, x, m).effect.actions);
    } else {
      var p, ds, verdict := x.packet, m.value, DecideAt(f, x.incoming);
      QuietOffers(f, f, LocalDelivery(f.me, p, ds, verdict));
      FanOutOffers(f, x.incoming, p, ds, verdict, p.header.ttl, LinksFor(ds, verdict));
      ThenOffers(f, Act(f, LocalDelivery(f.me, p, ds, verdict)), FanOut(f, x.incoming, p, ds, verdict, p.header.ttl, LinksFor(ds, verdict)));
    }
  }

  lemma RerouteOffers(f: Fwd, x: Queued)
    ensures Offers(f, Reroute(f, x).effect)
  {
    match x.packet.header.packetType
    case Unicast =>
      match Decide(f.me, f.routes, f.down, x.incoming, x.packet.header.destination) {
        case Via(link) => EnqueueOffers(f, link, x);
        case _ => QuietOffers(f, f, RerouteUnicast(f, x).effect.actions);
      }
    case Multicast => ResplitOffers(f, x, MulticastPayload(x.packet.destinations, x.packet.payload));
    case other => QuietOffers(f, f, Reroute(f, x).effect.actions);
  }

  lemma {:induction false} RerouteAllOffers(f: Fwd, xs: seq<Queued>)
    ensures Offers(f, RerouteAll(f, xs).effect)
    decreases |xs|
  {
    if xs == [] {
      QuietOffers(f, f, []);
    } else {
      var first := Reroute(f, xs[0]).effect;
      RerouteOffers(f, xs[0]);
      RerouteAllOffers(first.fwd, xs[1..]);
      ThenOffers(f, first, RerouteAll(first.fwd, xs[1..]).effect);
    }
  }

  lemma {:induction false} DropAllQuiet(xs: seq<Queued>, reason: DropReason)
    requires !reason.QueueFull?
    ensures forall a :: a in DropAll(xs, reason) ==> !a.Transmit? && !IsRefusal(a)
  {
    if xs != [] {
      DropAllQuiet(xs[1..], reason);
    }
  }

  lemma DropAllOffers(f: Fwd, before: Effect, xs: seq<Queued>, reason: DropReason)
    requires Offers(f, before) && !reason.QueueFull?
    ensures Offers(f, Then(before, Act(before.fwd, DropAll(xs, reason))))
  {
    DropAllQuiet(xs, reason);
    QuietOffers(before.fwd, before.fwd, DropAll(xs, reason));
    ThenOffers(f, before, Act(before.fwd, DropAll(xs, reason)));
  }

  lemma {:induction false} RerouteOrDropOffers(f: Fwd, xs: seq<Queued>)
    ensures Offers(f, RerouteOrDrop(f, xs))
    decreases |xs|
  {
    if xs == [] {
      QuietOffers(f, f, []);
    } else {
      var first := Reroute(f, xs[0]);
      var here := Then(first.effect, Act(first.effect.fwd, DropAll(first.unresolved, LinkIsDown)));
      RerouteOffers(f, xs[0]);
      DropAllOffers(f, first.effect, first.unresolved, LinkIsDown);
      RerouteOrDropOffers(here.fwd, xs[1..]);
      ThenOffers(f, here, RerouteOrDrop(here.fwd, xs[1..]));
    }
  }

  lemma DisbandOffers(f: Fwd, now: Time, q: seq<seq<Queued>>)
    requires |q| == 4
    ensures Offers(f, Disband(f, now, q))
  {
    var parked := Park(f, now, q[0]);
    var early := Then(parked, Act(parked.fwd, DropAll(q[1], LinkIsDown)));
    QuietOffers(f, parked.fwd, parked.actions);
    DropAllOffers(f, parked, q[1], LinkIsDown);
    RerouteOrDropOffers(early.fwd, q[2]);
    ThenOffers(f, early, RerouteOrDrop(early.fwd, q[2]));
    DropAllOffers(f, Then(early, RerouteOrDrop(early.fwd, q[2])), q[3], LinkIsDown);
  }

  lemma LinkDownOffers(f: Fwd, now: Time, link: LinkId)
    ensures var e := HandleLinkDown(f, now, link); Replays(f.links - {link}, e) && OnlyOffers(e.trace) && RefusesFull(f.links - {link}, e)
  {
    var closed := f.(down := f.down + {link}, links := f.links - {link});
    if link in f.links {
      DisbandOffers(closed, now, f.links[link].queues);
    } else {
      QuietOffers(closed, closed, []);
    }
  }

  lemma RetryBatchOffers(f: Fwd, now: Time, g: Id, batch: Batch)
    ensures Offers(f, RetryBatch(f, now, g, batch))
  {
    if batch.expiresAt <= now {
      DropAllQuiet(batch.packets, RouteWaitExpired);
      QuietOffers(f, f, DropAll(batch.packets, RouteWaitExpired));
    } else {
      RerouteAllOffers(f, batch.packets);
    }
  }

  lemma {:induction false} RetryBatchesOffers(f: Fwd, now: Time, batches: map<Id, Batch>, order: seq<Id>)
    requires forall g :: g in order ==> g in batches
    ensures Offers(f, RetryBatches(f, now, batches, order))
    decreases |order|
  {
    if order == [] {
      QuietOffers(f, f, []);
    } else {
      var here := RetryBatch(f, now, order[0], batches[order[0]]);
      RetryBatchOffers(f, now, order[0], batches[order[0]]);
      RetryBatchesOffers(here.fwd, now, batches, order[1..]);
      ThenOffers(f, here, RetryBatches(here.fwd, now, batches, order[1..]));
    }
  }

  lemma PendingTimerOffers(f: Fwd, now: Time, g: Id)
    ensures Offers(f, HandlePendingTimer(f, now, g))
  {
    var e := HandlePendingTimer(f, now, g);
    if g in f.pending {
      DropAllQuiet(f.pending[g].packets, RouteWaitExpired);
    }
    QuietOffers(f, e.fwd, e.actions);
  }

  lemma InputOffers(f: Fwd, now: Time, event: ForwardEvent)
    requires !event.LinkCredit? && !event.LinkWritable? && !event.LinkDown?
    ensures Offers(f, Handle(f, now, event))
  {
    match event
    case Outbound(p) => ProcessOffers(f, None, p);
    case Inbound(link, p) => ProcessOffers(f, Some(link), p);
    case OutboundMulticast(ds, p) =>
      var m := MulticastPayload(ds, p.payload);
      if m.Ok? {
        ProcessOffers(f, None, Addressed(p).(destinations := m.value));
      } else {
        QuietOffers(f, f, Handle(f, now, event).actions);
      }
    case RoutesUpdated(routes) =>
      var updated := f.(routes := routes, down := StillUsed(f.down, routes), pending := map[]);
      RetryBatchesOffers(updated, now, f.pending, Ascending(f.pending.Keys));
    case PendingTimer(g) => PendingTimerOffers(f, now, g);
  }

  /** The links an event starts from: all but one that is lost. */
  function Surviving(f: Fwd, event: ForwardEvent): map<LinkId, Link> {
    if event.LinkDown? then f.links - {event.link} else f.links
  }

  /** What the trace of an event may hold: the grant that it is, or else offers only. */
  ghost predicate Admissible(f: Fwd, event: ForwardEvent, trace: seq<LinkStep>) {
    match event
    case LinkCredit(link, bytes) => trace == if link in f.down then [] else [LinkStep(link, AddCredit(bytes))]
    case LinkWritable(link) => trace == if link in f.down then [] else [LinkStep(link, AllowWrite)]
    case _ => OnlyOffers(trace)
  }

  /** Every event acts on the surviving links as its trace does: the packets sent and overwritten are those of the trace. */
  lemma HandleReplays(f: Fwd, now: Time, event: ForwardEvent)
    ensures var e := Handle(f, now, event); Replays(Surviving(f, event), e) && Admissible(f, event, e.trace) && RefusesFull(Surviving(f, event), e)
  {
    match event
    case LinkCredit(link, bytes) => PermitReplays(f, link, AddCredit(bytes));
    case LinkWritable(link) => PermitReplays(f, link, AllowWrite);
    case LinkDown(link) => LinkDownOffers(f, now, link);
    case _ => InputOffers(f, now, event);
  }

  // ------------------------------------------------------------ what is lost

  /** Step `j` offers a packet to a link on which its rival `p` is queued at that moment. */
  ghost predicate Overwrites(links: map<LinkId, Link>, trace: seq<LinkStep>, j: nat, p: Packet) {
    && j < |trace| && trace[j].op.Offer? && Rivals(p, trace[j].op.x.packet)
    && exists y :: y in LinkIn(Replay(links, trace[..j]).links, trace[j].link).queues[1] && y.packet == p
  }

  lemma OverwritesShift(links: map<LinkId, Link>, trace: seq<LinkStep>, j: nat, p: Packet)
    requires 0 < j <= |trace|
    ensures Overwrites(links, trace, j, p) <==> Overwrites(Replay1(links, trace[0]).links, trace[1..], j - 1, p)
  {
    var before := trace[..j];
    assert before[0] == trace[0] && before[1..] == trace[1..][..j - 1];
  }

  lemma OverwritesNow(links: map<LinkId, Link>, trace: seq<LinkStep>)
    requires trace != []
    ensures forall p :: p in Replay1(links, trace[0]).lost ==> Overwrites(links, trace, 0, p)
    ensures (exists p :: Overwrites(links, trace, 0, p)) ==> Replay1(links, trace[0]).lost != []
  {
    var q := LinkIn(links, trace[0].link);
    assert Replay(links, trace[..0]).links == links;
    if trace[0].op.Offer? {
      AdmitsExactly(q, trace[0].op.x);
    }
  }

  /** Every lost packet was overwritten by a rival. */
  lemma {:induction false} LostIsOverwritten(links: map<LinkId, Link>, trace: seq<LinkStep>, p: Packet) returns (j: nat)
    requires p in Replay(links, trace).lost
    ensures Overwrites(links, trace, j, p)
    decreases |trace|
  {
    var first := Replay1(links, trace[0]);
    OverwritesNow(links, trace);
    if p in first.lost {
      j := 0;
    } else {
      var i := LostIsOverwritten(first.links, trace[1..], p);
      j := i + 1;
      OverwritesShift(links, trace, j, p);
    }
  }

  /** Every offer to a link with a queued rival overwrites one. */
  lemma {:induction false} OverwrittenIsLost(links: map<LinkId, Link>, trace: seq<LinkStep>, j: nat, p: Packet) returns (lost: Packet)
    requires Overwrites(links, trace, j, p)
    ensures Overwrites(links, trace, j, lost) && lost in Replay(links, trace).lost
    decreases |trace|
  {
    var first := Replay1(links, trace[0]);
    OverwritesNow(links, trace);
    if j == 0 {
      lost := first.lost[0];
    } else {
      OverwritesShift(links, trace, j, p);
      lost := OverwrittenIsLost(first.links, trace[1..], j - 1, p);
      OverwritesShift(links, trace, j, lost);
    }
  }

  /**
   * Across every event: packets are lost exactly where an offer finds a rival
   * queued on its link, a P1 packet with the conflatable bit and the same source,
   * flow and key. Nothing else is lost, whatever its destinations.
   */
  lemma LossIsConflation(f: Fwd, now: Time, event: ForwardEvent)
    ensures var e, links := Handle(f, now, event), Surviving(f, event);
            && e.lost == Replay(links, e.trace).lost
            && (forall p :: p in e.lost ==> exists j :: Overwrites(links, e.trace, j, p))
            && (forall j, p :: Overwrites(links, e.trace, j, p) ==> exists lost :: lost in e.lost && Overwrites(links, e.trace, j, lost))
  {
    var e, links := Handle(f, now, event), Surviving(f, event);
    HandleReplays(f, now, event);
    forall p | p in e.lost ensures exists j :: Overwrites(links, e.trace, j, p) {
      var j := LostIsOverwritten(links, e.trace, p);
    }
    forall j, p | Overwrites(links, e.trace, j, p) ensures exists lost :: lost in e.lost && Overwrites(links, e.trace, j, lost) {
      var lost := OverwrittenIsLost(links, e.trace, j, p);
    }
  }

  // ------------------------------------------------------------ one link

  /** The packets sent on link `k`, in order. */
  function OnLink(actions: seq<ForwardAction>, k: LinkId): seq<Packet> {
    if actions == [] then []
    else (if actions[0].Transmit? && actions[0].link == k then [actions[0].packet] else []) + OnLink(actions[1..], k)
  }

  lemma {:induction false} OnLinkAdds(a: seq<ForwardAction>, b: seq<ForwardAction>, k: LinkId)
    ensures OnLink(a + b, k) == OnLink(a, k) + OnLink(b, k)
  {
    FirstOfSum(a, b);
    if a != [] {
      OnLinkAdds(a[1..], b, k);
    }
  }

  lemma {:induction false} OnLinkOfTransmits(actions: seq<ForwardAction>, k: LinkId)
    ensures OnLink(Transmits(actions), k) == OnLink(actions, k)
  {
    if actions != [] {
      OnLinkOfTransmits(actions[1..], k);
      var rest := Transmits(actions[1..]);
      if actions[0].Transmit? {
        assert ([actions[0]] + rest)[1..] == rest;
      } else {
        assert [] + rest == rest;
      }
    }
  }

  /** The operations on link `k`, in order. */
  function OpsOn(trace: seq<LinkStep>, k: LinkId): seq<LinkOp> {
    if trace == [] then [] else (if trace[0].link == k then [trace[0].op] else []) + OpsOn(trace[1..], k)
  }

  lemma {:induction false} OpsOnMembers(trace: seq<LinkStep>, k: LinkId)
    ensures forall op :: op in OpsOn(trace, k) ==> LinkStep(k, op) in trace
  {
    if trace != [] {
      OpsOnMembers(trace[1..], k);
    }
  }

  lemma OpsOnSingle(link: LinkId, op: LinkOp, k: LinkId)
    ensures OpsOn([LinkStep(link, op)], k) == if k == link then [op] else []
  {
    assert [LinkStep(link, op)][1..] == [];
  }

  lemma {:induction false} OpsOnAdds(s: seq<LinkStep>, t: seq<LinkStep>, k: LinkId)
    ensures OpsOn(s + t, k) == OpsOn(s, k) + OpsOn(t, k)
  {
    FirstOfSum(s, t);
    if s != [] {
      OpsOnAdds(s[1..], t, k);
      Associates(if s[0].link == k then [s[0].op] else [], OpsOn(s[1..], k), OpsOn(t, k));
    }
  }

  lemma Replay1On(links: map<LinkId, Link>, step: LinkStep, k: LinkId)
    ensures var r := Replay1(links, step); var q := LinkIn(links, k);
            if step.link == k
            then LinkIn(r.links, k) == Operate(q, step.op).link
                 && OnLink(r.sent, k) == if Operate(q, step.op).sent.Some? then [Operate(q, step.op).sent.value.packet] else []
            else LinkIn(r.links, k) == q && OnLink(r.sent, k) == []
  {
    var r := Replay1(links, step);
    if r.sent != [] {
      assert r.sent[1..] == [];
    }
  }

  lemma {:induction false} ReplayOn(links: map<LinkId, Link>, trace: seq<LinkStep>, k: LinkId)
    ensures var r := Replay(links, trace); var q, ops := LinkIn(links, k), OpsOn(trace, k);
            LinkIn(r.links, k) == AfterOps(q, ops) && OnLink(r.sent, k) == SentBy(q, ops)
    decreases |trace|
  {
    if trace != [] {
      var first := Replay1(links, trace[0]);
      var rest := OpsOn(trace[1..], k);
      Replay1On(links, trace[0], k);
      ReplayOn(first.links, trace[1..], k);
      OnLinkAdds(first.sent, Replay(first.links, trace[1..]).sent, k);
      assert trace[0].link == k ==> ([trace[0].op] + rest)[1..] == rest;
      assert [] + rest == rest;
    }
  }

  /** A lost link starts afresh; what is moved off it acts on the others by offers. */
  lemma LinkDownOn(f: Fwd, now: Time, link: LinkId, k: LinkId)
    ensures var e := HandleLinkDown(f, now, link); var q, ops := if k == link then NewLink else LinkOf(f, k), OpsOn(e.trace, k);
            && LinkOf(e.fwd, k) == AfterOps(q, ops) && OnLink(e.actions, k) == SentBy(q, ops)
            && forall op :: op in ops ==> op.Offer?
  {
    var e := HandleLinkDown(f, now, link);
    LinkDownOffers(f, now, link);
    ReplayOn(f.links - {link}, e.trace, k);
    OnLinkOfTransmits(e.actions, k);
    OpsOnMembers(e.trace, k);
  }

  /** What is lost on one link is lost. */
  lemma {:induction false} LostOnLink(links: map<LinkId, Link>, trace: seq<LinkStep>, k: LinkId, p: Packet)
    requires p in LostBy(LinkIn(links, k), OpsOn(trace, k))
    ensures p in Replay(links, trace).lost
    decreases |trace|
  {
    var first := Replay1(links, trace[0]);
    var q, rest := LinkIn(links, k), OpsOn(trace[1..], k);
    Replay1On(links, trace[0], k);
    if trace[0].link == k {
      assert ([trace[0].op] + rest)[1..] == rest;
      if p !in Overwritten(q, trace[0].op) {
        LostOnLink(first.links, trace[1..], k, p);
      }
    } else {
      assert [] + rest == rest;
      LostOnLink(first.links, trace[1..], k, p);
    }
  }

  /** The operations of an event on link `k`. */
  function EventOps(f: Fwd, now: Time, event: ForwardEvent, k: LinkId): seq<LinkOp> {
    OpsOn(Handle(f, now, event).trace, k)
  }

  /** An event changes a link that it does not remove, and sends on it, as the operations on that link do. */
  lemma HandleOn(f: Fwd, now: Time, event: ForwardEvent, k: LinkId)
    ensures var e := Handle(f, now, event); var q, ops := LinkIn(Surviving(f, event), k), EventOps(f, now, event, k);
            LinkOf(e.fwd, k) == AfterOps(q, ops) && OnLink(e.actions, k) == SentBy(q, ops)
    ensures event.LinkCredit? || event.LinkWritable? || forall op :: op in EventOps(f, now, event, k) ==> op.Offer?
  {
    var e := Handle(f, now, event);
    HandleReplays(f, now, event);
    ReplayOn(Surviving(f, event), e.trace, k);
    OnLinkOfTransmits(e.actions, k);
    OpsOnMembers(e.trace, k);
  }
}
