/** Waiting P0 packets: moved before their deadline, expired at or after it, never otherwise. */
module ForwardTiming {
  import opened MeshTypes
  import opened Packets
  import opened Scheduler
  import opened Forwarding
  import opened Conservation
  import opened ForwardInvariant

  predicate IsExpiry(a: ForwardAction) {
    a.Drop? && a.reason.RouteWaitExpired?
  }

  ghost predicate NoExpiry(actions: seq<ForwardAction>) {
    forall a :: a in actions ==> !IsExpiry(a)
  }

  lemma {:induction false} FanOutNoExpiry(f: Fwd, incoming: Option<LinkId>, p: Packet, ds: seq<NodeId>, verdict: NodeId -> Verdict, ttl: byte, links: seq<LinkId>)
    ensures NoExpiry(FanOut(f, incoming, p, ds, verdict, ttl, links).actions)
    decreases |links|
  {
    if links != [] {
      var x := Queued(incoming, Subset(p, Select(ds, verdict, Via(links[0])), ttl));
      EnqueueNoExpiry(f, links[0], x);
      FanOutNoExpiry(Enqueue(f, links[0], x).fwd, incoming, p, ds, verdict, ttl, links[1..]);
    }
  }

  lemma EnqueueNoExpiry(f: Fwd, link: LinkId, x: Queued)
    ensures NoExpiry(Enqueue(f, link, x).actions)
  {
  }

  lemma SplitNoExpiry(f: Fwd, incoming: Option<LinkId>, p: Packet, m: Result<seq<NodeId>, MulticastError>)
    requires p.header.ttl > 0
    ensures NoExpiry(SplitMulticast(f, incoming, p, m).actions)
  {
    if m.Ok? {
      var verdict := DecideAt(f, incoming);
      FanOutNoExpiry(f, incoming, p, m.value, verdict, p.header.ttl - 1, LinksFor(m.value, verdict));
    }
  }

  lemma ProcessNoExpiry(f: Fwd, incoming: Option<LinkId>, p: Packet)
    ensures NoExpiry(ProcessPacket(f, incoming, p).actions)
  {
    if p.header.ttl > 0 && p.header.packetType.Multicast? {
      SplitNoExpiry(f, incoming, p, MulticastPayload(p.destinations, p.payload));
    } else if p.header.ttl > 0 && p.header.packetType.Unicast? {
      var verdict := Decide(f.me, f.routes, f.down, incoming, p.header.destination);
      if verdict.Via? {
        EnqueueNoExpiry(f, verdict.link, Queued(incoming, p.(header := p.header.(ttl := p.header.ttl - 1))));
      }
    }
  }

  lemma ResplitNoExpiry(f: Fwd, x: Queued, m: Result<seq<NodeId>, MulticastError>)
    ensures NoExpiry(ResplitMulticast(f, x, m).effect.actions)
  {
    if m.Ok? {
      var verdict := DecideAt(f, x.incoming);
      FanOutNoExpiry(f, x.incoming, x.packet, m.value, verdict, x.packet.header.ttl, LinksFor(m.value, verdict));
    }
  }

  lemma RerouteNoExpiry(f: Fwd, x: Queued)
    ensures NoExpiry(Reroute(f, x).effect.actions)
  {
    match x.packet.header.packetType
    case Unicast =>
      var verdict := Decide(f.me, f.routes, f.down, x.incoming, x.packet.header.destination);
      if verdict.Via? {
        EnqueueNoExpiry(f, verdict.link, x);
      }
    case Multicast => ResplitNoExpiry(f, x, MulticastPayload(x.packet.destinations, x.packet.payload));
    case _ =>
  }

  lemma {:induction false} RerouteAllNoExpiry(f: Fwd, xs: seq<Queued>)
    ensures NoExpiry(RerouteAll(f, xs).effect.actions)
    decreases |xs|
  {
    if xs != [] {
      RerouteNoExpiry(f, xs[0]);
      RerouteAllNoExpiry(Reroute(f, xs[0]).effect.fwd, xs[1..]);
    }
  }

  lemma {:induction false} DropAllMembers(xs: seq<Queued>, reason: DropReason)
    ensures forall a :: a in DropAll(xs, reason) <==> a.Drop? && a.reason == reason && exists x :: x in xs && x.packet == a.packet
  {
    if xs != [] {
      DropAllMembers(xs[1..], reason);
      assert xs == [xs[0]] + xs[1..];
    }
  }

  lemma {:induction false} RerouteOrDropNoExpiry(f: Fwd, xs: seq<Queued>)
    ensures NoExpiry(RerouteOrDrop(f, xs).actions)
    decreases |xs|
  {
    if xs != [] {
      RerouteNoExpiry(f, xs[0]);
      DropAllMembers(Reroute(f, xs[0]).unresolved, LinkIsDown);
      RerouteOrDropNoExpiry(Reroute(f, xs[0]).effect.fwd, xs[1..]);
    }
  }

  lemma LinkDownNoExpiry(f: Fwd, now: Time, link: LinkId)
    ensures NoExpiry(HandleLinkDown(f, now, link).actions)
  {
    if link in f.links {
      var q := f.links[link].queues;
      var parked := Park(f.(down := f.down + {link}, links := f.links - {link}), now, q[0]);
      DropAllMembers(q[1], LinkIsDown);
      DropAllMembers(q[3], LinkIsDown);
      RerouteOrDropNoExpiry(parked.fwd, q[2]);
    }
  }

  /** Some batch holds the packet, and its deadline has come. */
  ghost predicate WasDue(batches: map<Id, Batch>, now: Time, p: Packet) {
    exists g, x :: g in batches && x in batches[g].packets && batches[g].expiresAt <= now && x.packet == p
  }

  /** Before its deadline a batch is rerouted and nothing in it expires; from the deadline on it expires as a whole. */
  lemma RetryBatchTiming(f: Fwd, now: Time, g: Id, batch: Batch)
    ensures var e := RetryBatch(f, now, g, batch);
            if batch.expiresAt <= now
            then e.fwd == f && (forall a :: a in e.actions ==> IsExpiry(a)) && (forall x :: x in batch.packets ==> Drop(RouteWaitExpired, x.packet) in e.actions)
            else NoExpiry(e.actions) && (g in e.fwd.pending && g !in f.pending ==> e.fwd.pending[g].expiresAt == batch.expiresAt)
  {
    if batch.expiresAt <= now {
      DropAllMembers(batch.packets, RouteWaitExpired);
    } else {
      RerouteAllNoExpiry(f, batch.packets);
      RerouteAllFrame(f, batch.packets);
    }
  }

  lemma {:induction false} RetryTiming(f: Fwd, now: Time, batches: map<Id, Batch>, order: seq<Id>)
    requires (forall g :: g in order ==> g in batches && g !in f.pending) && StrictlyAscending(order)
    ensures var e := RetryBatches(f, now, batches, order);
            && (forall a :: a in e.actions && IsExpiry(a) ==> WasDue(batches, now, a.packet))
            && (forall g :: g in e.fwd.pending ==>
                  if g in order then batches[g].expiresAt > now && e.fwd.pending[g].expiresAt == batches[g].expiresAt
                  else g in f.pending && e.fwd.pending[g] == f.pending[g])
            && (forall g, x :: g in order && x in batches[g].packets && batches[g].expiresAt <= now ==>
                  Drop(RouteWaitExpired, x.packet) in e.actions)
    decreases |order|
  {
    if order != [] {
      var g := order[0];
      var here := RetryBatch(f, now, g, batches[g]);
      RetryBatchTiming(f, now, g, batches[g]);
      DropAllMembers(batches[g].packets, RouteWaitExpired);
      RerouteAllFrame(f, batches[g].packets);
      RetryTiming(here.fwd, now, batches, order[1..]);
      forall a | a in here.actions && IsExpiry(a) ensures WasDue(batches, now, a.packet) {
        var x :| x in batches[g].packets && x.packet == a.packet;
      }
    }
  }

  /**
   * Across every event: a packet is dropped for having waited too long only if
   * it was parked and its deadline has come; a batch that goes on waiting keeps
   * its deadline, and after a route update only batches with time left wait on,
   * while every packet of the others has expired, as it does on a due timer.
   */
  lemma DeadlinesAreKept(f: Fwd, now: Time, event: ForwardEvent)
    ensures var e := Handle(f, now, event);
            && (forall a :: a in e.actions && IsExpiry(a) ==> WasDue(f.pending, now, a.packet))
            && (event.RoutesUpdated? ==>
                  forall g :: g in e.fwd.pending ==> g in f.pending && now < f.pending[g].expiresAt == e.fwd.pending[g].expiresAt)
            && (event.PendingTimer? && event.generation in f.pending && f.pending[event.generation].expiresAt <= now ==>
                  event.generation !in e.fwd.pending)
            && (event.PendingTimer? && event.generation in f.pending && now < f.pending[event.generation].expiresAt ==>
                  e.fwd == f && e.actions == [ArmTimer(event.generation, f.pending[event.generation].expiresAt)])
            && (event.PendingTimer? && event.generation !in f.pending ==> e.fwd == f && e.actions == [])
            && (forall g, x :: g in f.pending && x in f.pending[g].packets && f.pending[g].expiresAt <= now
                                && (event.RoutesUpdated? || event == PendingTimer(g)) ==>
                  Drop(RouteWaitExpired, x.packet) in e.actions)
  {
    match event
    case Outbound(p) => ProcessNoExpiry(f, None, p);
    case Inbound(link, p) => ProcessNoExpiry(f, Some(link), p);
    case OutboundMulticast(ds, p) =>
      var m := MulticastPayload(ds, p.payload);
      if m.Ok? {
        ProcessNoExpiry(f, None, Addressed(p).(destinations := m.value));
      }
    case RoutesUpdated(routes) =>
      AscendingFacts(f.pending.Keys);
      RetryTiming(f.(routes := routes, down := StillUsed(f.down, routes), pending := map[]), now, f.pending, Ascending(f.pending.Keys));
    case LinkDown(link) => LinkDownNoExpiry(f, now, link);
    case PendingTimer(g) =>
      if g in f.pending {
        DropAllMembers(f.pending[g].packets, RouteWaitExpired);
      }
    case _ =>
  }

  // ------------------------------------------------------------ events that leave batches alone

  lemma {:induction false} RerouteOrDropFrame(f: Fwd, xs: seq<Queued>)
    ensures SameRouting(f, RerouteOrDrop(f, xs).fwd)
    decreases |xs|
  {
    if xs != [] {
      RerouteFrame(f, xs[0]);
      RerouteOrDropFrame(Reroute(f, xs[0]).effect.fwd, xs[1..]);
    }
  }

  /** Only a route update or its own due timer touches a waiting batch; a lost link parks its P0 queue beside the others. */
  lemma WaitingIsUndisturbed(f: Fwd, now: Time, event: ForwardEvent, g: Id)
    requires |f.pending| < GENERATIONS && g in f.pending && !event.RoutesUpdated?
    requires event == PendingTimer(g) ==> now < f.pending[g].expiresAt
    ensures var e := Handle(f, now, event); g in e.fwd.pending && e.fwd.pending[g] == f.pending[g]
  {
    match event
    case Outbound(p) => ProcessFrame(f, None, p);
    case Inbound(link, p) => ProcessFrame(f, Some(link), p);
    case OutboundMulticast(ds, p) =>
      var m := MulticastPayload(ds, p.payload);
      if m.Ok? {
        ProcessFrame(f, None, Addressed(p).(destinations := m.value));
      }
    case LinkDown(link) =>
      if link in f.links {
        var q := f.links[link].queues;
        var rest := f.(down := f.down + {link}, links := f.links - {link});
        assert Window(f.nextGeneration, 0) == {};
        UnusedIsFree(f.pending, f.nextGeneration, 0);
        RerouteOrDropFrame(Park(rest, now, q[0]).fwd, q[2]);
      }
    case _ =>
  }
}
