/** The forwarder as a component that changes its queues, batches and routing state in place. */
module ForwardComponent {
  import opened MeshTypes
  import opened ControlData
  import opened Packets
  import opened Scheduler
  import opened Forwarding
  import opened Conservation
  import opened ForwardInvariant
  import opened ForwardLoops

  /** What a method did: the model's next state and actions. The model's ledger of conflated packets has no counterpart here. */
  ghost predicate Did(f: Fwd, actions: seq<ForwardAction>, e: Effect) {
    f == e.fwd && actions == e.actions
  }

  class Forwarder {
    const me: NodeId
    var routes: map<NodeId, Route>
    var links: map<LinkId, Link>
    var down: set<LinkId>
    var pending: map<Id, Batch>
    var nextGeneration: Generation

    function View(): Fwd
      reads this
    {
      Fwd(me, routes, links, down, pending, nextGeneration)
    }

    constructor (me: NodeId, routes: map<NodeId, Route>)
      ensures View() == NewForwarder(me, routes)
    {
      this.me, this.routes := me, routes;
      links, down, pending, nextGeneration := map[], {}, map[], 0;
    }

    /** Stores the link's new state and starts a write if one is possible. */
    method LaunchLink(link: LinkId, q: Link) returns (actions: seq<ForwardAction>)
      modifies this
      ensures Did(View(), actions, Launch(old(View()), link, q))
    {
      var a := TrySendOne(q);
      links := links[link := a.link];
      actions := if a.sent.Some? then [Transmit(link, a.sent.value.packet)] else [];
    }

    method EnqueueOn(link: LinkId, x: Queued) returns (actions: seq<ForwardAction>)
      modifies this
      ensures Did(View(), actions, Forwarding.Enqueue(old(View()), link, x))
    {
      if link in down {
        return [Drop(LinkIsDown, x.packet)];
      }
      match Admit(if link in links then links[link] else NewLink, x)
      case Stored(q) => actions := LaunchLink(link, q);
      case Replaced(q, _) => actions := LaunchLink(link, q);
      case Full =>
        var priority := x.packet.header.priority;
        actions := [if priority.P0? then Backpressure(link, x.packet) else Drop(QueueFull(priority), x.packet)];
    }

    /** Enqueues one branch per link, in link order. */
    method SendBranches(incoming: Option<LinkId>, p: Packet, byLink: map<LinkId, seq<NodeId>>, ttl: byte,
                        ghost ds: seq<NodeId>, ghost verdict: NodeId -> Verdict) returns (actions: seq<ForwardAction>)
      requires Grouped(byLink, ds, verdict)
      modifies this
      ensures Did(View(), actions, FanOut(old(View()), incoming, p, ds, verdict, ttl, Ascending(byLink.Keys)))
    {
      var order, i := Ascending(byLink.Keys), 0;
      ghost var whole := FanOut(View(), incoming, p, ds, verdict, ttl, order);
      actions := [];
      while i < |order|
        invariant 0 <= i <= |order|
        invariant whole.fwd == FanOut(View(), incoming, p, ds, verdict, ttl, order[i..]).fwd
        invariant whole.actions == actions + FanOut(View(), incoming, p, ds, verdict, ttl, order[i..]).actions
      {
        ghost var before := View();
        assert order[i] in byLink && order[i..][0] == order[i] && order[i..][1..] == order[i + 1..];
        var more := EnqueueOn(order[i], Queued(incoming, Subset(p, byLink[order[i]], ttl)));
        FanOutHead(before, incoming, p, ds, verdict, ttl, order[i..]);
        Associates(actions, more, FanOut(View(), incoming, p, ds, verdict, ttl, order[i + 1..]).actions);
        actions := actions + more;
        i := i + 1;
      }
    }

    /** Delivers the local copy and drops the parts that cannot be sent. */
    method StayHere(p: Packet, r: Sorted, ghost ds: seq<NodeId>, ghost verdict: NodeId -> Verdict) returns (actions: seq<ForwardAction>)
      requires SortedOut(r, ds, verdict)
      ensures actions == Staying(me, p, ds, verdict)
    {
      actions := [];
      if r.local {
        actions := [DeliverLocal(LocalCopy(p, me))];
      }
      if r.unroutable != [] {
        actions := actions + [Drop(NoRoute, Subset(p, r.unroutable, p.header.ttl))];
      }
      if r.looping != [] {
        actions := actions + [Drop(LoopDetected, Subset(p, r.looping, p.header.ttl))];
      }
    }

    method ForwardMulticast(incoming: Option<LinkId>, p: Packet) returns (actions: seq<ForwardAction>)
      requires p.header.ttl > 0
      modifies this
      ensures Did(View(), actions, Forwarding.ForwardMulticast(old(View()), incoming, p))
    {
      var m := MulticastPayload(p.destinations, p.payload);
      if m.Err? {
        return [Drop(InvalidMulticast(m.error), p)];
      }
      var verdict := DecideAt(View(), incoming);
      var r := SortOut(m.value, verdict);
      actions := StayHere(p, r, m.value, verdict);
      var branches := SendBranches(incoming, p, r.byLink, p.header.ttl - 1, m.value, verdict);
      actions := actions + branches;
    }

    method ForwardUnicast(incoming: Option<LinkId>, p: Packet) returns (actions: seq<ForwardAction>)
      requires p.header.ttl > 0
      modifies this
      ensures Did(View(), actions, Forwarding.ForwardUnicast(old(View()), incoming, p))
    {
      var d := p.header.destination;
      if d == me {
        return [DeliverLocal(p)];
      }
      if d !in routes || routes[d].nextHop in down {
        return [Drop(NoRoute, p)];
      }
      if incoming == Some(routes[d].nextHop) {
        return [Drop(LoopDetected, p)];
      }
      actions := EnqueueOn(routes[d].nextHop, Queued(incoming, p.(header := p.header.(ttl := p.header.ttl - 1))));
    }

    method ProcessPacket(incoming: Option<LinkId>, p: Packet) returns (actions: seq<ForwardAction>)
      modifies this
      ensures Did(View(), actions, Forwarding.ProcessPacket(old(View()), incoming, p))
    {
      if p.header.ttl == 0 {
        return [Drop(TtlExceeded, p)];
      }
      match p.header.packetType
      case Unicast => actions := ForwardUnicast(incoming, p);
      case Multicast => actions := ForwardMulticast(incoming, p);
      case other => actions := [Drop(UnsupportedPacketType(other), p)];
    }

    // ---------------------------------------------------------- rerouting

    method RerouteUnicast(x: Queued) returns (actions: seq<ForwardAction>, unresolved: seq<Queued>)
      modifies this
      ensures Did(View(), actions, Forwarding.RerouteUnicast(old(View()), x).effect)
      ensures unresolved == Forwarding.RerouteUnicast(old(View()), x).unresolved
    {
      var d := x.packet.header.destination;
      if d == me {
        return [DeliverLocal(x.packet)], [];
      }
      if d !in routes || routes[d].nextHop in down || x.incoming == Some(routes[d].nextHop) {
        return [], [x];
      }
      actions := EnqueueOn(routes[d].nextHop, x);
      unresolved := [];
    }

    method RerouteMulticast(x: Queued) returns (actions: seq<ForwardAction>, unresolved: seq<Queued>)
      modifies this
      ensures Did(View(), actions, Forwarding.RerouteMulticast(old(View()), x).effect)
      ensures unresolved == Forwarding.RerouteMulticast(old(View()), x).unresolved
    {
      var p := x.packet;
      var m := MulticastPayload(p.destinations, p.payload);
      if m.Err? {
        return [Drop(InvalidMulticast(m.error), p)], [];
      }
      var verdict := DecideAt(View(), x.incoming);
      var r := SortOut(m.value, verdict);
      actions := if r.local then [DeliverLocal(LocalCopy(p, me))] else [];
      assert actions == LocalDelivery(me, p, m.value, verdict);
      var branches := SendBranches(x.incoming, p, r.byLink, p.header.ttl, m.value, verdict);
      actions := actions + branches;
      unresolved := if r.stuck == [] then [] else [Queued(x.incoming, Subset(p, r.stuck, p.header.ttl))];
    }

    method RerouteOne(x: Queued) returns (actions: seq<ForwardAction>, unresolved: seq<Queued>)
      modifies this
      ensures Did(View(), actions, Reroute(old(View()), x).effect) && unresolved == Reroute(old(View()), x).unresolved
    {
      match x.packet.header.packetType
      case Unicast => actions, unresolved := RerouteUnicast(x);
      case Multicast => actions, unresolved := RerouteMulticast(x);
      case other => actions, unresolved := [Drop(UnsupportedPacketType(other), x.packet)], [];
    }

    /** Reroutes a whole queue from front to back, collecting what cannot be routed. */
    method RerouteQueue(xs: seq<Queued>) returns (actions: seq<ForwardAction>, unresolved: seq<Queued>)
      modifies this
      ensures Did(View(), actions, RerouteAll(old(View()), xs).effect) && unresolved == RerouteAll(old(View()), xs).unresolved
    {
      ghost var whole := RerouteAll(View(), xs);
      actions, unresolved := [], [];
      var i := 0;
      while i < |xs|
        invariant 0 <= i <= |xs|
        invariant var rest := RerouteAll(View(), xs[i..]);
                  && whole.effect.fwd == rest.effect.fwd && whole.effect.actions == actions + rest.effect.actions
                  && whole.unresolved == unresolved + rest.unresolved
      {
        ghost var before := View();
        assert xs[i..][0] == xs[i] && xs[i..][1..] == xs[i + 1..];
        var more, stuck := RerouteOne(xs[i]);
        RerouteAllHead(before, xs[i..]);
        Associates(actions, more, RerouteAll(View(), xs[i + 1..]).effect.actions);
        Associates(unresolved, stuck, RerouteAll(View(), xs[i + 1..]).unresolved);
        actions, unresolved := actions + more, unresolved + stuck;
        i := i + 1;
      }
    }

    /** Reroutes a whole queue, dropping right away what cannot be routed. */
    method RerouteOrDropQueue(xs: seq<Queued>) returns (actions: seq<ForwardAction>)
      modifies this
      ensures Did(View(), actions, RerouteOrDrop(old(View()), xs))
    {
      ghost var whole := RerouteOrDrop(View(), xs);
      actions := [];
      var i := 0;
      while i < |xs|
        invariant 0 <= i <= |xs|
        invariant var rest := RerouteOrDrop(View(), xs[i..]);
                  whole.fwd == rest.fwd && whole.actions == actions + rest.actions
      {
        ghost var before := View();
        assert xs[i..][0] == xs[i] && xs[i..][1..] == xs[i + 1..];
        var more, stuck := RerouteOne(xs[i]);
        RerouteOrDropHead(before, xs[i..]);
        more := more + DropAll(stuck, LinkIsDown);
        Associates(actions, more, RerouteOrDrop(View(), xs[i + 1..]).actions);
        actions := actions + more;
        i := i + 1;
      }
    }

    // ---------------------------------------------------------- link loss and waiting batches

    /** The next generation that no waiting batch uses. */
    method NextPendingGeneration() returns (g: Generation)
      requires |pending| < GENERATIONS
      modifies this
      ensures g == Unused(old(pending), old(nextGeneration), 0) && g !in pending
      ensures View() == old(View()).(nextGeneration := Following(g))
    {
      UnusedIsFree(pending, nextGeneration, 0);
      g := nextGeneration;
      nextGeneration := Following(nextGeneration);
      ghost var tries := 0;
      while g in pending
        invariant tries < GENERATIONS && nextGeneration == Following(g)
        invariant Unused(pending, g, tries) == Unused(old(pending), old(nextGeneration), 0)
        invariant View() == old(View()).(nextGeneration := Following(g))
        decreases GENERATIONS - tries
      {
        g := nextGeneration;
        nextGeneration := Following(nextGeneration);
        tries := tries + 1;
      }
    }

    method ParkBatch(now: Time, xs: seq<Queued>) returns (actions: seq<ForwardAction>)
      requires |pending| < GENERATIONS
      modifies this
      ensures Did(View(), actions, Park(old(View()), now, xs))
    {
      if xs == [] {
        return [];
      }
      var g := NextPendingGeneration();
      var at := After(now, P0_ROUTE_WAIT_MS);
      pending := pending[g := Batch(at, xs)];
      return [ArmTimer(g, at)];
    }

    method HandleLinkDown(now: Time, link: LinkId) returns (actions: seq<ForwardAction>)
      requires |pending| < GENERATIONS
      modifies this
      ensures Did(View(), actions, Forwarding.HandleLinkDown(old(View()), now, link))
    {
      down := down + {link};
      if link !in links {
        assert links - {link} == links;
        return [];
      }
      var q := links[link].queues;
      links := links - {link};
      actions := ParkBatch(now, q[0]);
      actions := actions + DropAll(q[1], LinkIsDown);
      var moved := RerouteOrDropQueue(q[2]);
      actions := actions + moved;
      actions := actions + DropAll(q[3], LinkIsDown);
    }

    method RetryOne(now: Time, g: Id, batch: Batch) returns (actions: seq<ForwardAction>)
      modifies this
      ensures Did(View(), actions, RetryBatch(old(View()), now, g, batch))
    {
      if batch.expiresAt <= now {
        return DropAll(batch.packets, RouteWaitExpired);
      }
      var remaining;
      actions, remaining := RerouteQueue(batch.packets);
      if remaining != [] {
        pending := pending[g := Batch(batch.expiresAt, remaining)];
      }
    }

    /** Retries all waiting batches in order, against the current routes. */
    method RetryPending(now: Time) returns (actions: seq<ForwardAction>)
      modifies this
      ensures Did(View(), actions, RetryBatches(old(View()).(pending := map[]), now, old(pending), Ascending(old(pending).Keys)))
    {
      var batches, order, i := pending, Ascending(pending.Keys), 0;
      pending := map[];
      ghost var whole := RetryBatches(View(), now, batches, order);
      actions := [];
      while i < |order|
        invariant 0 <= i <= |order|
        invariant var rest := RetryBatches(View(), now, batches, order[i..]);
                  whole.fwd == rest.fwd && whole.actions == actions + rest.actions
      {
        ghost var before := View();
        assert order[i] in batches && order[i..][0] == order[i] && order[i..][1..] == order[i + 1..];
        var more := RetryOne(now, order[i], batches[order[i]]);
        RetryBatchesHead(before, now, batches, order[i..]);
        Associates(actions, more, RetryBatches(View(), now, batches, order[i + 1..]).actions);
        actions := actions + more;
        i := i + 1;
      }
    }

    method HandleRoutesUpdated(now: Time, table: map<NodeId, Route>) returns (actions: seq<ForwardAction>)
      modifies this
      ensures Did(View(), actions, Forwarding.HandleRoutesUpdated(old(View()), now, table))
    {
      routes := table;
      down := StillUsed(down, table);
      actions := RetryPending(now);
    }

    method HandleTimer(now: Time, g: Id) returns (actions: seq<ForwardAction>)
      modifies this
      ensures Did(View(), actions, HandlePendingTimer(old(View()), now, g))
    {
      if g !in pending {
        return [];
      }
      var batch := pending[g];
      if now < batch.expiresAt {
        return [ArmTimer(g, batch.expiresAt)];
      }
      pending := pending - {g};
      return DropAll(batch.packets, RouteWaitExpired);
    }

    method HandleMulticast(ds: seq<NodeId>, p: Packet) returns (actions: seq<ForwardAction>)
      modifies this
      ensures Did(View(), actions, ProcessOutboundMulticast(old(View()), ds, p))
    {
      var m := MulticastPayload(ds, p.payload);
      if m.Err? {
        return [Drop(InvalidMulticast(m.error), Addressed(p))];
      }
      actions := ProcessPacket(None, Addressed(p).(destinations := m.value));
    }

    method Permit(link: LinkId, op: LinkOp) returns (actions: seq<ForwardAction>)
      modifies this
      ensures Did(View(), actions, Forwarding.Permit(old(View()), link, op))
    {
      if link in down {
        return [];
      }
      actions := LaunchLink(link, Prepared(if link in links then links[link] else NewLink, op));
    }

    /** Reacts to one event exactly as the model does; given checked packets, keeps the forwarder's invariant. */
    method Handle(now: Time, event: ForwardEvent) returns (actions: seq<ForwardAction>)
      requires |pending| < GENERATIONS
      modifies this
      ensures Did(View(), actions, Forwarding.Handle(old(View()), now, event))
      ensures old(FwdOk(View())) && EventFine(event) ==> FwdOk(View()) && SendsFine(actions)
    {
      if FwdOk(View()) && EventFine(event) {
        HandleOk(View(), now, event);
      }
      match event
      case Outbound(p) => actions := ProcessPacket(None, p);
      case OutboundMulticast(ds, p) => actions := HandleMulticast(ds, p);
      case Inbound(link, p) => actions := ProcessPacket(Some(link), p);
      case RoutesUpdated(table) => actions := HandleRoutesUpdated(now, table);
      case LinkCredit(link, bytes) => actions := Permit(link, AddCredit(bytes));
      case LinkWritable(link) => actions := Permit(link, AllowWrite);
      case LinkDown(link) => actions := HandleLinkDown(now, link);
      case PendingTimer(g) => actions := HandleTimer(now, g);
    }
  }

  lemma RerouteAllHead(f: Fwd, xs: seq<Queued>)
    requires xs != []
    ensures var first := Reroute(f, xs[0]); var rest := RerouteAll(first.effect.fwd, xs[1..]); var all := RerouteAll(f, xs);
            && all.effect.fwd == rest.effect.fwd && all.effect.actions == first.effect.actions + rest.effect.actions
            && all.unresolved == first.unresolved + rest.unresolved
  {
  }

  lemma RerouteOrDropHead(f: Fwd, xs: seq<Queued>)
    requires xs != []
    ensures var first := Reroute(f, xs[0]); var rest := RerouteOrDrop(first.effect.fwd, xs[1..]); var all := RerouteOrDrop(f, xs);
            && all.fwd == rest.fwd && all.actions == (first.effect.actions + DropAll(first.unresolved, LinkIsDown)) + rest.actions
  {
  }

  lemma RetryBatchesHead(f: Fwd, now: Time, batches: map<Id, Batch>, order: seq<Id>)
    requires order != [] && forall g :: g in order ==> g in batches
    ensures var here := RetryBatch(f, now, order[0], batches[order[0]]);
            var rest := RetryBatches(here.fwd, now, batches, order[1..]);
            var all := RetryBatches(f, now, batches, order);
            all.fwd == rest.fwd && all.actions == here.actions + rest.actions
  {
  }

  lemma FanOutHead(f: Fwd, incoming: Option<LinkId>, p: Packet, ds: seq<NodeId>, verdict: NodeId -> Verdict, ttl: byte, links: seq<LinkId>)
    requires links != []
    ensures var branch := Enqueue(f, links[0], Queued(incoming, Subset(p, Select(ds, verdict, Via(links[0])), ttl)));
            var rest := FanOut(branch.fwd, incoming, p, ds, verdict, ttl, links[1..]);
            var all := FanOut(f, incoming, p, ds, verdict, ttl, links);
            all.fwd == rest.fwd && all.actions == branch.actions + rest.actions
  {
  }
}
