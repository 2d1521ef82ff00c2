/**
 * Where every destination of a packet ends up, stated over the routes and the
 * links that are down: delivered here, offered to its next hop or refused there,
 * or dropped or kept waiting for exactly the reason that applies.
 */
module Placement {
  import opened MeshTypes
  import opened ControlData
  import opened Packets
  import opened Scheduler
  import opened Forwarding
  import opened Weights
  import opened Conservation
  import opened ForwardInvariant
  import opened ForwardTiming
  import Delivery

  // ------------------------------------------------------------ outcomes

  /** `c` carries `p` on to `d` and maybe others of its destinations, with `ttl` hops left and nothing else changed. */
  ghost predicate IsCopy(p: Packet, c: Packet, d: NodeId, ttl: byte) {
    && c.payload == p.payload && c.header == p.header.(ttl := ttl, destination := c.header.destination)
    && d in Dests(c) && (forall x :: x in Dests(c) ==> x in Dests(p))
    && (!p.header.packetType.Multicast? ==> c.destinations == p.destinations)
  }

  /** The packet is offered to link `k`, or refused there. */
  ghost predicate Lands(e: Effect, k: LinkId, x: Queued) {
    || LinkStep(k, Offer(x)) in e.trace
    || (if x.packet.header.priority == P0 then Backpressure(k, x.packet) in e.actions
        else Drop(QueueFull(x.packet.header.priority), x.packet) in e.actions)
  }

  ghost predicate MovesTo(e: Effect, k: LinkId, incoming: Option<LinkId>, p: Packet, d: NodeId, ttl: byte) {
    exists c :: IsCopy(p, c, d, ttl) && Lands(e, k, Queued(incoming, c))
  }

  /** The application of this node gets the packet. */
  ghost predicate ArrivesAt(e: Effect, me: NodeId, p: Packet) {
    DeliverLocal(Packet(p.header.(destination := me), if p.header.packetType.Multicast? then [] else p.destinations, p.payload)) in e.actions
  }

  ghost predicate DroppedFor(e: Effect, reason: DropReason, p: Packet, d: NodeId) {
    exists c :: IsCopy(p, c, d, p.header.ttl) && Drop(reason, c) in e.actions
  }

  /** No usable next hop: there is none, it is down, or it is where the packet came from. */
  predicate Stranded(routes: map<NodeId, Route>, down: set<LinkId>, incoming: Option<LinkId>, d: NodeId) {
    d !in routes || routes[d].nextHop in down || incoming == Some(routes[d].nextHop)
  }

  /** A destination that is not stranded: delivered if it is this node, else on its way by the next hop. */
  ghost predicate Fares(me: NodeId, routes: map<NodeId, Route>, down: set<LinkId>, e: Effect, incoming: Option<LinkId>, p: Packet, d: NodeId, ttl: byte) {
    if d == me then ArrivesAt(e, me, p)
    else !Stranded(routes, down, incoming, d) ==> MovesTo(e, routes[d].nextHop, incoming, p, d, ttl)
  }

  lemma LandsThen(a: Effect, b: Effect, k: LinkId, x: Queued)
    requires Lands(a, k, x) || Lands(b, k, x)
    ensures Lands(Then(a, b), k, x)
  {
  }

  lemma MovesThen(a: Effect, b: Effect, k: LinkId, incoming: Option<LinkId>, p: Packet, d: NodeId, ttl: byte)
    requires MovesTo(a, k, incoming, p, d, ttl) || MovesTo(b, k, incoming, p, d, ttl)
    ensures MovesTo(Then(a, b), k, incoming, p, d, ttl)
  {
    var c :| IsCopy(p, c, d, ttl) && (Lands(a, k, Queued(incoming, c)) || Lands(b, k, Queued(incoming, c)));
    LandsThen(a, b, k, Queued(incoming, c));
  }

  lemma FaresThen(me: NodeId, routes: map<NodeId, Route>, down: set<LinkId>, a: Effect, b: Effect, incoming: Option<LinkId>, p: Packet, d: NodeId, ttl: byte)
    requires Fares(me, routes, down, a, incoming, p, d, ttl) || Fares(me, routes, down, b, incoming, p, d, ttl)
    ensures Fares(me, routes, down, Then(a, b), incoming, p, d, ttl)
  {
    if d != me && !Stranded(routes, down, incoming, d) {
      MovesThen(a, b, routes[d].nextHop, incoming, p, d, ttl);
    }
  }

  lemma EnqueueLands(f: Fwd, k: LinkId, x: Queued)
    requires k !in f.down
    ensures Lands(Enqueue(f, k, x), k, x)
  {
  }

  lemma {:induction false} FanOutLands(
    f: Fwd, incoming: Option<LinkId>, p: Packet, ds: seq<NodeId>, verdict: NodeId -> Verdict, ttl: byte, links: seq<LinkId>, k: LinkId)
    requires k in links && forall j :: j in links ==> j !in f.down
    ensures Lands(FanOut(f, incoming, p, ds, verdict, ttl, links), k, Queued(incoming, Subset(p, Select(ds, verdict, Via(k)), ttl)))
    decreases |links|
  {
    var x := Queued(incoming, Subset(p, Select(ds, verdict, Via(links[0])), ttl));
    var branch := Enqueue(f, links[0], x);
    var rest := FanOut(branch.fwd, incoming, p, ds, verdict, ttl, links[1..]);
    if links[0] == k {
      EnqueueLands(f, k, x);
      LandsThen(branch, rest, k, x);
    } else {
      FanOutLands(branch.fwd, incoming, p, ds, verdict, ttl, links[1..], k);
      LandsThen(branch, rest, k, Queued(incoming, Subset(p, Select(ds, verdict, Via(k)), ttl)));
    }
  }

  /** A part of the destinations in a packet of its own is a copy for each of them. */
  lemma SubsetIsCopy(p: Packet, part: seq<NodeId>, d: NodeId, ttl: byte)
    requires p.header.packetType.Multicast? && d in part && forall x :: x in part ==> x in p.destinations
    ensures IsCopy(p, Subset(p, part, ttl), d, ttl)
  {
  }

  lemma LocalArrives(f: Fwd, p: Packet, ds: seq<NodeId>, verdict: NodeId -> Verdict)
    requires p.header.packetType.Multicast? && f.me in ds && verdict(f.me) == Verdict.Local
    ensures ArrivesAt(Act(f, LocalDelivery(f.me, p, ds, verdict)), f.me, p)
  {
    assert f.me in Select(ds, verdict, Verdict.Local);
  }

  lemma LinksAreUp(f: Fwd, incoming: Option<LinkId>, ds: seq<NodeId>)
    ensures forall k :: k in LinksFor(ds, DecideAt(f, incoming)) ==> k !in f.down
  {
  }

  lemma FanOutMoves(f: Fwd, incoming: Option<LinkId>, p: Packet, ds: seq<NodeId>, ttl: byte, d: NodeId)
    requires p.header.packetType.Multicast? && d in ds && forall x :: x in ds ==> x in p.destinations
    requires d != f.me && !Stranded(f.routes, f.down, incoming, d)
    ensures var verdict := DecideAt(f, incoming);
            MovesTo(FanOut(f, incoming, p, ds, verdict, ttl, LinksFor(ds, verdict)), f.routes[d].nextHop, incoming, p, d, ttl)
  {
    var verdict, k := DecideAt(f, incoming), f.routes[d].nextHop;
    assert verdict(d) == Via(k) && k in LinksFor(ds, verdict);
    LinksAreUp(f, incoming, ds);
    FanOutLands(f, incoming, p, ds, verdict, ttl, LinksFor(ds, verdict), k);
    SubsetIsCopy(p, Select(ds, verdict, Via(k)), d, ttl);
  }

  /** Every destination in the list that goes elsewhere and is not stranded is on its way. */
  ghost predicate AllMove(f: Fwd, incoming: Option<LinkId>, p: Packet, ds: seq<NodeId>, ttl: byte, fan: Effect) {
    forall d :: d in ds && d != f.me && !Stranded(f.routes, f.down, incoming, d) ==> MovesTo(fan, f.routes[d].nextHop, incoming, p, d, ttl)
  }

  /** One branch for each next hop. */
  function Branches(f: Fwd, incoming: Option<LinkId>, p: Packet, ds: seq<NodeId>, ttl: byte): Effect {
    FanOut(f, incoming, p, ds, DecideAt(f, incoming), ttl, LinksFor(ds, DecideAt(f, incoming)))
  }

  lemma BranchesMove(f: Fwd, incoming: Option<LinkId>, p: Packet, ds: seq<NodeId>, ttl: byte, fan: Effect)
    requires p.header.packetType.Multicast? && (forall x :: x in ds ==> x in p.destinations) && fan == Branches(f, incoming, p, ds, ttl)
    ensures AllMove(f, incoming, p, ds, ttl, fan)
  {
    forall d | d in ds && d != f.me && !Stranded(f.routes, f.down, incoming, d) ensures MovesTo(fan, f.routes[d].nextHop, incoming, p, d, ttl) {
      FanOutMoves(f, incoming, p, ds, ttl, d);
    }
  }

  /** Delivering here and splitting over the next hops takes care of every destination that is not stranded. */
  lemma SplitFares(f: Fwd, incoming: Option<LinkId>, p: Packet, ds: seq<NodeId>, ttl: byte, d: NodeId, here: Effect, fan: Effect)
    requires d in ds && AllMove(f, incoming, p, ds, ttl, fan) && (d == f.me ==> ArrivesAt(here, f.me, p))
    ensures Fares(f.me, f.routes, f.down, Then(here, fan), incoming, p, d, ttl)
  {
    if d != f.me && !Stranded(f.routes, f.down, incoming, d) {
      MovesThen(here, fan, f.routes[d].nextHop, incoming, p, d, ttl);
    }
  }

  // ------------------------------------------------------------ packets from outside

  /** What becomes of destination `d` of a packet that has come in with hops left. */
  ghost predicate Disposed(f: Fwd, e: Effect, incoming: Option<LinkId>, p: Packet, d: NodeId)
    requires p.header.ttl > 0
  {
    && Fares(f.me, f.routes, f.down, e, incoming, p, d, p.header.ttl - 1)
    && Drops(f, e, incoming, p, d)
  }

  /** A destination without a usable route is dropped as unroutable, one whose route leads back as looping. */
  ghost predicate Drops(f: Fwd, e: Effect, incoming: Option<LinkId>, p: Packet, d: NodeId) {
    && (d != f.me && (d !in f.routes || f.routes[d].nextHop in f.down) ==> DroppedFor(e, NoRoute, p, d))
    && (d != f.me && d in f.routes && f.routes[d].nextHop !in f.down && incoming == Some(f.routes[d].nextHop) ==> DroppedFor(e, LoopDetected, p, d))
  }

  lemma UnicastDisposed(f: Fwd, incoming: Option<LinkId>, p: Packet)
    requires p.header.ttl > 0 && p.header.packetType.Unicast?
    ensures Disposed(f, ForwardUnicast(f, incoming, p), incoming, p, p.header.destination)
  {
    var d := p.header.destination;
    assert IsCopy(p, p, d, p.header.ttl);
    if d != f.me && !Stranded(f.routes, f.down, incoming, d) {
      var c := p.(header := p.header.(ttl := p.header.ttl - 1));
      EnqueueLands(f, f.routes[d].nextHop, Queued(incoming, c));
      assert IsCopy(p, c, d, p.header.ttl - 1);
    }
  }

  /** A part that stays behind is dropped as a whole. */
  lemma PartIsDropped(p: Packet, part: seq<NodeId>, reason: DropReason, d: NodeId, e: Effect)
    requires p.header.packetType.Multicast? && d in part && forall x :: x in part ==> x in p.destinations
    requires forall a :: a in DropPart(p, part, reason) ==> a in e.actions
    ensures DroppedFor(e, reason, p, d)
  {
    SubsetIsCopy(p, part, d, p.header.ttl);
    assert Drop(reason, Subset(p, part, p.header.ttl)) in DropPart(p, part, reason);
  }

  lemma StayingDrops(f: Fwd, incoming: Option<LinkId>, p: Packet, ds: seq<NodeId>, d: NodeId, e: Effect)
    requires p.header.packetType.Multicast? && d in ds && forall x :: x in ds ==> x in p.destinations
    requires forall a :: a in Staying(f.me, p, ds, DecideAt(f, incoming)) ==> a in e.actions
    ensures Drops(f, e, incoming, p, d)
  {
    var verdict := DecideAt(f, incoming);
    if verdict(d).Unroutable? {
      PartIsDropped(p, Select(ds, verdict, Unroutable), NoRoute, d, e);
    } else if verdict(d).Looping? {
      PartIsDropped(p, Select(ds, verdict, Looping), LoopDetected, d, e);
    }
  }

  lemma SplitDrops(f: Fwd, incoming: Option<LinkId>, p: Packet, ds: seq<NodeId>, d: NodeId, stay: Effect, fan: Effect)
    requires p.header.packetType.Multicast? && d in ds && forall x :: x in ds ==> x in p.destinations
    requires stay == Act(f, Staying(f.me, p, ds, DecideAt(f, incoming)))
    ensures Drops(f, Then(stay, fan), incoming, p, d)
  {
    assert forall a :: a in stay.actions ==> a in Then(stay, fan).actions;
    StayingDrops(f, incoming, p, ds, d, Then(stay, fan));
  }

  lemma StayingArrives(f: Fwd, incoming: Option<LinkId>, p: Packet, ds: seq<NodeId>)
    requires p.header.packetType.Multicast? && f.me in ds
    ensures ArrivesAt(Act(f, Staying(f.me, p, ds, DecideAt(f, incoming))), f.me, p)
  {
    LocalArrives(f, p, ds, DecideAt(f, incoming));
  }

  lemma SplitDisposed(f: Fwd, incoming: Option<LinkId>, p: Packet, ds: seq<NodeId>, d: NodeId, fan: Effect)
    requires p.header.ttl > 0 && p.header.packetType.Multicast? && d in ds && forall x :: x in ds ==> x in p.destinations
    requires AllMove(f, incoming, p, ds, p.header.ttl - 1, fan)
    ensures Disposed(f, Then(Act(f, Staying(f.me, p, ds, DecideAt(f, incoming))), fan), incoming, p, d)
  {
    var stay := Act(f, Staying(f.me, p, ds, DecideAt(f, incoming)));
    if d == f.me {
      StayingArrives(f, incoming, p, ds);
    }
    SplitFares(f, incoming, p, ds, p.header.ttl - 1, d, stay, fan);
    SplitDrops(f, incoming, p, ds, d, stay, fan);
  }

  lemma SplitIs(f: Fwd, incoming: Option<LinkId>, p: Packet, ds: seq<NodeId>) returns (fan: Effect)
    requires p.header.ttl > 0
    ensures fan == Branches(f, incoming, p, ds, p.header.ttl - 1)
    ensures SplitMulticast(f, incoming, p, Ok(ds)) == Then(Act(f, Staying(f.me, p, ds, DecideAt(f, incoming))), fan)
  {
    fan := Branches(f, incoming, p, ds, p.header.ttl - 1);
  }

  lemma FanDisposed(f: Fwd, incoming: Option<LinkId>, p: Packet, ds: seq<NodeId>, fan: Effect, e: Effect)
    requires p.header.ttl > 0 && p.header.packetType.Multicast? && forall x :: x in ds ==> x in p.destinations
    requires AllMove(f, incoming, p, ds, p.header.ttl - 1, fan)
    requires e == Then(Act(f, Staying(f.me, p, ds, DecideAt(f, incoming))), fan)
    ensures forall d :: d in ds ==> Disposed(f, e, incoming, p, d)
  {
    forall d | d in ds ensures Disposed(f, e, incoming, p, d) {
      SplitDisposed(f, incoming, p, ds, d, fan);
    }
  }

  lemma MulticastDisposed(f: Fwd, incoming: Option<LinkId>, p: Packet, ds: seq<NodeId>, e: Effect)
    requires p.header.ttl > 0 && p.header.packetType.Multicast? && forall x :: x in ds ==> x in p.destinations
    requires e == SplitMulticast(f, incoming, p, Ok(ds))
    ensures forall d :: d in ds ==> Disposed(f, e, incoming, p, d)
  {
    var fan := SplitIs(f, incoming, p, ds);
    BranchesMove(f, incoming, p, ds, p.header.ttl - 1, fan);
    FanDisposed(f, incoming, p, ds, fan, e);
  }

  /** Out of hops and of an unknown type are dropped whole; otherwise every destination is disposed of. */
  ghost predicate AllDisposed(f: Fwd, e: Effect, incoming: Option<LinkId>, p: Packet) {
    if p.header.ttl == 0 then e.fwd == f && e.actions == [Drop(TtlExceeded, p)]
    else
      match p.header.packetType
      case Unicast => Disposed(f, e, incoming, p, p.header.destination)
      case Multicast =>
        var m := MulticastPayload(p.destinations, p.payload);
        if m.Err? then e.fwd == f && e.actions == [Drop(InvalidMulticast(m.error), p)]
        else forall d :: d in p.destinations ==> Disposed(f, e, incoming, p, d)
      case other => e.fwd == f && e.actions == [Drop(UnsupportedPacketType(other), p)]
  }

  lemma CanonicalMembers(ids: seq<NodeId>, body: seq<byte>)
    requires MulticastPayload(ids, body).Ok?
    ensures forall d :: d in MulticastPayload(ids, body).value <==> d in ids
  {
    CanonicalizeSpec(ids);
    var r := Canonicalize(ids).value;
    assert forall d :: d in r <==> d in multiset(r);
    assert forall d :: d in ids <==> d in multiset(ids);
  }

  lemma ProcessDisposes(f: Fwd, incoming: Option<LinkId>, p: Packet)
    ensures AllDisposed(f, ProcessPacket(f, incoming, p), incoming, p)
  {
    if p.header.ttl > 0 && p.header.packetType.Unicast? {
      UnicastDisposed(f, incoming, p);
    } else if p.header.ttl > 0 && p.header.packetType.Multicast? {
      var m := MulticastPayload(p.destinations, p.payload);
      if m.Ok? {
        CanonicalMembers(p.destinations, p.payload);
        MulticastDisposed(f, incoming, p, m.value, ProcessPacket(f, incoming, p));
      }
    }
  }

  /** Every packet that comes in, from the application or over a link, is disposed of as the routes say. */
  lemma PacketsAreDisposed(f: Fwd, now: Time, event: ForwardEvent)
    ensures var e := Handle(f, now, event);
            match event
            case Outbound(p) => AllDisposed(f, e, None, p)
            case Inbound(link, p) => AllDisposed(f, e, Some(link), p)
            case OutboundMulticast(ds, p) =>
              var q := Packet(p.header.(packetType := Multicast, destination := 0), ds, p.payload);
              var m := MulticastPayload(ds, p.payload);
              if m.Err? then e.fwd == f && e.actions == [Drop(InvalidMulticast(m.error), q.(destinations := p.destinations))]
              else m.value != [] && AllDisposed(f, e, None, q.(destinations := m.value)) && forall d :: d in m.value <==> d in ds
            case _ => true
  {
    match event
    case Outbound(p) => ProcessDisposes(f, None, p);
    case Inbound(link, p) => ProcessDisposes(f, Some(link), p);
    case OutboundMulticast(ds, p) =>
      var m := MulticastPayload(ds, p.payload);
      if m.Ok? {
        CanonicalMembers(ds, p.payload);
        CanonicalizeSpec(ds);
        assert |multiset(m.value)| == |multiset(ds)|;
        ProcessDisposes(f, None, Addressed(p).(destinations := m.value));
      }
    case _ =>
  }

  // ------------------------------------------------------------ rerouting

  ghost predicate IsStranded(f: Fwd, x: Queued, d: NodeId) {
    d != f.me && Stranded(f.routes, f.down, x.incoming, d)
  }

  /** Exactly the stranded destinations of `x` are left over, with the hops they had. */
  ghost predicate LeftOver(f: Fwd, x: Queued, ys: seq<Queued>) {
    && (forall d :: d in Dests(x.packet) && IsStranded(f, x, d) ==> exists y :: y in ys && IsRest(x, y, d))
    && (forall y, d :: y in ys && d in Dests(y.packet) ==> d in Dests(x.packet) && IsStranded(f, x, d) && IsRest(x, y, d))
  }

  ghost predicate IsRest(x: Queued, y: Queued, d: NodeId) {
    y.incoming == x.incoming && IsCopy(x.packet, y.packet, d, x.packet.header.ttl)
  }

  /** Every other destination is delivered here or on its way by its next hop, with the hops it had. */
  ghost predicate MovesOn(f: Fwd, x: Queued, e: Effect) {
    forall d :: d in Dests(x.packet) ==> Fares(f.me, f.routes, f.down, e, x.incoming, x.packet, d, x.packet.header.ttl)
  }

  predicate IsDownDrop(a: ForwardAction) {
    a.Drop? && a.reason.LinkIsDown?
  }

  ghost predicate NoDownDrop(actions: seq<ForwardAction>) {
    forall a :: a in actions ==> !IsDownDrop(a)
  }

  lemma {:induction false} FanOutNoDownDrop(
    f: Fwd, incoming: Option<LinkId>, p: Packet, ds: seq<NodeId>, verdict: NodeId -> Verdict, ttl: byte, links: seq<LinkId>)
    requires forall k :: k in links ==> k !in f.down
    ensures NoDownDrop(FanOut(f, incoming, p, ds, verdict, ttl, links).actions)
    decreases |links|
  {
    if links != [] {
      var x := Queued(incoming, Subset(p, Select(ds, verdict, Via(links[0])), ttl));
      EnqueueNoDownDrop(f, links[0], x);
      FanOutNoDownDrop(Enqueue(f, links[0], x).fwd, incoming, p, ds, verdict, ttl, links[1..]);
    }
  }

  lemma EnqueueNoDownDrop(f: Fwd, k: LinkId, x: Queued)
    requires k !in f.down
    ensures NoDownDrop(Enqueue(f, k, x).actions)
  {
  }

  ghost predicate Rerouting(f: Fwd, x: Queued, r: Rerouted) {
    MovesOn(f, x, r.effect) && LeftOver(f, x, r.unresolved) && NoDownDrop(r.effect.actions)
  }

  lemma UnicastReroutes(f: Fwd, x: Queued)
    requires x.packet.header.packetType.Unicast?
    ensures Rerouting(f, x, RerouteUnicast(f, x))
  {
    var d := x.packet.header.destination;
    assert IsCopy(x.packet, x.packet, d, x.packet.header.ttl);
    if d != f.me && !Stranded(f.routes, f.down, x.incoming, d) {
      EnqueueLands(f, f.routes[d].nextHop, x);
      EnqueueNoDownDrop(f, f.routes[d].nextHop, x);
      assert x == Queued(x.incoming, x.packet);
    } else if d != f.me {
      assert IsRest(x, x, d) && x in [x];
    } else {
      assert x.packet == Packet(x.packet.header.(destination := f.me), x.packet.destinations, x.packet.payload);
    }
  }

  lemma StuckIsLeft(f: Fwd, x: Queued, ds: seq<NodeId>)
    requires x.packet.header.packetType.Multicast? && ds == x.packet.destinations
    ensures var stuck := Stuck(ds, DecideAt(f, x.incoming));
            LeftOver(f, x, if stuck == [] then [] else [Queued(x.incoming, Subset(x.packet, stuck, x.packet.header.ttl))])
  {
    var stuck := Stuck(ds, DecideAt(f, x.incoming));
    forall d ensures d in stuck <==> d in ds && IsStranded(f, x, d) {
    }
    forall d | d in stuck ensures IsRest(x, Queued(x.incoming, Subset(x.packet, stuck, x.packet.header.ttl)), d) {
      SubsetIsCopy(x.packet, stuck, d, x.packet.header.ttl);
    }
  }

  lemma ResplitIs(f: Fwd, x: Queued, ds: seq<NodeId>) returns (fan: Effect)
    ensures fan == Branches(f, x.incoming, x.packet, ds, x.packet.header.ttl)
    ensures ResplitMulticast(f, x, Ok(ds)).effect == Then(Act(f, LocalDelivery(f.me, x.packet, ds, DecideAt(f, x.incoming))), fan)
  {
    fan := Branches(f, x.incoming, x.packet, ds, x.packet.header.ttl);
  }

  lemma FanMovesOn(f: Fwd, x: Queued, ds: seq<NodeId>, fan: Effect, e: Effect)
    requires x.packet.header.packetType.Multicast? && ds == x.packet.destinations
    requires AllMove(f, x.incoming, x.packet, ds, x.packet.header.ttl, fan)
    requires e == Then(Act(f, LocalDelivery(f.me, x.packet, ds, DecideAt(f, x.incoming))), fan)
    ensures MovesOn(f, x, e)
  {
    var here := Act(f, LocalDelivery(f.me, x.packet, ds, DecideAt(f, x.incoming)));
    if f.me in ds {
      LocalArrives(f, x.packet, ds, DecideAt(f, x.incoming));
    }
    forall d | d in ds ensures Fares(f.me, f.routes, f.down, e, x.incoming, x.packet, d, x.packet.header.ttl) {
      SplitFares(f, x.incoming, x.packet, ds, x.packet.header.ttl, d, here, fan);
    }
  }

  lemma BranchesNoDownDrop(f: Fwd, incoming: Option<LinkId>, p: Packet, ds: seq<NodeId>, ttl: byte, fan: Effect)
    requires fan == Branches(f, incoming, p, ds, ttl)
    ensures NoDownDrop(fan.actions)
  {
    LinksAreUp(f, incoming, ds);
    FanOutNoDownDrop(f, incoming, p, ds, DecideAt(f, incoming), ttl, LinksFor(ds, DecideAt(f, incoming)));
  }

  lemma MulticastReroutes(f: Fwd, x: Queued, ds: seq<NodeId>)
    requires x.packet.header.packetType.Multicast? && ds == x.packet.destinations
    ensures Rerouting(f, x, ResplitMulticast(f, x, Ok(ds)))
  {
    var fan := ResplitIs(f, x, ds);
    BranchesMove(f, x.incoming, x.packet, ds, x.packet.header.ttl, fan);
    FanMovesOn(f, x, ds, fan, ResplitMulticast(f, x, Ok(ds)).effect);
    BranchesNoDownDrop(f, x.incoming, x.packet, ds, x.packet.header.ttl, fan);
    StuckIsLeft(f, x, ds);
  }

  lemma Reroutes(f: Fwd, x: Queued)
    requires Fine(x.packet)
    ensures Rerouting(f, x, Reroute(f, x))
  {
    match x.packet.header.packetType
    case Unicast => UnicastReroutes(f, x);
    case Multicast =>
      CanonicalIsStable(x.packet.destinations, x.packet.payload);
      MulticastReroutes(f, x, x.packet.destinations);
  }

  lemma MovesOnThen(f: Fwd, x: Queued, a: Effect, b: Effect)
    requires MovesOn(f, x, a) || MovesOn(f, x, b)
    ensures MovesOn(f, x, Then(a, b))
  {
    forall d | d in Dests(x.packet) ensures Fares(f.me, f.routes, f.down, Then(a, b), x.incoming, x.packet, d, x.packet.header.ttl) {
      FaresThen(f.me, f.routes, f.down, a, b, x.incoming, x.packet, d, x.packet.header.ttl);
    }
  }

  // ------------------------------------------------------------ a lost link

  /** Every destination of `x` has moved on, or is stranded and dropped for the lost link. */
  ghost predicate Relocated(f: Fwd, x: Queued, e: Effect) {
    MovesOn(f, x, e) && forall d :: d in Dests(x.packet) && IsStranded(f, x, d) ==> DroppedFor(e, LinkIsDown, x.packet, d)
  }

  lemma RelocatedThen(f: Fwd, x: Queued, a: Effect, b: Effect)
    requires Relocated(f, x, a) || Relocated(f, x, b)
    ensures Relocated(f, x, Then(a, b))
  {
    MovesOnThen(f, x, a, b);
    forall d | d in Dests(x.packet) && IsStranded(f, x, d) ensures DroppedFor(Then(a, b), LinkIsDown, x.packet, d) {
      var c :| IsCopy(x.packet, c, d, x.packet.header.ttl) && (Drop(LinkIsDown, c) in a.actions || Drop(LinkIsDown, c) in b.actions);
      assert Drop(LinkIsDown, c) in Then(a, b).actions;
    }
  }

  /** All destinations of `p` are stranded ones of `x`. */
  ghost predicate StrandedPart(f: Fwd, x: Queued, p: Packet) {
    forall d :: d in Dests(p) ==> d in Dests(x.packet) && IsStranded(f, x, d)
  }

  ghost predicate OnlyStrandedDropped(f: Fwd, xs: seq<Queued>, actions: seq<ForwardAction>) {
    forall a :: a in actions && IsDownDrop(a) ==> exists x :: x in xs && StrandedPart(f, x, a.packet)
  }

  lemma RerouteOrDropOne(f: Fwd, x: Queued, r: Rerouted, here: Effect)
    requires Rerouting(f, x, r)
    requires here == Then(r.effect, Act(r.effect.fwd, DropAll(r.unresolved, LinkIsDown)))
    ensures Relocated(f, x, here)
    ensures forall a :: a in here.actions && IsDownDrop(a) ==> StrandedPart(f, x, a.packet)
  {
    DropAllMembers(r.unresolved, LinkIsDown);
    MovesOnThen(f, x, r.effect, Act(r.effect.fwd, DropAll(r.unresolved, LinkIsDown)));
    forall d | d in Dests(x.packet) && IsStranded(f, x, d) ensures DroppedFor(here, LinkIsDown, x.packet, d) {
      var y :| y in r.unresolved && IsRest(x, y, d);
      assert Drop(LinkIsDown, y.packet) in here.actions;
    }
    forall a | a in here.actions && IsDownDrop(a) ensures StrandedPart(f, x, a.packet) {
      var y :| y in r.unresolved && y.packet == a.packet;
    }
  }

  /** Nothing about the routing differs. */
  lemma SameRelocated(f: Fwd, g: Fwd, x: Queued, e: Effect)
    requires f.me == g.me && f.routes == g.routes && f.down == g.down
    ensures Relocated(f, x, e) <==> Relocated(g, x, e)
    ensures forall p :: StrandedPart(f, x, p) <==> StrandedPart(g, x, p)
  {
    assert forall d :: IsStranded(f, x, d) <==> IsStranded(g, x, d);
  }

  lemma {:induction false} QueueIsRelocated(f: Fwd, xs: seq<Queued>)
    requires AllFine(xs)
    ensures forall x :: x in xs ==> Relocated(f, x, RerouteOrDrop(f, xs))
    ensures OnlyStrandedDropped(f, xs, RerouteOrDrop(f, xs).actions)
    decreases |xs|
  {
    if xs != [] {
      var r := Reroute(f, xs[0]);
      var here := Then(r.effect, Act(r.effect.fwd, DropAll(r.unresolved, LinkIsDown)));
      var rest := RerouteOrDrop(here.fwd, xs[1..]);
      RerouteFrame(f, xs[0]);
      Reroutes(f, xs[0]);
      RerouteOrDropOne(f, xs[0], r, here);
      QueueIsRelocated(here.fwd, xs[1..]);
      RestIsRelocated(f, here.fwd, xs, here, rest);
    }
  }

  lemma RestIsRelocated(f: Fwd, g: Fwd, xs: seq<Queued>, here: Effect, rest: Effect)
    requires xs != [] && f.me == g.me && f.routes == g.routes && f.down == g.down
    requires Relocated(f, xs[0], here) && forall a :: a in here.actions && IsDownDrop(a) ==> StrandedPart(f, xs[0], a.packet)
    requires (forall x :: x in xs[1..] ==> Relocated(g, x, rest)) && OnlyStrandedDropped(g, xs[1..], rest.actions)
    ensures forall x :: x in xs ==> Relocated(f, x, Then(here, rest))
    ensures OnlyStrandedDropped(f, xs, Then(here, rest).actions)
  {
    forall x | x in xs ensures Relocated(f, x, Then(here, rest)) {
      SameRelocated(f, g, x, rest);
      assert x == xs[0] || x in xs[1..];
      RelocatedThen(f, x, here, rest);
    }
    forall a | a in Then(here, rest).actions && IsDownDrop(a) ensures exists x :: x in xs && StrandedPart(f, x, a.packet) {
      if a in here.actions {
        assert xs[0] in xs;
      } else {
        var x :| x in xs[1..] && StrandedPart(g, x, a.packet);
        SameRelocated(f, g, x, rest);
        assert x in xs;
      }
    }
  }

  lemma RelocatedAmong(f: Fwd, x: Queued, before: Effect, e: Effect, after: Effect)
    requires Relocated(f, x, e)
    ensures Relocated(f, x, Then(Then(before, e), after))
  {
    RelocatedThen(f, x, before, e);
    RelocatedThen(f, x, Then(before, e), after);
  }

  /** The P0 queue waits in one new batch, in order, for two seconds; the next batch gets the next number. */
  ghost predicate Parks(f: Fwd, now: Time, xs: seq<Queued>, e: Effect) {
    if xs == [] then e.fwd.pending == f.pending
    else exists g :: ParksAs(f, now, xs, e, g)
  }

  ghost predicate ParksAs(f: Fwd, now: Time, xs: seq<Queued>, e: Effect, g: Id) {
    && g !in f.pending && e.fwd.nextGeneration == (if g == U64_MAX then 0 else g + 1)
    && e.fwd.pending == f.pending[g := Batch(After(now, 2_000), xs)] && ArmTimer(g, After(now, 2_000)) in e.actions
  }

  lemma ParkParks(f: Fwd, now: Time, xs: seq<Queued>)
    requires |f.pending| < GENERATIONS
    ensures Parks(f, now, xs, Park(f, now, xs)) && NoDownDrop(Park(f, now, xs).actions)
    ensures var g := Park(f, now, xs).fwd; g.me == f.me && g.routes == f.routes && g.down == f.down && g.links == f.links
  {
    assert Window(f.nextGeneration, 0) == {};
    UnusedIsFree(f.pending, f.nextGeneration, 0);
    if xs != [] {
      assert ParksAs(f, now, xs, Park(f, now, xs), Unused(f.pending, f.nextGeneration, 0));
    }
  }

  ghost predicate AllDropped(xs: seq<Queued>, e: Effect) {
    forall x :: x in xs ==> Drop(LinkIsDown, x.packet) in e.actions
  }

  /** A packet dropped for the lost link is one of the P1 or P3 queue, or a stranded part of one of the P2 queue. */
  ghost predicate Rightly(f: Fwd, q: seq<seq<Queued>>, p: Packet)
    requires |q| == 4
  {
    || (exists x :: (x in q[1] || x in q[3]) && x.packet == p)
    || (exists x :: x in q[2] && StrandedPart(f, x, p))
  }

  /** What becomes of the four queues of a lost link. */
  ghost predicate Disbanded(f: Fwd, now: Time, q: seq<seq<Queued>>, e: Effect)
    requires |q| == 4
  {
    && Parks(f, now, q[0], e)
    && AllDropped(q[1], e) && AllDropped(q[3], e)
    && (forall x :: x in q[2] ==> Relocated(f, x, e))
    && (forall a :: a in e.actions && IsDownDrop(a) ==> Rightly(f, q, a.packet))
  }

  lemma PartsDisband(f: Fwd, now: Time, q: seq<seq<Queued>>, parked: Effect, early: Effect, moved: Effect, late: Effect)
    requires |q| == 4 && Parks(f, now, q[0], parked) && NoDownDrop(parked.actions)
    requires early.actions == DropAll(q[1], LinkIsDown) && late.actions == DropAll(q[3], LinkIsDown)
    requires moved.fwd.pending == parked.fwd.pending && moved.fwd.nextGeneration == parked.fwd.nextGeneration && late.fwd == moved.fwd
    requires (forall x :: x in q[2] ==> Relocated(f, x, moved)) && OnlyStrandedDropped(f, q[2], moved.actions)
    ensures Disbanded(f, now, q, Then(Then(Then(parked, early), moved), late))
  {
    var e := Then(Then(Then(parked, early), moved), late);
    DropAllMembers(q[1], LinkIsDown);
    DropAllMembers(q[3], LinkIsDown);
    forall x | x in q[2] ensures Relocated(f, x, e) {
      RelocatedAmong(f, x, Then(parked, early), moved, late);
    }
    PartsDropRightly(f, q, parked, early, moved, late);
    if q[0] != [] {
      var g :| ParksAs(f, now, q[0], parked, g);
      assert ParksAs(f, now, q[0], e, g);
    }
  }

  lemma PartsDropRightly(f: Fwd, q: seq<seq<Queued>>, parked: Effect, early: Effect, moved: Effect, late: Effect)
    requires |q| == 4 && NoDownDrop(parked.actions)
    requires early.actions == DropAll(q[1], LinkIsDown) && late.actions == DropAll(q[3], LinkIsDown)
    requires OnlyStrandedDropped(f, q[2], moved.actions)
    ensures forall a :: a in Then(Then(Then(parked, early), moved), late).actions && IsDownDrop(a) ==> Rightly(f, q, a.packet)
  {
    DropAllMembers(q[1], LinkIsDown);
    DropAllMembers(q[3], LinkIsDown);
    forall a | a in Then(Then(Then(parked, early), moved), late).actions && IsDownDrop(a) ensures Rightly(f, q, a.packet) {
      assert a in parked.actions || a in early.actions || a in moved.actions || a in late.actions;
    }
  }

  lemma SameDisbanded(f: Fwd, g: Fwd, xs: seq<Queued>, e: Effect)
    requires f.me == g.me && f.routes == g.routes && f.down == g.down
    requires (forall x :: x in xs ==> Relocated(g, x, e)) && OnlyStrandedDropped(g, xs, e.actions)
    ensures (forall x :: x in xs ==> Relocated(f, x, e)) && OnlyStrandedDropped(f, xs, e.actions)
  {
    forall x | x in xs ensures Relocated(f, x, e) && forall p :: StrandedPart(f, x, p) <==> StrandedPart(g, x, p) {
      SameRelocated(f, g, x, e);
    }
  }

  lemma DisbandDisbands(f: Fwd, now: Time, q: seq<seq<Queued>>)
    requires |q| == 4 && |f.pending| < GENERATIONS && AllFine(q[2])
    ensures Disbanded(f, now, q, Disband(f, now, q))
  {
    var parked := Park(f, now, q[0]);
    var g := parked.fwd;
    var early, moved := Act(g, DropAll(q[1], LinkIsDown)), RerouteOrDrop(g, q[2]);
    ParkParks(f, now, q[0]);
    QueueIsRelocated(g, q[2]);
    SameDisbanded(f, g, q[2], moved);
    RerouteOrDropFrame(g, q[2]);
    PartsDisband(f, now, q, parked, early, moved, Act(moved.fwd, DropAll(q[3], LinkIsDown)));
  }

  /**
   * When a link is lost, its P0 packets wait in one batch, its P1 and P3 packets
   * are dropped, and every destination of its P2 packets is delivered here, moved
   * to its next hop with the hops it has, or dropped because it has no other.
   */
  lemma LinkLossDisposes(f: Fwd, now: Time, link: LinkId)
    requires FwdOk(f) && |f.pending| < GENERATIONS
    ensures var e := Handle(f, now, ForwardEvent.LinkDown(link));
            Disbanded(f.(down := f.down + {link}), now, LinkOf(f, link).queues, e)
  {
    var closed := f.(down := f.down + {link}, links := f.links - {link});
    var q := LinkOf(f, link).queues;
    if link in f.links {
      assert LinkOk(link, f.links[link]) && QueueOk(link, 2, q[2], f.links[link].queuedBytes[2]);
      assert AllFine(q[2]) by {
        forall x: Queued | x in q[2] ensures Fine(x.packet) {
          assert Belongs(link, 2, x);
        }
      }
      DisbandDisbands(closed, now, q);
      LostIsDisbanded(f.(down := f.down + {link}), closed, now, q, Disband(closed, now, q));
    }
  }

  lemma LostIsDisbanded(f: Fwd, g: Fwd, now: Time, q: seq<seq<Queued>>, e: Effect)
    requires |q| == 4 && f.me == g.me && f.routes == g.routes && f.down == g.down && f.pending == g.pending && Disbanded(g, now, q, e)
    ensures Disbanded(f, now, q, e)
  {
    forall x | x in q[2] ensures Relocated(f, x, e) && forall p :: StrandedPart(f, x, p) <==> StrandedPart(g, x, p) {
      SameRelocated(f, g, x, e);
    }
    if q[0] != [] {
      var n :| ParksAs(g, now, q[0], e, n);
      assert ParksAs(f, now, q[0], e, n);
    }
  }

  // ------------------------------------------------------------ waiting packets after a route update

  ghost predicate AllMoveOn(f: Fwd, xs: seq<Queued>, e: Effect) {
    forall x :: x in xs ==> MovesOn(f, x, e)
  }

  /** Exactly the stranded destinations of the packets are left over. */
  ghost predicate AllLeftOver(f: Fwd, xs: seq<Queued>, ys: seq<Queued>) {
    && (forall x, d :: x in xs && Waits(f, x, d) ==> HasRest(ys, x, d))
    && (forall y, d :: y in ys && d in Dests(y.packet) ==> ComesFrom(f, xs, y, d))
  }

  ghost predicate Waits(f: Fwd, x: Queued, d: NodeId) {
    d in Dests(x.packet) && IsStranded(f, x, d)
  }

  ghost predicate HasRest(ys: seq<Queued>, x: Queued, d: NodeId) {
    exists y :: y in ys && IsRest(x, y, d)
  }

  ghost predicate ComesFrom(f: Fwd, xs: seq<Queued>, y: Queued, d: NodeId) {
    exists x :: x in xs && Waits(f, x, d) && IsRest(x, y, d)
  }

  lemma SameMovesOn(f: Fwd, g: Fwd, xs: seq<Queued>, e: Effect, ys: seq<Queued>)
    requires f.me == g.me && f.routes == g.routes && f.down == g.down
    ensures AllMoveOn(f, xs, e) <==> AllMoveOn(g, xs, e)
    ensures AllLeftOver(f, xs, ys) <==> AllLeftOver(g, xs, ys)
  {
    assert forall x, d :: Waits(f, x, d) <==> Waits(g, x, d);
    assert forall y, d :: ComesFrom(f, xs, y, d) <==> ComesFrom(g, xs, y, d);
    assert forall x :: MovesOn(f, x, e) <==> MovesOn(g, x, e);
  }

  lemma RestStays(ys: seq<Queued>, zs: seq<Queued>, x: Queued, d: NodeId)
    requires HasRest(ys, x, d) || HasRest(zs, x, d)
    ensures HasRest(ys + zs, x, d)
  {
    var y :| (y in ys || y in zs) && IsRest(x, y, d);
    assert y in ys + zs;
  }

  lemma SourceStays(f: Fwd, xs: seq<Queued>, y: Queued, d: NodeId)
    requires xs != [] && (ComesFrom(f, xs[1..], y, d) || (Waits(f, xs[0], d) && IsRest(xs[0], y, d)))
    ensures ComesFrom(f, xs, y, d)
  {
    var x :| (x in xs[1..] || x == xs[0]) && Waits(f, x, d) && IsRest(x, y, d);
    assert x in xs;
  }

  lemma LeftOverAdds(f: Fwd, xs: seq<Queued>, ys: seq<Queued>, zs: seq<Queued>)
    requires xs != [] && LeftOver(f, xs[0], ys) && AllLeftOver(f, xs[1..], zs)
    ensures AllLeftOver(f, xs, ys + zs)
  {
    forall x, d | x in xs && Waits(f, x, d) ensures HasRest(ys + zs, x, d) {
      assert x == xs[0] || x in xs[1..];
      RestStays(ys, zs, x, d);
    }
    forall y, d | y in ys + zs && d in Dests(y.packet) ensures ComesFrom(f, xs, y, d) {
      SourceStays(f, xs, y, d);
    }
  }

  lemma MoveOnAdds(f: Fwd, xs: seq<Queued>, here: Effect, rest: Effect)
    requires xs != [] && MovesOn(f, xs[0], here) && AllMoveOn(f, xs[1..], rest)
    ensures AllMoveOn(f, xs, Then(here, rest))
  {
    forall x | x in xs ensures MovesOn(f, x, Then(here, rest)) {
      assert x == xs[0] || x in xs[1..];
      MovesOnThen(f, x, here, rest);
    }
  }

  lemma {:induction false} QueueMovesOn(f: Fwd, xs: seq<Queued>)
    requires AllFine(xs)
    ensures var r := RerouteAll(f, xs); AllMoveOn(f, xs, r.effect) && AllLeftOver(f, xs, r.unresolved)
    decreases |xs|
  {
    if xs != [] {
      var first := Reroute(f, xs[0]);
      var g := first.effect.fwd;
      var rest := RerouteAll(g, xs[1..]);
      RerouteFrame(f, xs[0]);
      Reroutes(f, xs[0]);
      QueueMovesOn(g, xs[1..]);
      SameMovesOn(f, g, xs[1..], rest.effect, rest.unresolved);
      MoveOnAdds(f, xs, first.effect, rest.effect);
      LeftOverAdds(f, xs, first.unresolved, rest.unresolved);
    }
  }

  function Waiting(pending: map<Id, Batch>, g: Id): seq<Queued> {
    if g in pending then pending[g].packets else []
  }

  /** The packets have moved on, but for the stranded destinations, which wait on in their batch. */
  ghost predicate Retried(f: Fwd, g: Id, xs: seq<Queued>, e: Effect) {
    AllMoveOn(f, xs, e) && AllLeftOver(f, xs, Waiting(e.fwd.pending, g))
  }

  lemma RetryOne(f: Fwd, now: Time, g: Id, batch: Batch)
    requires AllFine(batch.packets) && g !in f.pending
    ensures var e := RetryBatch(f, now, g, batch);
            && e.fwd.me == f.me && e.fwd.routes == f.routes && e.fwd.down == f.down
            && (now < batch.expiresAt ==> Retried(f, g, batch.packets, e))
            && (forall h :: h != g ==> Waiting(e.fwd.pending, h) == Waiting(f.pending, h))
            && (forall h :: h in e.fwd.pending ==> h == g || h in f.pending)
  {
    if now < batch.expiresAt {
      QueueMovesOn(f, batch.packets);
      RerouteAllFrame(f, batch.packets);
      var r, e := RerouteAll(f, batch.packets), RetryBatch(f, now, g, batch);
      assert Waiting(e.fwd.pending, g) == r.unresolved;
      SameActions(f, batch.packets, r.effect, e);
    }
  }

  lemma SameActions(f: Fwd, xs: seq<Queued>, a: Effect, b: Effect)
    requires AllMoveOn(f, xs, a) && b.actions == a.actions && b.trace == a.trace
    ensures AllMoveOn(f, xs, b)
  {
    forall x | x in xs ensures MovesOn(f, x, b) {
      forall d | d in Dests(x.packet) ensures Fares(f.me, f.routes, f.down, b, x.incoming, x.packet, d, x.packet.header.ttl) {
        SameFares(f, x, a, b, d);
      }
    }
  }

  lemma SameFares(f: Fwd, x: Queued, a: Effect, b: Effect, d: NodeId)
    requires b.actions == a.actions && b.trace == a.trace
    requires Fares(f.me, f.routes, f.down, a, x.incoming, x.packet, d, x.packet.header.ttl)
    ensures Fares(f.me, f.routes, f.down, b, x.incoming, x.packet, d, x.packet.header.ttl)
  {
    if d != f.me && !Stranded(f.routes, f.down, x.incoming, d) {
      var k := f.routes[d].nextHop;
      var c :| IsCopy(x.packet, c, d, x.packet.header.ttl) && Lands(a, k, Queued(x.incoming, c));
      assert Lands(b, k, Queued(x.incoming, c));
    }
  }

  /** The first batch stays retried while the rest is, and the rest counts for the whole. */
  lemma RetriedThen(f: Fwd, h: Fwd, g: Id, xs: seq<Queued>, here: Effect, rest: Effect)
    requires f.me == h.me && f.routes == h.routes && f.down == h.down
    requires (Retried(f, g, xs, here) && Waiting(rest.fwd.pending, g) == Waiting(here.fwd.pending, g)) || Retried(h, g, xs, rest)
    ensures Retried(f, g, xs, Then(here, rest))
  {
    SameMovesOn(f, h, xs, rest, Waiting(rest.fwd.pending, g));
    forall x | x in xs ensures MovesOn(f, x, Then(here, rest)) {
      MovesOnThen(f, x, here, rest);
    }
  }

  lemma {:induction false} BatchesRetried(f: Fwd, now: Time, batches: map<Id, Batch>, order: seq<Id>)
    requires StrictlyAscending(order) && forall g :: g in order ==> g in batches && g !in f.pending && AllFine(batches[g].packets)
    ensures var e := RetryBatches(f, now, batches, order);
            && e.fwd.routes == f.routes && e.fwd.down == f.down
            && (forall g :: g in order && now < batches[g].expiresAt ==> Retried(f, g, batches[g].packets, e))
            && (forall g :: g !in order ==> Waiting(e.fwd.pending, g) == Waiting(f.pending, g))
    decreases |order|
  {
    if order != [] {
      var here := RetryBatch(f, now, order[0], batches[order[0]]);
      var rest := RetryBatches(here.fwd, now, batches, order[1..]);
      RetryOne(f, now, order[0], batches[order[0]]);
      BatchesRetried(here.fwd, now, batches, order[1..]);
      forall g | g in order && now < batches[g].expiresAt ensures Retried(f, g, batches[g].packets, Then(here, rest)) {
        assert g == order[0] || g in order[1..];
        RetriedThen(f, here.fwd, g, batches[g].packets, here, rest);
      }
    }
  }

  /** Links that are down are remembered as long as a route names them. */
  ghost predicate KeepsDown(down: set<LinkId>, routes: map<NodeId, Route>, left: set<LinkId>) {
    forall k :: k in left <==> k in down && exists d :: d in routes && routes[d].nextHop == k
  }

  /**
   * New routes take effect at once. Every destination that waits and has time left
   * is delivered here, moved to its next hop with the hops it has, or stranded
   * still, and exactly the stranded ones wait on in their batch.
   */
  lemma RoutesTakeEffect(f: Fwd, now: Time, routes: map<NodeId, Route>)
    requires BatchesOk(f)
    ensures var e := Handle(f, now, RoutesUpdated(routes));
            && e.fwd.routes == routes && KeepsDown(f.down, routes, e.fwd.down)
            && forall g :: g in f.pending && now < f.pending[g].expiresAt ==>
                 Retried(f.(routes := routes, down := e.fwd.down), g, f.pending[g].packets, e)
  {
    var updated := f.(routes := routes, down := StillUsed(f.down, routes), pending := map[]);
    var order := Ascending(f.pending.Keys);
    AscendingFacts(f.pending.Keys);
    forall g | g in order ensures AllFine(f.pending[g].packets) {
      assert BatchOk(f.pending[g]);
    }
    BatchesRetried(updated, now, f.pending, order);
    var e := RetryBatches(updated, now, f.pending, order);
    forall g | g in f.pending && now < f.pending[g].expiresAt ensures Retried(f.(routes := routes, down := e.fwd.down), g, f.pending[g].packets, e) {
      SameMovesOn(updated, f.(routes := routes, down := e.fwd.down), f.pending[g].packets, e, Waiting(e.fwd.pending, g));
    }
  }

  /** Only a route update changes the routes, and besides it only a lost link the links that are down. */
  lemma RoutingStays(f: Fwd, now: Time, event: ForwardEvent)
    requires !event.RoutesUpdated?
    ensures var g := Handle(f, now, event).fwd;
            g.me == f.me && g.routes == f.routes && g.down == if event.LinkDown? then f.down + {event.link} else f.down
  {
    match event
    case Outbound(p) => ProcessFrame(f, None, p);
    case Inbound(link, p) => ProcessFrame(f, Some(link), p);
    case OutboundMulticast(ds, p) =>
      var m := MulticastPayload(ds, p.payload);
      if m.Ok? {
        ProcessFrame(f, None, Addressed(p).(destinations := m.value));
      }
    case LinkDown(link) =>
      var closed := f.(down := f.down + {link}, links := f.links - {link});
      if link in f.links {
        RerouteOrDropFrame(Park(closed, now, f.links[link].queues[0]).fwd, f.links[link].queues[2]);
      }
    case _ =>
  }

  // ------------------------------------------------------------ one hop of a journey

  /** The forwarder does with the packet what its journey says next. */
  ghost predicate Follows(fab: Delivery.Fabric, f: Fwd, e: Effect, incoming: Option<LinkId>, p: Packet)
    requires f.me in fab.routes && f.me in fab.down
  {
    var d, ttl := p.header.destination, p.header.ttl;
    var fate := Delivery.Journey(fab, f.me, incoming, d, ttl);
    || (fate == Delivery.Arrived(f.me, ttl) && ArrivesAt(e, f.me, p))
    || (fate.Lost? && fate.node == f.me && Drop(fate.reason, p) in e.actions)
    || (ttl > 0 && d in f.routes && MovesTo(e, f.routes[d].nextHop, incoming, p, d, ttl - 1) && Onward(fab, f.me, f.routes[d].nextHop, d, ttl - 1, fate))
  }

  /** The journey goes on at the far end of link `k`, if it leads anywhere. */
  ghost predicate Onward(fab: Delivery.Fabric, u: NodeId, k: LinkId, d: NodeId, ttl: nat, fate: Delivery.Fate) {
    var port := Delivery.Port(u, k);
    if port in fab.far && fab.far[port].node in fab.routes && fab.far[port].node in fab.down
    then fate == Delivery.Journey(fab, fab.far[port].node, Some(fab.far[port].link), d, ttl)
    else fate == Delivery.Lost(u, LinkIsDown)
  }

  /** Every hop of a unicast packet's journey is what the forwarder of that node does with it. */
  lemma JourneyIsForwarded(fab: Delivery.Fabric, f: Fwd, incoming: Option<LinkId>, p: Packet)
    requires f.me in fab.routes && f.me in fab.down && f.routes == fab.routes[f.me] && f.down == fab.down[f.me]
    requires p.header.packetType.Unicast?
    ensures Follows(fab, f, ProcessPacket(f, incoming, p), incoming, p)
  {
    var d, e := p.header.destination, ProcessPacket(f, incoming, p);
    ProcessDisposes(f, incoming, p);
    if p.header.ttl > 0 && d != f.me {
      if Stranded(f.routes, f.down, incoming, d) {
        CopyIsWhole(p, d, e);
      } else {
        assert Onward(fab, f.me, f.routes[d].nextHop, d, p.header.ttl - 1, Delivery.Journey(fab, f.me, incoming, d, p.header.ttl));
      }
    }
  }

  /** The copy of a unicast packet that is dropped is the packet. */
  lemma CopyIsWhole(p: Packet, d: NodeId, e: Effect)
    requires p.header.packetType.Unicast? && d == p.header.destination
    ensures forall reason :: DroppedFor(e, reason, p, d) ==> Drop(reason, p) in e.actions
  {
    forall c | IsCopy(p, c, d, p.header.ttl) ensures c == p {
    }
  }
}
