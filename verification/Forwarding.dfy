/**
 * The packet forwarder of one node, as a function from a state, a time and an
 * event to the next state and the actions to execute. `lost` and `trace` are
 * ledgers, of the packets that conflation overwrites and of the operations on
 * single links; nothing outside the model reads them.
 */
module Forwarding {
  import opened MeshTypes
  import opened ControlData
  import opened Packets
  import opened Scheduler

  const P0_ROUTE_WAIT_MS: nat := 2_000
  const GENERATIONS: nat := U64_MAX + 1

  type Generation = g: Id | g < GENERATIONS

  datatype DropReason =
    | TtlExceeded
    | NoRoute
    | LoopDetected
    | LinkIsDown
    | RouteWaitExpired
    | InvalidMulticast(error: MulticastError)
    | UnsupportedPacketType(packetType: PacketType)
    | QueueFull(priority: Priority)

  datatype ForwardEvent =
    | Outbound(packet: Packet)
    | OutboundMulticast(destinations: seq<NodeId>, packet: Packet)
    | Inbound(link: LinkId, packet: Packet)
    | RoutesUpdated(routes: map<NodeId, Route>)
    | LinkCredit(link: LinkId, bytes: nat)
    | LinkWritable(link: LinkId)
    | LinkDown(link: LinkId)
    | PendingTimer(generation: Id)

  datatype ForwardAction =
    | Transmit(link: LinkId, packet: Packet)
    | DeliverLocal(packet: Packet)
    | Drop(reason: DropReason, packet: Packet)
    | Backpressure(link: LinkId, packet: Packet)
    | ArmTimer(generation: Id, at: Time)

  /** P0 packets that wait for a route, until their deadline. */
  datatype Batch = Batch(expiresAt: Time, packets: seq<Queued>)

  datatype Fwd = Fwd(me: NodeId, routes: map<NodeId, Route>, links: map<LinkId, Link>, down: set<LinkId>,
                     pending: map<Id, Batch>, nextGeneration: Generation)

  datatype LinkStep = LinkStep(link: LinkId, op: LinkOp)

  datatype Effect = Effect(fwd: Fwd, actions: seq<ForwardAction>, lost: seq<Packet>, trace: seq<LinkStep>)

  function NewForwarder(me: NodeId, routes: map<NodeId, Route>): Fwd {
    Fwd(me, routes, map[], {}, map[], 0)
  }

  function Then(first: Effect, second: Effect): Effect {
    Effect(second.fwd, first.actions + second.actions, first.lost + second.lost, first.trace + second.trace)
  }

  function Act(f: Fwd, actions: seq<ForwardAction>): Effect {
    Effect(f, actions, [], [])
  }

  // ------------------------------------------------------------ where a packet goes

  datatype Verdict = Local | Unroutable | Looping | Via(link: LinkId)

  function Decide(me: NodeId, routes: map<NodeId, Route>, down: set<LinkId>, incoming: Option<LinkId>, d: NodeId): Verdict {
    if d == me then Local
    else if d !in routes || routes[d].nextHop in down then Unroutable
    else if incoming == Some(routes[d].nextHop) then Looping
    else Via(routes[d].nextHop)
  }

  function DecideAt(f: Fwd, incoming: Option<LinkId>): NodeId -> Verdict {
    (d: NodeId) => Decide(f.me, f.routes, f.down, incoming, d)
  }

  /** The destinations with the given verdict, in order. */
  function Select(ds: seq<NodeId>, verdict: NodeId -> Verdict, v: Verdict): (r: seq<NodeId>)
    ensures forall d :: d in r <==> d in ds && verdict(d) == v
  {
    if ds == [] then []
    else (if verdict(ds[0]) == v then [ds[0]] else []) + Select(ds[1..], verdict, v)
  }

  /** The links that some destination goes out on, in order. */
  function LinksFor(ds: seq<NodeId>, verdict: NodeId -> Verdict): (r: seq<LinkId>)
    ensures forall k :: k in r <==> exists d :: d in ds && verdict(d) == Via(k)
  {
    Ascending(set d | d in ds && verdict(d).Via? :: verdict(d).link)
  }

  /** The multicast packet for a part of the destinations of `template`. */
  function Subset(template: Packet, ds: seq<NodeId>, ttl: byte): Packet {
    Packet(template.header.(packetType := Multicast, destination := 0, ttl := ttl), ds, template.payload)
  }

  /** The copy handed to the local application: no destination list. */
  function LocalCopy(template: Packet, me: NodeId): Packet {
    Packet(template.header.(destination := me), [], template.payload)
  }

  // ------------------------------------------------------------ queueing

  function Launch(f: Fwd, link: LinkId, q: Link): Effect {
    var a := TrySend(q);
    Act(f.(links := f.links[link := a.link]), if a.sent.Some? then [Transmit(link, a.sent.value.packet)] else [])
  }

  function LinkIn(links: map<LinkId, Link>, link: LinkId): Link {
    if link in links then links[link] else NewLink
  }

  function LinkOf(f: Fwd, link: LinkId): Link {
    LinkIn(f.links, link)
  }

  function Enqueue(f: Fwd, link: LinkId, x: Queued): Effect {
    if link in f.down then Act(f, [Drop(LinkIsDown, x.packet)])
    else
      match Admit(LinkOf(f, link), x)
      case Stored(q) => Launch(f, link, q).(trace := [LinkStep(link, Offer(x))])
      case Replaced(q, lost) => Launch(f, link, q).(lost := [lost.packet], trace := [LinkStep(link, Offer(x))])
      case Full =>
        var priority := x.packet.header.priority;
        Act(f, [if priority.P0? then Backpressure(link, x.packet) else Drop(QueueFull(priority), x.packet)])
  }

  /** Credit or permission for a link that is not down. */
  function Permit(f: Fwd, link: LinkId, op: LinkOp): Effect {
    if link in f.down then Act(f, [])
    else Launch(f, link, Prepared(LinkOf(f, link), op)).(trace := [LinkStep(link, op)])
  }

  /** One branch packet per link, each with the destinations that go out on it. */
  function FanOut(f: Fwd, incoming: Option<LinkId>, template: Packet, ds: seq<NodeId>, verdict: NodeId -> Verdict, ttl: byte, links: seq<LinkId>): Effect
    decreases |links|
  {
    if links == [] then Act(f, [])
    else
      var branch := Enqueue(f, links[0], Queued(incoming, Subset(template, Select(ds, verdict, Via(links[0])), ttl)));
      Then(branch, FanOut(branch.fwd, incoming, template, ds, verdict, ttl, links[1..]))
  }

  // ------------------------------------------------------------ packets from outside

  function LocalDelivery(me: NodeId, p: Packet, ds: seq<NodeId>, verdict: NodeId -> Verdict): seq<ForwardAction> {
    if Select(ds, verdict, Local) != [] then [DeliverLocal(LocalCopy(p, me))] else []
  }

  function DropPart(p: Packet, ds: seq<NodeId>, reason: DropReason): seq<ForwardAction> {
    if ds != [] then [Drop(reason, Subset(p, ds, p.header.ttl))] else []
  }

  /** What does not leave this node: a local copy, and the parts without a route or with a route back. */
  function Staying(me: NodeId, p: Packet, ds: seq<NodeId>, verdict: NodeId -> Verdict): seq<ForwardAction> {
    LocalDelivery(me, p, ds, verdict)
    + DropPart(p, Select(ds, verdict, Unroutable), NoRoute)
    + DropPart(p, Select(ds, verdict, Looping), LoopDetected)
  }

  /** Splits a multicast packet over its canonical destinations, if they are valid. */
  function SplitMulticast(f: Fwd, incoming: Option<LinkId>, p: Packet, m: Result<seq<NodeId>, MulticastError>): Effect
    requires p.header.ttl > 0
  {
    if m.Err? then Act(f, [Drop(InvalidMulticast(m.error), p)])
    else
      var ds, verdict := m.value, DecideAt(f, incoming);
      Then(Act(f, Staying(f.me, p, ds, verdict)),
           FanOut(f, incoming, p, ds, verdict, p.header.ttl - 1, LinksFor(ds, verdict)))
  }

  function ForwardMulticast(f: Fwd, incoming: Option<LinkId>, p: Packet): Effect
    requires p.header.ttl > 0
  {
    SplitMulticast(f, incoming, p, MulticastPayload(p.destinations, p.payload))
  }

  function ForwardUnicast(f: Fwd, incoming: Option<LinkId>, p: Packet): Effect
    requires p.header.ttl > 0
  {
    match Decide(f.me, f.routes, f.down, incoming, p.header.destination)
    case Local => Act(f, [DeliverLocal(p)])
    case Unroutable => Act(f, [Drop(NoRoute, p)])
    case Looping => Act(f, [Drop(LoopDetected, p)])
    case Via(link) => Enqueue(f, link, Queued(incoming, p.(header := p.header.(ttl := p.header.ttl - 1))))
  }

  function ProcessPacket(f: Fwd, incoming: Option<LinkId>, p: Packet): Effect {
    if p.header.ttl == 0 then Act(f, [Drop(TtlExceeded, p)])
    else
      match p.header.packetType
      case Unicast => ForwardUnicast(f, incoming, p)
      case Multicast => ForwardMulticast(f, incoming, p)
      case other => Act(f, [Drop(UnsupportedPacketType(other), p)])
  }

  /** The template of an outbound multicast, before its destinations are attached. */
  function Addressed(p: Packet): Packet {
    p.(header := p.header.(packetType := Multicast, destination := 0))
  }

  function ProcessOutboundMulticast(f: Fwd, ds: seq<NodeId>, p: Packet): Effect {
    var m := MulticastPayload(ds, p.payload);
    if m.Err? then Act(f, [Drop(InvalidMulticast(m.error), Addressed(p))])
    else ProcessPacket(f, None, Addressed(p).(destinations := m.value))
  }

  // ------------------------------------------------------------ rerouting

  datatype Rerouted = Rerouted(effect: Effect, unresolved: seq<Queued>)

  function RerouteUnicast(f: Fwd, x: Queued): Rerouted {
    match Decide(f.me, f.routes, f.down, x.incoming, x.packet.header.destination)
    case Local => Rerouted(Act(f, [DeliverLocal(x.packet)]), [])
    case Via(link) => Rerouted(Enqueue(f, link, x), [])
    case _ => Rerouted(Act(f, []), [x])
  }

  function ResplitMulticast(f: Fwd, x: Queued, m: Result<seq<NodeId>, MulticastError>): Rerouted {
    var p := x.packet;
    if m.Err? then Rerouted(Act(f, [Drop(InvalidMulticast(m.error), p)]), [])
    else
      var ds, verdict := m.value, DecideAt(f, x.incoming);
      var stuck := Stuck(ds, verdict);
      Rerouted(
        Then(Act(f, LocalDelivery(f.me, p, ds, verdict)),
             FanOut(f, x.incoming, p, ds, verdict, p.header.ttl, LinksFor(ds, verdict))),
        if stuck == [] then [] else [Queued(x.incoming, Subset(p, stuck, p.header.ttl))])
  }

  function RerouteMulticast(f: Fwd, x: Queued): Rerouted {
    ResplitMulticast(f, x, MulticastPayload(x.packet.destinations, x.packet.payload))
  }

  /** The destinations that neither stay here nor have a usable link, in order. */
  function Stuck(ds: seq<NodeId>, verdict: NodeId -> Verdict): (r: seq<NodeId>)
    ensures forall d :: d in r <==> d in ds && (verdict(d).Unroutable? || verdict(d).Looping?)
  {
    if ds == [] then []
    else (if verdict(ds[0]).Unroutable? || verdict(ds[0]).Looping? then [ds[0]] else []) + Stuck(ds[1..], verdict)
  }

  function Reroute(f: Fwd, x: Queued): Rerouted {
    match x.packet.header.packetType
    case Unicast => RerouteUnicast(f, x)
    case Multicast => RerouteMulticast(f, x)
    case other => Rerouted(Act(f, [Drop(UnsupportedPacketType(other), x.packet)]), [])
  }

  /** Reroutes a queue from front to back; what cannot be routed is left over, in order. */
  function RerouteAll(f: Fwd, xs: seq<Queued>): Rerouted
    decreases |xs|
  {
    if xs == [] then Rerouted(Act(f, []), [])
    else
      var first := Reroute(f, xs[0]);
      var rest := RerouteAll(first.effect.fwd, xs[1..]);
      Rerouted(Then(first.effect, rest.effect), first.unresolved + rest.unresolved)
  }

  function DropAll(xs: seq<Queued>, reason: DropReason): (r: seq<ForwardAction>) {
    if xs == [] then [] else [Drop(reason, xs[0].packet)] + DropAll(xs[1..], reason)
  }

  /** Reroutes a queue, dropping each packet or part that cannot be routed right where it fails. */
  function RerouteOrDrop(f: Fwd, xs: seq<Queued>): Effect
    decreases |xs|
  {
    if xs == [] then Act(f, [])
    else
      var first := Reroute(f, xs[0]);
      var here := Then(first.effect, Act(first.effect.fwd, DropAll(first.unresolved, LinkIsDown)));
      Then(here, RerouteOrDrop(here.fwd, xs[1..]))
  }

  // ------------------------------------------------------------ link loss and waiting P0 packets

  /** The first unused generation from `g` on, wrapping around. */
  function Unused(pending: map<Id, Batch>, g: Generation, tries: nat): (r: Generation)
    requires tries < GENERATIONS
    decreases GENERATIONS - tries
  {
    if g !in pending || tries + 1 == GENERATIONS then g
    else Unused(pending, Following(g), tries + 1)
  }

  function Following(g: Generation): Generation {
    if g + 1 == GENERATIONS then 0 else g + 1
  }

  function Park(f: Fwd, now: Time, xs: seq<Queued>): Effect {
    if xs == [] then Act(f, [])
    else
      var g, at := Unused(f.pending, f.nextGeneration, 0), After(now, P0_ROUTE_WAIT_MS);
      Act(f.(pending := f.pending[g := Batch(at, xs)], nextGeneration := Following(g)), [ArmTimer(g, at)])
  }

  /** The four queues of a lost link: parked, dropped, moved, dropped. */
  function Disband(f: Fwd, now: Time, q: seq<seq<Queued>>): Effect
    requires |q| == 4
  {
    var parked := Park(f, now, q[0]);
    var early := Then(parked, Act(parked.fwd, DropAll(q[1], LinkIsDown)));
    var moved := Then(early, RerouteOrDrop(early.fwd, q[2]));
    Then(moved, Act(moved.fwd, DropAll(q[3], LinkIsDown)))
  }

  function HandleLinkDown(f: Fwd, now: Time, link: LinkId): Effect {
    var closed := f.(down := f.down + {link}, links := f.links - {link});
    if link in f.links then Disband(closed, now, f.links[link].queues) else Act(closed, [])
  }

  /** Retrying one batch: it expires as a whole, or moves what it can and keeps waiting with the rest. */
  function RetryBatch(f: Fwd, now: Time, g: Id, batch: Batch): Effect {
    if batch.expiresAt <= now then Act(f, DropAll(batch.packets, RouteWaitExpired))
    else
      var r := RerouteAll(f, batch.packets);
      if r.unresolved == [] then r.effect
      else r.effect.(fwd := r.effect.fwd.(pending := r.effect.fwd.pending[g := Batch(batch.expiresAt, r.unresolved)]))
  }

  /** Retries the waiting batches in order; `f` holds those already retried. */
  function RetryBatches(f: Fwd, now: Time, batches: map<Id, Batch>, order: seq<Id>): Effect
    requires forall g :: g in order ==> g in batches
    decreases |order|
  {
    if order == [] then Act(f, [])
    else
      var here := RetryBatch(f, now, order[0], batches[order[0]]);
      Then(here, RetryBatches(here.fwd, now, batches, order[1..]))
  }

  /** Down links are remembered only while a route still points at them. */
  function StillUsed(down: set<LinkId>, routes: map<NodeId, Route>): set<LinkId> {
    set k | k in down && exists d :: d in routes && routes[d].nextHop == k
  }

  function HandleRoutesUpdated(f: Fwd, now: Time, routes: map<NodeId, Route>): Effect {
    var updated := f.(routes := routes, down := StillUsed(f.down, routes), pending := map[]);
    RetryBatches(updated, now, f.pending, Ascending(f.pending.Keys))
  }

  function HandlePendingTimer(f: Fwd, now: Time, g: Id): Effect {
    if g !in f.pending then Act(f, [])
    else if now < f.pending[g].expiresAt then Act(f, [ArmTimer(g, f.pending[g].expiresAt)])
    else Act(f.(pending := f.pending - {g}), DropAll(f.pending[g].packets, RouteWaitExpired))
  }

  function Handle(f: Fwd, now: Time, event: ForwardEvent): Effect {
    match event
    case Outbound(p) => ProcessPacket(f, None, p)
    case OutboundMulticast(ds, p) => ProcessOutboundMulticast(f, ds, p)
    case Inbound(link, p) => ProcessPacket(f, Some(link), p)
    case RoutesUpdated(routes) => HandleRoutesUpdated(f, now, routes)
    case LinkCredit(link, bytes) => Permit(f, link, AddCredit(bytes))
    case LinkWritable(link) => Permit(f, link, AllowWrite)
    case LinkDown(link) => HandleLinkDown(f, now, link)
    case PendingTimer(g) => HandlePendingTimer(f, now, g)
  }
}
