/**
 * TTL bounds the work a packet can cause: in a network of forwarders with any
 * route tables, however they change, each claim is carried over links at most
 * as often as the TTL it was injected with.
 */
module TtlBound {
  import opened MeshTypes
  import opened Packets
  import opened Scheduler
  import opened Forwarding
  import opened MapSums
  import opened Weights
  import opened Conservation
  import Runs

  /** Transmissions a queued copy of the claim can still cause: the one it waits for, and its remaining hops. */
  ghost function Work(c: Claim): Weight {
    (x: Item) => if x.parcel == c.parcel && x.destination == c.destination then x.ttl + 1 else 0
  }

  /** Transmissions a copy in transit can still cause. */
  ghost function Hops(c: Claim): Weight {
    (x: Item) => if x.parcel == c.parcel && x.destination == c.destination then x.ttl as nat else 0
  }

  lemma {:induction false} WorkIsHopsAndOne(c: Claim, parcel: Parcel, ttl: byte, ds: seq<NodeId>)
    ensures ListWeight(Work(c), parcel, ttl, ds) == ListWeight(Hops(c), parcel, ttl, ds) + ListWeight(Counting(c), parcel, ttl, ds)
  {
    if ds != [] {
      WorkIsHopsAndOne(c, parcel, ttl, ds[1..]);
    }
  }

  /** Leaving on a link costs a hop. */
  lemma {:induction false} SendingCosts(c: Claim, parcel: Parcel, ttl: byte, ds: seq<NodeId>, verdict: NodeId -> Verdict)
    requires ttl > 0
    ensures ViaWeight(Work(c), parcel, ttl - 1, ds, verdict) <= ListWeight(Hops(c), parcel, ttl, ds)
  {
    if ds != [] {
      SendingCosts(c, parcel, ttl, ds[1..], verdict);
    }
  }

  ghost function Transmitted(g: Weight, actions: seq<ForwardAction>): nat {
    if actions == [] then 0
    else (if actions[0].Transmit? then PacketWeight(g, actions[0].packet) else 0) + Transmitted(g, actions[1..])
  }

  lemma {:induction false} TransmittedAtMost(g: Weight, actions: seq<ForwardAction>)
    ensures Transmitted(g, actions) <= ActionsWeight(g, actions)
  {
    if actions != [] {
      TransmittedAtMost(g, actions[1..]);
    }
  }

  lemma {:induction false} TransmittedAdd(g: Weight, a: seq<ForwardAction>, b: seq<ForwardAction>)
    ensures Transmitted(g, a + b) == Transmitted(g, a) + Transmitted(g, b)
  {
    FirstOfSum(a, b);
    if a != [] {
      TransmittedAdd(g, a[1..], b);
    }
  }

  lemma {:induction false} NothingTransmitted(g: Weight, actions: seq<ForwardAction>)
    requires forall a :: a in actions ==> !a.Transmit?
    ensures Transmitted(g, actions) == 0
  {
    if actions != [] {
      NothingTransmitted(g, actions[1..]);
    }
  }

  /**
   * Rerouting and waiting cost no TTL: across a route update, a link loss or a
   * timer, the items held before, hops included, are those held after, sent,
   * delivered, dropped, refused or overwritten.
   */
  lemma ReroutingKeepsTtl(g: Weight, f: Fwd, now: Time, event: ForwardEvent)
    requires |f.pending| < GENERATIONS && (event.RoutesUpdated? || event.LinkDown? || event.PendingTimer?)
    ensures var e := Handle(f, now, event);
            StateWeight(g, f) == StateWeight(g, e.fwd) + ActionsWeight(g, e.actions) + LostWeight(g, e.lost)
  {
    HandleBalances(g, f, now, event);
  }

  /** The work held after the event, and the work sent off by it, do not exceed the work before and `input`. */
  ghost predicate WorkBounded(c: Claim, f: Fwd, input: nat, e: Effect) {
    StateWeight(Work(c), e.fwd) + Transmitted(Work(c), e.actions) <= StateWeight(Work(c), f) + input
  }

  lemma BalancedIsBounded(c: Claim, f: Fwd, input: nat, e: Effect)
    requires Balanced(Work(c), f, input, e)
    ensures WorkBounded(c, f, input, e)
  {
    TransmittedAtMost(Work(c), e.actions);
  }

  lemma SplitWork(c: Claim, f: Fwd, incoming: Option<LinkId>, p: Packet, ds: seq<NodeId>)
    requires p.header.ttl > 0 && StrictlyAscending(ds)
    ensures WorkBounded(c, f, ListWeight(Hops(c), ParcelOf(p), p.header.ttl, ds), SplitMulticast(f, incoming, p, Ok(ds)))
  {
    var verdict, ttl := DecideAt(f, incoming), p.header.ttl - 1;
    var out, staying := FanOut(f, incoming, p, ds, verdict, ttl, LinksFor(ds, verdict)), Staying(f.me, p, ds, verdict);
    FanOutBalances(Work(c), f, incoming, p, ds, verdict, ttl, LinksFor(ds, verdict));
    LinksCover(Work(c), ParcelOf(p), ttl, ds, verdict);
    SendingCosts(c, ParcelOf(p), p.header.ttl, ds, verdict);
    TransmittedAtMost(Work(c), out.actions);
    StayingTransmitsNothing(Work(c), f.me, p, ds, verdict);
    TransmittedAdd(Work(c), staying, out.actions);
  }

  lemma StayingTransmitsNothing(g: Weight, me: NodeId, p: Packet, ds: seq<NodeId>, verdict: NodeId -> Verdict)
    ensures Transmitted(g, Staying(me, p, ds, verdict)) == 0
  {
    var a, b, d := LocalDelivery(me, p, ds, verdict), DropPart(p, Select(ds, verdict, Unroutable), NoRoute),
                   DropPart(p, Select(ds, verdict, Looping), LoopDetected);
    NothingTransmitted(g, a);
    NothingTransmitted(g, b);
    NothingTransmitted(g, d);
    TransmittedAdd(g, a, b);
    TransmittedAdd(g, a + b, d);
  }

  lemma SplitWorkOf(c: Claim, f: Fwd, incoming: Option<LinkId>, p: Packet, m: Result<seq<NodeId>, MulticastError>)
    requires p.header.ttl > 0 && p.header.packetType.Multicast?
    requires m.Ok? ==> StrictlyAscending(m.value) && multiset(m.value) == multiset(p.destinations)
    ensures WorkBounded(c, f, PacketWeight(Hops(c), p), SplitMulticast(f, incoming, p, m))
  {
    if m.Ok? {
      SplitWork(c, f, incoming, p, m.value);
      ListPermutes(Hops(c), ParcelOf(p), p.header.ttl, m.value, p.destinations);
    } else {
      NothingTransmitted(Work(c), [Drop(InvalidMulticast(m.error), p)]);
    }
  }

  lemma UnicastWork(c: Claim, f: Fwd, incoming: Option<LinkId>, p: Packet)
    requires p.header.ttl > 0 && p.header.packetType.Unicast?
    ensures WorkBounded(c, f, PacketWeight(Hops(c), p), ForwardUnicast(f, incoming, p))
  {
    var e := ForwardUnicast(f, incoming, p);
    match Decide(f.me, f.routes, f.down, incoming, p.header.destination)
    case Via(link) =>
      var q := p.(header := p.header.(ttl := p.header.ttl - 1));
      EnqueueBalances(Work(c), f, link, Queued(incoming, q));
      ListSingle(Work(c), ParcelOf(p), p.header.ttl - 1, p.header.destination);
      ListSingle(Hops(c), ParcelOf(p), p.header.ttl, p.header.destination);
      TransmittedAtMost(Work(c), e.actions);
    case _ => NothingTransmitted(Work(c), e.actions);
  }

  /** A packet that comes in brings at most its hops; rerouting and waiting cost none. */
  lemma ProcessWork(c: Claim, f: Fwd, incoming: Option<LinkId>, p: Packet)
    ensures WorkBounded(c, f, PacketWeight(Hops(c), p), ProcessPacket(f, incoming, p))
  {
    if p.header.ttl > 0 && p.header.packetType.Unicast? {
      UnicastWork(c, f, incoming, p);
    } else if p.header.ttl > 0 && p.header.packetType.Multicast? {
      CanonicalizeSpec(p.destinations);
      SplitWorkOf(c, f, incoming, p, MulticastPayload(p.destinations, p.payload));
    } else {
      NothingTransmitted(Work(c), ProcessPacket(f, incoming, p).actions);
    }
  }

  /** The hops an event's packet brings for the claim. */
  ghost function HopsBrought(c: Claim, event: ForwardEvent): nat {
    match event
    case Outbound(p) => PacketWeight(Hops(c), p)
    case Inbound(_, p) => PacketWeight(Hops(c), p)
    case OutboundMulticast(ds, p) => ListWeight(Hops(c), ParcelOf(p), p.header.ttl, ds)
    case _ => 0
  }

  lemma HandleWork(c: Claim, f: Fwd, now: Time, event: ForwardEvent)
    requires |f.pending| < GENERATIONS
    ensures WorkBounded(c, f, HopsBrought(c, event), Handle(f, now, event))
  {
    match event
    case Outbound(p) => ProcessWork(c, f, None, p);
    case Inbound(link, p) => ProcessWork(c, f, Some(link), p);
    case OutboundMulticast(ds, p) =>
      var m := MulticastPayload(ds, p.payload);
      if m.Ok? {
        CanonicalizeSpec(ds);
        ProcessWork(c, f, None, Addressed(p).(destinations := m.value));
        ListPermutes(Hops(c), ParcelOf(p), p.header.ttl, m.value, ds);
      } else {
        NothingTransmitted(Work(c), Handle(f, now, event).actions);
      }
    case _ =>
      HandleBalances(Work(c), f, now, event);
      BalancedIsBounded(c, f, 0, Handle(f, now, event));
  }

  // ------------------------------------------------------------ networks of forwarders

  /** `carried` and `budget` account for one fixed claim: transmissions so far, and hops injected so far. */
  datatype Mesh = Mesh(nodes: map<NodeId, Fwd>, transit: seq<Packet>, carried: nat, budget: nat)

  datatype MeshMove =
    | Raise(node: NodeId, now: Time, event: ForwardEvent)
    | Receive(node: NodeId, now: Time, link: LinkId, index: nat)
    | Vanish(index: nat)

  function Sent(actions: seq<ForwardAction>): seq<Packet> {
    if actions == [] then []
    else (if actions[0].Transmit? then [actions[0].packet] else []) + Sent(actions[1..])
  }

  function Removed(transit: seq<Packet>, i: nat): seq<Packet>
    requires i < |transit|
  {
    transit[..i] + transit[i + 1..]
  }

  ghost function Reacted(c: Claim, m: Mesh, n: NodeId, e: Effect, transit: seq<Packet>, injected: nat): Mesh {
    Mesh(m.nodes[n := e.fwd], transit + Sent(e.actions), m.carried + Transmitted(Counting(c), e.actions), m.budget + injected)
  }

  /** Any node may raise any event, and any packet in transit may arrive anywhere, on any link, or vanish. */
  ghost predicate MeshNext(c: Claim, m: Mesh, move: MeshMove, m': Mesh) {
    match move
    case Raise(n, now, event) =>
      && n in m.nodes && |m.nodes[n].pending| < GENERATIONS && !event.Inbound?
      && m' == Reacted(c, m, n, Handle(m.nodes[n], now, event), m.transit, HopsBrought(c, event))
    case Receive(n, now, link, i) =>
      && n in m.nodes && |m.nodes[n].pending| < GENERATIONS && i < |m.transit|
      && m' == Reacted(c, m, n, Handle(m.nodes[n], now, Inbound(link, m.transit[i])), Removed(m.transit, i), 0)
    case Vanish(i) => i < |m.transit| && m' == m.(transit := Removed(m.transit, i))
  }

  ghost function OnNodes(c: Claim): Fwd -> nat {
    (f: Fwd) => StateWeight(Work(c), f)
  }

  ghost predicate WithinBudget(c: Claim, m: Mesh) {
    m.carried + MapSum(m.nodes, OnNodes(c)) + LostWeight(Hops(c), m.transit) <= m.budget
  }

  lemma LostSingle(g: Weight, p: Packet)
    ensures LostWeight(g, [p]) == PacketWeight(g, p)
  {
    assert [p][1..] == [] && LostWeight(g, []) == 0;
  }

  lemma {:induction false} SentWeight(c: Claim, actions: seq<ForwardAction>)
    ensures Transmitted(Work(c), actions) == LostWeight(Hops(c), Sent(actions)) + Transmitted(Counting(c), actions)
  {
    if actions != [] {
      SentWeight(c, actions[1..]);
      if actions[0].Transmit? {
        var p := actions[0].packet;
        WorkIsHopsAndOne(c, ParcelOf(p), p.header.ttl, Dests(p));
        LostAdd(Hops(c), [p], Sent(actions[1..]));
        LostSingle(Hops(c), p);
        assert Sent(actions) == [p] + Sent(actions[1..]);
      } else {
        assert Sent(actions) == Sent(actions[1..]);
      }
    }
  }

  lemma RemovedWeight(g: Weight, transit: seq<Packet>, i: nat)
    requires i < |transit|
    ensures LostWeight(g, Removed(transit, i)) + PacketWeight(g, transit[i]) == LostWeight(g, transit)
  {
    var p := transit[i];
    assert transit == transit[..i] + ([p] + transit[i + 1..]);
    LostAdd(g, transit[..i], [p] + transit[i + 1..]);
    LostAdd(g, [p], transit[i + 1..]);
    LostAdd(g, transit[..i], transit[i + 1..]);
    LostSingle(g, p);
  }

  lemma ReactionWithinBudget(c: Claim, m: Mesh, n: NodeId, now: Time, event: ForwardEvent, transit: seq<Packet>, injected: nat)
    requires WithinBudget(c, m) && n in m.nodes && |m.nodes[n].pending| < GENERATIONS
    requires LostWeight(Hops(c), transit) + HopsBrought(c, event) <= LostWeight(Hops(c), m.transit) + injected
    ensures WithinBudget(c, Reacted(c, m, n, Handle(m.nodes[n], now, event), transit, injected))
  {
    var e := Handle(m.nodes[n], now, event);
    HandleWork(c, m.nodes[n], now, event);
    MapSumUpdate(m.nodes, n, e.fwd, OnNodes(c));
    SentWeight(c, e.actions);
    LostAdd(Hops(c), transit, Sent(e.actions));
  }

  lemma MeshStep(c: Claim, m: Mesh, move: MeshMove, m': Mesh)
    requires WithinBudget(c, m) && MeshNext(c, m, move, m')
    ensures WithinBudget(c, m')
  {
    match move
    case Raise(n, now, event) => ReactionWithinBudget(c, m, n, now, event, m.transit, HopsBrought(c, event));
    case Receive(n, now, link, i) =>
      RemovedWeight(Hops(c), m.transit, i);
      ReactionWithinBudget(c, m, n, now, Inbound(link, m.transit[i]), Removed(m.transit, i), 0);
    case Vanish(i) => RemovedWeight(Hops(c), m.transit, i);
  }

  /** On every run, a claim is carried at most as often as the hops injected for it allow. */
  lemma {:induction false} CarriedAtMostBudget(c: Claim, meshes: seq<Mesh>, moves: seq<MeshMove>, i: nat)
    requires Runs.Chain(meshes, moves, (m, move, m') => MeshNext(c, m, move, m')) && WithinBudget(c, meshes[0]) && i <= |moves|
    ensures WithinBudget(c, meshes[i]) && meshes[i].carried <= meshes[i].budget
    decreases i
  {
    if i > 0 {
      CarriedAtMostBudget(c, meshes, moves, i - 1);
      MeshStep(c, meshes[i - 1], moves[i - 1], meshes[i]);
    }
  }
}
