/** Every event conserves what is owed: splitting is an exact partition, and nothing is lost but to conflation. */
module Conservation {
  import opened MeshTypes
  import opened ControlData
  import opened Packets
  import opened Scheduler
  import opened Forwarding
  import opened MapSums
  import opened Weights

  // ------------------------------------------------------------ partitioning a destination list

  /** Destinations that go out on a link are weighed with `sent` hops left, the others with `kept`. */
  ghost function RoutedWeight(g: Weight, parcel: Parcel, kept: byte, sent: byte, ds: seq<NodeId>, verdict: NodeId -> Verdict): nat {
    if ds == [] then 0
    else g(Item(parcel, ds[0], if verdict(ds[0]).Via? then sent else kept)) + RoutedWeight(g, parcel, kept, sent, ds[1..], verdict)
  }

  ghost function ViaWeight(g: Weight, parcel: Parcel, ttl: byte, ds: seq<NodeId>, verdict: NodeId -> Verdict): nat {
    if ds == [] then 0
    else (if verdict(ds[0]).Via? then g(Item(parcel, ds[0], ttl)) else 0) + ViaWeight(g, parcel, ttl, ds[1..], verdict)
  }

  lemma {:induction false} ListAdd(g: Weight, parcel: Parcel, ttl: byte, a: seq<NodeId>, b: seq<NodeId>)
    ensures ListWeight(g, parcel, ttl, a + b) == ListWeight(g, parcel, ttl, a) + ListWeight(g, parcel, ttl, b)
  {
    FirstOfSum(a, b);
    if a != [] {
      ListAdd(g, parcel, ttl, a[1..], b);
    }
  }

  lemma ListSingle(g: Weight, parcel: Parcel, ttl: byte, d: NodeId)
    ensures ListWeight(g, parcel, ttl, [d]) == g(Item(parcel, d, ttl))
  {
    assert [d][1..] == [] && ListWeight(g, parcel, ttl, []) == 0;
  }

  /** The verdicts partition the list. */
  lemma {:induction false} VerdictsPartition(g: Weight, parcel: Parcel, kept: byte, sent: byte, ds: seq<NodeId>, verdict: NodeId -> Verdict)
    ensures RoutedWeight(g, parcel, kept, sent, ds, verdict)
         == ListWeight(g, parcel, kept, Select(ds, verdict, Local))
          + ListWeight(g, parcel, kept, Select(ds, verdict, Unroutable))
          + ListWeight(g, parcel, kept, Select(ds, verdict, Looping))
          + ViaWeight(g, parcel, sent, ds, verdict)
    ensures ListWeight(g, parcel, kept, Stuck(ds, verdict))
         == ListWeight(g, parcel, kept, Select(ds, verdict, Unroutable)) + ListWeight(g, parcel, kept, Select(ds, verdict, Looping))
  {
    if ds != [] {
      VerdictsPartition(g, parcel, kept, sent, ds[1..], verdict);
      SelectHead(g, parcel, kept, ds, verdict, Local);
      SelectHead(g, parcel, kept, ds, verdict, Unroutable);
      SelectHead(g, parcel, kept, ds, verdict, Looping);
      StuckHead(g, parcel, kept, ds, verdict);
    }
  }

  lemma SelectHead(g: Weight, parcel: Parcel, ttl: byte, ds: seq<NodeId>, verdict: NodeId -> Verdict, v: Verdict)
    requires ds != []
    ensures ListWeight(g, parcel, ttl, Select(ds, verdict, v))
         == ListWeight(g, parcel, ttl, Select(ds[1..], verdict, v)) + (if verdict(ds[0]) == v then g(Item(parcel, ds[0], ttl)) else 0)
  {
    ListAdd(g, parcel, ttl, if verdict(ds[0]) == v then [ds[0]] else [], Select(ds[1..], verdict, v));
    ListSingle(g, parcel, ttl, ds[0]);
  }

  lemma StuckHead(g: Weight, parcel: Parcel, ttl: byte, ds: seq<NodeId>, verdict: NodeId -> Verdict)
    requires ds != []
    ensures ListWeight(g, parcel, ttl, Stuck(ds, verdict))
         == ListWeight(g, parcel, ttl, Stuck(ds[1..], verdict))
          + (if verdict(ds[0]).Unroutable? || verdict(ds[0]).Looping? then g(Item(parcel, ds[0], ttl)) else 0)
  {
    var stuck := verdict(ds[0]).Unroutable? || verdict(ds[0]).Looping?;
    ListAdd(g, parcel, ttl, if stuck then [ds[0]] else [], Stuck(ds[1..], verdict));
    ListSingle(g, parcel, ttl, ds[0]);
  }

  /** The branches of a fan-out, weighed together. */
  ghost function GroupSum(g: Weight, parcel: Parcel, ttl: byte, ds: seq<NodeId>, verdict: NodeId -> Verdict, links: seq<LinkId>): nat {
    if links == [] then 0
    else ListWeight(g, parcel, ttl, Select(ds, verdict, Via(links[0]))) + GroupSum(g, parcel, ttl, ds, verdict, links[1..])
  }

  lemma {:induction false} GroupHead(g: Weight, parcel: Parcel, ttl: byte, ds: seq<NodeId>, verdict: NodeId -> Verdict, links: seq<LinkId>)
    requires ds != [] && StrictlyAscending(links)
    ensures GroupSum(g, parcel, ttl, ds, verdict, links)
         == GroupSum(g, parcel, ttl, ds[1..], verdict, links)
          + (if verdict(ds[0]).Via? && verdict(ds[0]).link in links then g(Item(parcel, ds[0], ttl)) else 0)
    decreases |links|
  {
    if links != [] {
      SelectHead(g, parcel, ttl, ds, verdict, Via(links[0]));
      GroupHead(g, parcel, ttl, ds, verdict, links[1..]);
    }
  }

  /** Each routed destination is in the branch of exactly one link. */
  lemma {:induction false} GroupsCover(g: Weight, parcel: Parcel, ttl: byte, ds: seq<NodeId>, verdict: NodeId -> Verdict, links: seq<LinkId>)
    requires StrictlyAscending(links)
    requires forall d :: d in ds && verdict(d).Via? ==> verdict(d).link in links
    ensures GroupSum(g, parcel, ttl, ds, verdict, links) == ViaWeight(g, parcel, ttl, ds, verdict)
    decreases |ds|
  {
    if ds == [] {
      EmptyGroups(g, parcel, ttl, verdict, links);
    } else {
      GroupHead(g, parcel, ttl, ds, verdict, links);
      GroupsCover(g, parcel, ttl, ds[1..], verdict, links);
    }
  }

  lemma {:induction false} EmptyGroups(g: Weight, parcel: Parcel, ttl: byte, verdict: NodeId -> Verdict, links: seq<LinkId>)
    ensures GroupSum(g, parcel, ttl, [], verdict, links) == 0
  {
    if links != [] {
      EmptyGroups(g, parcel, ttl, verdict, links[1..]);
    }
  }

  lemma LinksCover(g: Weight, parcel: Parcel, ttl: byte, ds: seq<NodeId>, verdict: NodeId -> Verdict)
    ensures GroupSum(g, parcel, ttl, ds, verdict, LinksFor(ds, verdict)) == ViaWeight(g, parcel, ttl, ds, verdict)
  {
    AscendingFacts(set d | d in ds && verdict(d).Via? :: verdict(d).link);
    GroupsCover(g, parcel, ttl, ds, verdict, LinksFor(ds, verdict));
  }

  /** A canonical list names this node at most once. */
  lemma {:induction false} LocalOnce(ds: seq<NodeId>, verdict: NodeId -> Verdict, me: NodeId)
    requires StrictlyAscending(ds) && forall d :: verdict(d) == Local <==> d == me
    ensures Select(ds, verdict, Local) == if me in ds then [me] else []
  {
    if ds != [] {
      LocalOnce(ds[1..], verdict, me);
      assert ds == [ds[0]] + ds[1..];
    }
  }

  lemma ListRemove(g: Weight, parcel: Parcel, ttl: byte, b: seq<NodeId>, i: nat)
    requires i < |b|
    ensures ListWeight(g, parcel, ttl, b) == g(Item(parcel, b[i], ttl)) + ListWeight(g, parcel, ttl, b[..i] + b[i + 1..])
    ensures multiset(b[..i] + b[i + 1..]) == multiset(b) - multiset{b[i]}
  {
    assert b == b[..i] + ([b[i]] + b[i + 1..]);
    ListAdd(g, parcel, ttl, b[..i], [b[i]] + b[i + 1..]);
    ListAdd(g, parcel, ttl, [b[i]], b[i + 1..]);
    ListAdd(g, parcel, ttl, b[..i], b[i + 1..]);
    ListSingle(g, parcel, ttl, b[i]);
  }

  /** The weight of a list does not depend on its order. */
  lemma RemoveOne(a: seq<NodeId>, i: nat)
    requires i < |a|
    ensures multiset(a[..i] + a[i + 1..]) == multiset(a) - multiset{a[i]}
  {
    assert a == a[..i] + ([a[i]] + a[i + 1..]);
  }

  lemma RestPermutes(a: seq<NodeId>, b: seq<NodeId>) returns (i: nat)
    requires multiset(a) == multiset(b) && a != []
    ensures i < |b| && b[i] == a[0] && multiset(a[1..]) == multiset(b[..i] + b[i + 1..])
  {
    assert a[0] in multiset(b);
    i :| 0 <= i < |b| && b[i] == a[0];
    RemoveOne(a, 0);
    RemoveOne(b, i);
    assert a[..0] + a[1..] == a[1..];
  }

  lemma {:induction false} ListPermutes(g: Weight, parcel: Parcel, ttl: byte, a: seq<NodeId>, b: seq<NodeId>)
    requires multiset(a) == multiset(b)
    ensures ListWeight(g, parcel, ttl, a) == ListWeight(g, parcel, ttl, b)
    decreases |a|
  {
    if a == [] {
      assert |b| == |multiset(b)| == 0;
    } else {
      var i := RestPermutes(a, b);
      ListRemove(g, parcel, ttl, a, 0);
      ListRemove(g, parcel, ttl, b, i);
      assert a[..0] + a[1..] == a[1..];
      ListPermutes(g, parcel, ttl, a[1..], b[..i] + b[i + 1..]);
    }
  }

  // ------------------------------------------------------------ fanning out

  lemma {:induction false} FanOutBalances(
    g: Weight, f: Fwd, incoming: Option<LinkId>, p: Packet, ds: seq<NodeId>, verdict: NodeId -> Verdict, ttl: byte, links: seq<LinkId>)
    ensures Balanced(g, f, GroupSum(g, ParcelOf(p), ttl, ds, verdict, links), FanOut(f, incoming, p, ds, verdict, ttl, links))
    decreases |links|
  {
    if links != [] {
      var x := Queued(incoming, Subset(p, Select(ds, verdict, Via(links[0])), ttl));
      var branch := Enqueue(f, links[0], x);
      EnqueueBalances(g, f, links[0], x);
      FanOutBalances(g, branch.fwd, incoming, p, ds, verdict, ttl, links[1..]);
      ThenBalances(g, f, branch, FanOut(branch.fwd, incoming, p, ds, verdict, ttl, links[1..]),
                   PacketWeight(g, x.packet), GroupSum(g, ParcelOf(p), ttl, ds, verdict, links[1..]));
    }
  }

  // ------------------------------------------------------------ packets from outside

  /** The packet is dropped whole before any routing decision. */
  predicate Refused(p: Packet) {
    || p.header.ttl == 0
    || (p.header.packetType.Multicast? && MulticastPayload(p.destinations, p.payload).Err?)
    || p.header.packetType.CircuitData? || p.header.packetType.CircuitControl?
  }

  /** An incoming packet, weighed with the hops its destinations will have left after this node. */
  ghost function InputWeight(g: Weight, f: Fwd, incoming: Option<LinkId>, p: Packet): nat {
    if Refused(p) then PacketWeight(g, p)
    else if p.header.packetType.Unicast? then RoutedInput(g, f, incoming, p, [p.header.destination])
    else RoutedInput(g, f, incoming, p, MulticastPayload(p.destinations, p.payload).value)
  }

  ghost function RoutedInput(g: Weight, f: Fwd, incoming: Option<LinkId>, p: Packet, ds: seq<NodeId>): nat
    requires p.header.ttl > 0
  {
    RoutedWeight(g, ParcelOf(p), p.header.ttl, p.header.ttl - 1, ds, DecideAt(f, incoming))
  }

  lemma UnicastBalances(g: Weight, f: Fwd, incoming: Option<LinkId>, p: Packet)
    requires p.header.packetType.Unicast? && p.header.ttl > 0
    ensures Balanced(g, f, InputWeight(g, f, incoming, p), ForwardUnicast(f, incoming, p))
  {
    var d, verdict := p.header.destination, DecideAt(f, incoming);
    ListSingle(g, ParcelOf(p), p.header.ttl, d);
    ListSingle(g, ParcelOf(p), p.header.ttl - 1, d);
    assert [d][1..] == [] && RoutedWeight(g, ParcelOf(p), p.header.ttl, p.header.ttl - 1, [], verdict) == 0;
    match verdict(d)
    case Local => SingleAction(g, f, DeliverLocal(p));
    case Unroutable => SingleAction(g, f, Drop(NoRoute, p));
    case Looping => SingleAction(g, f, Drop(LoopDetected, p));
    case Via(link) => EnqueueBalances(g, f, link, Queued(incoming, p.(header := p.header.(ttl := p.header.ttl - 1))));
  }

  lemma LocalWeight(g: Weight, f: Fwd, p: Packet, ds: seq<NodeId>, verdict: NodeId -> Verdict)
    requires StrictlyAscending(ds) && forall d :: verdict(d) == Local <==> d == f.me
    ensures ActionsWeight(g, LocalDelivery(f.me, p, ds, verdict)) == ListWeight(g, ParcelOf(p), p.header.ttl, Select(ds, verdict, Local))
  {
    LocalOnce(ds, verdict, f.me);
    ListSingle(g, ParcelOf(p), p.header.ttl, f.me);
    SingleAction(g, f, DeliverLocal(LocalCopy(p, f.me)));
  }

  lemma DropWeight(g: Weight, f: Fwd, p: Packet, ds: seq<NodeId>, reason: DropReason)
    ensures ActionsWeight(g, DropPart(p, ds, reason)) == ListWeight(g, ParcelOf(p), p.header.ttl, ds)
  {
    SingleAction(g, f, Drop(reason, Subset(p, ds, p.header.ttl)));
  }

  lemma StayingWeight(g: Weight, f: Fwd, p: Packet, ds: seq<NodeId>, verdict: NodeId -> Verdict)
    requires StrictlyAscending(ds) && forall d :: verdict(d) == Local <==> d == f.me
    ensures ActionsWeight(g, Staying(f.me, p, ds, verdict))
         == ListWeight(g, ParcelOf(p), p.header.ttl, Select(ds, verdict, Local))
          + ListWeight(g, ParcelOf(p), p.header.ttl, Select(ds, verdict, Unroutable))
          + ListWeight(g, ParcelOf(p), p.header.ttl, Select(ds, verdict, Looping))
  {
    var a, b, c := LocalDelivery(f.me, p, ds, verdict), DropPart(p, Select(ds, verdict, Unroutable), NoRoute),
                   DropPart(p, Select(ds, verdict, Looping), LoopDetected);
    LocalWeight(g, f, p, ds, verdict);
    DropWeight(g, f, p, Select(ds, verdict, Unroutable), NoRoute);
    DropWeight(g, f, p, Select(ds, verdict, Looping), LoopDetected);
    ActionsAdd(g, a + b, c);
    ActionsAdd(g, a, b);
  }

  /** A canonical list splits into what stays and one branch per link. */
  lemma SplitBalances(g: Weight, f: Fwd, incoming: Option<LinkId>, p: Packet, ds: seq<NodeId>, sent: byte)
    requires StrictlyAscending(ds)
    ensures var verdict := DecideAt(f, incoming);
            Balanced(g, f, RoutedWeight(g, ParcelOf(p), p.header.ttl, sent, ds, verdict),
                     Then(Act(f, Staying(f.me, p, ds, verdict)), FanOut(f, incoming, p, ds, verdict, sent, LinksFor(ds, verdict))))
  {
    var verdict := DecideAt(f, incoming);
    var staying, links := Staying(f.me, p, ds, verdict), LinksFor(ds, verdict);
    StayingWeight(g, f, p, ds, verdict);
    VerdictsPartition(g, ParcelOf(p), p.header.ttl, sent, ds, verdict);
    LinksCover(g, ParcelOf(p), sent, ds, verdict);
    FanOutBalances(g, f, incoming, p, ds, verdict, sent, links);
    ThenBalances(g, f, Act(f, staying), FanOut(f, incoming, p, ds, verdict, sent, links),
                 ActionsWeight(g, staying), GroupSum(g, ParcelOf(p), sent, ds, verdict, links));
  }

  lemma MulticastBalances(g: Weight, f: Fwd, incoming: Option<LinkId>, p: Packet, m: Result<seq<NodeId>, MulticastError>)
    requires p.header.ttl > 0 && (m.Ok? ==> StrictlyAscending(m.value))
    ensures Balanced(g, f, if m.Err? then PacketWeight(g, p) else RoutedInput(g, f, incoming, p, m.value), SplitMulticast(f, incoming, p, m))
  {
    if m.Err? {
      SingleAction(g, f, Drop(InvalidMulticast(m.error), p));
    } else {
      SplitBalances(g, f, incoming, p, m.value, p.header.ttl - 1);
    }
  }

  lemma ProcessBalances(g: Weight, f: Fwd, incoming: Option<LinkId>, p: Packet)
    ensures Balanced(g, f, InputWeight(g, f, incoming, p), ProcessPacket(f, incoming, p))
  {
    if p.header.ttl == 0 {
      SingleAction(g, f, Drop(TtlExceeded, p));
    } else {
      match p.header.packetType
      case Unicast => UnicastBalances(g, f, incoming, p);
      case Multicast =>
        var m := MulticastPayload(p.destinations, p.payload);
        if m.Ok? {
          PayloadIsCanonical(p.destinations, p.payload);
        }
        MulticastBalances(g, f, incoming, p, m);
      case other => SingleAction(g, f, Drop(UnsupportedPacketType(other), p));
    }
  }

  // ------------------------------------------------------------ rerouting

  /** What was held and what was moved is held, acted on, lost, or left unresolved. */
  ghost predicate MoveBalanced(g: Weight, f: Fwd, input: nat, r: Rerouted) {
    StateWeight(g, f) + input == StateWeight(g, r.effect.fwd) + OutWeight(g, r.effect) + QueueWeight(g, r.unresolved)
  }

  lemma RerouteUnicastBalances(g: Weight, f: Fwd, x: Queued)
    requires x.packet.header.packetType.Unicast?
    ensures MoveBalanced(g, f, PacketWeight(g, x.packet), RerouteUnicast(f, x))
  {
    QueueSingle(g, x);
    ListSingle(g, ParcelOf(x.packet), x.packet.header.ttl, x.packet.header.destination);
    match Decide(f.me, f.routes, f.down, x.incoming, x.packet.header.destination)
    case Local => SingleAction(g, f, DeliverLocal(x.packet));
    case Via(link) => EnqueueBalances(g, f, link, x);
    case _ =>
  }

  lemma ResplitBalances(g: Weight, f: Fwd, x: Queued, ds: seq<NodeId>)
    requires StrictlyAscending(ds)
    ensures MoveBalanced(g, f, ListWeight(g, ParcelOf(x.packet), x.packet.header.ttl, ds), ResplitMulticast(f, x, Ok(ds)))
  {
    var p, verdict := x.packet, DecideAt(f, x.incoming);
    var local, links, ttl := LocalDelivery(f.me, p, ds, verdict), LinksFor(ds, verdict), p.header.ttl;
    LocalWeight(g, f, p, ds, verdict);
    VerdictsPartition(g, ParcelOf(p), ttl, ttl, ds, verdict);
    SameLabel(g, ParcelOf(p), ttl, ds, verdict);
    LinksCover(g, ParcelOf(p), ttl, ds, verdict);
    FanOutBalances(g, f, x.incoming, p, ds, verdict, ttl, links);
    ThenBalances(g, f, Act(f, local), FanOut(f, x.incoming, p, ds, verdict, ttl, links),
                 ActionsWeight(g, local), GroupSum(g, ParcelOf(p), ttl, ds, verdict, links));
    QueueSingle(g, Queued(x.incoming, Subset(p, Stuck(ds, verdict), ttl)));
  }

  lemma {:induction false} SameLabel(g: Weight, parcel: Parcel, ttl: byte, ds: seq<NodeId>, verdict: NodeId -> Verdict)
    ensures RoutedWeight(g, parcel, ttl, ttl, ds, verdict) == ListWeight(g, parcel, ttl, ds)
  {
    if ds != [] {
      SameLabel(g, parcel, ttl, ds[1..], verdict);
    }
  }

  lemma RerouteMulticastBalances(g: Weight, f: Fwd, x: Queued, m: Result<seq<NodeId>, MulticastError>)
    requires x.packet.header.packetType.Multicast?
    requires m.Ok? ==> StrictlyAscending(m.value) && multiset(m.value) == multiset(x.packet.destinations)
    ensures MoveBalanced(g, f, PacketWeight(g, x.packet), ResplitMulticast(f, x, m))
  {
    if m.Err? {
      SingleAction(g, f, Drop(InvalidMulticast(m.error), x.packet));
    } else {
      ListPermutes(g, ParcelOf(x.packet), x.packet.header.ttl, m.value, x.packet.destinations);
      ResplitBalances(g, f, x, m.value);
    }
  }

  lemma RerouteBalances(g: Weight, f: Fwd, x: Queued)
    ensures MoveBalanced(g, f, PacketWeight(g, x.packet), Reroute(f, x))
  {
    match x.packet.header.packetType
    case Unicast => RerouteUnicastBalances(g, f, x);
    case Multicast =>
      var m := MulticastPayload(x.packet.destinations, x.packet.payload);
      CanonicalizeSpec(x.packet.destinations);
      RerouteMulticastBalances(g, f, x, m);
    case other => SingleAction(g, f, Drop(UnsupportedPacketType(other), x.packet));
  }

  lemma {:induction false} DropAllWeight(g: Weight, xs: seq<Queued>, reason: DropReason)
    ensures ActionsWeight(g, DropAll(xs, reason)) == QueueWeight(g, xs)
  {
    if xs != [] {
      DropAllWeight(g, xs[1..], reason);
    }
  }

  lemma {:induction false} RerouteAllBalances(g: Weight, f: Fwd, xs: seq<Queued>)
    ensures MoveBalanced(g, f, QueueWeight(g, xs), RerouteAll(f, xs))
    decreases |xs|
  {
    if xs != [] {
      var first := Reroute(f, xs[0]);
      var rest := RerouteAll(first.effect.fwd, xs[1..]);
      RerouteBalances(g, f, xs[0]);
      RerouteAllBalances(g, first.effect.fwd, xs[1..]);
      ThenAdds(g, first.effect, rest.effect);
      QueueAdd(g, first.unresolved, rest.unresolved);
    }
  }

  lemma {:induction false} RerouteOrDropBalances(g: Weight, f: Fwd, xs: seq<Queued>)
    ensures Balanced(g, f, QueueWeight(g, xs), RerouteOrDrop(f, xs))
    decreases |xs|
  {
    if xs != [] {
      var first := Reroute(f, xs[0]);
      var dropped := Act(first.effect.fwd, DropAll(first.unresolved, LinkIsDown));
      var here := Then(first.effect, dropped);
      RerouteBalances(g, f, xs[0]);
      DropAllWeight(g, first.unresolved, LinkIsDown);
      ThenAdds(g, first.effect, dropped);
      RerouteOrDropBalances(g, here.fwd, xs[1..]);
      ThenBalances(g, f, here, RerouteOrDrop(here.fwd, xs[1..]), PacketWeight(g, xs[0].packet), QueueWeight(g, xs[1..]));
    }
  }

  // ------------------------------------------------------------ waiting batches

  /** Rerouting leaves the waiting batches and the routing state alone. */
  ghost predicate SameRouting(f: Fwd, e: Fwd) {
    e.me == f.me && e.routes == f.routes && e.down == f.down && e.pending == f.pending && e.nextGeneration == f.nextGeneration
  }

  lemma {:induction false} FanOutFrame(f: Fwd, incoming: Option<LinkId>, p: Packet, ds: seq<NodeId>, verdict: NodeId -> Verdict, ttl: byte, links: seq<LinkId>)
    ensures SameRouting(f, FanOut(f, incoming, p, ds, verdict, ttl, links).fwd)
    decreases |links|
  {
    if links != [] {
      var branch := Enqueue(f, links[0], Queued(incoming, Subset(p, Select(ds, verdict, Via(links[0])), ttl)));
      FanOutFrame(branch.fwd, incoming, p, ds, verdict, ttl, links[1..]);
    }
  }

  lemma ResplitFrame(f: Fwd, x: Queued, m: Result<seq<NodeId>, MulticastError>)
    ensures SameRouting(f, ResplitMulticast(f, x, m).effect.fwd)
  {
    if m.Ok? {
      var verdict := DecideAt(f, x.incoming);
      FanOutFrame(f, x.incoming, x.packet, m.value, verdict, x.packet.header.ttl, LinksFor(m.value, verdict));
    }
  }

  lemma RerouteFrame(f: Fwd, x: Queued)
    ensures SameRouting(f, Reroute(f, x).effect.fwd)
  {
    if x.packet.header.packetType.Multicast? {
      ResplitFrame(f, x, MulticastPayload(x.packet.destinations, x.packet.payload));
    }
  }

  lemma {:induction false} RerouteAllFrame(f: Fwd, xs: seq<Queued>)
    ensures SameRouting(f, RerouteAll(f, xs).effect.fwd)
    decreases |xs|
  {
    if xs != [] {
      RerouteFrame(f, xs[0]);
      RerouteAllFrame(Reroute(f, xs[0]).effect.fwd, xs[1..]);
    }
  }

  ghost function OrderWeight(g: Weight, batches: map<Id, Batch>, order: seq<Id>): nat
    requires forall k :: k in order ==> k in batches
  {
    if order == [] then 0 else QueueWeight(g, batches[order[0]].packets) + OrderWeight(g, batches, order[1..])
  }

  lemma {:induction false} OrderIsMapSum(g: Weight, batches: map<Id, Batch>, part: map<Id, Batch>, order: seq<Id>)
    requires (forall k :: k in order <==> k in part) && StrictlyAscending(order)
    requires forall k :: k in part ==> k in batches && batches[k] == part[k]
    ensures OrderWeight(g, batches, order) == MapSum(part, OnBatches(g))
    decreases |order|
  {
    if order == [] {
      assert part == map[];
    } else {
      MapSumRemove(part, order[0], OnBatches(g));
      assert order == [order[0]] + order[1..];
      OrderIsMapSum(g, batches, part - {order[0]}, order[1..]);
    }
  }

  lemma RetryBatchBalances(g: Weight, f: Fwd, now: Time, k: Id, batch: Batch)
    requires k !in f.pending
    ensures Balanced(g, f, QueueWeight(g, batch.packets), RetryBatch(f, now, k, batch))
    ensures forall j :: j in RetryBatch(f, now, k, batch).fwd.pending ==> j == k || j in f.pending
  {
    if batch.expiresAt <= now {
      DropAllWeight(g, batch.packets, RouteWaitExpired);
    } else {
      var r := RerouteAll(f, batch.packets);
      RerouteAllBalances(g, f, batch.packets);
      RerouteAllFrame(f, batch.packets);
      if r.unresolved != [] {
        MapSumUpdate(r.effect.fwd.pending, k, Batch(batch.expiresAt, r.unresolved), OnBatches(g));
      }
    }
  }

  lemma {:induction false} RetryBatchesBalances(g: Weight, f: Fwd, now: Time, batches: map<Id, Batch>, order: seq<Id>)
    requires (forall k :: k in order ==> k in batches && k !in f.pending) && StrictlyAscending(order)
    ensures Balanced(g, f, OrderWeight(g, batches, order), RetryBatches(f, now, batches, order))
    decreases |order|
  {
    if order != [] {
      var here := RetryBatch(f, now, order[0], batches[order[0]]);
      RetryBatchBalances(g, f, now, order[0], batches[order[0]]);
      RetryBatchesBalances(g, here.fwd, now, batches, order[1..]);
      ThenBalances(g, f, here, RetryBatches(here.fwd, now, batches, order[1..]),
                   QueueWeight(g, batches[order[0]].packets), OrderWeight(g, batches, order[1..]));
    }
  }

  lemma RoutesUpdatedBalances(g: Weight, f: Fwd, now: Time, routes: map<NodeId, Route>)
    ensures Balanced(g, f, 0, HandleRoutesUpdated(f, now, routes))
  {
    var updated := f.(routes := routes, down := StillUsed(f.down, routes), pending := map[]);
    AscendingFacts(f.pending.Keys);
    OrderIsMapSum(g, f.pending, f.pending, Ascending(f.pending.Keys));
    RetryBatchesBalances(g, updated, now, f.pending, Ascending(f.pending.Keys));
  }

  // ------------------------------------------------------------ parking

  function Window(start: Generation, n: nat): set<Id>
    requires n <= GENERATIONS
  {
    if n == 0 then {} else Window(start, n - 1) + {Shifted(start, n - 1)}
  }

  function Shifted(start: Generation, n: nat): Id
    requires n < GENERATIONS
  {
    if start + n < GENERATIONS then start + n else start + n - GENERATIONS
  }

  lemma {:induction false} WindowSize(start: Generation, n: nat)
    requires n <= GENERATIONS
    ensures |Window(start, n)| == n
    ensures forall x :: x in Window(start, n) ==> exists k: nat :: k < n && x == Shifted(start, k)
  {
    if n > 0 {
      WindowSize(start, n - 1);
      assert Shifted(start, n - 1) !in Window(start, n - 1);
    }
  }

  /** With fewer batches waiting than there are generations, the search ends on a free one. */
  lemma {:induction false} UnusedIsFree(pending: map<Id, Batch>, start: Generation, tries: nat)
    requires |pending| < GENERATIONS && tries < GENERATIONS
    requires Window(start, tries) <= pending.Keys
    ensures Unused(pending, Shifted(start, tries), tries) !in pending
    decreases GENERATIONS - tries
  {
    var g := Shifted(start, tries);
    if g in pending {
      WindowSize(start, tries + 1);
      SubsetSize(Window(start, tries + 1), pending.Keys);
      assert |pending.Keys| == |pending|;
      assert Shifted(start, tries + 1) == Following(g);
      UnusedIsFree(pending, start, tries + 1);
    }
  }

  lemma ParkBalances(g: Weight, f: Fwd, now: Time, xs: seq<Queued>)
    requires |f.pending| < GENERATIONS
    ensures Balanced(g, f, QueueWeight(g, xs), Park(f, now, xs))
  {
    if xs != [] {
      var k := Unused(f.pending, f.nextGeneration, 0);
      UnusedIsFree(f.pending, f.nextGeneration, 0);
      MapSumUpdate(f.pending, k, Batch(After(now, P0_ROUTE_WAIT_MS), xs), OnBatches(g));
      SingleAction(g, f, ArmTimer(k, After(now, P0_ROUTE_WAIT_MS)));
    }
  }

  lemma DisbandBalances(g: Weight, f: Fwd, now: Time, q: seq<seq<Queued>>)
    requires |q| == 4 && |f.pending| < GENERATIONS
    ensures Balanced(g, f, QueueWeight(g, q[0]) + QueueWeight(g, q[1]) + QueueWeight(g, q[2]) + QueueWeight(g, q[3]), Disband(f, now, q))
  {
    var parked := Park(f, now, q[0]);
    var early := Then(parked, Act(parked.fwd, DropAll(q[1], LinkIsDown)));
    var moved := Then(early, RerouteOrDrop(early.fwd, q[2]));
    ParkBalances(g, f, now, q[0]);
    DropAllWeight(g, q[1], LinkIsDown);
    ThenBalances(g, f, parked, Act(parked.fwd, DropAll(q[1], LinkIsDown)), QueueWeight(g, q[0]), QueueWeight(g, q[1]));
    RerouteOrDropBalances(g, early.fwd, q[2]);
    ThenBalances(g, f, early, RerouteOrDrop(early.fwd, q[2]), QueueWeight(g, q[0]) + QueueWeight(g, q[1]), QueueWeight(g, q[2]));
    DropAllWeight(g, q[3], LinkIsDown);
    ThenBalances(g, f, moved, Act(moved.fwd, DropAll(q[3], LinkIsDown)),
                 QueueWeight(g, q[0]) + QueueWeight(g, q[1]) + QueueWeight(g, q[2]), QueueWeight(g, q[3]));
  }

  lemma LinkDownBalances(g: Weight, f: Fwd, now: Time, link: LinkId)
    requires |f.pending| < GENERATIONS
    ensures Balanced(g, f, 0, HandleLinkDown(f, now, link))
  {
    MapSumWithout(f.links, link, OnLinks(g));
    if link in f.links {
      DisbandBalances(g, f.(down := f.down + {link}, links := f.links - {link}), now, f.links[link].queues);
    }
  }

  lemma PendingTimerBalances(g: Weight, f: Fwd, now: Time, k: Id)
    ensures Balanced(g, f, 0, HandlePendingTimer(f, now, k))
  {
    if k in f.pending {
      MapSumWithout(f.pending, k, OnBatches(g));
      DropAllWeight(g, f.pending[k].packets, RouteWaitExpired);
      SingleAction(g, f, ArmTimer(k, f.pending[k].expiresAt));
    }
  }

  // ------------------------------------------------------------ all events

  /** What an event brings in. An invalid outbound multicast is dropped as it came, without the refused list, so only the packet counts. */
  ghost function EventWeight(g: Weight, f: Fwd, event: ForwardEvent): nat {
    match event
    case Outbound(p) => InputWeight(g, f, None, p)
    case Inbound(link, p) => InputWeight(g, f, Some(link), p)
    case OutboundMulticast(ds, p) =>
      var m := MulticastPayload(ds, p.payload);
      if m.Err? then PacketWeight(g, Addressed(p)) else InputWeight(g, f, None, Addressed(p).(destinations := m.value))
    case _ => 0
  }

  lemma PermitBalances(g: Weight, f: Fwd, link: LinkId, op: LinkOp)
    requires !op.Offer?
    ensures Balanced(g, f, 0, Permit(f, link, op))
  {
    LaunchBalances(g, f, link, Prepared(LinkOf(f, link), op));
  }

  lemma OutboundMulticastBalances(g: Weight, f: Fwd, now: Time, ds: seq<NodeId>, p: Packet)
    ensures var event := OutboundMulticast(ds, p); Balanced(g, f, EventWeight(g, f, event), Handle(f, now, event))
  {
    var m := MulticastPayload(ds, p.payload);
    if m.Err? {
      SingleAction(g, f, Drop(InvalidMulticast(m.error), Addressed(p)));
    } else {
      ProcessBalances(g, f, None, Addressed(p).(destinations := m.value));
    }
  }

  /** Conservation, for every weight of items: across every event nothing owed appears or disappears. */
  lemma HandleBalances(g: Weight, f: Fwd, now: Time, event: ForwardEvent)
    requires |f.pending| < GENERATIONS
    ensures Balanced(g, f, EventWeight(g, f, event), Handle(f, now, event))
  {
    match event
    case Outbound(p) => ProcessBalances(g, f, None, p);
    case Inbound(link, p) => ProcessBalances(g, f, Some(link), p);
    case OutboundMulticast(ds, p) => OutboundMulticastBalances(g, f, now, ds, p);
    case RoutesUpdated(routes) => RoutesUpdatedBalances(g, f, now, routes);
    case LinkCredit(link, bytes) => PermitBalances(g, f, link, AddCredit(bytes));
    case LinkWritable(link) => PermitBalances(g, f, link, AllowWrite);
    case LinkDown(link) => LinkDownBalances(g, f, now, link);
    case PendingTimer(k) => PendingTimerBalances(g, f, now, k);
  }

  // ------------------------------------------------------------ counting claims

  /** One destination's claim on a packet, whatever hops it has left. */
  datatype Claim = Claim(parcel: Parcel, destination: NodeId)

  ghost function Counting(c: Claim): Weight {
    (x: Item) => if x.parcel == c.parcel && x.destination == c.destination then 1 else 0
  }

  /** How often an event's packet claims delivery; a multicast is counted by its destination list, unless that is refused. */
  ghost function Brought(c: Claim, event: ForwardEvent): nat {
    match event
    case Outbound(p) => PacketWeight(Counting(c), p)
    case Inbound(_, p) => PacketWeight(Counting(c), p)
    case OutboundMulticast(ds, p) =>
      if MulticastPayload(ds, p.payload).Err? then PacketWeight(Counting(c), Addressed(p))
      else ListWeight(Counting(c), ParcelOf(p), p.header.ttl, ds)
    case _ => 0
  }

  lemma {:induction false} CountingIgnoresHops(c: Claim, parcel: Parcel, a: byte, b: byte, ds: seq<NodeId>, verdict: NodeId -> Verdict)
    ensures RoutedWeight(Counting(c), parcel, a, b, ds, verdict) == ListWeight(Counting(c), parcel, a, ds)
  {
    if ds != [] {
      CountingIgnoresHops(c, parcel, a, b, ds[1..], verdict);
    }
  }

  lemma InputCount(c: Claim, f: Fwd, incoming: Option<LinkId>, p: Packet)
    ensures InputWeight(Counting(c), f, incoming, p) == PacketWeight(Counting(c), p)
  {
    if !Refused(p) {
      var ttl, verdict := p.header.ttl, DecideAt(f, incoming);
      if p.header.packetType.Unicast? {
        CountingIgnoresHops(c, ParcelOf(p), ttl, ttl - 1, [p.header.destination], verdict);
      } else {
        var ds := MulticastPayload(p.destinations, p.payload).value;
        CountingIgnoresHops(c, ParcelOf(p), ttl, ttl - 1, ds, verdict);
        CanonicalizeSpec(p.destinations);
        ListPermutes(Counting(c), ParcelOf(p), ttl, ds, p.destinations);
      }
    }
  }

  /**
   * Across every event and for every claim: the copies held before plus those
   * brought in are the copies held after, sent, delivered, dropped, refused, or
   * overwritten by conflation.
   */
  lemma ClaimsAreConserved(c: Claim, f: Fwd, now: Time, event: ForwardEvent)
    requires |f.pending| < GENERATIONS
    ensures var e, g := Handle(f, now, event), Counting(c);
            StateWeight(g, f) + Brought(c, event) == StateWeight(g, e.fwd) + ActionsWeight(g, e.actions) + LostWeight(g, e.lost)
  {
    HandleBalances(Counting(c), f, now, event);
    match event
    case Outbound(p) => InputCount(c, f, None, p);
    case Inbound(link, p) => InputCount(c, f, Some(link), p);
    case OutboundMulticast(ds, p) =>
      var m := MulticastPayload(ds, p.payload);
      if m.Ok? {
        CanonicalizeSpec(ds);
        ListPermutes(Counting(c), ParcelOf(p), p.header.ttl, m.value, ds);
        InputCount(c, f, None, Addressed(p).(destinations := m.value));
      }
    case _ =>
  }
}
