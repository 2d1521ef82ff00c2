/**
 * Weighing everything a forwarder owes to destinations. A weight is any function
 * of an owed item, so an equation that holds for every weight is an equation
 * between multisets of items.
 */
module Weights {
  import opened MeshTypes
  import opened Packets
  import opened Scheduler
  import opened Forwarding
  import opened MapSums

  /** What identifies a packet end to end. */
  datatype Parcel = Parcel(source: NodeId, flowId: U64, payload: seq<byte>)

  /** One destination's claim on a packet, with the hops the packet has left. */
  datatype Item = Item(parcel: Parcel, destination: NodeId, ttl: byte)

  type Weight = Item -> nat

  function ParcelOf(p: Packet): Parcel {
    Parcel(p.header.source, p.header.flowId, p.payload)
  }

  function Dests(p: Packet): seq<NodeId> {
    if p.header.packetType.Multicast? then p.destinations else [p.header.destination]
  }

  ghost function ListWeight(g: Weight, parcel: Parcel, ttl: byte, ds: seq<NodeId>): nat {
    if ds == [] then 0 else g(Item(parcel, ds[0], ttl)) + ListWeight(g, parcel, ttl, ds[1..])
  }

  ghost function PacketWeight(g: Weight, p: Packet): nat {
    ListWeight(g, ParcelOf(p), p.header.ttl, Dests(p))
  }

  ghost function QueueWeight(g: Weight, xs: seq<Queued>): nat {
    if xs == [] then 0 else PacketWeight(g, xs[0].packet) + QueueWeight(g, xs[1..])
  }

  ghost function LinkWeight(g: Weight, q: Link): nat {
    QueueWeight(g, q.queues[0]) + QueueWeight(g, q.queues[1]) + QueueWeight(g, q.queues[2]) + QueueWeight(g, q.queues[3])
  }

  ghost function OnLinks(g: Weight): Link -> nat {
    (q: Link) => LinkWeight(g, q)
  }

  ghost function OnBatches(g: Weight): Batch -> nat {
    (b: Batch) => QueueWeight(g, b.packets)
  }

  /** Everything queued on links or waiting for a route. */
  ghost function StateWeight(g: Weight, f: Fwd): nat {
    MapSum(f.links, OnLinks(g)) + MapSum(f.pending, OnBatches(g))
  }

  ghost function ActionWeight(g: Weight, a: ForwardAction): nat {
    match a
    case Transmit(_, p) => PacketWeight(g, p)
    case DeliverLocal(p) => g(Item(ParcelOf(p), p.header.destination, p.header.ttl))
    case Drop(_, p) => PacketWeight(g, p)
    case Backpressure(_, p) => PacketWeight(g, p)
    case ArmTimer(_, _) => 0
  }

  ghost function ActionsWeight(g: Weight, actions: seq<ForwardAction>): nat {
    if actions == [] then 0 else ActionWeight(g, actions[0]) + ActionsWeight(g, actions[1..])
  }

  ghost function LostWeight(g: Weight, lost: seq<Packet>): nat {
    if lost == [] then 0 else PacketWeight(g, lost[0]) + LostWeight(g, lost[1..])
  }

  ghost function OutWeight(g: Weight, e: Effect): nat {
    ActionsWeight(g, e.actions) + LostWeight(g, e.lost)
  }

  /** What was held and what came in is what is held, what was acted on, and what was conflated away. */
  ghost predicate Balanced(g: Weight, f: Fwd, input: nat, e: Effect) {
    StateWeight(g, f) + input == StateWeight(g, e.fwd) + OutWeight(g, e)
  }

  // ------------------------------------------------------------ sums

  lemma {:induction false} ActionsAdd(g: Weight, a: seq<ForwardAction>, b: seq<ForwardAction>)
    ensures ActionsWeight(g, a + b) == ActionsWeight(g, a) + ActionsWeight(g, b)
  {
    FirstOfSum(a, b);
    if a != [] {
      ActionsAdd(g, a[1..], b);
    }
  }

  lemma {:induction false} LostAdd(g: Weight, a: seq<Packet>, b: seq<Packet>)
    ensures LostWeight(g, a + b) == LostWeight(g, a) + LostWeight(g, b)
  {
    FirstOfSum(a, b);
    if a != [] {
      LostAdd(g, a[1..], b);
    }
  }

  lemma {:induction false} QueueAdd(g: Weight, a: seq<Queued>, b: seq<Queued>)
    ensures QueueWeight(g, a + b) == QueueWeight(g, a) + QueueWeight(g, b)
  {
    FirstOfSum(a, b);
    if a != [] {
      QueueAdd(g, a[1..], b);
    }
  }

  lemma ThenAdds(g: Weight, a: Effect, b: Effect)
    ensures OutWeight(g, Then(a, b)) == OutWeight(g, a) + OutWeight(g, b)
  {
    ActionsAdd(g, a.actions, b.actions);
    LostAdd(g, a.lost, b.lost);
  }

  lemma ThenBalances(g: Weight, f: Fwd, a: Effect, b: Effect, x: nat, y: nat)
    requires Balanced(g, f, x, a) && Balanced(g, a.fwd, y, b)
    ensures Balanced(g, f, x + y, Then(a, b))
  {
    ThenAdds(g, a, b);
  }

  lemma QueueSingle(g: Weight, x: Queued)
    ensures QueueWeight(g, [x]) == PacketWeight(g, x.packet)
  {
    assert [x][1..] == [];
  }

  lemma QueueReplace(g: Weight, xs: seq<Queued>, i: nat, x: Queued)
    requires i < |xs|
    ensures QueueWeight(g, xs[i := x]) + PacketWeight(g, xs[i].packet) == QueueWeight(g, xs) + PacketWeight(g, x.packet)
  {
    assert xs == xs[..i] + ([xs[i]] + xs[i + 1..]);
    assert xs[i := x] == xs[..i] + ([x] + xs[i + 1..]);
    QueueAdd(g, xs[..i], [xs[i]] + xs[i + 1..]);
    QueueAdd(g, xs[..i], [x] + xs[i + 1..]);
    QueueAdd(g, [xs[i]], xs[i + 1..]);
    QueueAdd(g, [x], xs[i + 1..]);
    QueueSingle(g, xs[i]);
    QueueSingle(g, x);
  }

  // ------------------------------------------------------------ one link

  lemma AdmitWeight(g: Weight, q: Link, x: Queued)
    ensures match Admit(q, x)
            case Stored(r) => LinkWeight(g, r) == LinkWeight(g, q) + PacketWeight(g, x.packet)
            case Replaced(r, lost) =>
              LinkWeight(g, r) + PacketWeight(g, lost.packet) == LinkWeight(g, q) + PacketWeight(g, x.packet)
            case Full => true
  {
    var c := x.packet.header.priority.Index();
    match Admit(q, x)
    case Stored(r) =>
      QueueAdd(g, q.queues[c], [x]);
      QueueSingle(g, x);
    case Replaced(r, lost) =>
      var i := FindKey(q.queues[c], KeyOf(x.packet).value).value;
      QueueReplace(g, q.queues[c], i, x);
    case Full =>
  }

  lemma TrySendWeight(g: Weight, q: Link)
    ensures var a := TrySend(q);
            LinkWeight(g, q) == LinkWeight(g, a.link) + (if a.sent.Some? then PacketWeight(g, a.sent.value.packet) else 0)
  {
    if TrySend(q).sent.Some? {
      TrySendTakesHead(q);
    }
  }

  lemma LaunchBalances(g: Weight, f: Fwd, link: LinkId, q: Link)
    ensures var e := Launch(f, link, q);
            StateWeight(g, f) + LinkWeight(g, q) == StateWeight(g, e.fwd) + OutWeight(g, e) + LinkWeight(g, LinkOf(f, link))
  {
    var a := TrySend(q);
    TrySendWeight(g, q);
    MapSumUpdate(f.links, link, a.link, OnLinks(g));
    if a.sent.Some? {
      SingleAction(g, f, Transmit(link, a.sent.value.packet));
    }
  }

  lemma SingleAction(g: Weight, f: Fwd, a: ForwardAction)
    ensures OutWeight(g, Act(f, [a])) == ActionsWeight(g, [a]) == ActionWeight(g, a)
  {
    assert [a][1..] == [] && ActionsWeight(g, []) == 0;
  }

  /** An enqueued packet is queued, sent, refused, dropped, or takes the place of one that is lost. */
  lemma EnqueueBalances(g: Weight, f: Fwd, link: LinkId, x: Queued)
    ensures Balanced(g, f, PacketWeight(g, x.packet), Enqueue(f, link, x))
  {
    if link in f.down {
      SingleAction(g, f, Drop(LinkIsDown, x.packet));
    } else {
      AdmitWeight(g, LinkOf(f, link), x);
      match Admit(LinkOf(f, link), x)
      case Stored(q) => LaunchBalances(g, f, link, q);
      case Replaced(q, lost) =>
        LaunchBalances(g, f, link, q);
        assert [lost.packet][1..] == [];
      case Full =>
        var priority := x.packet.header.priority;
        SingleAction(g, f, if priority.P0? then Backpressure(link, x.packet) else Drop(QueueFull(priority), x.packet));
    }
  }
}
