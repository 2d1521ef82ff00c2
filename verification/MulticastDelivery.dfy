/**
 * Explicit multicast over route tables: the copies that the forwarders make and
 * split share out the destinations, so that each destination fares as if it had
 * been sent a unicast packet of its own.
 */
module MulticastDelivery {
  import opened MeshTypes
  import opened Forwarding
  import opened Weights
  import opened Conservation
  import opened Delivery
  import Convergence
  import NetSafety
  import Network

  /** A weight of what happens to the copy for one destination. */
  type FateWeight = (NodeId, Fate) -> nat

  /** A weight of items that looks at their destinations only. */
  ghost function Over(h: NodeId -> nat): Weight {
    (x: Item) => h(x.destination)
  }

  const PARCEL: Parcel := Parcel(0, 0, [])

  ghost function Sum(ds: seq<NodeId>, h: NodeId -> nat): nat {
    ListWeight(Over(h), PARCEL, 0, ds)
  }

  ghost function AllMeet(g: FateWeight, fate: Fate): NodeId -> nat {
    (d: NodeId) => g(d, fate)
  }

  ghost function DecideIn(fab: Fabric, u: NodeId, incoming: Option<LinkId>): NodeId -> Verdict
    requires u in fab.routes && u in fab.down
  {
    (d: NodeId) => Decide(u, fab.routes[u], fab.down[u], incoming, d)
  }

  /** The far end of the link is a node of the fabric. */
  predicate Leads(fab: Fabric, u: NodeId, k: LinkId) {
    Port(u, k) in fab.far && fab.far[Port(u, k)].node in fab.routes && fab.far[Port(u, k)].node in fab.down
  }

  /**
   * The weight of all that happens to a multicast that reaches `u`, when every
   * queue lets it through: a local copy, the parts dropped here, and one branch
   * with the destinations of each link.
   */
  ghost function Fates(g: FateWeight, fab: Fabric, u: NodeId, incoming: Option<LinkId>, ds: seq<NodeId>, ttl: nat): nat
    requires u in fab.routes && u in fab.down
    decreases ttl, 2, 0
  {
    if ttl == 0 then Sum(ds, AllMeet(g, Lost(u, TtlExceeded)))
    else
      var verdict := DecideIn(fab, u, incoming);
      Sum(Select(ds, verdict, Verdict.Local), AllMeet(g, Arrived(u, ttl)))
      + Sum(Select(ds, verdict, Unroutable), AllMeet(g, Lost(u, NoRoute)))
      + Sum(Select(ds, verdict, Looping), AllMeet(g, Lost(u, LoopDetected)))
      + BranchFates(g, fab, u, ds, verdict, LinksFor(ds, verdict), ttl)
  }

  ghost function BranchFates(g: FateWeight, fab: Fabric, u: NodeId, ds: seq<NodeId>, verdict: NodeId -> Verdict, links: seq<LinkId>, ttl: nat): nat
    requires u in fab.routes && u in fab.down && ttl > 0
    decreases ttl, 1, |links|
  {
    if links == [] then 0
    else
      GroupFates(g, fab, u, Select(ds, verdict, Via(links[0])), links[0], ttl) + BranchFates(g, fab, u, ds, verdict, links[1..], ttl)
  }

  /** What happens to the destinations that leave by link `k`. */
  ghost function GroupFates(g: FateWeight, fab: Fabric, u: NodeId, group: seq<NodeId>, k: LinkId, ttl: nat): nat
    requires u in fab.routes && u in fab.down && ttl > 0
    decreases ttl, 0, 0
  {
    if Leads(fab, u, k) then Fates(g, fab, fab.far[Port(u, k)].node, Some(fab.far[Port(u, k)].link), group, ttl - 1)
    else Sum(group, AllMeet(g, Lost(u, LinkIsDown)))
  }

  /** What the destination would meet as that of a unicast packet. */
  ghost function Alone(g: FateWeight, fab: Fabric, u: NodeId, incoming: Option<LinkId>, ttl: nat): NodeId -> nat
    requires u in fab.routes && u in fab.down
  {
    (d: NodeId) => g(d, Journey(fab, u, incoming, d, ttl))
  }

  // ------------------------------------------------------------ sums over parts of a list

  lemma {:induction false} SameSum(ds: seq<NodeId>, h: NodeId -> nat, i: NodeId -> nat)
    requires forall d :: d in ds ==> h(d) == i(d)
    ensures Sum(ds, h) == Sum(ds, i)
  {
    if ds != [] {
      SameSum(ds[1..], h, i);
    }
  }

  ghost function GroupWeight(ds: seq<NodeId>, verdict: NodeId -> Verdict, h: NodeId -> nat, links: seq<LinkId>): nat {
    GroupSum(Over(h), PARCEL, 0, ds, verdict, links)
  }

  lemma {:induction false} RoutedIsList(ds: seq<NodeId>, verdict: NodeId -> Verdict, h: NodeId -> nat)
    ensures RoutedWeight(Over(h), PARCEL, 0, 0, ds, verdict) == Sum(ds, h)
  {
    if ds != [] {
      RoutedIsList(ds[1..], verdict, h);
    }
  }

  /** The parts of a list by verdict, the routed ones link by link, add up to the list. */
  lemma SplitSum(ds: seq<NodeId>, verdict: NodeId -> Verdict, h: NodeId -> nat)
    ensures Sum(ds, h) == Sum(Select(ds, verdict, Verdict.Local), h) + Sum(Select(ds, verdict, Unroutable), h)
                        + Sum(Select(ds, verdict, Looping), h) + GroupWeight(ds, verdict, h, LinksFor(ds, verdict))
  {
    RoutedIsList(ds, verdict, h);
    VerdictsPartition(Over(h), PARCEL, 0, 0, ds, verdict);
    LinksCover(Over(h), PARCEL, 0, ds, verdict);
  }

  // ------------------------------------------------------------ a multicast is the sum of its unicasts

  lemma {:induction false} BranchesFare(
    g: FateWeight, fab: Fabric, u: NodeId, incoming: Option<LinkId>, ds: seq<NodeId>, verdict: NodeId -> Verdict, links: seq<LinkId>, ttl: nat)
    requires u in fab.routes && u in fab.down && ttl > 0 && verdict == DecideIn(fab, u, incoming)
    ensures BranchFates(g, fab, u, ds, verdict, links, ttl) == GroupWeight(ds, verdict, Alone(g, fab, u, incoming, ttl), links)
    decreases ttl, 1, |links|
  {
    if links != [] {
      BranchFares(g, fab, u, incoming, Select(ds, verdict, Via(links[0])), links[0], ttl);
      BranchesFare(g, fab, u, incoming, ds, verdict, links[1..], ttl);
    }
  }

  lemma JourneyVia(fab: Fabric, u: NodeId, incoming: Option<LinkId>, d: NodeId, ttl: nat, k: LinkId)
    requires u in fab.routes && u in fab.down && ttl > 0 && DecideIn(fab, u, incoming)(d) == Via(k)
    ensures Journey(fab, u, incoming, d, ttl)
         == if Leads(fab, u, k) then Journey(fab, fab.far[Port(u, k)].node, Some(fab.far[Port(u, k)].link), d, ttl - 1) else Lost(u, LinkIsDown)
  {
  }

  /** Destinations that all leave by one link fare on from its far end, or are lost if it leads nowhere. */
  lemma GroupFares(g: FateWeight, fab: Fabric, u: NodeId, incoming: Option<LinkId>, group: seq<NodeId>, k: LinkId, ttl: nat)
    requires u in fab.routes && u in fab.down && ttl > 0 && forall d :: d in group ==> DecideIn(fab, u, incoming)(d) == Via(k)
    ensures Sum(group, Alone(g, fab, u, incoming, ttl))
         == Sum(group, if Leads(fab, u, k) then Alone(g, fab, fab.far[Port(u, k)].node, Some(fab.far[Port(u, k)].link), ttl - 1)
                       else AllMeet(g, Lost(u, LinkIsDown)))
  {
    var h := if Leads(fab, u, k) then Alone(g, fab, fab.far[Port(u, k)].node, Some(fab.far[Port(u, k)].link), ttl - 1)
             else AllMeet(g, Lost(u, LinkIsDown));
    forall d | d in group ensures Alone(g, fab, u, incoming, ttl)(d) == h(d) {
      JourneyVia(fab, u, incoming, d, ttl, k);
    }
    SameSum(group, Alone(g, fab, u, incoming, ttl), h);
  }

  lemma {:induction false} BranchFares(g: FateWeight, fab: Fabric, u: NodeId, incoming: Option<LinkId>, group: seq<NodeId>, k: LinkId, ttl: nat)
    requires u in fab.routes && u in fab.down && ttl > 0 && forall d :: d in group ==> DecideIn(fab, u, incoming)(d) == Via(k)
    ensures Sum(group, Alone(g, fab, u, incoming, ttl)) == GroupFates(g, fab, u, group, k, ttl)
    decreases ttl, 0, 0
  {
    GroupFares(g, fab, u, incoming, group, k, ttl);
    if Leads(fab, u, k) {
      MulticastFares(g, fab, fab.far[Port(u, k)].node, Some(fab.far[Port(u, k)].link), group, ttl - 1);
    }
  }

  lemma PartFares(g: FateWeight, fab: Fabric, u: NodeId, incoming: Option<LinkId>, ds: seq<NodeId>, ttl: nat, v: Verdict, fate: Fate)
    requires u in fab.routes && u in fab.down && ttl > 0
    requires forall d :: DecideIn(fab, u, incoming)(d) == v ==> Journey(fab, u, incoming, d, ttl) == fate
    ensures Sum(Select(ds, DecideIn(fab, u, incoming), v), AllMeet(g, fate))
         == Sum(Select(ds, DecideIn(fab, u, incoming), v), Alone(g, fab, u, incoming, ttl))
  {
    SameSum(Select(ds, DecideIn(fab, u, incoming), v), AllMeet(g, fate), Alone(g, fab, u, incoming, ttl));
  }

  /** On every fabric, every destination of a multicast fares as it would alone: the fates are those of one unicast each. */
  lemma {:induction false} MulticastFares(g: FateWeight, fab: Fabric, u: NodeId, incoming: Option<LinkId>, ds: seq<NodeId>, ttl: nat)
    requires u in fab.routes && u in fab.down
    ensures Fates(g, fab, u, incoming, ds, ttl) == Sum(ds, Alone(g, fab, u, incoming, ttl))
    decreases ttl, 2, 0
  {
    if ttl == 0 {
      forall d | d in ds ensures Journey(fab, u, incoming, d, ttl) == Lost(u, TtlExceeded) {
      }
      SameSum(ds, AllMeet(g, Lost(u, TtlExceeded)), Alone(g, fab, u, incoming, ttl));
    } else {
      var verdict, h := DecideIn(fab, u, incoming), Alone(g, fab, u, incoming, ttl);
      PartFares(g, fab, u, incoming, ds, ttl, Verdict.Local, Arrived(u, ttl));
      PartFares(g, fab, u, incoming, ds, ttl, Unroutable, Lost(u, NoRoute));
      PartFares(g, fab, u, incoming, ds, ttl, Looping, Lost(u, LoopDetected));
      BranchesFare(g, fab, u, incoming, ds, verdict, LinksFor(ds, verdict), ttl);
      SplitSum(ds, verdict, h);
    }
  }

  // ------------------------------------------------------------ at rest

  /** Counts the arrivals at `d` of the copy for `d`. */
  ghost function Arrivals(d: NodeId): FateWeight {
    (e: NodeId, fate: Fate) => if e == d && fate.Arrived? && fate.node == d then 1 else 0
  }

  lemma {:induction false} SumOfOne(ds: seq<NodeId>, h: NodeId -> nat, d: NodeId)
    requires StrictlyAscending(ds) && forall e :: e != d ==> h(e) == 0
    ensures Sum(ds, h) == if d in ds then h(d) else 0
  {
    if ds != [] {
      SumOfOne(ds[1..], h, d);
      assert d in ds <==> d == ds[0] || d in ds[1..];
    }
  }

  /**
   * At rest, each listed destination in the component of the source gets exactly
   * one copy of a multicast if the TTL exceeds its hop count, and otherwise none;
   * nobody else gets any.
   */
  lemma MulticastAtRest(
    net: Network.Net, down: map<NodeId, set<LinkId>>, fab: Fabric, u: NodeId, ds: seq<NodeId>, d: NodeId, ttl: nat)
    requires NetSafety.NetInv(net) && Convergence.AtRest(net) && Convergence.DownIsClosed(net, down) && fab == Convergence.FabricOf(net, down)
    requires u in net.nodes && StrictlyAscending(ds)
    ensures Coherent(fab) && u in fab.routes && u in fab.down
    ensures d in fab.routes[u] <==> u != d && Convergence.SameComponent(net, u, d)
    ensures Fates(Arrivals(d), fab, u, None, ds, ttl)
         == if d in ds && (u == d || d in fab.routes[u]) && HopCount(fab, u, d) < ttl then 1 else 0
  {
    Convergence.RestDelivers(net, down, fab, u, d, ttl);
    MulticastFares(Arrivals(d), fab, u, None, ds, ttl);
    SumOfOne(ds, Alone(Arrivals(d), fab, u, None, ttl), d);
  }
}
