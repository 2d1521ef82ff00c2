/** Without new originations, every schedule of deliveries comes to an end. */
module NetQuiescence {
  import opened MeshTypes
  import opened ControlData
  import opened ControlModel
  import opened ControlSafety
  import opened NodeContract
  import opened Network
  import opened NetInvariant
  import opened NetMoves
  import opened NetSafety

  ghost predicate DeliveryStep(net: Net, net': Net) {
    exists move: Move :: (move.Deliver? || move.Execute?) && Next(net, move, net')
  }

  // ------------------------------------------------------------ weighing what is under way

  ghost function WireSum(w: ControlFrame -> nat, wire: seq<Flight>): nat {
    if wire == [] then 0 else w(wire[0].frame) + WireSum(w, wire[1..])
  }

  ghost function ActionWeight(w: ControlFrame -> nat, a: ControlAction): nat {
    if a.Send? then w(a.frame) else 0
  }

  ghost function ActionSum(u: ControlAction -> nat, actions: seq<ControlAction>): nat {
    if actions == [] then 0 else u(actions[0]) + ActionSum(u, actions[1..])
  }

  ghost function TodoSum(u: ControlAction -> nat, nodes: map<NodeId, Node>, keys: seq<NodeId>): nat
    requires forall k :: k in keys ==> k in nodes
  {
    if keys == [] then 0 else ActionSum(u, nodes[keys[0]].todo) + TodoSum(u, nodes, keys[1..])
  }

  ghost function OnSends(w: ControlFrame -> nat): ControlAction -> nat {
    (a: ControlAction) => ActionWeight(w, a)
  }

  lemma {:induction false} WireSumAdds(w: ControlFrame -> nat, a: seq<Flight>, b: seq<Flight>)
    ensures WireSum(w, a + b) == WireSum(w, a) + WireSum(w, b)
  {
    FirstOfSum(a, b);
    if a != [] {
      WireSumAdds(w, a[1..], b);
    }
  }

  lemma WireSumWithout(w: ControlFrame -> nat, wire: seq<Flight>, i: nat)
    requires i < |wire|
    ensures WireSum(w, Without(wire, i)) + w(wire[i].frame) == WireSum(w, wire)
  {
    var f := [wire[i]];
    assert wire == wire[..i] + (f + wire[i + 1..]);
    WireSumAdds(w, wire[..i], f + wire[i + 1..]);
    WireSumAdds(w, f, wire[i + 1..]);
    WireSumAdds(w, wire[..i], wire[i + 1..]);
    assert f[1..] == [];
  }

  lemma {:induction false} TodoSumElsewhere(u: ControlAction -> nat, nodes: map<NodeId, Node>, n: NodeId, node: Node, keys: seq<NodeId>)
    requires (forall k :: k in keys ==> k in nodes) && n !in keys
    ensures TodoSum(u, nodes[n := node], keys) == TodoSum(u, nodes, keys)
  {
    if keys != [] {
      TodoSumElsewhere(u, nodes, n, node, keys[1..]);
    }
  }

  lemma {:induction false} TodoSumUpdate(u: ControlAction -> nat, nodes: map<NodeId, Node>, n: NodeId, node: Node, keys: seq<NodeId>)
    requires (forall k :: k in keys ==> k in nodes) && n in keys && StrictlyAscending(keys)
    ensures TodoSum(u, nodes[n := node], keys) + ActionSum(u, nodes[n].todo) == TodoSum(u, nodes, keys) + ActionSum(u, node.todo)
  {
    if keys[0] == n {
      TodoSumElsewhere(u, nodes, n, node, keys[1..]);
    } else {
      TodoSumUpdate(u, nodes, n, node, keys[1..]);
    }
  }

  /** The weight of all frames in flight or waiting to be sent. */
  ghost function Total(w: ControlFrame -> nat, net: Net): nat {
    WireSum(w, net.wire) + TodoSum(OnSends(w), net.nodes, Ascending(net.nodes.Keys))
  }

  ghost function Waiting(net: Net): nat {
    TodoSum(a => 1, net.nodes, Ascending(net.nodes.Keys))
  }

  lemma TodoSumAt(u: ControlAction -> nat, nodes: map<NodeId, Node>, n: NodeId, node: Node)
    requires n in nodes
    ensures nodes[n := node].Keys == nodes.Keys
    ensures TodoSum(u, nodes[n := node], Ascending(nodes.Keys)) + ActionSum(u, nodes[n].todo)
         == TodoSum(u, nodes, Ascending(nodes.Keys)) + ActionSum(u, node.todo)
  {
    assert nodes[n := node].Keys == nodes.Keys;
    AscendingFacts(nodes.Keys);
    TodoSumUpdate(u, nodes, n, node, Ascending(nodes.Keys));
  }

  /** Delivering trades the delivered frame for the frames it provokes. */
  lemma DeliverTotal(w: ControlFrame -> nat, net: Net, i: nat, n: NodeId, event: ControlEvent, r: Outcome)
    requires i < |net.wire| && n in net.nodes && net.nodes[n].todo == []
    ensures Total(w, React(net, n, event, r, Without(net.wire, i))) + w(net.wire[i].frame)
         == Total(w, net) + ActionSum(OnSends(w), r.actions)
  {
    WireSumWithout(w, net.wire, i);
    TodoSumAt(OnSends(w), net.nodes, n, net.nodes[n].(plane := r.plane, todo := r.actions));
  }

  /** Executing moves a frame from a node's list onto the wire, or drops it. */
  lemma ExecuteTotal(w: ControlFrame -> nat, net: Net, n: NodeId)
    requires n in net.nodes && net.nodes[n].todo != []
    ensures Total(w, ExecuteAction(net, n)) <= Total(w, net)
  {
    var net', action := ExecuteAction(net, n), net.nodes[n].todo[0];
    TodoSumAt(OnSends(w), net.nodes, n, net'.nodes[n]);
    assert net'.nodes == net.nodes[n := net'.nodes[n]];
    if net'.wire != net.wire {
      var flight := net'.wire[|net.wire|];
      WireSumAdds(w, net.wire, [flight]);
      assert [flight][1..] == [];
      assert WireSum(w, [flight]) == OnSends(w)(action);
    }
  }

  lemma ExecuteWaiting(net: Net, n: NodeId)
    requires n in net.nodes && net.nodes[n].todo != []
    ensures Waiting(ExecuteAction(net, n)) < Waiting(net)
  {
    var net' := ExecuteAction(net, n);
    TodoSumAt(a => 1, net.nodes, n, net'.nodes[n]);
    assert net'.nodes == net.nodes[n := net'.nodes[n]];
  }

  lemma {:induction false} NoWeight(u: ControlAction -> nat, actions: seq<ControlAction>)
    requires forall a :: a in actions ==> u(a) == 0
    ensures ActionSum(u, actions) == 0
  {
    if actions != [] {
      NoWeight(u, actions[1..]);
    }
  }

  // ------------------------------------------------------------ the measure

  ghost function DigestWeight(f: ControlFrame): nat {
    if f.DigestFrame? then 1 else 0
  }

  ghost function RequestWeight(f: ControlFrame): nat {
    if f.DigestReqFrame? then 1 else 0
  }

  /** The issued versions of the same origin that are newer. */
  ghost function Above(issued: map<Name, Lsa>, o: NodeId, v: Version): set<Name> {
    set m | m in issued && m.origin == o && v.Below(m.version)
  }

  ghost function LsaWeight(issued: map<Name, Lsa>): ControlFrame -> nat {
    (f: ControlFrame) => if f.LsaFrame? then 1 + |Above(issued, f.lsa.origin, f.lsa.version)| else 0
  }

  datatype Missing = Missing(node: NodeId, name: Name)

  /** Who has not heard of which issued version. */
  ghost function Unheard(net: Net): set<Missing> {
    set n, m | n in net.nodes && m in net.issued && !Knows(net.nodes[n].plane.lsdb, m.origin, m.version) :: Missing(n, m)
  }

  lemma SameUnheard(net: Net, net': Net)
    requires net'.issued == net.issued && net'.nodes.Keys == net.nodes.Keys
    requires forall m :: m in net.nodes ==> net'.nodes[m].plane.lsdb == net.nodes[m].plane.lsdb
    ensures Unheard(net') == Unheard(net)
  {
  }

  /** A node that takes in a new LSA has heard of one more version, and forgets none. */
  lemma NewsIsHeard(net: Net, n: NodeId, event: ControlEvent, r: Outcome, wire: seq<Flight>)
    requires Reaction(net, n, event, r, wire) && event.Frame? && event.frame.LsaFrame?
    requires r.plane.mySeq == net.nodes[n].plane.mySeq && IsNews(net.nodes[n].plane.lsdb, r.plane.lsdb, event.frame.lsa.origin)
    requires event.frame.lsa.origin != n
    ensures |Unheard(React(net, n, event, r, wire))| < |Unheard(net)|
  {
    var net' := React(net, n, event, r, wire);
    var lsa := event.frame.lsa;
    forall x | x in Unheard(net') ensures x in Unheard(net) {
      KnowledgeGrows(net, n, event, r, wire, x.node, x.name.origin, x.name.version);
    }
    var heard := Missing(n, Name(lsa.origin, lsa.version));
    assert heard in Unheard(net) && heard !in Unheard(net');
    SubsetSize(Unheard(net'), Unheard(net));
  }

  /** `net'` comes before `net` in the order that every delivery schedule descends. */
  ghost predicate Lower(net': Net, net: Net) {
    var u', u := |Unheard(net')|, |Unheard(net)|;
    var d', d := Total(DigestWeight, net'), Total(DigestWeight, net);
    var q', q := Total(RequestWeight, net'), Total(RequestWeight, net);
    var l', l := Total(LsaWeight(net'.issued), net'), Total(LsaWeight(net.issued), net);
    || u' < u
    || (u' == u && d' < d)
    || (u' == u && d' == d && q' < q)
    || (u' == u && d' == d && q' == q && l' < l)
    || (u' == u && d' <= d && q' <= q && l' <= l && Waiting(net') < Waiting(net))
  }

  lemma OnlyNewsChanges(net: Net, n: NodeId, event: ControlEvent, r: Outcome, wire: seq<Flight>)
    requires Reaction(net, n, event, r, wire) && event.Frame? && r.plane.lsdb == net.nodes[n].plane.lsdb
    ensures var net' := React(net, n, event, r, wire); net'.issued == net.issued && Unheard(net') == Unheard(net)
  {
    assert FrameIsBounded(net.nodes[n].plane, event.frame, r);
    SameUnheard(net, React(net, n, event, r, wire));
  }

  /** A digest or a request provokes no digest; a request provokes no request. */
  lemma AskingLowers(net: Net, i: nat, n: NodeId, event: ControlEvent, r: Outcome)
    requires i < |net.wire| && event.Frame? && event.frame == net.wire[i].frame && !event.frame.LsaFrame?
    requires Reaction(net, n, event, r, Without(net.wire, i))
    ensures Lower(React(net, n, event, r, Without(net.wire, i)), net)
  {
    OnlyNewsChanges(net, n, event, r, Without(net.wire, i));
    DeliverTotal(DigestWeight, net, i, n, event, r);
    DeliverTotal(RequestWeight, net, i, n, event, r);
    forall a | a in r.actions ensures OnSends(DigestWeight)(a) == 0 {
      if a.Send? {
        assert Sends(r.actions, a.link, a.frame);
      }
    }
    NoWeight(OnSends(DigestWeight), r.actions);
    if event.frame.DigestReqFrame? {
      NoWeight(OnSends(RequestWeight), r.actions);
    }
  }

  lemma AboveShrinks(issued: map<Name, Lsa>, o: NodeId, v: Version, w: Version)
    requires v.Below(w) && Name(o, w) in issued
    ensures |Above(issued, o, w)| < |Above(issued, o, v)|
  {
    assert Name(o, w) in Above(issued, o, v) && Name(o, w) !in Above(issued, o, w);
    SubsetSize(Above(issued, o, w), Above(issued, o, v));
  }

  /** The answer to an outdated LSA carries a strictly newer version; an equal one is not answered. */
  lemma StaleLowers(net: Net, i: nat, n: NodeId, event: ControlEvent, r: Outcome)
    requires i < |net.wire| && event.Frame? && event.frame == net.wire[i].frame && event.frame.LsaFrame?
    requires Reaction(net, n, event, r, Without(net.wire, i)) && r.plane.lsdb == net.nodes[n].plane.lsdb && DatabasesOk(net)
    ensures Lower(React(net, n, event, r, Without(net.wire, i)), net)
  {
    var w := LsaWeight(net.issued);
    OnlyNewsChanges(net, n, event, r, Without(net.wire, i));
    DeliverTotal(DigestWeight, net, i, n, event, r);
    DeliverTotal(RequestWeight, net, i, n, event, r);
    DeliverTotal(w, net, i, n, event, r);
    assert FrameIsBounded(net.nodes[n].plane, event.frame, r);
    if r.actions != [] {
      var k, lsa :| r.actions == [Send(k, LsaFrame(lsa))] && lsa.origin == event.frame.lsa.origin && event.frame.lsa.version.Below(lsa.version);
      assert Sends(r.actions, k, LsaFrame(lsa));
      assert EntryOk(net, n, lsa.origin);
      AboveShrinks(net.issued, lsa.origin, event.frame.lsa.version, lsa.version);
      assert r.actions[1..] == [];
    }
  }

  lemma DeliverLowers(net: Net, i: nat, n: NodeId, event: ControlEvent, r: Outcome)
    requires i < |net.wire| && event.Frame? && event.frame == net.wire[i].frame
    requires Reaction(net, n, event, r, Without(net.wire, i)) && DatabasesOk(net)
    ensures Lower(React(net, n, event, r, Without(net.wire, i)), net)
  {
    assert FrameIsBounded(net.nodes[n].plane, event.frame, r);
    if !event.frame.LsaFrame? {
      AskingLowers(net, i, n, event, r);
    } else if r.plane.lsdb == net.nodes[n].plane.lsdb {
      StaleLowers(net, i, n, event, r);
    } else {
      assert NewsIsGenuine(net.nodes[n].plane, event, r.plane);
      NewsIsHeard(net, n, event, r, Without(net.wire, i));
    }
  }

  lemma ExecuteLowers(net: Net, n: NodeId)
    requires CountersOk(net) && n in net.nodes && net.nodes[n].todo != []
    ensures Lower(ExecuteAction(net, n), net)
  {
    var net' := ExecuteAction(net, n);
    ExecuteFrame(net, n);
    SameUnheard(net, net');
    ExecuteTotal(DigestWeight, net, n);
    ExecuteTotal(RequestWeight, net, n);
    ExecuteTotal(LsaWeight(net.issued), net, n);
    ExecuteWaiting(net, n);
  }

  lemma StepLowers(net: Net, move: Move, net': Net)
    requires NetInv(net) && (move.Deliver? || move.Execute?) && Next(net, move, net')
    ensures Lower(net', net)
  {
    if move.Execute? {
      ExecuteLowers(net, move.node);
    } else {
      var flight := net.wire[move.index];
      var n, event := flight.to.node, Frame(flight.to.link, flight.frame);
      DeliveryReacts(net, move.index, move.now);
      DeliverLowers(net, move.index, n, event, Handle(net.nodes[n].plane, move.now, event));
    }
  }

  lemma DeliveryReacts(net: Net, i: nat, now: Time)
    requires NetInv(net) && i < |net.wire| && Idle(net, net.wire[i].to.node)
    requires var to := net.wire[i].to;
             net.nodes[to.node].boot == to.boot && to.link in net.nodes[to.node].plane.adjacencies
    ensures var n, event := net.wire[i].to.node, Frame(net.wire[i].to.link, net.wire[i].frame);
            PlaneOk(net.nodes[n].plane) && Reaction(net, n, event, Handle(net.nodes[n].plane, now, event), Without(net.wire, i))
  {
    var n, event := net.wire[i].to.node, Frame(net.wire[i].to.link, net.wire[i].frame);
    assert PlaneFine(net.nodes[n].plane);
    DeliveryIsExpected(net, i);
    HandleIsFine(net.nodes[n].plane, now, event);
    OutcomeIsReaction(net, n, event, Handle(net.nodes[n].plane, now, event), Without(net.wire, i));
  }

  lemma {:induction false} NoEndlessDelivery(run: nat -> Net, i: nat)
    requires NetInv(run(i))
    requires forall k: nat :: DeliveryStep(run(k), run(k + 1))
    ensures false
    decreases |Unheard(run(i))|, Total(DigestWeight, run(i)), Total(RequestWeight, run(i)), Total(LsaWeight(run(i).issued), run(i)), Waiting(run(i))
  {
    assert DeliveryStep(run(i), run(i + 1));
    var move: Move :| (move.Deliver? || move.Execute?) && Next(run(i), move, run(i + 1));
    StepLowers(run(i), move, run(i + 1));
    MoveKeeps(run(i), move, run(i + 1));
    NoEndlessDelivery(run, i + 1);
  }

  /** From every reachable network, a schedule of deliveries alone cannot go on forever. */
  lemma DeliveryIsFinite(run: nat -> Net)
    requires NetInv(run(0))
    ensures exists k: nat :: !DeliveryStep(run(k), run(k + 1))
  {
    if forall k: nat :: DeliveryStep(run(k), run(k + 1)) {
      NoEndlessDelivery(run, 0);
    }
  }
}
