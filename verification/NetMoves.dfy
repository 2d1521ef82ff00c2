/** Every move of the network keeps its invariant. */
module NetMoves {
  import opened MeshTypes
  import opened ControlData
  import opened ControlSafety
  import opened NodeContract
  import opened Network
  import opened NetInvariant

  // ------------------------------------------------------------ executing an action

  ghost predicate Executing(net: Net, n: NodeId) {
    && Shape(net) && Authentic(net) && n in net.nodes && net.nodes[n].todo != []
  }

  /** Executing moves the disk forward at most, and changes no plane, no link and no history. */
  ghost predicate SameButTodo(net: Net, net': Net) {
    && net'.issued == net.issued && net'.peer == net.peer && net'.dead == net.dead
    && net'.nodes.Keys == net.nodes.Keys
    && (forall m :: m in net.nodes ==>
          && net'.nodes[m].plane == net.nodes[m].plane && net'.nodes[m].boot == net.nodes[m].boot
          && net.nodes[m].stored <= net'.nodes[m].stored)
    && (forall m, k, f :: m in net.nodes && Sends(net'.nodes[m].todo, k, f) ==> Sends(net.nodes[m].todo, k, f))
  }

  lemma ExecutedCounter(node: Node)
    requires CounterOk(node) && node.todo != []
    ensures CounterOk(Executed(node)) && node.stored <= Executed(node).stored
    ensures forall k, f :: Sends(Executed(node).todo, k, f) ==> Sends(node.todo, k, f)
  {
    assert node.todo == [node.todo[0]] + node.todo[1..];
  }

  lemma ExecuteFrame(net: Net, n: NodeId)
    requires CountersOk(net) && n in net.nodes && net.nodes[n].todo != []
    ensures var net' := ExecuteAction(net, n); SameButTodo(net, net') && CountersOk(net')
  {
    ExecutedCounter(net.nodes[n]);
    assert ExecuteAction(net, n).nodes == net.nodes[n := Executed(net.nodes[n])];
  }

  lemma SameShape(net: Net, net': Net)
    requires SameButTodo(net, net') && Shape(net)
    ensures Shape(net')
  {
    assert |net'.nodes.Keys| == |net'.nodes| && |net.nodes.Keys| == |net.nodes|;
    forall m | m in net'.nodes ensures NodeShape(net', m) {
      assert NodeShape(net, m);
    }
    forall e | e in net'.peer ensures EndShape(net', e) {
      assert EndShape(net, e);
    }
  }

  lemma SameAuthentic(net: Net, net': Net)
    requires SameButTodo(net, net') && Authentic(net) && CountersOk(net')
    requires forall flight :: flight in net'.wire ==> flight in net.wire || FlightOk(net', flight)
    ensures Authentic(net')
  {
    assert forall o, v :: Persisted(net, o, v) ==> Persisted(net', o, v);
    forall m, o | m in net'.nodes && o in net'.nodes[m].plane.lsdb ensures EntryOk(net', m, o) {
      assert EntryOk(net, m, o);
    }
    forall m, k, f | m in net'.nodes && Sends(net'.nodes[m].todo, k, f)
      ensures k in net'.nodes[m].plane.adjacencies && OutgoingOk(net', m, f) {
      assert OutgoingOk(net, m, f);
    }
    forall flight | flight in net'.wire ensures FlightOk(net', flight) {
      if flight in net.wire {
        assert FlightOk(net, flight);
      }
    }
  }

  /** An LSA or digest leaves only when the versions it reveals are on disk. */
  lemma NewFlight(net: Net, n: NodeId, flight: Flight)
    requires IssuedOk(net) && TodosOk(net) && CountersOk(net) && n in net.nodes && net.nodes[n].todo != []
    requires flight in ExecuteAction(net, n).wire && flight !in net.wire
    ensures FlightOk(ExecuteAction(net, n), flight)
  {
    var node := net.nodes[n];
    var action := node.todo[0];
    assert action.Send?;
    assert CounterOk(node);
    assert Sends(node.todo, action.link, action.frame);
    assert OutgoingOk(net, n, action.frame);
    assert flight == Flight(End(n, node.boot, action.link), net.peer[End(n, node.boot, action.link)], action.frame);
  }

  lemma ExecuteAuthentic(net: Net, n: NodeId)
    requires Executing(net, n)
    ensures Shape(ExecuteAction(net, n)) && Authentic(ExecuteAction(net, n))
  {
    var net' := ExecuteAction(net, n);
    ExecuteFrame(net, n);
    SameShape(net, net');
    forall flight | flight in net'.wire && flight !in net.wire ensures FlightOk(net', flight) {
      NewFlight(net, n, flight);
    }
    SameAuthentic(net, net');
  }

  lemma ExecuteUnderway(net: Net, n: NodeId, e: End, frame: ControlFrame)
    requires TodosOk(net) && n in net.nodes && net.nodes[n].todo != [] && Underway(net, e, frame)
    ensures Underway(ExecuteAction(net, n), e, frame)
  {
    var todo := net.nodes[n].todo;
    if e.node == n && e.boot == net.nodes[n].boot && Sends(todo, e.link, frame) {
      assert OutgoingOk(net, n, frame);
      assert todo == [todo[0]] + todo[1..];
    }
  }

  lemma ExecuteCovered(net: Net, n: NodeId)
    requires Executing(net, n) && CoveredAll(net)
    ensures CoveredAll(ExecuteAction(net, n))
  {
    var net' := ExecuteAction(net, n);
    ExecuteFrame(net, n);
    forall e, f | Underway(net, e, f) ensures Underway(net', e, f) {
      ExecuteUnderway(net, n, e, f);
    }
    SameCoverage(net, net');
  }

  /** Coverage depends only on planes, live ends and what is under way. */
  lemma SameCoverage(net: Net, net': Net)
    requires CoveredAll(net) && net'.peer == net.peer && net.dead <= net'.dead
    requires forall m :: m in net'.nodes ==> m in net.nodes && net'.nodes[m].plane == net.nodes[m].plane
    requires forall e, f :: Underway(net, e, f) ==> Underway(net', e, f)
    ensures CoveredAll(net')
  {
    forall e, o | Live(net', e) && IsActive(net'.nodes[e.node].plane.lsdb, o)
      ensures Covered(net', e, o, net'.nodes[e.node].plane.lsdb[o].version) {
      assert Live(net, e);
      assert Covered(net, e, o, net.nodes[e.node].plane.lsdb[o].version);
    }
  }

  // ------------------------------------------------------------ crashing

  lemma CrashShape(net: Net, n: NodeId, epoch: nat)
    requires Shape(net) && n in net.nodes
    ensures Shape(CrashNode(net, n, epoch))
  {
    var net' := CrashNode(net, n, epoch);
    GrowsByOne(net.nodes, n, net'.nodes[n]);
    forall m | m in net'.nodes ensures NodeShape(net', m) {
      assert NodeShape(net, m);
    }
    forall e | e in net'.peer ensures EndShape(net', e) {
      assert EndShape(net, e);
    }
  }

  /** What others may hold of the crashed node was on its disk, so nothing they hold is forgotten. */
  lemma CrashKeepsPersisted(net: Net, n: NodeId, epoch: nat)
    requires n in net.nodes && net.nodes[n].plane.epoch <= epoch
    ensures var net' := CrashNode(net, n, epoch);
            && (forall o, v :: Persisted(net, o, v) ==> Persisted(net', o, v))
            && (forall lsa :: Genuine(net, lsa) && (lsa.origin == n ==> Persisted(net, n, lsa.version)) ==> Genuine(net', lsa))
  {
  }

  lemma CrashIssued(net: Net, n: NodeId, epoch: nat)
    requires IssuedOk(net) && n in net.nodes && net.nodes[n].plane.epoch <= epoch
    ensures IssuedOk(CrashNode(net, n, epoch))
  {
  }

  lemma CrashDatabases(net: Net, n: NodeId, epoch: nat)
    requires DatabasesOk(net) && Shape(net) && n in net.nodes && net.nodes[n].plane.epoch <= epoch
    ensures DatabasesOk(CrashNode(net, n, epoch))
  {
    var net' := CrashNode(net, n, epoch);
    CrashKeepsPersisted(net, n, epoch);
    forall m, o | m in net'.nodes && o in net'.nodes[m].plane.lsdb ensures EntryOk(net', m, o) {
      assert EntryOk(net, m, o) && NodeShape(net, m);
    }
  }

  lemma CrashTodos(net: Net, n: NodeId, epoch: nat)
    requires TodosOk(net) && n in net.nodes && net.nodes[n].plane.epoch <= epoch
    ensures TodosOk(CrashNode(net, n, epoch))
  {
    var net' := CrashNode(net, n, epoch);
    CrashKeepsPersisted(net, n, epoch);
    forall m, k, f | m in net'.nodes && Sends(net'.nodes[m].todo, k, f)
      ensures k in net'.nodes[m].plane.adjacencies && OutgoingOk(net', m, f) {
      assert OutgoingOk(net, m, f);
    }
  }

  lemma CrashWire(net: Net, n: NodeId, epoch: nat)
    requires WireOk(net) && Shape(net) && n in net.nodes && net.nodes[n].plane.epoch <= epoch
    ensures WireOk(CrashNode(net, n, epoch))
  {
    var net' := CrashNode(net, n, epoch);
    CrashKeepsPersisted(net, n, epoch);
    forall flight | flight in net'.wire ensures FlightOk(net', flight) {
      assert FlightOk(net, flight) && EndShape(net, flight.from);
    }
  }

  lemma CrashUnderway(net: Net, n: NodeId, epoch: nat, e: End, f: ControlFrame)
    requires n in net.nodes && e.node != n && Underway(net, e, f)
    ensures Underway(CrashNode(net, n, epoch), e, f)
  {
  }

  lemma CrashCovered(net: Net, n: NodeId, epoch: nat)
    requires Shape(net) && CoveredAll(net) && n in net.nodes
    ensures CoveredAll(CrashNode(net, n, epoch))
  {
    var net' := CrashNode(net, n, epoch);
    forall e: End, f: ControlFrame | e.node != n && Underway(net, e, f) ensures Underway(net', e, f) {
      CrashUnderway(net, n, epoch, e, f);
    }
    forall e, o | Live(net', e) && IsActive(net'.nodes[e.node].plane.lsdb, o)
      ensures Covered(net', e, o, net'.nodes[e.node].plane.lsdb[o].version) {
      assert EndShape(net, e) && !Touches(net, n, e) && Live(net, e);
      assert Covered(net, e, o, net.nodes[e.node].plane.lsdb[o].version);
    }
  }

  // ------------------------------------------------------------ links

  /** Links may come and flights may go, with every node as it was. */
  ghost predicate SameNodes(net: Net, net': Net) {
    && net'.nodes == net.nodes && net'.issued == net.issued
    && (forall e :: e in net.peer ==> e in net'.peer && net'.peer[e] == net.peer[e])
    && (forall flight :: flight in net'.wire ==> flight in net.wire)
  }

  lemma SameNodesAuthentic(net: Net, net': Net)
    requires SameNodes(net, net') && Authentic(net)
    ensures Authentic(net')
  {
    forall m, o | m in net'.nodes && o in net'.nodes[m].plane.lsdb ensures EntryOk(net', m, o) {
      assert EntryOk(net, m, o);
    }
    forall m, k, f | m in net'.nodes && Sends(net'.nodes[m].todo, k, f)
      ensures k in net'.nodes[m].plane.adjacencies && OutgoingOk(net', m, f) {
      assert OutgoingOk(net, m, f);
    }
    forall flight | flight in net'.wire ensures FlightOk(net', flight) {
      assert FlightOk(net, flight);
    }
  }

  lemma SameNodesShape(net: Net, net': Net)
    requires SameNodes(net, net') && Shape(net) && forall e :: e in net'.peer ==> EndShape(net', e)
    ensures Shape(net')
  {
    forall m | m in net'.nodes ensures NodeShape(net', m) {
      assert NodeShape(net, m);
    }
  }

  lemma ConnectEnds(net: Net, a: End, b: End, e: End)
    requires Shape(net) && Tidy(net) && CanConnect(net, a, b) && e in Connected(net, a, b).peer
    ensures EndShape(Connected(net, a, b), e)
  {
    if e in net.peer {
      assert EndShape(net, e);
    }
  }

  lemma ConnectCovered(net: Net, a: End, b: End, e: End, o: NodeId)
    requires Shape(net) && CoveredAll(net) && CanConnect(net, a, b)
    requires Live(Connected(net, a, b), e) && IsActive(net.nodes[e.node].plane.lsdb, o)
    requires EndShape(Connected(net, a, b), e)
    ensures Covered(Connected(net, a, b), e, o, net.nodes[e.node].plane.lsdb[o].version)
  {
    var net' := Connected(net, a, b);
    assert NodeShape(net, e.node);
    assert e in net.peer && EndShape(net, e) && Live(net, e);
    assert Covered(net, e, o, net.nodes[e.node].plane.lsdb[o].version);
    assert forall f :: Underway(net, e, f) ==> Underway(net', e, f);
    assert forall f :: Underway(net, net.peer[e], f) ==> Underway(net', net.peer[e], f);
  }

  lemma ConnectShape(net: Net, a: End, b: End)
    requires Shape(net) && Tidy(net) && CanConnect(net, a, b)
    ensures Shape(Connected(net, a, b))
  {
    var net' := Connected(net, a, b);
    forall e | e in net'.peer ensures EndShape(net', e) {
      ConnectEnds(net, a, b, e);
    }
    SameNodesShape(net, net');
  }

  lemma ConnectCoveredAll(net: Net, a: End, b: End)
    requires Shape(net) && CoveredAll(net) && CanConnect(net, a, b) && Shape(Connected(net, a, b))
    ensures CoveredAll(Connected(net, a, b))
  {
    var net' := Connected(net, a, b);
    forall e, o | Live(net', e) && IsActive(net'.nodes[e.node].plane.lsdb, o)
      ensures Covered(net', e, o, net'.nodes[e.node].plane.lsdb[o].version) {
      ConnectCovered(net, a, b, e, o);
    }
  }

  lemma ConnectKeeps(net: Net, a: End, b: End)
    requires Shape(net) && Authentic(net) && CoveredAll(net) && Tidy(net) && CanConnect(net, a, b)
    ensures var net' := Connected(net, a, b); Shape(net') && Authentic(net') && CoveredAll(net') && Tidy(net')
  {
    ConnectShape(net, a, b);
    ConnectCoveredAll(net, a, b);
    SameNodesAuthentic(net, Connected(net, a, b));
  }

  lemma CutEnds(net: Net, end: End, e: End)
    requires Shape(net) && end in net.peer && e in net.peer
    ensures EndShape(CutOff(net, end), e)
  {
    assert EndShape(net, end) && EndShape(net, e);
  }

  lemma CutShape(net: Net, end: End)
    requires Shape(net) && end in net.peer
    ensures Shape(CutOff(net, end))
  {
    var net' := CutOff(net, end);
    forall e | e in net'.peer ensures EndShape(net', e) {
      CutEnds(net, end, e);
    }
    SameNodesShape(net, net');
  }

  lemma CutTidy(net: Net, end: End)
    requires Shape(net) && Tidy(net) && end in net.peer
    ensures Tidy(CutOff(net, end))
  {
    assert EndShape(net, end);
  }

  lemma CutKeeps(net: Net, end: End)
    requires Shape(net) && Authentic(net) && CoveredAll(net) && Tidy(net) && end in net.peer
    ensures var net' := CutOff(net, end); Shape(net') && Authentic(net') && CoveredAll(net') && Tidy(net')
  {
    var net' := CutOff(net, end);
    CutShape(net, end);
    CutTidy(net, end);
    SameNodesAuthentic(net, net');
    SameCoverage(net, net');
  }

  lemma WithoutMembers(wire: seq<Flight>, i: nat)
    requires i < |wire|
    ensures forall flight :: flight in Without(wire, i) ==> flight in wire
    ensures forall flight :: flight in wire ==> flight in Without(wire, i) || flight == wire[i]
  {
    assert wire == wire[..i] + [wire[i]] + wire[i + 1..];
  }

  lemma LoseCovered(net: Net, i: nat, net': Net)
    requires Shape(net) && CoveredAll(net) && i < |net.wire| && net.wire[i].from in net.dead
    requires net' == net.(wire := Without(net.wire, i))
    ensures CoveredAll(net')
  {
    WithoutMembers(net.wire, i);
    forall e, o | Live(net', e) && IsActive(net'.nodes[e.node].plane.lsdb, o)
      ensures Covered(net', e, o, net'.nodes[e.node].plane.lsdb[o].version) {
      assert EndShape(net, e) && EndShape(net, net.peer[e]) && Live(net, e);
      assert Covered(net, e, o, net.nodes[e.node].plane.lsdb[o].version);
      assert forall f :: Underway(net, e, f) ==> Underway(net', e, f);
      assert forall f :: Underway(net, net.peer[e], f) ==> Underway(net', net.peer[e], f);
    }
  }

  lemma LoseShape(net: Net, i: nat, net': Net)
    requires Shape(net) && i < |net.wire| && net' == net.(wire := Without(net.wire, i))
    ensures Shape(net')
  {
    WithoutMembers(net.wire, i);
    forall e | e in net'.peer ensures EndShape(net', e) {
      assert EndShape(net, e);
    }
    SameNodesShape(net, net');
  }

  lemma LoseKeeps(net: Net, i: nat, net': Net)
    requires Shape(net) && Authentic(net) && CoveredAll(net) && Tidy(net) && i < |net.wire| && net.wire[i].from in net.dead
    requires net' == net.(wire := Without(net.wire, i))
    ensures Shape(net') && Authentic(net') && CoveredAll(net') && Tidy(net')
  {
    WithoutMembers(net.wire, i);
    LoseShape(net, i, net');
    SameNodesAuthentic(net, net');
    LoseCovered(net, i, net');
  }
}
