/**
 * Rest is always within reach: once links have settled, finitely many
 * deliveries, executions and recomputations bring a network to rest.
 */
module Settling {
  import opened MeshTypes
  import opened ControlData
  import opened ControlModel
  import opened ControlSafety
  import opened NodeContract
  import opened Network
  import opened NetInvariant
  import opened NetSafety
  import opened NetAgreement
  import opened NetQuiescence
  import opened Convergence

  // ------------------------------------------------------------ what settling starts from

  /** Every end of a link that is not dead has been reported as open. */
  ghost predicate OpenEnds(net: Net) {
    forall e :: e in net.peer && e !in net.dead && e.node in net.nodes ==> e.link in net.nodes[e.node].plane.adjacencies
  }

  /** All openings and losses of links have been reported. */
  ghost predicate LinksSettled(net: Net) {
    && OpenEnds(net)
    && forall e :: e in net.dead && e.node in net.nodes && e.boot == net.nodes[e.node].boot ==> e.link !in net.nodes[e.node].plane.adjacencies
  }

  /** No LSA of `o` is live or under way anywhere. */
  ghost predicate Gone(net: Net, o: NodeId) {
    && (forall n :: n in net.nodes ==> !IsActive(net.nodes[n].plane.lsdb, o))
    && (forall n, k, lsa :: n in net.nodes && Sends(net.nodes[n].todo, k, LsaFrame(lsa)) ==> lsa.origin != o)
    && (forall flight :: flight in net.wire && flight.frame.LsaFrame? ==> flight.frame.lsa.origin != o)
  }

  /** What has expired anywhere is gone everywhere. */
  ghost predicate Forgotten(net: Net) {
    forall n, o :: n in net.nodes && IsTombstone(net.nodes[n].plane.lsdb, o) ==> Gone(net, o)
  }

  /** Counters suffice for one more recomputation, or for two if none is pending since `t`. */
  ghost predicate Spare(p: Plane, t: Time) {
    p.mySeq < U64_MAX && p.generation + (if p.pending.Some? && p.lastChange == Some(t) then 1 else 2) <= U64_MAX
  }

  ghost predicate AllSpare(net: Net, t: Time) {
    forall n :: n in net.nodes ==> Spare(net.nodes[n].plane, t)
  }

  /** No process is out of sequence numbers or generations. */
  ghost predicate CountersRemain(net: Net) {
    forall n :: n in net.nodes ==> CountersLeft(net.nodes[n].plane)
  }

  ghost predicate Settled(net: Net, t: Time) {
    NetInv(net) && Calm(net, t)
  }

  // ------------------------------------------------------------ what a frame does to a plane

  /** A frame leaves the plane alone, or installs its LSA and marks the change. */
  ghost predicate Took(p: Plane, now: Time, frame: ControlFrame, q: Plane) {
    || q == p
    || (frame.LsaFrame? && q == MarkSpfDirty(p.(lsdb := p.lsdb[frame.lsa.origin := Installed(frame.lsa, now)]), now).plane)
  }

  lemma LsaTaken(p: Plane, now: Time, link: LinkId, lsa: Lsa)
    ensures Took(p, now, LsaFrame(lsa), ReceiveLsa(p, now, link, lsa).plane)
  {
  }

  lemma FrameTaken(p: Plane, now: Time, link: LinkId, frame: ControlFrame)
    requires PlaneOk(p)
    ensures Fits(p.lsdb, p.me) && Took(p, now, frame, Handle(p, now, Frame(link, frame)).plane)
  {
    FrameHandled(p, now, link, frame);
    if frame.LsaFrame? {
      LsaTaken(p, now, link, frame.lsa);
    }
  }

  lemma FrameHandled(p: Plane, now: Time, link: LinkId, frame: ControlFrame)
    requires PlaneOk(p)
    ensures Fits(p.lsdb, p.me)
    ensures Handle(p, now, Frame(link, frame)).plane == if frame.LsaFrame? then ReceiveLsa(p, now, link, frame.lsa).plane else p
  {
  }

  lemma TookSpares(p: Plane, t: Time, frame: ControlFrame, q: Plane)
    requires Spare(p, t) && Took(p, t, frame, q)
    ensures Spare(q, t) && q.adjacencies == p.adjacencies
  {
  }

  lemma TookDatabase(p: Plane, t: Time, frame: ControlFrame, q: Plane, o: NodeId)
    requires Took(p, t, frame, q) && (frame.LsaFrame? ==> frame.lsa.origin != o)
    ensures IsActive(q.lsdb, o) == IsActive(p.lsdb, o)
  {
  }

  lemma TookTombstone(p: Plane, t: Time, frame: ControlFrame, q: Plane, o: NodeId)
    requires Took(p, t, frame, q) && IsTombstone(q.lsdb, o)
    ensures IsTombstone(p.lsdb, o)
  {
  }

  // ------------------------------------------------------------ deliveries and executions keep it

  lemma DeliverForgets(net: Net, i: nat, t: Time, r: Outcome)
    requires i < |net.wire| && net.wire[i].to.node in net.nodes && Forgotten(net)
    requires Took(net.nodes[net.wire[i].to.node].plane, t, net.wire[i].frame, r.plane)
    requires SendsAreGrounded(Frame(net.wire[i].to.link, net.wire[i].frame), r)
    ensures Forgotten(React(net, net.wire[i].to.node, Frame(net.wire[i].to.link, net.wire[i].frame), r, Without(net.wire, i)))
  {
    var n, frame := net.wire[i].to.node, net.wire[i].frame;
    var net' := React(net, n, Frame(net.wire[i].to.link, frame), r, Without(net.wire, i));
    forall m, o | m in net'.nodes && IsTombstone(net'.nodes[m].plane.lsdb, o) ensures Gone(net', o) {
      if m == n {
        TookTombstone(net.nodes[n].plane, t, frame, r.plane, o);
      }
      DeliverKeepsGone(net, i, t, r, o);
    }
  }

  lemma DeliverKeepsGone(net: Net, i: nat, t: Time, r: Outcome, o: NodeId)
    requires i < |net.wire| && net.wire[i].to.node in net.nodes && Gone(net, o)
    requires Took(net.nodes[net.wire[i].to.node].plane, t, net.wire[i].frame, r.plane)
    requires SendsAreGrounded(Frame(net.wire[i].to.link, net.wire[i].frame), r)
    ensures Gone(React(net, net.wire[i].to.node, Frame(net.wire[i].to.link, net.wire[i].frame), r, Without(net.wire, i)), o)
  {
    var n, frame := net.wire[i].to.node, net.wire[i].frame;
    assert net.wire[i] in net.wire;
    TookDatabase(net.nodes[n].plane, t, frame, r.plane, o);
    var net' := React(net, n, Frame(net.wire[i].to.link, frame), r, Without(net.wire, i));
    forall m, k, lsa | m in net'.nodes && Sends(net'.nodes[m].todo, k, LsaFrame(lsa)) ensures lsa.origin != o {
      if m == n {
        assert Sends(r.actions, k, LsaFrame(lsa));
      } else {
        assert Sends(net.nodes[m].todo, k, LsaFrame(lsa));
      }
    }
  }

  /** The part of being settled that the invariant of the network does not speak of. */
  ghost predicate Calm(net: Net, t: Time) {
    LinksSettled(net) && Forgotten(net) && AllSpare(net, t)
  }

  lemma DeliverCalms(net: Net, i: nat, t: Time, r: Outcome)
    requires i < |net.wire| && net.wire[i].to.node in net.nodes && Calm(net, t)
    requires Took(net.nodes[net.wire[i].to.node].plane, t, net.wire[i].frame, r.plane)
    requires SendsAreGrounded(Frame(net.wire[i].to.link, net.wire[i].frame), r)
    ensures Calm(React(net, net.wire[i].to.node, Frame(net.wire[i].to.link, net.wire[i].frame), r, Without(net.wire, i)), t)
  {
    DeliverForgets(net, i, t, r);
    TookSpares(net.nodes[net.wire[i].to.node].plane, t, net.wire[i].frame, r.plane);
  }

  lemma FrameIsTaken(p: Plane, t: Time, link: LinkId, frame: ControlFrame)
    requires PlaneOk(p)
    ensures Fits(p.lsdb, p.me)
    ensures var r := Handle(p, t, Frame(link, frame)); Took(p, t, frame, r.plane) && SendsAreGrounded(Frame(link, frame), r)
  {
    FrameTaken(p, t, link, frame);
    StepContract(p, t, Frame(link, frame), TablesOf(p));
  }

  /** Which move is made, where the plane is in order. */
  lemma DeliverIs(net: Net, i: nat, t: Time, net': Net)
    requires Next(net, Deliver(i, t), net') && PlaneOk(net.nodes[net.wire[i].to.node].plane)
    ensures Fits(net.nodes[net.wire[i].to.node].plane.lsdb, net.nodes[net.wire[i].to.node].plane.me)
    ensures var to, frame := net.wire[i].to, net.wire[i].frame;
            net' == React(net, to.node, Frame(to.link, frame), Handle(net.nodes[to.node].plane, t, Frame(to.link, frame)), Without(net.wire, i))
  {
  }

  lemma DeliverKeepsCalm(net: Net, i: nat, t: Time, net': Net)
    requires PlanesFine(net) && Calm(net, t) && Next(net, Deliver(i, t), net')
    ensures Calm(net', t)
  {
    var to, frame := net.wire[i].to, net.wire[i].frame;
    PlaneIsOk(net, to.node);
    DeliverIs(net, i, t, net');
    FrameIsTaken(net.nodes[to.node].plane, t, to.link, frame);
    DeliverCalms(net, i, t, Handle(net.nodes[to.node].plane, t, Frame(to.link, frame)));
  }

  lemma ExecuteForgets(net: Net, n: NodeId, o: NodeId)
    requires n in net.nodes && net.nodes[n].todo != [] && Gone(net, o)
    ensures Gone(ExecuteAction(net, n), o)
  {
    var net' := ExecuteAction(net, n);
    var todo := net.nodes[n].todo;
    assert forall a :: a in todo[1..] ==> a in todo;
    forall m, k, lsa | m in net'.nodes && Sends(net'.nodes[m].todo, k, LsaFrame(lsa)) ensures lsa.origin != o {
      assert Sends(net.nodes[m].todo, k, LsaFrame(lsa));
    }
    forall flight | flight in net'.wire && flight.frame.LsaFrame? ensures flight.frame.lsa.origin != o {
      if flight !in net.wire {
        assert Sends(todo, todo[0].link, LsaFrame(flight.frame.lsa));
      }
    }
  }

  lemma ExecuteKeepsCalm(net: Net, n: NodeId, t: Time)
    requires n in net.nodes && net.nodes[n].todo != [] && Calm(net, t)
    ensures Calm(ExecuteAction(net, n), t)
  {
    var net' := ExecuteAction(net, n);
    forall m, o | m in net'.nodes && IsTombstone(net'.nodes[m].plane.lsdb, o) ensures Gone(net', o) {
      assert IsTombstone(net.nodes[m].plane.lsdb, o);
      ExecuteForgets(net, n, o);
    }
  }

  /** A delivery at `t` or an execution. */
  predicate IsDelivery(move: Move, t: Time) {
    move.Execute? || (move.Deliver? && move.now == t)
  }

  lemma DeliveryKeepsCalm(net: Net, move: Move, t: Time, net': Net)
    requires PlanesFine(net) && Calm(net, t) && IsDelivery(move, t) && Next(net, move, net')
    ensures Calm(net', t)
  {
    if move.Execute? {
      ExecuteKeepsCalm(net, move.node, t);
    } else {
      DeliverKeepsCalm(net, move.index, t, net');
    }
  }

  // ------------------------------------------------------------ until nothing is under way

  /** The moves lead from one network to the other. */
  ghost predicate Leads(net: Net, moves: seq<Move>, net': Net)
    decreases |moves|
  {
    if moves == [] then net' == net
    else exists mid :: Next(net, moves[0], mid) && Leads(mid, moves[1..], net')
  }

  lemma LeadsFirst(net: Net, move: Move, mid: Net, moves: seq<Move>, net': Net)
    requires Next(net, move, mid) && Leads(mid, moves, net')
    ensures Leads(net, [move] + moves, net')
  {
    assert ([move] + moves)[1..] == moves;
  }

  lemma {:induction false} LeadsThen(net: Net, moves: seq<Move>, mid: Net, more: seq<Move>, net': Net)
    requires Leads(net, moves, mid) && Leads(mid, more, net')
    ensures Leads(net, moves + more, net')
    decreases |moves|
  {
    if moves == [] {
      assert moves + more == more;
    } else {
      var next :| Next(net, moves[0], next) && Leads(next, moves[1..], mid);
      LeadsThen(next, moves[1..], mid, more, net');
      LeadsFirst(net, moves[0], next, moves[1..] + more, net');
      assert moves + more == [moves[0]] + (moves[1..] + more);
    }
  }

  lemma {:induction false} LeadsKeeps(net: Net, moves: seq<Move>, net': Net)
    requires NetInv(net) && Leads(net, moves, net')
    ensures NetInv(net')
    decreases |moves|
  {
    if moves != [] {
      var mid :| Next(net, moves[0], mid) && Leads(mid, moves[1..], net');
      MoveKeeps(net, moves[0], mid);
      LeadsKeeps(mid, moves[1..], net');
    }
  }

  ghost predicate Idling(net: Net) {
    && (forall n :: n in net.nodes ==> net.nodes[n].todo == [])
    && (forall flight :: flight in net.wire ==> flight.from in net.dead)
  }

  lemma ExecuteOne(net: Net, n: NodeId)
    requires CountersOk(net) && n in net.nodes && net.nodes[n].todo != []
    ensures Next(net, Execute(n), ExecuteAction(net, n))
  {
    if net.nodes[n].todo[0].PersistSeq? {
      StoreNeverRefuses(net, n);
    }
  }

  lemma SomethingToDo(net: Net) returns (n: NodeId, i: nat)
    requires !Idling(net)
    ensures if n in net.nodes && net.nodes[n].todo != [] then true
            else (forall m :: m in net.nodes ==> net.nodes[m].todo == []) && i < |net.wire| && net.wire[i].from !in net.dead
  {
    if m :| m in net.nodes && net.nodes[m].todo != [] {
      n, i := m, 0;
    } else {
      n := 0;
      var flight :| flight in net.wire && flight.from !in net.dead;
      i :| 0 <= i < |net.wire| && net.wire[i] == flight;
    }
  }

  /** While something is under way on a live link, some delivery or execution is possible. */
  lemma SomeDelivery(net: Net, t: Time) returns (move: Move, net': Net)
    requires NetInv(net) && OpenEnds(net) && CountersRemain(net) && !Idling(net)
    ensures IsDelivery(move, t) && Next(net, move, net')
  {
    var n, i := SomethingToDo(net);
    if n in net.nodes && net.nodes[n].todo != [] {
      ExecuteOne(net, n);
      move, net' := Execute(n), ExecuteAction(net, n);
    } else {
      move := Deliver(i, t);
      net' := DeliverOne(net, i, t);
    }
  }

  lemma DeliverOne(net: Net, i: nat, t: Time) returns (net': Net)
    requires NetInv(net) && OpenEnds(net) && CountersRemain(net) && i < |net.wire| && net.wire[i].from !in net.dead
    requires forall n :: n in net.nodes ==> net.nodes[n].todo == []
    ensures Next(net, Deliver(i, t), net')
  {
    var flight := net.wire[i];
    assert FlightOk(net, flight) && EndShape(net, flight.from) && EndShape(net, flight.to);
    var p := net.nodes[flight.to.node].plane;
    PlaneIsOk(net, flight.to.node);
    FrameTaken(p, t, flight.to.link, flight.frame);
    net' := React(net, flight.to.node, Frame(flight.to.link, flight.frame), Handle(p, t, Frame(flight.to.link, flight.frame)), Without(net.wire, i));
  }

  ghost predicate Stuck(net: Net) {
    forall net' :: !DeliveryStep(net, net')
  }

  /** Where every delivery schedule ends: with all ends open, nothing is under way on live links any more. */
  lemma StuckIsQuiet(net: Net)
    requires NetInv(net) && OpenEnds(net) && CountersRemain(net) && Stuck(net)
    ensures Idling(net)
  {
    if !Idling(net) {
      var move, net' := SomeDelivery(net, 0);
      assert DeliveryStep(net, net');
    }
  }

  lemma DeliveryStepSettles(net: Net, move: Move, t: Time, net': Net)
    requires Settled(net, t) && IsDelivery(move, t) && Next(net, move, net')
    ensures Settled(net', t) && Lower(net', net)
  {
    MoveKeeps(net, move, net');
    StepLowers(net, move, net');
    DeliveryKeepsCalm(net, move, t, net');
  }

  lemma SparesRemain(net: Net, t: Time)
    requires AllSpare(net, t)
    ensures CountersRemain(net)
  {
  }

  lemma OneDelivery(net: Net, t: Time) returns (move: Move, net': Net)
    requires Settled(net, t) && !Idling(net)
    ensures IsDelivery(move, t) && Next(net, move, net') && Settled(net', t) && Lower(net', net)
  {
    SparesRemain(net, t);
    move, net' := SomeDelivery(net, t);
    DeliveryStepSettles(net, move, t, net');
  }

  /** Deliveries and executions lead a settled network to one with nothing under way on live links. */
  lemma {:induction false} Quiesces(net: Net, t: Time) returns (moves: seq<Move>, net': Net)
    requires Settled(net, t)
    ensures Leads(net, moves, net') && (forall m :: m in moves ==> IsDelivery(m, t))
    ensures Settled(net', t) && Idling(net')
    decreases |Unheard(net)|, Total(DigestWeight, net), Total(RequestWeight, net), Total(LsaWeight(net.issued), net), Waiting(net)
  {
    if Idling(net) {
      moves, net' := [], net;
    } else {
      var move, mid := OneDelivery(net, t);
      var rest;
      rest, net' := Quiesces(mid, t);
      LeadsFirst(net, move, mid, rest, net');
      moves := [move] + rest;
    }
  }

  // ------------------------------------------------------------ until no recomputation is pending

  /** Nothing is under way, and whoever has a recomputation pending has counters left for it. */
  ghost predicate Quieted(net: Net) {
    && LinksSettled(net) && Forgotten(net) && Idling(net)
    && forall n :: n in net.nodes && net.nodes[n].plane.pending.Some? ==> CountersLeft(net.nodes[n].plane)
  }

  ghost function PendingNodes(net: Net): set<NodeId> {
    set n | n in net.nodes && net.nodes[n].plane.pending.Some?
  }

  predicate IsRecomputation(move: Move) {
    move.Execute? || (move.Local? && move.event.Timer? && move.event.timer.SpfHold?)
  }

  /** The actions of a recomputation concern the node itself. */
  ghost predicate Internal(actions: seq<ControlAction>) {
    forall a :: a in actions ==> !a.Send? && !a.PersistSeq?
  }

  /** Nothing has changed but what node `n` has to do and what it has published. */
  ghost predicate Touched(net: Net, n: NodeId, net': Net) {
    && net'.peer == net.peer && net'.dead == net.dead && net'.wire == net.wire
    && n in net.nodes && n in net'.nodes && (forall m :: m in net'.nodes <==> m in net.nodes)
    && (forall m :: m in net.nodes && m != n ==> net'.nodes[m] == net.nodes[m])
    && net'.nodes[n].boot == net.nodes[n].boot
    && net'.nodes[n].plane.lsdb == net.nodes[n].plane.lsdb && net'.nodes[n].plane.adjacencies == net.nodes[n].plane.adjacencies
  }

  lemma TouchedAgain(a: Net, n: NodeId, b: Net, c: Net)
    requires Touched(a, n, b) && Touched(b, n, c)
    ensures Touched(a, n, c)
  {
  }

  ghost function SpfMove(net: Net, n: NodeId): Move
    requires n in net.nodes && net.nodes[n].plane.pending.Some?
  {
    var s := net.nodes[n].plane.pending.value; Local(n, s.at, Timer(SpfHold(s.generation)))
  }

  lemma FiringIsInternal(p: Plane, tables: Tables)
    requires p.pending.Some?
    ensures var r := FireSpf(p, p.pending.value.at, p.pending.value.generation, tables);
            && r.plane.pending.None? && r.plane.lsdb == p.lsdb && r.plane.adjacencies == p.adjacencies && r.plane.mySeq == p.mySeq
            && Internal(r.actions)
  {
  }

  lemma SpfNext(net: Net, n: NodeId) returns (net': Net)
    requires n in net.nodes && net.nodes[n].plane.pending.Some? && Idle(net, n) && PlaneOk(net.nodes[n].plane)
    ensures Next(net, SpfMove(net, n), net') && Touched(net, n, net')
    ensures net'.nodes[n].plane.pending.None? && Internal(net'.nodes[n].todo)
  {
    var p := net.nodes[n].plane;
    var s := p.pending.value;
    var e := Timer(SpfHold(s.generation));
    var r := FireSpf(p, s.at, s.generation, TablesOf(p));
    FiringIsInternal(p, TablesOf(p));
    assert Fits(p.lsdb, p.me) && Handle(p, s.at, e) == r;
    net' := React(net, n, e, r, net.wire);
  }

  lemma InternalNext(net: Net, n: NodeId) returns (net': Net)
    requires n in net.nodes && net.nodes[n].todo != [] && Internal(net.nodes[n].todo)
    ensures Next(net, Execute(n), net') && Touched(net, n, net')
    ensures net'.nodes[n].plane == net.nodes[n].plane
    ensures |net'.nodes[n].todo| < |net.nodes[n].todo| && Internal(net'.nodes[n].todo)
  {
    assert net.nodes[n].todo[0] in net.nodes[n].todo;
    assert forall a :: a in net.nodes[n].todo[1..] ==> a in net.nodes[n].todo;
    net' := ExecuteAction(net, n);
  }

  /** Internal actions are executed one by one, and change nothing else. */
  lemma {:induction false} RunTodo(net: Net, n: NodeId) returns (moves: seq<Move>, net': Net)
    requires n in net.nodes && Internal(net.nodes[n].todo)
    ensures Leads(net, moves, net') && (forall m :: m in moves ==> m == Execute(n))
    ensures Touched(net, n, net') && net'.nodes[n].todo == [] && net'.nodes[n].plane == net.nodes[n].plane
    decreases |net.nodes[n].todo|
  {
    if net.nodes[n].todo == [] {
      moves, net' := [], net;
      TouchedNot(net, n);
    } else {
      var mid := InternalNext(net, n);
      var rest;
      rest, net' := RunTodo(mid, n);
      TouchedAgain(net, n, mid, net');
      LeadsFirst(net, Execute(n), mid, rest, net');
      moves := [Execute(n)] + rest;
    }
  }

  lemma TouchedNot(net: Net, n: NodeId)
    requires n in net.nodes
    ensures Touched(net, n, net)
  {
  }

  /** One recomputation, published. */
  lemma FireOne(net: Net, n: NodeId) returns (moves: seq<Move>, net': Net)
    requires n in net.nodes && Idle(net, n) && net.nodes[n].plane.pending.Some? && PlaneOk(net.nodes[n].plane)
    ensures Leads(net, moves, net') && (forall m :: m in moves ==> IsRecomputation(m))
    ensures Touched(net, n, net') && net'.nodes[n].todo == [] && net'.nodes[n].plane.pending.None?
  {
    var mid := SpfNext(net, n);
    var rest, last := RunTodo(mid, n);
    TouchedAgain(net, n, mid, last);
    LeadsFirst(net, SpfMove(net, n), mid, rest, last);
    moves, net' := [SpfMove(net, n)] + rest, last;
  }

  lemma GoneStays(net: Net, n: NodeId, net': Net, o: NodeId)
    requires Touched(net, n, net') && net'.nodes[n].todo == [] && Gone(net, o)
    ensures Gone(net', o)
  {
    forall m, k, lsa | m in net'.nodes && Sends(net'.nodes[m].todo, k, LsaFrame(lsa)) ensures lsa.origin != o {
      assert m != n && Sends(net.nodes[m].todo, k, LsaFrame(lsa));
    }
  }

  lemma StaysForgotten(net: Net, n: NodeId, net': Net)
    requires Touched(net, n, net') && net'.nodes[n].todo == [] && Forgotten(net)
    ensures Forgotten(net')
  {
    forall m, o | m in net'.nodes && IsTombstone(net'.nodes[m].plane.lsdb, o) ensures Gone(net', o) {
      assert IsTombstone(net.nodes[m].plane.lsdb, o);
      GoneStays(net, n, net', o);
    }
  }

  lemma FiredPending(net: Net, n: NodeId, net': Net)
    requires Touched(net, n, net') && net'.nodes[n].plane.pending.None?
    ensures PendingNodes(net') == PendingNodes(net) - {n}
  {
  }

  lemma FiredStaysQuieted(net: Net, n: NodeId, net': Net)
    requires Quieted(net) && Touched(net, n, net') && net'.nodes[n].todo == [] && net'.nodes[n].plane.pending.None?
    ensures Quieted(net')
  {
    StaysForgotten(net, n, net');
  }

  lemma {:induction false} FireAll(net: Net) returns (moves: seq<Move>, net': Net)
    requires NetInv(net) && Quieted(net)
    ensures Leads(net, moves, net') && (forall m :: m in moves ==> IsRecomputation(m))
    ensures NetInv(net') && Quieted(net') && PendingNodes(net') == {}
    decreases |PendingNodes(net)|
  {
    if PendingNodes(net) == {} {
      moves, net' := [], net;
    } else {
      var first, mid := FireSome(net);
      LeadsKeeps(net, first, mid);
      var rest;
      rest, net' := FireAll(mid);
      LeadsThen(net, first, mid, rest, net');
      moves := first + rest;
    }
  }

  lemma PendingIsIdle(net: Net, n: NodeId)
    requires Quieted(net) && n in PendingNodes(net)
    ensures Idle(net, n) && net.nodes[n].plane.pending.Some?
  {
  }

  lemma FireSome(net: Net) returns (moves: seq<Move>, net': Net)
    requires PlanesFine(net) && Quieted(net) && PendingNodes(net) != {}
    ensures Leads(net, moves, net') && (forall m :: m in moves ==> IsRecomputation(m))
    ensures Quieted(net') && |PendingNodes(net')| < |PendingNodes(net)|
  {
    var n :| n in PendingNodes(net);
    PendingIsIdle(net, n);
    PlaneIsOk(net, n);
    moves, net' := FireOne(net, n);
    FiredStaysQuieted(net, n, net');
    FiredPending(net, n, net');
    SubsetSize(PendingNodes(net'), PendingNodes(net));
  }

  // ------------------------------------------------------------ rest

  lemma SettledEnd(net: Net, n: NodeId, k: LinkId)
    requires Shape(net) && LinksSettled(net) && n in net.nodes && k in net.nodes[n].plane.adjacencies
    ensures Opposed(net, EndOf(net, n, k))
  {
    var e := EndOf(net, n, k);
    assert NodeShape(net, n) && EndShape(net, e);
    assert EndShape(net, net.peer[e]);
  }

  lemma ForgottenReconciles(net: Net, e: End)
    requires Forgotten(net) && Live(net, e)
    ensures Reconciled(net, e)
  {
    forall o ensures
      && !(IsTombstone(net.nodes[e.node].plane.lsdb, o) && IsActive(net.nodes[net.peer[e].node].plane.lsdb, o))
      && !(IsTombstone(net.nodes[net.peer[e].node].plane.lsdb, o) && IsActive(net.nodes[e.node].plane.lsdb, o)) {
      assert IsTombstone(net.nodes[e.node].plane.lsdb, o) ==> Gone(net, o);
      assert IsTombstone(net.nodes[net.peer[e].node].plane.lsdb, o) ==> Gone(net, o);
    }
  }

  lemma QuietedRests(net: Net)
    requires Shape(net) && Quieted(net) && PendingNodes(net) == {}
    ensures AtRest(net)
  {
    forall n | n in net.nodes ensures net.nodes[n].plane.pending.None? {
      assert n !in PendingNodes(net);
    }
    forall n, k | n in net.nodes && k in net.nodes[n].plane.adjacencies
      ensures Opposed(net, EndOf(net, n, k)) && Reconciled(net, EndOf(net, n, k)) {
      SettledEnd(net, n, k);
      ForgottenReconciles(net, EndOf(net, n, k));
    }
  }

  lemma IdleIsQuieted(net: Net, t: Time)
    requires Calm(net, t) && Idling(net)
    ensures Quieted(net)
  {
    SparesRemain(net, t);
  }

  /**
   * From every settled network finitely many deliveries, executions and
   * recomputations lead to one at rest: no opening, loss, origination, refresh
   * or expiry is needed, and none takes part.
   */
  lemma ComesToRest(net: Net, t: Time) returns (moves: seq<Move>, net': Net)
    requires Settled(net, t)
    ensures Leads(net, moves, net') && (forall m :: m in moves ==> IsDelivery(m, t) || IsRecomputation(m))
    ensures NetInv(net') && AtRest(net')
  {
    var first, mid := Quiesces(net, t);
    IdleIsQuieted(mid, t);
    var rest;
    rest, net' := FireAll(mid);
    LeadsThen(net, first, mid, rest, net');
    QuietedRests(net');
    moves := first + rest;
  }
}
