/** Freshness after a crash, and agreement of nodes between which nothing is under way. */
module NetAgreement {
  import opened MeshTypes
  import opened ControlData
  import opened ControlModel
  import opened ControlSafety
  import opened NodeContract
  import opened Network
  import opened NetInvariant
  import opened NetSafety
  import Runs

  // ------------------------------------------------------------ runs

  lemma InitNodes(net: Net)
    requires Init(net)
    ensures NetHolds(net)
  {
    forall n | n in net.nodes ensures NodeShape(net, n) && CounterOk(net.nodes[n]) {
      assert net.nodes[n].plane == NewPlane(n, net.nodes[n].plane.epoch, net.nodes[n].stored);
    }
  }

  lemma InitHolds(net: Net)
    requires Init(net)
    ensures NetInv(net)
  {
    InitNodes(net);
    forall n | n in net.nodes ensures PlaneFine(net.nodes[n].plane) {
      FirstPlaneFine(n, net.nodes[n].plane.epoch, net.nodes[n].stored);
    }
  }

  ghost predicate Steady(net: Net, n: nat) {
    NetInv(net)
  }

  /** The invariant holds throughout every run, whatever moves it makes. */
  lemma RunKeeps(nets: seq<Net>, moves: seq<Move>, i: nat)
    requires Runs.Chain(nets, moves, Next) && Init(nets[0]) && i <= |moves|
    ensures NetInv(nets[i])
  {
    InitHolds(nets[0]);
    forall net, move, net', n: nat | Next(net, move, net') && Steady(net, n) && 0 < n
      ensures Steady(net', n - 1) {
      MoveKeeps(net, move, net');
    }
    Runs.ChainHolds(nets, moves, Next, Steady, i);
    assert Steady(nets[i], |moves| - i);
  }

  // ------------------------------------------------------------ freshness

  /** Another node holds or is about to send or name version `v` of `o`, or something in flight carries or names it. */
  ghost predicate SeenElsewhere(net: Net, o: NodeId, v: Version) {
    || (exists m :: m in net.nodes && m != o && o in net.nodes[m].plane.lsdb && net.nodes[m].plane.lsdb[o].version == v)
    || (exists m, k, lsa :: m in net.nodes && m != o && Sends(net.nodes[m].todo, k, LsaFrame(lsa)) && lsa.origin == o && lsa.version == v)
    || (exists m, k, entries :: m in net.nodes && m != o && Sends(net.nodes[m].todo, k, DigestFrame(entries)) && DigestEntry(o, v) in entries)
    || (exists flight :: flight in net.wire && flight.frame.DigestFrame? && DigestEntry(o, v) in flight.frame.entries)
    || (exists flight :: flight in net.wire && flight.frame.LsaFrame? && flight.frame.lsa.origin == o && flight.frame.lsa.version == v)
  }

  /** Whatever anyone else has seen of a node was on its disk first. */
  lemma SeenIsPersisted(net: Net, o: NodeId, v: Version)
    requires Authentic(net) && SeenElsewhere(net, o, v)
    ensures Persisted(net, o, v)
  {
    if m :| m in net.nodes && m != o && o in net.nodes[m].plane.lsdb && net.nodes[m].plane.lsdb[o].version == v {
      assert EntryOk(net, m, o);
    } else if m, k, lsa :| m in net.nodes && m != o && Sends(net.nodes[m].todo, k, LsaFrame(lsa)) && lsa.origin == o && lsa.version == v {
      assert OutgoingOk(net, m, LsaFrame(lsa));
    } else if m, k, entries :| m in net.nodes && m != o && Sends(net.nodes[m].todo, k, DigestFrame(entries)) && DigestEntry(o, v) in entries {
      assert OutgoingOk(net, m, DigestFrame(entries));
    } else if flight :| flight in net.wire && flight.frame.DigestFrame? && DigestEntry(o, v) in flight.frame.entries {
      assert FlightOk(net, flight);
    } else {
      var flight :| flight in net.wire && flight.frame.LsaFrame? && flight.frame.lsa.origin == o && flight.frame.lsa.version == v;
      assert FlightOk(net, flight);
    }
  }

  /**
   * Crash at any point: the next version the restarted node can originate is
   * above every version of it that exists anywhere else.
   */
  lemma RestartIsFresh(net: Net, o: NodeId, epoch: nat, net': Net, v: Version)
    requires NetInv(net) && Next(net, Crash(o, epoch), net') && SeenElsewhere(net', o, v)
    ensures v.Below(Version(net'.nodes[o].plane.epoch, net'.nodes[o].plane.mySeq + 1))
  {
    CrashKeeps(net, o, epoch);
    SeenIsPersisted(net', o, v);
    assert CounterOk(net'.nodes[o]);
  }

  /** The sequence store is never asked to move backward. */
  lemma StoreNeverRefuses(net: Net, n: NodeId)
    requires CountersOk(net) && n in net.nodes && net.nodes[n].todo != [] && net.nodes[n].todo[0].PersistSeq?
    ensures net.nodes[n].stored <= net.nodes[n].todo[0].number
  {
    assert CounterOk(net.nodes[n]);
  }

  // ------------------------------------------------------------ agreement

  function LiveLsa(lsdb: Lsdb, o: NodeId): Option<Lsa> {
    if IsActive(lsdb, o) then Some(lsdb[o].state.lsa) else None
  }

  predicate IsTombstone(lsdb: Lsdb, o: NodeId) {
    o in lsdb && lsdb[o].state.Tombstone?
  }

  /** Both ends of the link are open and nothing is under way on it in either direction. */
  ghost predicate QuietLink(net: Net, e: End) {
    && Live(net, e) && Live(net, net.peer[e])
    && (forall f :: !Underway(net, e, f))
    && (forall f :: !Underway(net, net.peer[e], f))
  }

  lemma QuietBothWays(net: Net, e: End)
    requires Shape(net) && QuietLink(net, e)
    ensures net.peer[net.peer[e]] == e && QuietLink(net, net.peer[e])
  {
    assert EndShape(net, e);
  }

  /** Across a quiet link, the far end knows whatever is live at the near end. */
  lemma QuietLinkKnows(net: Net, e: End, o: NodeId)
    requires Shape(net) && Authentic(net) && CoveredAll(net) && QuietLink(net, e)
    requires IsActive(net.nodes[e.node].plane.lsdb, o)
    ensures Knows(net.nodes[net.peer[e].node].plane.lsdb, o, net.nodes[e.node].plane.lsdb[o].version)
  {
    var far := net.peer[e].node;
    var v := net.nodes[e.node].plane.lsdb[o].version;
    assert Covered(net, e, o, v);
    if o == far && o != e.node {
      assert EntryOk(net, e.node, o) && NodeShape(net, far) && CounterOk(net.nodes[far]);
    }
  }

  lemma SameVersionSameLsa(net: Net, m: NodeId, n: NodeId, o: NodeId)
    requires Shape(net) && DatabasesOk(net) && m in net.nodes && n in net.nodes
    requires IsActive(net.nodes[m].plane.lsdb, o) && IsActive(net.nodes[n].plane.lsdb, o)
    requires net.nodes[m].plane.lsdb[o].version == net.nodes[n].plane.lsdb[o].version
    ensures net.nodes[m].plane.lsdb[o].state.lsa == net.nodes[n].plane.lsdb[o].state.lsa
  {
    assert EntryOk(net, m, o) && EntryOk(net, n, o);
    assert NodeShape(net, m) && NodeShape(net, n);
  }

  /** Live at both ends of a quiet link means the same LSA at both. */
  lemma QuietLinkSame(net: Net, e: End, o: NodeId)
    requires Shape(net) && Authentic(net) && CoveredAll(net) && QuietLink(net, e)
    requires IsActive(net.nodes[e.node].plane.lsdb, o) && IsActive(net.nodes[net.peer[e].node].plane.lsdb, o)
    ensures net.nodes[e.node].plane.lsdb[o].state.lsa == net.nodes[net.peer[e].node].plane.lsdb[o].state.lsa
  {
    QuietBothWays(net, e);
    QuietLinkKnows(net, e, o);
    QuietLinkKnows(net, net.peer[e], o);
    SameVersionSameLsa(net, e.node, net.peer[e].node, o);
  }

  /** Across a quiet link, an origin expired at neither end has the same live LSA at both. */
  lemma QuietLinkAgrees(net: Net, e: End, o: NodeId)
    requires Shape(net) && Authentic(net) && CoveredAll(net) && QuietLink(net, e)
    requires !IsTombstone(net.nodes[e.node].plane.lsdb, o) && !IsTombstone(net.nodes[net.peer[e].node].plane.lsdb, o)
    ensures LiveLsa(net.nodes[e.node].plane.lsdb, o) == LiveLsa(net.nodes[net.peer[e].node].plane.lsdb, o)
  {
    if IsActive(net.nodes[e.node].plane.lsdb, o) {
      QuietLinkKnows(net, e, o);
      QuietLinkSame(net, e, o);
    } else if IsActive(net.nodes[net.peer[e].node].plane.lsdb, o) {
      QuietBothWays(net, e);
      QuietLinkKnows(net, net.peer[e], o);
    }
  }

  /** Across a quiet link the ends disagree on `o` exactly if it has expired at one end and is live at the other. */
  lemma QuietLinkAgreesExactly(net: Net, e: End, o: NodeId)
    requires Shape(net) && Authentic(net) && CoveredAll(net) && QuietLink(net, e)
    ensures var a, b := net.nodes[e.node].plane.lsdb, net.nodes[net.peer[e].node].plane.lsdb;
            LiveLsa(a, o) == LiveLsa(b, o) <==> !(IsTombstone(a, o) && IsActive(b, o)) && !(IsTombstone(b, o) && IsActive(a, o))
  {
    var a, b := net.nodes[e.node].plane.lsdb, net.nodes[net.peer[e].node].plane.lsdb;
    QuietBothWays(net, e);
    if !IsTombstone(a, o) && !IsTombstone(b, o) {
      QuietLinkAgrees(net, e, o);
    } else if IsActive(a, o) {
      QuietLinkKnows(net, e, o);
    } else if IsActive(b, o) {
      QuietLinkKnows(net, net.peer[e], o);
    }
  }

  /** Expiry keeps the version and sends no frame. */
  lemma ExpiryIsSilent(p: Plane, now: Time, o: NodeId, version: Version)
    requires IsActive(p.lsdb, o) && p.lsdb[o].version == version && p.lsdb[o].state.expiresAt <= now
    ensures var r := Expire(p, now, o, version);
            && r.plane.lsdb == p.lsdb[o := LsdbEntry(version, Tombstone)] && r.plane.adjacencies == p.adjacencies && r.plane.mySeq == p.mySeq
            && |r.actions| <= 1 && forall a :: a in r.actions ==> a.SetTimer?
  {
  }

  /** The near end has nothing left to do, the link is quiet, and the ends disagree on `o`. */
  ghost predicate PartedOn(net: Net, e: End, o: NodeId) {
    QuietLink(net, e) && net.nodes[e.node].todo == [] && EndsDiffer(net, e, o)
  }

  function WithNode(net: Net, n: NodeId, node: Node): Net {
    net.(nodes := net.nodes[n := node])
  }

  /** Replacing the entry of one node and queueing actions that send nothing leaves a quiet link quiet. */
  lemma StaysQuiet(net: Net, e: End, node: Node, net': Net)
    requires QuietLink(net, e) && net' == WithNode(net, e.node, node)
    requires node.boot == net.nodes[e.node].boot && node.plane.adjacencies == net.nodes[e.node].plane.adjacencies
    requires forall a :: a in node.todo ==> !a.Send?
    ensures QuietLink(net', e)
  {
    forall f ensures !Underway(net', e, f) && !Underway(net', net'.peer[e], f) {
      assert !Underway(net, e, f) && !Underway(net, net.peer[e], f);
    }
  }

  ghost function ExpiryMove(net: Net, n: NodeId, o: NodeId, now: Time): Move
    requires n in net.nodes && o in net.nodes[n].plane.lsdb
  {
    Local(n, now, Timer(LsaExpire(o, net.nodes[n].plane.lsdb[o].version)))
  }

  lemma HandleExpiry(p: Plane, now: Time, o: NodeId, v: Version)
    requires PlaneOk(p)
    ensures Fits(p.lsdb, p.me) && Handle(p, now, Timer(LsaExpire(o, v))) == Expire(p, now, o, v)
  {
  }

  /** The node after the expiry timer of `o`. */
  ghost function ExpiredNode(node: Node, o: NodeId, now: Time): Node
    requires o in node.plane.lsdb
  {
    var r := Expire(node.plane, now, o, node.plane.lsdb[o].version);
    node.(plane := r.plane, todo := r.actions)
  }

  /** The timer of a due entry changes nothing but the node it belongs to. */
  lemma ExpiryNext(net: Net, n: NodeId, o: NodeId, now: Time)
    requires Idle(net, n) && PlaneOk(net.nodes[n].plane)
    requires IsActive(net.nodes[n].plane.lsdb, o) && net.nodes[n].plane.lsdb[o].state.expiresAt <= now
    ensures Next(net, ExpiryMove(net, n, o, now), WithNode(net, n, ExpiredNode(net.nodes[n], o, now)))
  {
    var p := net.nodes[n].plane;
    var v := p.lsdb[o].version;
    HandleExpiry(p, now, o, v);
    ExpiryIsSilent(p, now, o, v);
    assert React(net, n, Timer(LsaExpire(o, v)), Expire(p, now, o, v), net.wire)
        == WithNode(net, n, ExpiredNode(net.nodes[n], o, now));
  }

  lemma SetTimerNext(net: Net, n: NodeId)
    requires n in net.nodes && |net.nodes[n].todo| == 1 && net.nodes[n].todo[0].SetTimer?
    ensures Next(net, Execute(n), WithNode(net, n, net.nodes[n].(todo := [])))
  {
    assert net.nodes[n].todo[1..] == [];
  }

  ghost predicate EndsDiffer(net: Net, e: End, o: NodeId)
    requires e.node in net.nodes && e in net.peer && net.peer[e].node in net.nodes
  {
    LiveLsa(net.nodes[e.node].plane.lsdb, o) != LiveLsa(net.nodes[net.peer[e].node].plane.lsdb, o)
  }

  lemma Parts(net: Net, e: End, o: NodeId, node: Node, net': Net)
    requires QuietLink(net, e) && net.peer[e].node != e.node && net' == WithNode(net, e.node, node)
    requires node.boot == net.nodes[e.node].boot && node.plane.adjacencies == net.nodes[e.node].plane.adjacencies
    requires (forall a :: a in node.todo ==> !a.Send?) && IsTombstone(node.plane.lsdb, o) && IsActive(net.nodes[net.peer[e].node].plane.lsdb, o)
    ensures QuietLink(net', e) && EndsDiffer(net', e, o)
  {
    StaysQuiet(net, e, node, net');
  }

  lemma PlaneIsOk(net: Net, n: NodeId)
    requires PlanesFine(net) && n in net.nodes
    ensures PlaneOk(net.nodes[n].plane)
  {
    assert PlaneFine(net.nodes[n].plane);
  }

  /** Before and after the one timer is set, the link is quiet and its ends differ. */
  lemma ExpiredParts(net: Net, e: End, o: NodeId, now: Time)
    requires QuietLink(net, e) && net.peer[e].node != e.node
    requires IsActive(net.nodes[e.node].plane.lsdb, o) && net.nodes[e.node].plane.lsdb[o].state.expiresAt <= now
    requires IsActive(net.nodes[net.peer[e].node].plane.lsdb, o)
    ensures var node := ExpiredNode(net.nodes[e.node], o, now); var parted := WithNode(net, e.node, node);
            if node.todo == [] then PartedOn(parted, e, o)
            else Next(parted, Execute(e.node), WithNode(net, e.node, node.(todo := []))) && PartedOn(WithNode(net, e.node, node.(todo := [])), e, o)
  {
    var n := e.node;
    var node := ExpiredNode(net.nodes[n], o, now);
    var parted, done := WithNode(net, n, node), WithNode(net, n, node.(todo := []));
    ExpiryIsSilent(net.nodes[n].plane, now, o, net.nodes[n].plane.lsdb[o].version);
    if node.todo == [] {
      Parts(net, e, o, node, parted);
    } else {
      SetTimerNext(parted, n);
      assert WithNode(parted, n, node.(todo := [])) == done;
      Parts(net, e, o, node.(todo := []), done);
    }
  }

  /**
   * Agreement does fail once an entry expires: across a quiet link whose ends
   * agree on `o`, the expiry timer of one end and the execution of what it asks
   * for leave the link quiet and the ends in disagreement, with nothing under
   * way that could bring them together.
   */
  lemma ExpiryParts(net: Net, e: End, o: NodeId, now: Time) returns (parted: Net, done: Net)
    requires PlanesFine(net) && QuietLink(net, e) && Idle(net, e.node) && net.peer[e].node != e.node
    requires IsActive(net.nodes[e.node].plane.lsdb, o) && net.nodes[e.node].plane.lsdb[o].state.expiresAt <= now
    requires IsActive(net.nodes[net.peer[e].node].plane.lsdb, o)
    ensures Next(net, ExpiryMove(net, e.node, o, now), parted)
    ensures done == parted || Next(parted, Execute(e.node), done)
    ensures PartedOn(done, e, o)
  {
    var node := ExpiredNode(net.nodes[e.node], o, now);
    PlaneIsOk(net, e.node);
    ExpiryNext(net, e.node, o, now);
    ExpiredParts(net, e, o, now);
    parted := WithNode(net, e.node, node);
    done := WithNode(net, e.node, node.(todo := []));
  }

  /** A walk from `a` to `b` over quiet links, through nodes at which `o` has not expired. */
  ghost predicate QuietPath(net: Net, o: NodeId, a: NodeId, b: NodeId, path: seq<End>)
    decreases |path|
  {
    && a in net.nodes && !IsTombstone(net.nodes[a].plane.lsdb, o)
    && if path == [] then a == b
       else path[0].node == a && QuietLink(net, path[0]) && QuietPath(net, o, net.peer[path[0]].node, b, path[1..])
  }

  /** When nothing is under way, all nodes of a connected component hold the same live LSA of every unexpired origin. */
  lemma {:induction false} ComponentAgrees(net: Net, a: NodeId, b: NodeId, path: seq<End>, o: NodeId)
    requires Shape(net) && Authentic(net) && CoveredAll(net) && QuietPath(net, o, a, b, path)
    ensures b in net.nodes && LiveLsa(net.nodes[a].plane.lsdb, o) == LiveLsa(net.nodes[b].plane.lsdb, o)
    decreases |path|
  {
    if path != [] {
      QuietLinkAgrees(net, path[0], o);
      ComponentAgrees(net, net.peer[path[0]].node, b, path[1..], o);
    }
  }
}
