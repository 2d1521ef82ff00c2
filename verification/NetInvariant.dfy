/** What every reachable network satisfies, and how each kind of move keeps it. */
module NetInvariant {
  import opened MeshTypes
  import opened ControlData
  import opened ControlModel
  import opened ControlSafety
  import opened NodeContract
  import opened Network

  // ------------------------------------------------------------ shape

  /** The part of a node's own invariant that the network relies on. */
  ghost predicate PlaneShape(p: Plane, n: NodeId) {
    && p.me == n
    && (p.adjacencies != map[] ==> n in p.lsdb)
    && (n in p.lsdb ==> p.lsdb[n].version == Version(p.epoch, p.mySeq))
    && forall o :: IsActive(p.lsdb, o) ==>
         p.lsdb[o].state.lsa.origin == o && p.lsdb[o].state.lsa.version == p.lsdb[o].version
  }

  ghost predicate NodeShape(net: Net, n: NodeId)
    requires n in net.nodes
  {
    var node := net.nodes[n];
    && PlaneShape(node.plane, n)
    && forall k :: k in node.plane.adjacencies ==>
         && End(n, node.boot, k) in net.peer
         && node.plane.adjacencies[k].peer == net.peer[End(n, node.boot, k)].node
  }

  ghost predicate EndShape(net: Net, e: End)
    requires e in net.peer
  {
    && net.peer[e] in net.peer && net.peer[net.peer[e]] == e
    && e.node in net.nodes && e.boot <= net.nodes[e.node].boot
    && (e.boot < net.nodes[e.node].boot ==> e in net.dead)
    && (e in net.dead ==> net.peer[e] in net.dead)
  }

  ghost predicate Shape(net: Net) {
    && |net.nodes| <= MAX_LSDB_ENTRIES
    && (forall n :: n in net.nodes ==> NodeShape(net, n))
    && (forall e :: e in net.peer ==> EndShape(net, e))
  }

  /** Only known ends can be dead. */
  ghost predicate Tidy(net: Net) {
    forall e :: e in net.dead ==> e in net.peer
  }

  // ------------------------------------------------------------ authenticity

  /** The LSA is one its origin really issued. */
  ghost predicate Genuine(net: Net, lsa: Lsa) {
    Name(lsa.origin, lsa.version) in net.issued && net.issued[Name(lsa.origin, lsa.version)] == lsa
  }

  /** The version was on the origin's disk before anyone else could see it. */
  ghost predicate Persisted(net: Net, origin: NodeId, version: Version) {
    origin in net.nodes && version.AtMost(Version(net.nodes[origin].plane.epoch, net.nodes[origin].stored))
  }

  ghost predicate IssuedOk(net: Net) {
    forall m :: m in net.issued ==>
      && m.origin in net.nodes && net.issued[m].origin == m.origin && net.issued[m].version == m.version
      && ValidLsa(net.issued[m])
      && m.version.AtMost(Version(net.nodes[m.origin].plane.epoch, net.nodes[m.origin].plane.mySeq))
  }

  ghost predicate EntryOk(net: Net, n: NodeId, o: NodeId)
    requires n in net.nodes && o in net.nodes[n].plane.lsdb
  {
    var entry := net.nodes[n].plane.lsdb[o];
    && o in net.nodes
    && (o != n ==> Persisted(net, o, entry.version))
    && (entry.state.Active? ==> Genuine(net, entry.state.lsa))
  }

  ghost predicate DatabasesOk(net: Net) {
    forall n, o :: n in net.nodes && o in net.nodes[n].plane.lsdb ==> EntryOk(net, n, o)
  }

  /** What a digest of node `n` says of other nodes was on their disks, and of `n` itself was reached. */
  ghost predicate Vouched(net: Net, n: NodeId, entries: seq<DigestEntry>)
    requires n in net.nodes
  {
    forall x :: x in entries ==>
      if x.origin == n then x.version.AtMost(Version(net.nodes[n].plane.epoch, net.nodes[n].plane.mySeq))
      else Persisted(net, x.origin, x.version)
  }

  /** A frame that node `n` is about to send. */
  ghost predicate OutgoingOk(net: Net, n: NodeId, frame: ControlFrame)
    requires n in net.nodes
  {
    && Encodable(frame)
    && (frame.LsaFrame? ==>
          && Genuine(net, frame.lsa)
          && Knows(net.nodes[n].plane.lsdb, frame.lsa.origin, frame.lsa.version)
          && (frame.lsa.origin != n ==> Persisted(net, frame.lsa.origin, frame.lsa.version)))
    && (frame.DigestFrame? ==> Vouched(net, n, frame.entries))
  }

  ghost predicate TodosOk(net: Net) {
    forall n, k, f :: n in net.nodes && Sends(net.nodes[n].todo, k, f) ==>
      k in net.nodes[n].plane.adjacencies && OutgoingOk(net, n, f)
  }

  ghost predicate FlightOk(net: Net, flight: Flight) {
    && flight.from in net.peer && flight.to == net.peer[flight.from] && flight.from.node in net.nodes
    && Encodable(flight.frame)
    && (flight.frame.LsaFrame? ==>
          var lsa := flight.frame.lsa;
          && Genuine(net, lsa) && Persisted(net, lsa.origin, lsa.version)
          && (flight.from.boot == net.nodes[flight.from.node].boot ==>
                Knows(net.nodes[flight.from.node].plane.lsdb, lsa.origin, lsa.version)))
    && (flight.frame.DigestFrame? ==> forall x :: x in flight.frame.entries ==> Persisted(net, x.origin, x.version))
  }

  ghost predicate WireOk(net: Net) {
    forall flight :: flight in net.wire ==> FlightOk(net, flight)
  }

  /** The counter in memory is the one on disk, except while the action that stores it waits in front. */
  ghost predicate CounterOk(node: Node) {
    && node.stored <= node.plane.mySeq
    && (if node.todo != [] && node.todo[0].PersistSeq?
        then node.todo[0].number == node.plane.mySeq && NoPersist(node.todo[1..])
        else node.plane.mySeq == node.stored && NoPersist(node.todo))
  }

  ghost predicate CountersOk(net: Net) {
    forall n :: n in net.nodes ==> CounterOk(net.nodes[n])
  }

  ghost predicate Authentic(net: Net) {
    IssuedOk(net) && DatabasesOk(net) && TodosOk(net) && WireOk(net) && CountersOk(net)
  }

  // ------------------------------------------------------------ coverage

  /** The frame is on its way from `e`: queued for execution or in flight. */
  ghost predicate Underway(net: Net, e: End, frame: ControlFrame) {
    e in net.peer && e.node in net.nodes &&
    (|| (e.boot == net.nodes[e.node].boot && Sends(net.nodes[e.node].todo, e.link, frame))
     || Flight(e, net.peer[e], frame) in net.wire)
  }

  ghost predicate LsaUnderway(net: Net, e: End, o: NodeId, v: Version) {
    exists lsa :: Underway(net, e, LsaFrame(lsa)) && lsa.origin == o && v.AtMost(lsa.version)
  }

  ghost predicate DigestUnderway(net: Net, e: End, o: NodeId, v: Version) {
    exists entries :: Underway(net, e, DigestFrame(entries)) && Tells(entries, o, v)
  }

  /** The digest names version `v` of `o` or a later one. */
  ghost predicate Tells(entries: seq<DigestEntry>, o: NodeId, v: Version) {
    exists w: Version :: DigestEntry(o, w) in entries && v.AtMost(w)
  }

  ghost predicate RequestUnderway(net: Net, e: End, o: NodeId) {
    exists origins :: Underway(net, e, DigestReqFrame(origins)) && o in origins
  }

  ghost predicate OldDigestUnderway(net: Net, e: End, o: NodeId, v: Version) {
    exists entries :: Underway(net, e, DigestFrame(entries)) && Behind(entries, o, v)
  }

  /** The far end of `e` knows version `v` of `o`, or something under way will see to it. */
  ghost predicate Covered(net: Net, e: End, o: NodeId, v: Version)
    requires e in net.peer && net.peer[e].node in net.nodes
  {
    || o == net.peer[e].node
    || Knows(net.nodes[net.peer[e].node].plane.lsdb, o, v)
    || LsaUnderway(net, e, o, v)
    || DigestUnderway(net, e, o, v)
    || RequestUnderway(net, net.peer[e], o)
    || OldDigestUnderway(net, net.peer[e], o, v)
  }

  /** `e` is open at its node and its incarnation is not dead. */
  ghost predicate Live(net: Net, e: End) {
    && e in net.peer && e !in net.dead && e.node in net.nodes && net.peer[e].node in net.nodes
    && e.link in net.nodes[e.node].plane.adjacencies
  }

  ghost predicate CoveredAll(net: Net) {
    forall e, o :: Live(net, e) && IsActive(net.nodes[e.node].plane.lsdb, o) ==>
      Covered(net, e, o, net.nodes[e.node].plane.lsdb[o].version)
  }

  // ------------------------------------------------------------ reactions

  /** What is known when node `n` reacts to an event: its contract, and where the event came from. */
  ghost predicate Reaction(net: Net, n: NodeId, event: ControlEvent, r: Outcome, wire: seq<Flight>) {
    && n in net.nodes && net.nodes[n].todo == []
    && Contract(net.nodes[n].plane, event, r)
    && PlaneShape(r.plane, n)
    && (r.plane.mySeq != net.nodes[n].plane.mySeq ==> ValidLsa(r.plane.lsdb[n].state.lsa))
    && (event.Frame? && event.frame.LsaFrame? ==>
          Genuine(net, event.frame.lsa) && Persisted(net, event.frame.lsa.origin, event.frame.lsa.version))
    && (event.LinkUp? ==>
          var e := End(n, net.nodes[n].boot, event.link); e in net.peer && net.peer[e].node == event.peer)
    && (event.LinkDown? ==> End(n, net.nodes[n].boot, event.link) in net.peer)
    && (forall flight :: flight in wire ==> flight in net.wire)
  }

  lemma ReactNodeShape(net: Net, n: NodeId, event: ControlEvent, r: Outcome, wire: seq<Flight>, m: NodeId)
    requires Shape(net) && Reaction(net, n, event, r, wire) && m in net.nodes
    ensures NodeShape(React(net, n, event, r, wire), m)
  {
    assert NodeShape(net, m);
  }

  lemma DeadStaysPaired(net: Net, n: NodeId, event: ControlEvent, e: End)
    requires Shape(net) && n in net.nodes && e in net.peer && e in DeadAfter(net, n, event)
    ensures net.peer[e] in DeadAfter(net, n, event)
  {
    assert EndShape(net, e);
    if event.LinkDown? && End(n, net.nodes[n].boot, event.link) in net.peer {
      assert EndShape(net, End(n, net.nodes[n].boot, event.link));
    }
  }

  lemma ReactEndShape(net: Net, n: NodeId, event: ControlEvent, r: Outcome, wire: seq<Flight>, e: End)
    requires Shape(net) && n in net.nodes && e in net.peer
    ensures EndShape(React(net, n, event, r, wire), e)
  {
    assert EndShape(net, e);
    if e in DeadAfter(net, n, event) {
      DeadStaysPaired(net, n, event, e);
    }
  }

  lemma ReactShape(net: Net, n: NodeId, event: ControlEvent, r: Outcome, wire: seq<Flight>)
    requires Shape(net) && Reaction(net, n, event, r, wire)
    ensures Shape(React(net, n, event, r, wire))
  {
    var net' := React(net, n, event, r, wire);
    GrowsByOne(net.nodes, n, net'.nodes[n]);
    forall m | m in net'.nodes ensures NodeShape(net', m) {
      ReactNodeShape(net, n, event, r, wire, m);
    }
    forall e | e in net'.peer ensures EndShape(net', e) {
      ReactEndShape(net, n, event, r, wire, e);
    }
  }

  lemma ReactIssued(net: Net, n: NodeId, event: ControlEvent, r: Outcome, wire: seq<Flight>)
    requires IssuedOk(net) && Reaction(net, n, event, r, wire)
    ensures var net' := React(net, n, event, r, wire);
            && IssuedOk(net')
            && (forall lsa :: Genuine(net, lsa) ==> Genuine(net', lsa))
            && (forall o, v :: Persisted(net, o, v) ==> Persisted(net', o, v))
  {
    var net' := React(net, n, event, r, wire);
    forall m | m in net'.issued
      ensures m.origin in net'.nodes && net'.issued[m].origin == m.origin && net'.issued[m].version == m.version
      ensures ValidLsa(net'.issued[m])
      ensures m.version.AtMost(Version(net'.nodes[m.origin].plane.epoch, net'.nodes[m.origin].plane.mySeq)) {
      assert m in net.issued || m == Name(n, r.plane.lsdb[n].version);
    }
  }

  lemma ReactDatabases(net: Net, n: NodeId, event: ControlEvent, r: Outcome, wire: seq<Flight>)
    requires IssuedOk(net) && DatabasesOk(net) && Reaction(net, n, event, r, wire)
    ensures DatabasesOk(React(net, n, event, r, wire))
  {
    var net' := React(net, n, event, r, wire);
    ReactIssued(net, n, event, r, wire);
    forall m, o | m in net'.nodes && o in net'.nodes[m].plane.lsdb ensures EntryOk(net', m, o) {
      if m != n {
        assert EntryOk(net, m, o);
      } else if !IsNews(net.nodes[n].plane.lsdb, r.plane.lsdb, o) {
        assert EntryOk(net, m, o);
      }
    }
  }

  lemma ReactTodos(net: Net, n: NodeId, event: ControlEvent, r: Outcome, wire: seq<Flight>)
    requires IssuedOk(net) && DatabasesOk(net) && TodosOk(net) && Reaction(net, n, event, r, wire)
    ensures TodosOk(React(net, n, event, r, wire))
  {
    var net' := React(net, n, event, r, wire);
    ReactIssued(net, n, event, r, wire);
    ReactDatabases(net, n, event, r, wire);
    forall m, k, f | m in net'.nodes && Sends(net'.nodes[m].todo, k, f)
      ensures k in net'.nodes[m].plane.adjacencies && OutgoingOk(net', m, f) {
      if m != n {
        assert Sends(net.nodes[m].todo, k, f);
        assert OutgoingOk(net, m, f);
      } else if f.LsaFrame? {
        assert EntryOk(net', n, f.lsa.origin);
      }
    }
  }

  lemma ReactWire(net: Net, n: NodeId, event: ControlEvent, r: Outcome, wire: seq<Flight>)
    requires IssuedOk(net) && WireOk(net) && Reaction(net, n, event, r, wire)
    ensures WireOk(React(net, n, event, r, wire))
  {
    var net' := React(net, n, event, r, wire);
    ReactIssued(net, n, event, r, wire);
    forall flight | flight in net'.wire ensures FlightOk(net', flight) {
      assert FlightOk(net, flight);
    }
  }

  lemma ReactCounters(net: Net, n: NodeId, event: ControlEvent, r: Outcome, wire: seq<Flight>)
    requires CountersOk(net) && Reaction(net, n, event, r, wire)
    ensures CountersOk(React(net, n, event, r, wire))
  {
    assert CounterOk(net.nodes[n]);
  }

  // ------------------------------------------------------------ reactions keep coverage

  /** A frame event uses up one flight on an open link; other events use up none. */
  ghost predicate Consumes(net: Net, n: NodeId, event: ControlEvent, wire: seq<Flight>)
    requires n in net.nodes
  {
    if event.Frame? then
      var to := End(n, net.nodes[n].boot, event.link);
      && to in net.peer && event.link in net.nodes[n].plane.adjacencies
      && Flight(net.peer[to], to, event.frame) in net.wire
      && forall flight :: flight in net.wire ==> flight in wire || flight == Flight(net.peer[to], to, event.frame)
    else wire == net.wire
  }

  /** `e` is the far end of the link on which the event's frame arrives. */
  ghost predicate IsSender(net: Net, n: NodeId, event: ControlEvent, e: End)
    requires n in net.nodes
  {
    event.Frame? && e in net.peer && net.peer[e] == End(n, net.nodes[n].boot, event.link)
  }

  lemma StillUnderway(net: Net, n: NodeId, event: ControlEvent, r: Outcome, wire: seq<Flight>, e: End, frame: ControlFrame)
    requires Shape(net) && Reaction(net, n, event, r, wire) && Consumes(net, n, event, wire)
    requires Underway(net, e, frame)
    ensures Underway(React(net, n, event, r, wire), e, frame) || (IsSender(net, n, event, e) && event.frame == frame)
  {
    assert EndShape(net, e);
  }

  lemma HasRoom(net: Net, n: NodeId, o: NodeId)
    requires Shape(net) && DatabasesOk(net) && n in net.nodes && o in net.nodes
    ensures Fits(net.nodes[n].plane.lsdb, o)
  {
    var lsdb := net.nodes[n].plane.lsdb;
    if o !in lsdb {
      forall p | p in lsdb ensures p in net.nodes {
        assert EntryOk(net, n, p);
      }
      SubsetSize(lsdb.Keys, net.nodes.Keys);
      assert |lsdb.Keys| == |lsdb| && |net.nodes.Keys| == |net.nodes|;
    }
  }

  /** The receiver of an LSA knows its version afterwards. */
  lemma LsaServed(net: Net, n: NodeId, event: ControlEvent, r: Outcome, wire: seq<Flight>, v: Version)
    requires Shape(net) && Authentic(net) && Reaction(net, n, event, r, wire) && Consumes(net, n, event, wire)
    requires event.Frame? && event.frame.LsaFrame? && event.frame.lsa.origin != n && v.AtMost(event.frame.lsa.version)
    ensures Knows(r.plane.lsdb, event.frame.lsa.origin, v)
  {
    HasRoom(net, n, event.frame.lsa.origin);
    assert FrameIsServed(net.nodes[n].plane, event.link, event.frame, r);
  }

  /** The receiver of a digest knows each version named in it, or requests it. */
  lemma DigestServed(net: Net, n: NodeId, event: ControlEvent, r: Outcome, wire: seq<Flight>, e: End, o: NodeId, v: Version)
    requires Shape(net) && WireOk(net) && Reaction(net, n, event, r, wire) && Consumes(net, n, event, wire)
    requires IsSender(net, n, event, e) && event.frame.DigestFrame? && Tells(event.frame.entries, o, v) && o != n
    ensures Knows(r.plane.lsdb, o, v) || RequestUnderway(React(net, n, event, r, wire), net.peer[e], o)
  {
    assert EndShape(net, e);
    assert FlightOk(net, Flight(e, net.peer[e], event.frame));
    DigestAnswered(net.nodes[n].plane, event, r, o, v);
    if !Knows(r.plane.lsdb, o, v) {
      var origins :| Sends(r.actions, event.link, DigestReqFrame(origins)) && o in origins;
      assert Underway(React(net, n, event, r, wire), net.peer[e], DigestReqFrame(origins));
    }
  }

  lemma DigestAnswered(p: Plane, event: ControlEvent, r: Outcome, o: NodeId, v: Version)
    requires Contract(p, event, r) && event.Frame? && event.link in p.adjacencies && event.frame.DigestFrame?
    requires |event.frame.entries| <= MAX_DIGEST_ENTRIES && Tells(event.frame.entries, o, v) && o != p.me
    ensures Knows(r.plane.lsdb, o, v) || exists origins :: Sends(r.actions, event.link, DigestReqFrame(origins)) && o in origins
  {
    var w :| DigestEntry(o, w) in event.frame.entries && v.AtMost(w);
    assert FrameIsServed(p, event.link, event.frame, r);
    if Knows(p.lsdb, o, w) {
      assert Grew(p.lsdb, r.plane.lsdb);
    }
  }

  /** The sender's side: a frame that asked for `o`, or showed it outdated, is answered with the stored LSA. */
  lemma AskerServed(net: Net, n: NodeId, event: ControlEvent, r: Outcome, wire: seq<Flight>, e: End, o: NodeId)
    requires Shape(net) && Authentic(net) && Reaction(net, n, event, r, wire) && Consumes(net, n, event, wire)
    requires e in net.peer && net.peer[e] in net.peer && IsSender(net, n, event, net.peer[e])
    requires IsActive(net.nodes[n].plane.lsdb, o)
    requires
      || (event.frame.DigestReqFrame? && o in event.frame.origins)
      || (event.frame.DigestFrame? && Behind(event.frame.entries, o, net.nodes[n].plane.lsdb[o].version))
    ensures Covered(React(net, n, event, r, wire), e, o, net.nodes[n].plane.lsdb[o].version)
  {
    var p, net' := net.nodes[n].plane, React(net, n, event, r, wire);
    assert EndShape(net, e);
    assert FrameIsServed(p, event.link, event.frame, r);
    assert FlightOk(net, Flight(net.peer[e], e, event.frame));
    var lsa := p.lsdb[o].state.lsa;
    assert NodeShape(net, n);
    assert Underway(net', e, LsaFrame(lsa));
  }

  ghost predicate Reacting(net: Net, n: NodeId, event: ControlEvent, r: Outcome, wire: seq<Flight>) {
    Shape(net) && Authentic(net) && Reaction(net, n, event, r, wire) && Consumes(net, n, event, wire)
  }

  /** An LSA under way from `e` stays under way, or has been taken in at the far end. */
  lemma LsaCarriesOver(net: Net, n: NodeId, event: ControlEvent, r: Outcome, wire: seq<Flight>, e: End, o: NodeId, v: Version)
    requires Reacting(net, n, event, r, wire) && e in net.peer && net.peer[e].node in net.nodes && o != net.peer[e].node
    requires LsaUnderway(net, e, o, v)
    ensures Covered(React(net, n, event, r, wire), e, o, v)
  {
    var lsa :| Underway(net, e, LsaFrame(lsa)) && lsa.origin == o && v.AtMost(lsa.version);
    StillUnderway(net, n, event, r, wire, e, LsaFrame(lsa));
    if !Underway(React(net, n, event, r, wire), e, LsaFrame(lsa)) {
      LsaServed(net, n, event, r, wire, v);
      assert EndShape(net, e);
    }
  }

  /** A digest under way from `e` stays under way, or has been acted on at the far end. */
  lemma DigestCarriesOver(net: Net, n: NodeId, event: ControlEvent, r: Outcome, wire: seq<Flight>, e: End, o: NodeId, v: Version)
    requires Reacting(net, n, event, r, wire) && e in net.peer && net.peer[e].node in net.nodes && o != net.peer[e].node
    requires DigestUnderway(net, e, o, v)
    ensures Covered(React(net, n, event, r, wire), e, o, v)
  {
    var entries :| Underway(net, e, DigestFrame(entries)) && Tells(entries, o, v);
    StillUnderway(net, n, event, r, wire, e, DigestFrame(entries));
    if !Underway(React(net, n, event, r, wire), e, DigestFrame(entries)) {
      DigestServed(net, n, event, r, wire, e, o, v);
      assert EndShape(net, e);
    }
  }

  /** A demand for `o` under way towards `e` stays under way, or has been met. */
  lemma AskingCarriesOver(net: Net, n: NodeId, event: ControlEvent, r: Outcome, wire: seq<Flight>, e: End, o: NodeId)
    requires Reacting(net, n, event, r, wire) && Live(net, e) && IsActive(net.nodes[e.node].plane.lsdb, o)
    requires || RequestUnderway(net, net.peer[e], o)
             || OldDigestUnderway(net, net.peer[e], o, net.nodes[e.node].plane.lsdb[o].version)
    ensures Covered(React(net, n, event, r, wire), e, o, net.nodes[e.node].plane.lsdb[o].version)
  {
    var v, far, net' := net.nodes[e.node].plane.lsdb[o].version, net.peer[e], React(net, n, event, r, wire);
    assert EndShape(net, e);
    if RequestUnderway(net, far, o) {
      var origins :| Underway(net, far, DigestReqFrame(origins)) && o in origins;
      StillUnderway(net, n, event, r, wire, far, DigestReqFrame(origins));
      if !Underway(net', far, DigestReqFrame(origins)) {
        AskerServed(net, n, event, r, wire, e, o);
      }
    } else {
      var entries :| Underway(net, far, DigestFrame(entries)) && Behind(entries, o, v);
      StillUnderway(net, n, event, r, wire, far, DigestFrame(entries));
      if !Underway(net', far, DigestFrame(entries)) {
        AskerServed(net, n, event, r, wire, e, o);
      }
    }
  }

  lemma KnowledgeGrows(net: Net, n: NodeId, event: ControlEvent, r: Outcome, wire: seq<Flight>, m: NodeId, o: NodeId, v: Version)
    requires Reaction(net, n, event, r, wire) && m in net.nodes
    ensures Knows(net.nodes[m].plane.lsdb, o, v) ==> Knows(React(net, n, event, r, wire).nodes[m].plane.lsdb, o, v)
  {
    assert Grew(net.nodes[n].plane.lsdb, r.plane.lsdb);
  }

  /** Coverage of an entry that was already there survives the reaction. */
  lemma CarriesOver(net: Net, n: NodeId, event: ControlEvent, r: Outcome, wire: seq<Flight>, e: End, o: NodeId)
    requires Reacting(net, n, event, r, wire) && Live(net, e) && IsActive(net.nodes[e.node].plane.lsdb, o)
    requires Covered(net, e, o, net.nodes[e.node].plane.lsdb[o].version)
    ensures Covered(React(net, n, event, r, wire), e, o, net.nodes[e.node].plane.lsdb[o].version)
  {
    var v, far := net.nodes[e.node].plane.lsdb[o].version, net.peer[e];
    if o == far.node || Knows(net.nodes[far.node].plane.lsdb, o, v) {
      KnowledgeGrows(net, n, event, r, wire, far.node, o, v);
    } else if LsaUnderway(net, e, o, v) {
      LsaCarriesOver(net, n, event, r, wire, e, o, v);
    } else if DigestUnderway(net, e, o, v) {
      DigestCarriesOver(net, n, event, r, wire, e, o, v);
    } else {
      AskingCarriesOver(net, n, event, r, wire, e, o);
    }
  }

  /** News that came in through `e` is known at its far end. */
  lemma SenderKnows(net: Net, n: NodeId, e: End, lsa: Lsa)
    requires Shape(net) && WireOk(net) && e in net.peer && e !in net.dead && e.node == n && n in net.nodes
    requires Flight(net.peer[e], e, LsaFrame(lsa)) in net.wire
    ensures net.peer[e].node in net.nodes && Knows(net.nodes[net.peer[e].node].plane.lsdb, lsa.origin, lsa.version)
  {
    assert EndShape(net, e) && EndShape(net, net.peer[e]);
    assert FlightOk(net, Flight(net.peer[e], e, LsaFrame(lsa)));
  }

  lemma FloodIsUnderway(net: Net, n: NodeId, event: ControlEvent, r: Outcome, wire: seq<Flight>, e: End, frame: ControlFrame)
    requires Shape(net) && n in net.nodes && e.node == n && Live(React(net, n, event, r, wire), e) && Sends(r.actions, e.link, frame)
    ensures Underway(React(net, n, event, r, wire), e, frame)
  {
    assert EndShape(net, e);
  }

  lemma NewsSource(p: Plane, event: ControlEvent, r: Outcome, o: NodeId, k: LinkId)
    requires Contract(p, event, r) && IsNews(p.lsdb, r.plane.lsdb, o) && k in r.plane.adjacencies
    ensures Sends(r.actions, k, LsaFrame(r.plane.lsdb[o].state.lsa)) || event == Frame(k, LsaFrame(r.plane.lsdb[o].state.lsa))
  {
  }

  /** An entry that is new at `n` is flooded on `e`, or came in through `e`. */
  lemma NewsIsCovered(net: Net, n: NodeId, event: ControlEvent, r: Outcome, wire: seq<Flight>, e: End, o: NodeId)
    requires Reacting(net, n, event, r, wire) && e.node == n && Live(React(net, n, event, r, wire), e)
    requires IsNews(net.nodes[n].plane.lsdb, r.plane.lsdb, o)
    ensures Covered(React(net, n, event, r, wire), e, o, r.plane.lsdb[o].version)
  {
    var lsa := r.plane.lsdb[o].state.lsa;
    NewsSource(net.nodes[n].plane, event, r, o, e.link);
    if Sends(r.actions, e.link, LsaFrame(lsa)) {
      FloodIsUnderway(net, n, event, r, wire, e, LsaFrame(lsa));
    } else {
      assert EndShape(net, e);
      SenderKnows(net, n, e, lsa);
      KnowledgeGrows(net, n, event, r, wire, net.peer[e].node, o, lsa.version);
    }
  }

  lemma OpeningDigest(p: Plane, event: ControlEvent, r: Outcome, o: NodeId) returns (entries: seq<DigestEntry>)
    requires Contract(p, event, r) && event.LinkUp? && IsActive(r.plane.lsdb, o)
    ensures Sends(r.actions, event.link, DigestFrame(entries)) && Tells(entries, o, r.plane.lsdb[o].version)
  {
    entries :| Sends(r.actions, event.link, DigestFrame(entries));
    assert IsDigest(r.plane.lsdb, entries);
    assert DigestEntry(o, r.plane.lsdb[o].version) in entries;
  }

  /** When a link opens, a digest of everything known is sent on it. */
  lemma OpeningIsCovered(net: Net, n: NodeId, event: ControlEvent, r: Outcome, wire: seq<Flight>, e: End, o: NodeId)
    requires Reacting(net, n, event, r, wire) && e.node == n && Live(React(net, n, event, r, wire), e)
    requires event.LinkUp? && event.link == e.link && IsActive(r.plane.lsdb, o)
    ensures Covered(React(net, n, event, r, wire), e, o, r.plane.lsdb[o].version)
  {
    var net' := React(net, n, event, r, wire);
    assert EndShape(net, e);
    assert e !in net.dead && e.boot == net'.nodes[n].boot && net'.nodes[n].todo == r.actions;
    var entries := OpeningDigest(net.nodes[n].plane, event, r, o);
    assert Underway(net', e, DigestFrame(entries));
    assert DigestUnderway(net', e, o, r.plane.lsdb[o].version);
  }

  /** A live entry that is not new was live before, unchanged. */
  lemma OldEntry(net: Net, n: NodeId, event: ControlEvent, r: Outcome, wire: seq<Flight>, m: NodeId, o: NodeId)
    requires Reaction(net, n, event, r, wire) && m in net.nodes
    requires IsActive(React(net, n, event, r, wire).nodes[m].plane.lsdb, o)
    requires m == n ==> !IsNews(net.nodes[n].plane.lsdb, r.plane.lsdb, o)
    ensures IsActive(net.nodes[m].plane.lsdb, o)
    ensures net.nodes[m].plane.lsdb[o].version == React(net, n, event, r, wire).nodes[m].plane.lsdb[o].version
  {
    assert Advances(net.nodes[n].plane, event, r.plane);
  }

  lemma ReactCoversOwn(net: Net, n: NodeId, event: ControlEvent, r: Outcome, wire: seq<Flight>, e: End, o: NodeId)
    requires Reacting(net, n, event, r, wire) && CoveredAll(net) && e.node == n && Live(React(net, n, event, r, wire), e)
    requires IsActive(r.plane.lsdb, o)
    ensures Covered(React(net, n, event, r, wire), e, o, r.plane.lsdb[o].version)
  {
    if IsNews(net.nodes[n].plane.lsdb, r.plane.lsdb, o) {
      NewsIsCovered(net, n, event, r, wire, e, o);
    } else if e.link !in net.nodes[n].plane.adjacencies {
      OpeningIsCovered(net, n, event, r, wire, e, o);
    } else {
      OldEntry(net, n, event, r, wire, n, o);
      CarriesOver(net, n, event, r, wire, e, o);
    }
  }

  lemma ReactCovers(net: Net, n: NodeId, event: ControlEvent, r: Outcome, wire: seq<Flight>, e: End, o: NodeId)
    requires Reacting(net, n, event, r, wire) && CoveredAll(net)
    requires var net' := React(net, n, event, r, wire); Live(net', e) && IsActive(net'.nodes[e.node].plane.lsdb, o)
    ensures var net' := React(net, n, event, r, wire); Covered(net', e, o, net'.nodes[e.node].plane.lsdb[o].version)
  {
    if e.node == n {
      ReactCoversOwn(net, n, event, r, wire, e, o);
    } else {
      CarriesOver(net, n, event, r, wire, e, o);
    }
  }

  lemma ReactCovered(net: Net, n: NodeId, event: ControlEvent, r: Outcome, wire: seq<Flight>)
    requires Reacting(net, n, event, r, wire) && CoveredAll(net)
    ensures CoveredAll(React(net, n, event, r, wire))
  {
    var net' := React(net, n, event, r, wire);
    forall e, o | Live(net', e) && IsActive(net'.nodes[e.node].plane.lsdb, o)
      ensures Covered(net', e, o, net'.nodes[e.node].plane.lsdb[o].version) {
      ReactCovers(net, n, event, r, wire, e, o);
    }
  }
}
