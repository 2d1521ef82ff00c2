/**
 * Publishing through the forwarder: all multicasts of one publish share a flow
 * and a conflation key, so on a link that cannot send at once a later chunk
 * overwrites an earlier one that is addressed to other subscribers.
 */
module PublishConflation {
  import opened MeshTypes
  import opened ControlData
  import opened Packets
  import opened Scheduler
  import opened Forwarding
  import opened LinkTrace
  import opened Conservation
  import opened ForwardInvariant
  import opened Fifo
  import opened PubSubModel
  import PubSubRuns

  const PUBLISH_TTL: byte := 32
  const CONFLATABLE: ForwardFlags := 2

  /** The packet that the runtime makes of a multicast action, before its destinations are attached. */
  function PacketOf(me: NodeId, a: PubSubAction): Packet
    requires a.SendMulticast?
  {
    var s := a.stamp;
    Packet(Header(Multicast, s.priority, PUBLISH_TTL, if s.conflatable then CONFLATABLE else 0, 0, me, s.flowId, s.conflateKey), [], a.payload)
  }

  // ------------------------------------------------------------ the chunks of one publish

  lemma {:induction false} AscendingSplit(ids: seq<NodeId>, n: nat)
    requires StrictlyAscending(ids) && n <= |ids|
    ensures forall x, y :: x in ids[..n] && y in ids[n..] ==> x < y
    decreases n
  {
    if n > 0 {
      AscendingSplit(ids[1..], n - 1);
      assert ids[..n] == [ids[0]] + ids[1..][..n - 1] && ids[n..] == ids[1..][n - 1..];
      forall y | y in ids[n..] ensures ids[0] < y {
        assert y in ids[1..];
      }
    }
  }

  lemma {:induction false} ChunkMembers(ids: seq<NodeId>, limit: nat, j: nat, x: NodeId)
    requires limit > 0 && j < |Chunks(ids, limit)| && x in Chunks(ids, limit)[j]
    ensures x in ids
    decreases |ids|
  {
    if |ids| > limit && j > 0 {
      assert Chunks(ids, limit)[j] == Chunks(ids[limit..], limit)[j - 1];
      ChunkMembers(ids[limit..], limit, j - 1, x);
    }
  }

  /** No destination is in two chunks. */
  lemma {:induction false} ChunksDisjoint(ids: seq<NodeId>, limit: nat, i: nat, j: nat, x: NodeId)
    requires StrictlyAscending(ids) && limit > 0 && i < j < |Chunks(ids, limit)| && x in Chunks(ids, limit)[i]
    ensures x !in Chunks(ids, limit)[j]
    decreases |ids|
  {
    var rest := Chunks(ids[limit..], limit);
    assert |ids| > limit && Chunks(ids, limit)[j] == rest[j - 1];
    if i == 0 {
      AscendingSplit(ids, limit);
      if x in rest[j - 1] {
        ChunkMembers(ids[limit..], limit, j - 1, x);
      }
    } else {
      PubSubRuns.AscendingParts(ids, limit);
      assert Chunks(ids, limit)[i] == rest[i - 1];
      ChunksDisjoint(ids[limit..], limit, i - 1, j - 1, x);
    }
  }

  lemma {:induction false} MulticastAt(chunks: seq<seq<NodeId>>, stamp: Stamp, payload: seq<byte>, i: nat)
    ensures |Multicasts(chunks, stamp, payload)| == |chunks|
    ensures i < |chunks| ==> Multicasts(chunks, stamp, payload)[i] == SendMulticast(chunks[i], stamp, payload)
    decreases |chunks|
  {
    if chunks != [] {
      MulticastAt(chunks[1..], stamp, payload, if i == 0 then 0 else i - 1);
    }
  }

  /** Two multicasts of one publish differ in nothing but their destinations, and share none of those. */
  ghost predicate Siblings(a: PubSubAction, b: PubSubAction) {
    && a.SendMulticast? && b.SendMulticast? && b == a.(destinations := b.destinations)
    && forall d :: d in a.destinations ==> d !in b.destinations
  }

  lemma DispatchSiblings(stamp: Stamp, encoded: seq<byte>, targets: seq<NodeId>, t: TopicKey, n: U64, i: nat, j: nat)
    requires |encoded| <= MAX_LIVE_ENVELOPE_LEN && StrictlyAscending(targets)
    requires var actions := Dispatch(stamp, encoded, targets, t, n);
             i < j < |actions| && actions[i].SendMulticast? && actions[j].SendMulticast?
    ensures var actions := Dispatch(stamp, encoded, targets, t, n); Siblings(actions[i], actions[j])
  {
    PubSubRuns.ChunkLimitIsPositive(|encoded|);
    var chunks := Chunks(targets, ChunkLimit(|encoded|));
    MulticastAt(chunks, stamp, encoded, i);
    MulticastAt(chunks, stamp, encoded, j);
    forall d | d in chunks[i] ensures d !in chunks[j] {
      ChunksDisjoint(targets, ChunkLimit(|encoded|), i, j, d);
    }
  }

  lemma PublishSiblings(core: PubSub, now: Time, t: TopicKey, payload: seq<byte>, encode: Encoder, i: nat, j: nat)
    requires var actions := PubSubModel.Publish(core, now, t, payload, encode).actions;
             i < j < |actions| && actions[i].SendMulticast? && actions[j].SendMulticast?
    ensures var actions := PubSubModel.Publish(core, now, t, payload, encode).actions; Siblings(actions[i], actions[j])
  {
    var targets := Ascending(Subscribers(core.discovery, t) - {core.me});
    AscendingFacts(Subscribers(core.discovery, t) - {core.me});
    var n := LastNumber(core, t) + 1;
    DispatchSiblings(StampOf(core.policies[t.name], core.me, t, encode), encode.bytes(Envelope(core.me, t, n, now, payload)), targets, t, n, i, j);
  }

  // ------------------------------------------------------------ on one link

  /** On a link in order, what an offered packet makes possible to send is that packet. */
  lemma SendsItself(k: LinkId, q: Link, x: Queued)
    requires LinkOk(k, q) && KeyOf(x.packet).Some? && !Admit(q, x).Full?
    ensures var a := TrySend(Prepared(q, Offer(x))); a.sent.Some? ==> a.sent.value == x && Prepared(q, Offer(x)).queues[1][0] == x
  {
    var p := Prepared(q, Offer(x));
    assert p.queues[0] == q.queues[0] && p.queues[2] == q.queues[2] && p.queues[3] == q.queues[3];
    if TrySend(p).sent.Some? {
      TrySendTakesHead(p);
      assert HeadFits(p, 1) && !HeadFits(q, 1);
    }
  }

  lemma NoKeyLeft(xs: seq<Queued>, key: ConflationKey)
    requires KeysDistinct(xs) && xs != [] && KeyOf(xs[0].packet) == Some(key)
    ensures FindKey(xs[1..], key).None?
  {
  }

  /** The second finds the first if that was not sent. */
  lemma FindsFirst(k: LinkId, q: Link, x: Queued, y: Queued)
    requires QueuesOk(k, q) && KeyOf(x.packet).Some? && KeyOf(y.packet) == KeyOf(x.packet) && !Admit(q, x).Full?
    ensures Admit(Prepared(q, Offer(x)), y).Replaced? && Admit(Prepared(q, Offer(x)), y).lost == x
  {
    NewestWins(k, q, x);
    assert x in Prepared(q, Offer(x)).queues[1];
  }

  /** It finds nothing if the first was sent. */
  lemma FindsNothing(k: LinkId, q: Link, x: Queued, y: Queued)
    requires LinkOk(k, q) && Belongs(k, 1, x) && KeyOf(x.packet).Some? && KeyOf(y.packet) == KeyOf(x.packet) && !Admit(q, x).Full?
    requires TrySend(Prepared(q, Offer(x))).sent.Some?
    ensures !Admit(TrySend(Prepared(q, Offer(x))).link, y).Replaced?
  {
    var p := Prepared(q, Offer(x));
    AdmitOk(k, q, x);
    SendsItself(k, q, x);
    TrySendTakesHead(p);
    NoKeyLeft(p.queues[1], KeyOf(x.packet).value);
  }

  /** No write is permitted, or with `x` queued a P0 head waits for credit or no head fits. */
  predicate CannotSend(q: Link, x: Queued) {
    !q.writable || Blocked(Prepared(q, Offer(x)))
  }

  /** Of two packets with one conflation key offered in a row, the second overwrites the first exactly if that was queued and not sent at once. */
  lemma OverwritesExactly(k: LinkId, q: Link, x: Queued, y: Queued)
    requires LinkOk(k, q) && Belongs(k, 1, x) && KeyOf(x.packet).Some? && KeyOf(y.packet) == KeyOf(x.packet)
    ensures Overwritten(Operate(q, Offer(x)).link, Offer(y)) == if !Admit(q, x).Full? && CannotSend(q, x) then [x.packet] else []
  {
    TrySendConserves(Prepared(q, Offer(x)));
    if !Admit(q, x).Full? {
      if CannotSend(q, x) {
        FindsFirst(k, q, x, y);
      } else {
        FindsNothing(k, q, x, y);
      }
    }
  }

  // ------------------------------------------------------------ through the forwarder

  /** Where the forwarder sends a destination of an outbound packet. */
  function Outward(f: Fwd): NodeId -> Verdict {
    DecideAt(f, None)
  }

  /** The part of a multicast that leaves by link `k`. */
  function Branch(f: Fwd, me: NodeId, a: PubSubAction, k: LinkId): Queued
    requires a.SendMulticast?
  {
    Queued(None, Subset(PacketOf(me, a), Select(a.destinations, Outward(f), Via(k)), PUBLISH_TTL - 1))
  }

  /** The event that the runtime makes of a multicast action. */
  function EventOf(me: NodeId, a: PubSubAction): ForwardEvent
    requires a.SendMulticast?
  {
    OutboundMulticast(a.destinations, PacketOf(me, a))
  }

  lemma EnqueueOps(f: Fwd, link: LinkId, x: Queued, k: LinkId)
    requires link !in f.down
    ensures var e := Enqueue(f, link, x);
            && OpsOn(e.trace, k) == (if k == link && !Admit(LinkOf(f, k), x).Full? then [Offer(x)] else [])
            && (k != link ==> LinkOf(e.fwd, k) == LinkOf(f, k)) && e.fwd.down == f.down
  {
    OpsOnSingle(link, Offer(x), k);
  }

  /** Fanning out offers each link its own branch, once. */
  lemma {:induction false} FanOutOps(f: Fwd, p: Packet, ds: seq<NodeId>, verdict: NodeId -> Verdict, ttl: byte, links: seq<LinkId>, k: LinkId)
    requires StrictlyAscending(links) && forall j :: j in links ==> j !in f.down
    ensures var x := Queued(None, Subset(p, Select(ds, verdict, Via(k)), ttl));
            OpsOn(FanOut(f, None, p, ds, verdict, ttl, links).trace, k) == if k in links && !Admit(LinkOf(f, k), x).Full? then [Offer(x)] else []
    decreases |links|
  {
    if links != [] {
      var x := Queued(None, Subset(p, Select(ds, verdict, Via(links[0])), ttl));
      var branch := Enqueue(f, links[0], x);
      EnqueueOps(f, links[0], x, k);
      FanOutOps(branch.fwd, p, ds, verdict, ttl, links[1..], k);
      OpsOnAdds(branch.trace, FanOut(branch.fwd, None, p, ds, verdict, ttl, links[1..]).trace, k);
    }
  }

  lemma BranchesExist(ds: seq<NodeId>, verdict: NodeId -> Verdict, k: LinkId)
    ensures k in LinksFor(ds, verdict) <==> Select(ds, verdict, Via(k)) != []
  {
    if Select(ds, verdict, Via(k)) != [] {
      assert Select(ds, verdict, Via(k))[0] in ds;
    }
    if k in LinksFor(ds, verdict) {
      var d :| d in ds && verdict(d) == Via(k);
      assert d in Select(ds, verdict, Via(k));
    }
  }

  lemma LinksAscend(ds: seq<NodeId>, verdict: NodeId -> Verdict)
    ensures StrictlyAscending(LinksFor(ds, verdict))
  {
    AscendingFacts(set d | d in ds && verdict(d).Via? :: verdict(d).link);
  }

  lemma OutwardIsUp(f: Fwd, ds: seq<NodeId>, k: LinkId)
    requires k in LinksFor(ds, Outward(f))
    ensures k !in f.down
  {
    var d :| d in ds && Outward(f)(d) == Via(k);
  }

  /** An outbound multicast with a valid list fans out over its links. */
  lemma MulticastTrace(f: Fwd, now: Time, me: NodeId, a: PubSubAction)
    requires a.SendMulticast? && MulticastPayload(a.destinations, a.payload) == Ok(a.destinations)
    ensures var p, ds := PacketOf(me, a).(destinations := a.destinations), a.destinations;
            && Handle(f, now, EventOf(me, a)).trace == FanOut(f, None, p, ds, Outward(f), PUBLISH_TTL - 1, LinksFor(ds, Outward(f))).trace
            && SameRouting(f, Handle(f, now, EventOf(me, a)).fwd)
  {
    var p := PacketOf(me, a).(destinations := a.destinations);
    assert Addressed(PacketOf(me, a)) == PacketOf(me, a);
    ProcessFrame(f, None, p);
    var out := FanOut(f, None, p, a.destinations, Outward(f), PUBLISH_TTL - 1, LinksFor(a.destinations, Outward(f)));
    assert [] + out.trace == out.trace;
  }

  /** Each link that some destination goes out on is offered its branch, unless its queue is full; the others are left alone. */
  lemma MulticastOps(f: Fwd, now: Time, me: NodeId, a: PubSubAction, k: LinkId)
    requires a.SendMulticast? && MulticastPayload(a.destinations, a.payload) == Ok(a.destinations)
    ensures var x := Branch(f, me, a, k);
            EventOps(f, now, EventOf(me, a), k)
            == if x.packet.destinations != [] && !Admit(LinkOf(f, k), x).Full? then [Offer(x)] else []
  {
    MulticastTrace(f, now, me, a);
    BranchesExist(a.destinations, Outward(f), k);
    LinksAscend(a.destinations, Outward(f));
    forall j | j in LinksFor(a.destinations, Outward(f)) ensures j !in f.down {
      OutwardIsUp(f, a.destinations, j);
    }
    FanOutOps(f, PacketOf(me, a).(destinations := a.destinations), a.destinations, Outward(f), PUBLISH_TTL - 1, LinksFor(a.destinations, Outward(f)), k);
  }

  /** The packets that an event overwrites on link `k`. */
  function LostOn(f: Fwd, now: Time, event: ForwardEvent, k: LinkId): seq<Packet> {
    LostBy(LinkIn(Surviving(f, event), k), EventOps(f, now, event, k))
  }

  /** Two multicasts with one conflation key, handled in a row. */
  lemma SecondOverwrites(f: Fwd, now: Time, me: NodeId, a: PubSubAction, b: PubSubAction, k: LinkId)
    requires LinksOk(f) && Siblings(a, b) && a.stamp.conflatable && a.stamp.priority.P1?
    requires MulticastPayload(a.destinations, a.payload) == Ok(a.destinations) && MulticastPayload(b.destinations, b.payload) == Ok(b.destinations)
    requires Branch(f, me, a, k).packet.destinations != [] && Branch(f, me, b, k).packet.destinations != []
    ensures var x := Branch(f, me, a, k);
            LostOn(Handle(f, now, EventOf(me, a)).fwd, now, EventOf(me, b), k)
            == if !Admit(LinkOf(f, k), x).Full? && CannotSend(LinkOf(f, k), x) then [x.packet] else []
  {
    var x, y, q := Branch(f, me, a, k), Branch(f, me, b, k), LinkOf(f, k);
    FirstBranch(f, now, me, a, b, k);
    LostByOffer(Handle(f, now, EventOf(me, a)).fwd, now, me, b, k);
    BranchBelongs(f, me, a, k);
    SiblingKeys(f, me, a, b, k);
    NewLinkOk(k);
    OverwritesExactly(k, q, x, y);
  }

  lemma SiblingKeys(f: Fwd, me: NodeId, a: PubSubAction, b: PubSubAction, k: LinkId)
    requires Siblings(a, b) && a.stamp.conflatable && a.stamp.priority.P1?
    ensures KeyOf(Branch(f, me, a, k).packet).Some? && KeyOf(Branch(f, me, b, k).packet) == KeyOf(Branch(f, me, a, k).packet)
  {
  }

  lemma LostByOffer(f: Fwd, now: Time, me: NodeId, a: PubSubAction, k: LinkId)
    requires a.SendMulticast? && MulticastPayload(a.destinations, a.payload) == Ok(a.destinations)
    requires Branch(f, me, a, k).packet.destinations != []
    ensures LostOn(f, now, EventOf(me, a), k) == Overwritten(LinkOf(f, k), Offer(Branch(f, me, a, k)))
  {
    MulticastOps(f, now, me, a, k);
    LostOffer(LinkOf(f, k), Branch(f, me, a, k));
  }

  /** A full queue overwrites nothing. */
  lemma LostOffer(r: Link, y: Queued)
    ensures LostBy(r, if !Admit(r, y).Full? then [Offer(y)] else []) == Overwritten(r, Offer(y))
  {
    assert [Offer(y)][1..] == [] && Overwritten(r, Offer(y)) + [] == Overwritten(r, Offer(y));
  }

  lemma AfterOffer(q: Link, x: Queued)
    ensures AfterOps(q, if !Admit(q, x).Full? then [Offer(x)] else []) == Operate(q, Offer(x)).link
  {
    assert [Offer(x)][1..] == [];
  }

  /** The first multicast leaves the link as one offer does, and where the second goes as it was. */
  lemma FirstBranch(f: Fwd, now: Time, me: NodeId, a: PubSubAction, b: PubSubAction, k: LinkId)
    requires a.SendMulticast? && b.SendMulticast? && MulticastPayload(a.destinations, a.payload) == Ok(a.destinations)
    requires Branch(f, me, a, k).packet.destinations != []
    ensures var f' := Handle(f, now, EventOf(me, a)).fwd;
            LinkOf(f', k) == Operate(LinkOf(f, k), Offer(Branch(f, me, a, k))).link && Branch(f', me, b, k) == Branch(f, me, b, k)
  {
    MulticastTrace(f, now, me, a);
    MulticastOps(f, now, me, a, k);
    HandleOn(f, now, EventOf(me, a), k);
    AfterOffer(LinkOf(f, k), Branch(f, me, a, k));
    SameOutward(f, Handle(f, now, EventOf(me, a)).fwd, b.destinations, k);
  }

  lemma {:induction false} SameOutward(f: Fwd, f': Fwd, ds: seq<NodeId>, k: LinkId)
    requires SameRouting(f, f')
    ensures Select(ds, Outward(f'), Via(k)) == Select(ds, Outward(f), Via(k))
  {
    if ds != [] {
      SameOutward(f, f', ds[1..], k);
    }
  }

  lemma BranchBelongs(f: Fwd, me: NodeId, a: PubSubAction, k: LinkId)
    requires a.SendMulticast? && a.stamp.priority.P1? && MulticastPayload(a.destinations, a.payload) == Ok(a.destinations)
    requires Branch(f, me, a, k).packet.destinations != []
    ensures Belongs(k, 1, Branch(f, me, a, k))
  {
    PayloadIsCanonical(a.destinations, a.payload);
    BranchIsFine(PacketOf(me, a), a.destinations, Outward(f), Via(k), PUBLISH_TTL - 1);
  }

  /**
   * Two successive chunks of one conflatable publish, handled by the forwarder
   * in a row, where both go out on link `k`: the later overwrites the part of
   * the earlier on that link exactly if that part was queued and the link could
   * not send it at once. No destination of the earlier chunk is addressed by the
   * later one, so what is overwritten reaches nobody.
   */
  lemma LaterChunkOverwrites(core: PubSub, now: Time, t: TopicKey, payload: seq<byte>, encode: Encoder, i: nat, f: Fwd, k: LinkId)
    requires var actions := PubSubModel.Publish(core, now, t, payload, encode).actions;
             && i + 1 < |actions| && actions[i].SendMulticast? && actions[i + 1].SendMulticast? && actions[i].stamp.conflatable && LinksOk(f)
             && Branch(f, core.me, actions[i], k).packet.destinations != [] && Branch(f, core.me, actions[i + 1], k).packet.destinations != []
    ensures var actions := PubSubModel.Publish(core, now, t, payload, encode).actions;
            var x := Branch(f, core.me, actions[i], k);
            && (LostOn(Handle(f, now, EventOf(core.me, actions[i])).fwd, now, EventOf(core.me, actions[i + 1]), k)
                == if !Admit(LinkOf(f, k), x).Full? && CannotSend(LinkOf(f, k), x) then [x.packet] else [])
            && forall d :: d in actions[i].destinations ==> d !in actions[i + 1].destinations
  {
    var actions := PubSubModel.Publish(core, now, t, payload, encode).actions;
    PublishSiblings(core, now, t, payload, encode, i, i + 1);
    PublishConflates(core, now, t, payload, encode, i);
    PubSubRuns.PublishReachesAll(core, now, t, payload, encode);
    SecondOverwrites(f, now, core.me, actions[i], actions[i + 1], k);
  }

  lemma PublishConflates(core: PubSub, now: Time, t: TopicKey, payload: seq<byte>, encode: Encoder, i: nat)
    requires var actions := PubSubModel.Publish(core, now, t, payload, encode).actions; i < |actions| && actions[i].SendMulticast?
    ensures PubSubModel.Publish(core, now, t, payload, encode).actions[i].stamp == StampOf(core.policies[t.name], core.me, t, encode)
  {
    var n := LastNumber(core, t) + 1;
    var encoded := encode.bytes(Envelope(core.me, t, n, now, payload));
    PubSubRuns.ChunkLimitIsPositive(|encoded|);
    var chunks := Chunks(Ascending(Subscribers(core.discovery, t) - {core.me}), ChunkLimit(|encoded|));
    MulticastAt(chunks, StampOf(core.policies[t.name], core.me, t, encode), encoded, i);
  }

  /** What is overwritten on one link is in the ledger of the event. */
  lemma LostOnIsLost(f: Fwd, now: Time, event: ForwardEvent, k: LinkId, p: Packet)
    requires p in LostOn(f, now, event, k)
    ensures p in Handle(f, now, event).lost
  {
    HandleReplays(f, now, event);
    LostOnLink(Surviving(f, event), Handle(f, now, event).trace, k, p);
  }

  // ------------------------------------------------------------ a case in point

  function Filler(n: nat): (r: seq<byte>)
    ensures |r| == n
  {
    if n == 0 then [] else Filler(n - 1) + [0]
  }

  const TOPIC: TopicKey := TopicKey([1], [])

  /** A new core that knows two subscribers of a conflatable topic. */
  const CORE: PubSub := NewCore(7, map[[1] := Policy(P1, true)]).(discovery := map[Selector([1], None) := {8, 9}])

  /** An encoder of maximal envelopes, which leave room for one destination. */
  const WIDE: Encoder := Encoder((e: Envelope) => Filler(MAX_LIVE_ENVELOPE_LEN), (t: TopicKey) => 0, (n: NodeId, p: seq<byte>) => 0)

  /** A new forwarder that reaches both subscribers over one link, which has not come up yet. */
  const FORWARDER: Fwd := NewForwarder(7, map[8 := Route(5, 1, 1), 9 := Route(5, 1, 1)])

  lemma PairAscends(a: NodeId, b: NodeId)
    requires a < b
    ensures Ascending({a, b}) == [a, b]
  {
    var r := Ascending({a, b});
    AscendingFacts({a, b});
    assert |{a, b}| == 2 && r[0] in r && r[1] in r && r[1] in r[1..];
  }

  lemma CaseTargets()
    ensures Ascending(Subscribers(CORE.discovery, TOPIC) - {CORE.me}) == [8, 9]
  {
    assert Selector([1], None) in CORE.discovery && Matches(Selector([1], None), TOPIC);
    assert Subscribers(CORE.discovery, TOPIC) - {CORE.me} == {8, 9};
    PairAscends(8, 9);
  }

  lemma CaseActions()
    ensures var actions := PubSubModel.Publish(CORE, 0, TOPIC, [], WIDE).actions;
            && |actions| == 3
            && actions[0] == SendMulticast([8], Stamp(P1, true, 0, 0), Filler(MAX_LIVE_ENVELOPE_LEN))
            && actions[1] == SendMulticast([9], Stamp(P1, true, 0, 0), Filler(MAX_LIVE_ENVELOPE_LEN))
  {
    var encoded := Filler(MAX_LIVE_ENVELOPE_LEN);
    CaseTargets();
    assert ChunkLimit(|encoded|) == 1;
    var chunks := Chunks([8, 9], 1);
    assert [8, 9][..1] == [8] && [8, 9][1..] == [9] && Chunks([9], 1) == [[9]];
    assert chunks == [[8], [9]];
    var stamp := StampOf(CORE.policies[TOPIC.name], CORE.me, TOPIC, WIDE);
    MulticastAt(chunks, stamp, encoded, 0);
    MulticastAt(chunks, stamp, encoded, 1);
    assert WIDE.bytes(Envelope(CORE.me, TOPIC, 1, 0, [])) == encoded;
  }

  lemma CaseBranch(a: PubSubAction, d: NodeId)
    requires a.SendMulticast? && a.destinations == [d] && d in FORWARDER.routes
    ensures Branch(FORWARDER, CORE.me, a, 5).packet.destinations == [d]
  {
    assert [d][1..] == [] && Outward(FORWARDER)(d) == Via(5);
    assert Select([d][1..], Outward(FORWARDER), Via(5)) == [];
  }

  lemma CaseCannotSend(a: PubSubAction)
    requires a == SendMulticast([8], Stamp(P1, true, 0, 0), Filler(MAX_LIVE_ENVELOPE_LEN))
    ensures var x := Branch(FORWARDER, CORE.me, a, 5); !Admit(LinkOf(FORWARDER, 5), x).Full? && CannotSend(LinkOf(FORWARDER, 5), x)
  {
    CaseBranch(a, 8);
    assert LinkOf(FORWARDER, 5) == NewLink;
  }

  /** It does happen: of a publish in two chunks to a link that has not come up yet, the first chunk is lost. */
  lemma ChunkIsLost()
    ensures var actions := PubSubModel.Publish(CORE, 0, TOPIC, [], WIDE).actions;
            && |actions| == 3 && actions[0].SendMulticast? && actions[1].SendMulticast? && actions[0].destinations == [8]
            && exists p: Packet :: p.destinations == [8] &&
                 p in Handle(Handle(FORWARDER, 0, EventOf(CORE.me, actions[0])).fwd, 0, EventOf(CORE.me, actions[1])).lost
  {
    var actions := PubSubModel.Publish(CORE, 0, TOPIC, [], WIDE).actions;
    CaseActions();
    CaseBranch(actions[0], 8);
    CaseBranch(actions[1], 9);
    LaterChunkOverwrites(CORE, 0, TOPIC, [], WIDE, 0, FORWARDER, 5);
    var x := Branch(FORWARDER, CORE.me, actions[0], 5);
    CaseCannotSend(actions[0]);
    LostOnIsLost(Handle(FORWARDER, 0, EventOf(CORE.me, actions[0])).fwd, 0, EventOf(CORE.me, actions[1]), 5, x.packet);
  }
}
