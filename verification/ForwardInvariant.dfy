/** What every run keeps true of a forwarder's queues and waiting batches. */
module ForwardInvariant {
  import opened MeshTypes
  import opened ControlData
  import opened Packets
  import opened Scheduler
  import opened Forwarding
  import opened Conservation
  import Runs

  // ------------------------------------------------------------ packets

  /** A packet the wire format can carry. */
  ghost predicate Fine(p: Packet) {
    match p.header.packetType
    case Unicast => p.destinations == [] && |p.payload| <= MAX_FORWARD_PAYLOAD_LEN
    case Multicast =>
      && StrictlyAscending(p.destinations) && 1 <= |p.destinations| <= MAX_MULTICAST_DESTINATIONS
      && PrefixLen(|p.destinations|) + |p.payload| <= MAX_FORWARD_PAYLOAD_LEN
    case _ => false
  }

  lemma FineFits(p: Packet)
    requires Fine(p)
    ensures EncodedLen(p) <= MAX_PAYLOAD_LEN
  {
  }

  /** Unicast packets come from callers that have encoded or decoded them; the rest is checked here. */
  ghost predicate Checked(p: Packet) {
    p.header.packetType.Unicast? ==> Fine(p)
  }

  ghost predicate EventFine(event: ForwardEvent) {
    match event
    case Outbound(p) => Checked(p)
    case Inbound(_, p) => Checked(p)
    case _ => true
  }

  // ------------------------------------------------------------ one link

  ghost function SumLen(xs: seq<Queued>): nat {
    if xs == [] then 0 else Len(xs[0]) + SumLen(xs[1..])
  }

  /** A packet in the queue of its own class, not about to go back where it came from. */
  ghost predicate Belongs(k: LinkId, c: nat, x: Queued) {
    x.packet.header.priority.Index() == c && x.incoming != Some(k) && Fine(x.packet)
  }

  ghost predicate QueueOk(k: LinkId, c: nat, xs: seq<Queued>, bytes: nat)
    requires c < 4
  {
    |xs| <= QUEUE_LIMITS[c] && bytes == SumLen(xs) && forall x :: x in xs ==> Belongs(k, c, x)
  }

  /** At most one packet per conflation key. */
  ghost predicate KeysDistinct(xs: seq<Queued>) {
    forall i, j :: 0 <= i < j < |xs| && KeyOf(xs[i].packet).Some? ==> KeyOf(xs[i].packet) != KeyOf(xs[j].packet)
  }

  ghost predicate QueuesOk(k: LinkId, q: Link) {
    && (forall c :: 0 <= c < 4 ==> QueueOk(k, c, q.queues[c], q.queuedBytes[c]))
    && KeysDistinct(q.queues[1])
  }

  ghost predicate LinkOk(k: LinkId, q: Link) {
    QueuesOk(k, q) && (q.writable ==> Blocked(q))
  }

  lemma {:induction false} SumLenAdds(a: seq<Queued>, b: seq<Queued>)
    ensures SumLen(a + b) == SumLen(a) + SumLen(b)
  {
    FirstOfSum(a, b);
    if a != [] {
      SumLenAdds(a[1..], b);
    }
  }

  lemma {:induction false} SumLenBound(k: LinkId, c: nat, xs: seq<Queued>)
    requires forall x :: x in xs ==> Belongs(k, c, x)
    ensures SumLen(xs) <= MAX_PAYLOAD_LEN * |xs|
  {
    if xs != [] {
      assert Belongs(k, c, xs[0]);
      FineFits(xs[0].packet);
      SumLenBound(k, c, xs[1..]);
    }
  }

  lemma SumLenReplace(xs: seq<Queued>, i: nat, x: Queued)
    requires i < |xs|
    ensures SumLen(xs[i := x]) + Len(xs[i]) == SumLen(xs) + Len(x)
  {
    assert xs == xs[..i] + ([xs[i]] + xs[i + 1..]);
    assert xs[i := x] == xs[..i] + ([x] + xs[i + 1..]);
    SumLenAdds(xs[..i], [xs[i]] + xs[i + 1..]);
    SumLenAdds(xs[..i], [x] + xs[i + 1..]);
  }

  lemma StoredQueueOk(k: LinkId, c: nat, xs: seq<Queued>, bytes: nat, x: Queued)
    requires c < 4 && QueueOk(k, c, xs, bytes) && Belongs(k, c, x) && |xs| < QUEUE_LIMITS[c]
    ensures QueueOk(k, c, xs + [x], Saturated(bytes + Len(x)))
  {
    SumLenAdds(xs, [x]);
    assert [x][1..] == [] && SumLen([]) == 0;
    SumLenBound(k, c, xs + [x]);
  }

  lemma ReplacedQueueOk(k: LinkId, c: nat, xs: seq<Queued>, bytes: nat, i: nat, x: Queued)
    requires c < 4 && QueueOk(k, c, xs, bytes) && Belongs(k, c, x) && i < |xs|
    ensures QueueOk(k, c, xs[i := x], Saturated(Max(bytes - Len(xs[i]), 0) + Len(x)))
  {
    SumLenReplace(xs, i, x);
    SumLenBound(k, c, xs[i := x]);
    assert xs[i] in xs && Len(xs[i]) <= SumLen(xs) by {
      assert xs == xs[..i] + ([xs[i]] + xs[i + 1..]);
      SumLenAdds(xs[..i], [xs[i]] + xs[i + 1..]);
    }
  }

  lemma TakenQueueOk(k: LinkId, c: nat, xs: seq<Queued>, bytes: nat)
    requires c < 4 && QueueOk(k, c, xs, bytes) && xs != []
    ensures QueueOk(k, c, xs[1..], Max(bytes - Len(xs[0]), 0))
  {
  }

  /** Admission keeps every queue in order, and replaces in place the one packet with the same key. */
  lemma AdmitOk(k: LinkId, q: Link, x: Queued)
    requires QueuesOk(k, q) && Belongs(k, x.packet.header.priority.Index(), x)
    ensures match Admit(q, x) case Full => true case a => QueuesOk(k, a.link)
  {
    var c := x.packet.header.priority.Index();
    match Admit(q, x)
    case Stored(r) =>
      StoredQueueOk(k, c, q.queues[c], q.queuedBytes[c], x);
      assert forall j :: 0 <= j < 4 && j != c ==> r.queues[j] == q.queues[j] && r.queuedBytes[j] == q.queuedBytes[j];
    case Replaced(r, lost) =>
      var i := FindKey(q.queues[c], KeyOf(x.packet).value).value;
      ReplacedQueueOk(k, c, q.queues[c], q.queuedBytes[c], i, x);
      assert forall j :: 0 <= j < 4 && j != c ==> r.queues[j] == q.queues[j] && r.queuedBytes[j] == q.queuedBytes[j];
    case Full =>
  }

  /** Sending takes a head and leaves permission over only if nothing else can go. */
  lemma TrySendOk(k: LinkId, q: Link)
    requires QueuesOk(k, q)
    ensures LinkOk(k, TrySend(q).link)
    ensures TrySend(q).sent.Some? ==> Fine(TrySend(q).sent.value.packet)
  {
    var a := TrySend(q);
    TrySendConserves(q);
    if a.sent.Some? {
      TrySendTakesHead(q);
      var c := NextClass(q).value;
      TakenQueueOk(k, c, q.queues[c], q.queuedBytes[c]);
      assert Belongs(k, c, q.queues[c][0]);
      assert forall j :: 0 <= j < 4 && j != c ==> a.link.queues[j] == q.queues[j] && a.link.queuedBytes[j] == q.queuedBytes[j];
    }
  }

  ghost predicate AllBelong(k: LinkId, ops: seq<LinkOp>) {
    forall op :: op in ops ==> op.Offer? ==> Belongs(k, op.x.packet.header.priority.Index(), op.x)
  }

  lemma OperateOk(k: LinkId, q: Link, op: LinkOp)
    requires QueuesOk(k, q) && (op.Offer? ==> Belongs(k, op.x.packet.header.priority.Index(), op.x))
    ensures QueuesOk(k, Prepared(q, op)) && QueuesOk(k, Operate(q, op).link)
  {
    if op.Offer? {
      AdmitOk(k, q, op.x);
    }
    TrySendOk(k, Prepared(q, op));
  }

  /** The operations, all of packets that belong on link `k`, lead from `q` to `r` and send `sent`. */
  ghost predicate Acts(k: LinkId, q: Link, ops: seq<LinkOp>, sent: seq<Packet>, r: Link) {
    r == AfterOps(q, ops) && sent == SentBy(q, ops) && AllBelong(k, ops)
  }

  lemma ActsThen(k: LinkId, q: Link, ops: seq<LinkOp>, sent: seq<Packet>, r: Link, more: seq<LinkOp>, later: seq<Packet>, s: Link)
    requires Acts(k, q, ops, sent, r) && Acts(k, r, more, later, s)
    ensures Acts(k, q, ops + more, sent + later, s)
  {
    OpsAdd(q, ops, more);
  }

  lemma {:induction false} ChainActs(k: LinkId, links: seq<Link>, ops: seq<seq<LinkOp>>, sent: seq<seq<Packet>>, m: nat, n: nat)
    requires m <= n <= |ops| == |sent| == |links| - 1
    requires forall j :: m <= j < n ==> Acts(k, links[j], ops[j], sent[j], links[j + 1])
    ensures Acts(k, links[m], Runs.Joined(ops, m, n), Runs.Joined(sent, m, n), links[n])
    decreases n
  {
    if m < n {
      ChainActs(k, links, ops, sent, m, n - 1);
      assert Acts(k, links[n - 1], ops[n - 1], sent[n - 1], links[n - 1 + 1]);
      ActsThen(k, links[m], Runs.Joined(ops, m, n - 1), Runs.Joined(sent, m, n - 1), links[n - 1], ops[n - 1], sent[n - 1], links[n]);
    }
  }

  // ------------------------------------------------------------ the forwarder

  ghost predicate BatchOk(b: Batch) {
    b.packets != [] && forall x :: x in b.packets ==> x.packet.header.priority.P0? && Fine(x.packet)
  }

  ghost predicate LinksOk(f: Fwd) {
    forall k :: k in f.links ==> k !in f.down && LinkOk(k, f.links[k])
  }

  ghost predicate BatchesOk(f: Fwd) {
    forall g :: g in f.pending ==> BatchOk(f.pending[g])
  }

  /** No queue for a down link, every queue in order, every waiting batch made of P0 packets. */
  ghost predicate FwdOk(f: Fwd) {
    LinksOk(f) && BatchesOk(f)
  }

  /** Whatever leaves on a link is a packet the wire format can carry. */
  ghost predicate SendsFine(actions: seq<ForwardAction>) {
    forall a :: a in actions ==> a.Transmit? ==> Fine(a.packet)
  }

  /** Whatever is offered to a link belongs there. */
  ghost predicate OffersFine(trace: seq<LinkStep>) {
    forall s :: s in trace ==> s.op.Offer? ==> Belongs(s.link, s.op.x.packet.header.priority.Index(), s.op.x)
  }

  ghost predicate EffectOk(e: Effect) {
    LinksOk(e.fwd) && SendsFine(e.actions) && OffersFine(e.trace)
  }

  /** The invariant holds afterwards, and what was sent and queued is in order. */
  ghost predicate EventOk(e: Effect) {
    FwdOk(e.fwd) && SendsFine(e.actions) && OffersFine(e.trace)
  }

  lemma NewLinkOk(k: LinkId)
    ensures LinkOk(k, NewLink)
  {
  }

  lemma LaunchOk(f: Fwd, link: LinkId, q: Link)
    requires LinksOk(f) && link !in f.down && QueuesOk(link, q)
    ensures EffectOk(Launch(f, link, q))
  {
    TrySendOk(link, q);
  }

  lemma EnqueueOk(f: Fwd, link: LinkId, x: Queued)
    requires LinksOk(f) && Belongs(link, x.packet.header.priority.Index(), x)
    ensures EffectOk(Enqueue(f, link, x))
  {
    if link !in f.down {
      NewLinkOk(link);
      AdmitOk(link, LinkOf(f, link), x);
      match Admit(LinkOf(f, link), x)
      case Full =>
      case a => LaunchOk(f, link, a.link);
    }
  }

  // ------------------------------------------------------------ splitting

  lemma {:induction false} SelectAscends(ds: seq<NodeId>, verdict: NodeId -> Verdict, v: Verdict)
    requires StrictlyAscending(ds)
    ensures StrictlyAscending(Select(ds, verdict, v)) && |Select(ds, verdict, v)| <= |ds|
  {
    if ds != [] {
      SelectAscends(ds[1..], verdict, v);
      var rest := Select(ds[1..], verdict, v);
      assert ([ds[0]] + rest)[1..] == rest && [] + rest == rest;
    }
  }

  lemma {:induction false} StuckAscends(ds: seq<NodeId>, verdict: NodeId -> Verdict)
    requires StrictlyAscending(ds)
    ensures StrictlyAscending(Stuck(ds, verdict)) && |Stuck(ds, verdict)| <= |ds|
  {
    if ds != [] {
      StuckAscends(ds[1..], verdict);
      var rest := Stuck(ds[1..], verdict);
      assert ([ds[0]] + rest)[1..] == rest && [] + rest == rest;
    }
  }

  /** A valid destination list for a multicast with this payload. */
  ghost predicate Deliverable(ds: seq<NodeId>, payload: seq<byte>) {
    StrictlyAscending(ds) && 1 <= |ds| <= MAX_MULTICAST_DESTINATIONS && PrefixLen(|ds|) + |payload| <= MAX_FORWARD_PAYLOAD_LEN
  }

  /** A non-empty part of a valid destination list is valid: the split never fails. */
  lemma BranchIsFine(p: Packet, ds: seq<NodeId>, verdict: NodeId -> Verdict, v: Verdict, ttl: byte)
    requires Deliverable(ds, p.payload) && Select(ds, verdict, v) != []
    ensures Fine(Subset(p, Select(ds, verdict, v), ttl))
    ensures MulticastPayload(Select(ds, verdict, v), p.payload) == Ok(Select(ds, verdict, v))
  {
    SelectAscends(ds, verdict, v);
    CanonicalIsStable(Select(ds, verdict, v), p.payload);
  }

  lemma {:induction false} FanOutOk(f: Fwd, incoming: Option<LinkId>, p: Packet, ds: seq<NodeId>, verdict: NodeId -> Verdict, ttl: byte, links: seq<LinkId>)
    requires LinksOk(f) && Deliverable(ds, p.payload)
    requires forall k :: k in links ==> incoming != Some(k) && Select(ds, verdict, Via(k)) != []
    ensures EffectOk(FanOut(f, incoming, p, ds, verdict, ttl, links))
    decreases |links|
  {
    if links != [] {
      var x := Queued(incoming, Subset(p, Select(ds, verdict, Via(links[0])), ttl));
      BranchIsFine(p, ds, verdict, Via(links[0]), ttl);
      EnqueueOk(f, links[0], x);
      FanOutOk(Enqueue(f, links[0], x).fwd, incoming, p, ds, verdict, ttl, links[1..]);
    }
  }

  lemma BranchesLeave(f: Fwd, incoming: Option<LinkId>, ds: seq<NodeId>)
    ensures var verdict := DecideAt(f, incoming);
            forall k :: k in LinksFor(ds, verdict) ==> incoming != Some(k) && Select(ds, verdict, Via(k)) != []
  {
    var verdict := DecideAt(f, incoming);
    forall k | k in LinksFor(ds, verdict) ensures incoming != Some(k) && Select(ds, verdict, Via(k)) != [] {
      var d :| d in ds && verdict(d) == Via(k);
      assert d in Select(ds, verdict, Via(k));
    }
  }

  ghost predicate PayloadFine(m: Result<seq<NodeId>, MulticastError>, payload: seq<byte>) {
    m.Ok? ==> Deliverable(m.value, payload)
  }

  lemma SplitOk(f: Fwd, incoming: Option<LinkId>, p: Packet, m: Result<seq<NodeId>, MulticastError>)
    requires LinksOk(f) && p.header.ttl > 0 && PayloadFine(m, p.payload)
    ensures EffectOk(SplitMulticast(f, incoming, p, m))
  {
    if m.Ok? {
      var verdict := DecideAt(f, incoming);
      BranchesLeave(f, incoming, m.value);
      FanOutOk(f, incoming, p, m.value, verdict, p.header.ttl - 1, LinksFor(m.value, verdict));
    }
  }

  lemma ProcessOk(f: Fwd, incoming: Option<LinkId>, p: Packet)
    requires LinksOk(f) && Checked(p)
    ensures EffectOk(ProcessPacket(f, incoming, p))
  {
    if p.header.ttl > 0 && p.header.packetType.Multicast? {
      var m := MulticastPayload(p.destinations, p.payload);
      if m.Ok? {
        PayloadIsCanonical(p.destinations, p.payload);
      }
      SplitOk(f, incoming, p, m);
    } else if p.header.ttl > 0 && p.header.packetType.Unicast? {
      var verdict := Decide(f.me, f.routes, f.down, incoming, p.header.destination);
      if verdict.Via? {
        EnqueueOk(f, verdict.link, Queued(incoming, p.(header := p.header.(ttl := p.header.ttl - 1))));
      }
    }
  }

  // ------------------------------------------------------------ rerouting

  /** What could not be moved is still fit to be queued, at its old priority. */
  ghost predicate LeftoverOk(x: Queued, unresolved: seq<Queued>) {
    forall y :: y in unresolved ==> Fine(y.packet) && y.packet.header.priority == x.packet.header.priority
  }

  lemma ResplitOk(f: Fwd, x: Queued, m: Result<seq<NodeId>, MulticastError>)
    requires LinksOk(f) && PayloadFine(m, x.packet.payload)
    ensures EffectOk(ResplitMulticast(f, x, m).effect) && LeftoverOk(x, ResplitMulticast(f, x, m).unresolved)
  {
    if m.Ok? {
      var verdict := DecideAt(f, x.incoming);
      BranchesLeave(f, x.incoming, m.value);
      FanOutOk(f, x.incoming, x.packet, m.value, verdict, x.packet.header.ttl, LinksFor(m.value, verdict));
      StuckAscends(m.value, verdict);
    }
  }

  lemma RerouteOk(f: Fwd, x: Queued)
    requires LinksOk(f) && Fine(x.packet)
    ensures EffectOk(Reroute(f, x).effect) && LeftoverOk(x, Reroute(f, x).unresolved)
  {
    match x.packet.header.packetType
    case Unicast =>
      var verdict := Decide(f.me, f.routes, f.down, x.incoming, x.packet.header.destination);
      if verdict.Via? {
        EnqueueOk(f, verdict.link, x);
      }
    case Multicast =>
      CanonicalIsStable(x.packet.destinations, x.packet.payload);
      ResplitOk(f, x, MulticastPayload(x.packet.destinations, x.packet.payload));
  }

  ghost predicate AllFine(xs: seq<Queued>) {
    forall x :: x in xs ==> Fine(x.packet)
  }

  ghost predicate AllP0(xs: seq<Queued>) {
    forall x :: x in xs ==> x.packet.header.priority.P0?
  }

  lemma {:induction false} RerouteAllOk(f: Fwd, xs: seq<Queued>)
    requires LinksOk(f) && AllFine(xs)
    ensures EffectOk(RerouteAll(f, xs).effect)
    ensures AllFine(RerouteAll(f, xs).unresolved) && (AllP0(xs) ==> AllP0(RerouteAll(f, xs).unresolved))
    decreases |xs|
  {
    if xs != [] {
      RerouteOk(f, xs[0]);
      RerouteAllOk(Reroute(f, xs[0]).effect.fwd, xs[1..]);
    }
  }

  lemma {:induction false} RerouteOrDropOk(f: Fwd, xs: seq<Queued>)
    requires LinksOk(f) && AllFine(xs)
    ensures EffectOk(RerouteOrDrop(f, xs)) && SameRouting(f, RerouteOrDrop(f, xs).fwd)
    decreases |xs|
  {
    if xs != [] {
      RerouteOk(f, xs[0]);
      RerouteFrame(f, xs[0]);
      DropsSendNothing(Reroute(f, xs[0]).unresolved, LinkIsDown);
      RerouteOrDropOk(Reroute(f, xs[0]).effect.fwd, xs[1..]);
    }
  }

  lemma {:induction false} DropsSendNothing(xs: seq<Queued>, reason: DropReason)
    ensures forall a :: a in DropAll(xs, reason) ==> a.Drop? && a.reason == reason
  {
    if xs != [] {
      DropsSendNothing(xs[1..], reason);
    }
  }

  // ------------------------------------------------------------ batches and link loss

  lemma ParkOk(f: Fwd, now: Time, xs: seq<Queued>)
    requires FwdOk(f) && AllFine(xs) && AllP0(xs)
    ensures EventOk(Park(f, now, xs)) && Park(f, now, xs).fwd.down == f.down
  {
  }

  lemma DisbandOk(f: Fwd, now: Time, q: seq<seq<Queued>>)
    requires FwdOk(f) && |q| == 4 && AllFine(q[0]) && AllP0(q[0]) && AllFine(q[2])
    ensures EventOk(Disband(f, now, q))
  {
    ParkOk(f, now, q[0]);
    DropsSendNothing(q[1], LinkIsDown);
    DropsSendNothing(q[3], LinkIsDown);
    RerouteOrDropOk(Park(f, now, q[0]).fwd, q[2]);
  }

  lemma LinkDownOk(f: Fwd, now: Time, link: LinkId)
    requires FwdOk(f)
    ensures EventOk(HandleLinkDown(f, now, link))
  {
    var closed := f.(down := f.down + {link}, links := f.links - {link});
    if link in f.links {
      var q := f.links[link];
      assert forall c :: 0 <= c < 4 ==> QueueOk(link, c, q.queues[c], q.queuedBytes[c]);
      assert QueueOk(link, 0, q.queues[0], q.queuedBytes[0]) && QueueOk(link, 2, q.queues[2], q.queuedBytes[2]);
      assert AllP0(q.queues[0]) by {
        forall x | x in q.queues[0] ensures x.packet.header.priority.P0? {
          assert Belongs(link, 0, x);
        }
      }
      DisbandOk(closed, now, q.queues);
    }
  }

  lemma RetryBatchOk(f: Fwd, now: Time, k: Id, batch: Batch)
    requires FwdOk(f) && BatchOk(batch)
    ensures EventOk(RetryBatch(f, now, k, batch))
  {
    if batch.expiresAt <= now {
      DropsSendNothing(batch.packets, RouteWaitExpired);
    } else {
      RerouteAllOk(f, batch.packets);
      RerouteAllFrame(f, batch.packets);
    }
  }

  lemma {:induction false} RetryBatchesOk(f: Fwd, now: Time, batches: map<Id, Batch>, order: seq<Id>)
    requires FwdOk(f) && forall k :: k in order ==> k in batches && BatchOk(batches[k])
    ensures EventOk(RetryBatches(f, now, batches, order))
    decreases |order|
  {
    if order != [] {
      RetryBatchOk(f, now, order[0], batches[order[0]]);
      RetryBatchesOk(RetryBatch(f, now, order[0], batches[order[0]]).fwd, now, batches, order[1..]);
    }
  }

  // ------------------------------------------------------------ all events

  lemma SplitFrame(f: Fwd, incoming: Option<LinkId>, p: Packet, m: Result<seq<NodeId>, MulticastError>)
    requires p.header.ttl > 0
    ensures SameRouting(f, SplitMulticast(f, incoming, p, m).fwd)
  {
    if m.Ok? {
      var verdict := DecideAt(f, incoming);
      FanOutFrame(f, incoming, p, m.value, verdict, p.header.ttl - 1, LinksFor(m.value, verdict));
    }
  }

  lemma ProcessFrame(f: Fwd, incoming: Option<LinkId>, p: Packet)
    ensures SameRouting(f, ProcessPacket(f, incoming, p).fwd)
  {
    if p.header.ttl > 0 && p.header.packetType.Multicast? {
      SplitFrame(f, incoming, p, MulticastPayload(p.destinations, p.payload));
    }
  }

  lemma PermitOk(f: Fwd, link: LinkId, op: LinkOp)
    requires LinksOk(f) && link !in f.down && !op.Offer?
    ensures EffectOk(Launch(f, link, Prepared(LinkOf(f, link), op)))
  {
    NewLinkOk(link);
    assert QueuesOk(link, LinkOf(f, link));
    LaunchOk(f, link, Prepared(LinkOf(f, link), op));
  }

  lemma RoutesUpdatedOk(f: Fwd, now: Time, routes: map<NodeId, Route>)
    requires FwdOk(f)
    ensures EventOk(HandleRoutesUpdated(f, now, routes))
  {
    var updated := f.(routes := routes, down := StillUsed(f.down, routes), pending := map[]);
    RetryBatchesOk(updated, now, f.pending, Ascending(f.pending.Keys));
  }

  lemma PendingTimerOk(f: Fwd, now: Time, k: Id)
    requires FwdOk(f)
    ensures EventOk(HandlePendingTimer(f, now, k))
  {
    if k in f.pending {
      DropsSendNothing(f.pending[k].packets, RouteWaitExpired);
    }
  }

  lemma InputOk(f: Fwd, event: ForwardEvent, now: Time)
    requires FwdOk(f) && EventFine(event) && (event.Outbound? || event.Inbound? || event.OutboundMulticast?)
    ensures EventOk(Handle(f, now, event))
  {
    match event
    case Outbound(p) => ProcessOk(f, None, p); ProcessFrame(f, None, p);
    case Inbound(link, p) => ProcessOk(f, Some(link), p); ProcessFrame(f, Some(link), p);
    case OutboundMulticast(ds, p) =>
      var m := MulticastPayload(ds, p.payload);
      if m.Ok? {
        ProcessOk(f, None, Addressed(p).(destinations := m.value));
        ProcessFrame(f, None, Addressed(p).(destinations := m.value));
      }
  }

  /** Every event keeps the invariant, and sends only packets the wire format can carry. */
  lemma HandleOk(f: Fwd, now: Time, event: ForwardEvent)
    requires FwdOk(f) && EventFine(event)
    ensures EventOk(Handle(f, now, event))
  {
    match event
    case RoutesUpdated(routes) => RoutesUpdatedOk(f, now, routes);
    case LinkCredit(link, bytes) =>
      if link !in f.down {
        PermitOk(f, link, AddCredit(bytes));
      }
    case LinkWritable(link) =>
      if link !in f.down {
        PermitOk(f, link, AllowWrite);
      }
    case LinkDown(link) => LinkDownOk(f, now, link);
    case PendingTimer(k) => PendingTimerOk(f, now, k);
    case _ => InputOk(f, event, now);
  }

  // ------------------------------------------------------------ runs

  datatype TimedForward = TimedForward(now: Time, event: ForwardEvent)

  ghost predicate Reacts(f: Fwd, e: TimedForward, f': Fwd) {
    EventFine(e.event) && f' == Handle(f, e.now, e.event).fwd
  }

  ghost predicate Sound(f: Fwd, n: nat) {
    FwdOk(f)
  }

  /** On every run: bounded, exactly counted queues, no queue for a down link, no leftover write permission. */
  lemma RunIsOk(fs: seq<Fwd>, events: seq<TimedForward>, me: NodeId, routes: map<NodeId, Route>, i: nat)
    requires Runs.Chain(fs, events, Reacts) && fs[0] == NewForwarder(me, routes) && i <= |events|
    ensures FwdOk(fs[i])
  {
    forall f, e, f', n: nat | Reacts(f, e, f') && Sound(f, n) && 0 < n ensures Sound(f', n - 1) {
      HandleOk(f, e.now, e.event);
    }
    Runs.ChainHolds(fs, events, Reacts, Sound, i);
    assert Sound(fs[i], |events| - i);
  }
}
