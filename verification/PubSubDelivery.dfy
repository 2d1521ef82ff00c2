/**
 * Publish/subscribe refines a machine with sets in place of bitmaps: an envelope
 * goes to exactly the matching subscriptions of the moment, if its number is new
 * and recent, and a publish sends one envelope under the policy of its topic.
 */
module PubSubDelivery {
  import opened MeshTypes
  import opened Packets
  import opened PubSubModel
  import opened PubSubRuns

  // ------------------------------------------------------------ the simple machine

  /** Current subscriptions, known remote ones, numbers let through per channel, and numbers published per topic. */
  datatype Ledger = Ledger(subs: map<SubId, Selector>, remote: map<Selector, set<NodeId>>, seen: History, last: map<TopicKey, U64>)

  /** The number is new on its channel, and none let through is 64 or more ahead of it. */
  ghost predicate Recent(seen: History, c: Channel, n: nat) {
    c in seen ==> n !in seen[c] && forall m :: m in seen[c] ==> m < n + 64
  }

  ghost function Noted(seen: History, c: Channel, n: nat): History {
    if Recent(seen, c, n) then seen[c := (if c in seen then seen[c] else {}) + {n}] else seen
  }

  function Last(numbers: map<TopicKey, U64>, t: TopicKey): U64 {
    if t in numbers then numbers[t] else 0
  }

  function LastOf(l: Ledger, t: TopicKey): U64 {
    Last(l.last, t)
  }

  ghost predicate SameLast(a: map<TopicKey, U64>, b: map<TopicKey, U64>) {
    forall t :: Last(a, t) == Last(b, t)
  }

  /** The envelope that a publish sends. */
  function NextEnvelope(me: NodeId, l: Ledger, now: Time, t: TopicKey, payload: seq<byte>): Envelope
    requires LastOf(l, t) < U64_MAX
  {
    Envelope(me, t, LastOf(l, t) + 1, now, payload)
  }

  /** A topic with a policy and numbers left, and an envelope that is not too large. */
  predicate CanPublish(me: NodeId, policies: map<seq<byte>, Policy>, l: Ledger, now: Time, t: TopicKey, payload: seq<byte>, encode: Encoder) {
    && t.name in policies && LastOf(l, t) < U64_MAX
    && |encode.bytes(NextEnvelope(me, l, now, t, payload))| <= MAX_LIVE_ENVELOPE_LEN
  }

  /** A well-formed envelope from its own origin, on a topic with a policy. */
  predicate IsProper(policies: map<seq<byte>, Policy>, event: PubSubEvent) {
    event.Inbound? && event.decoded.Ok? && event.decoded.value.origin == event.source && event.decoded.value.topic.name in policies
  }

  /** The ledger after a publish that is accepted or not. */
  ghost function Posted(me: NodeId, l: Ledger, t: TopicKey, accepted: bool): Ledger
    requires accepted ==> LastOf(l, t) < U64_MAX
  {
    if accepted
    then l.(seen := Noted(l.seen, Channel(me, t), LastOf(l, t) + 1), last := l.last[t := LastOf(l, t) + 1])
    else l
  }

  ghost function LedgerNext(me: NodeId, policies: map<seq<byte>, Policy>, l: Ledger, e: TimedEvent, encode: Encoder): Ledger {
    match e.event
    case LocalPublish(t, payload) =>
      Posted(me, l, t, CanPublish(me, policies, l, e.now, t, payload, encode))
    case Inbound(_, decoded) =>
      if IsProper(policies, e.event)
      then l.(seen := Noted(l.seen, Channel(decoded.value.origin, decoded.value.topic), decoded.value.number))
      else l
    case LocalSubscribe(sub, selector) => l.(subs := l.subs[sub := selector])
    case LocalUnsubscribe(sub) => l.(subs := l.subs - {sub})
    case DiscoveryUpdated(discovery) => l.(remote := discovery)
  }

  /** The event brings `envelope` to subscription `s`. */
  ghost predicate Brings(policies: map<seq<byte>, Policy>, l: Ledger, event: PubSubEvent, s: SubId, envelope: Envelope) {
    && IsProper(policies, event) && event.decoded.value == envelope
    && Recent(l.seen, Channel(envelope.origin, envelope.topic), envelope.number)
    && s in l.subs && Selects(l.subs[s], envelope.topic)
  }

  /** The selector names the topic, and no partition or that of the topic. */
  predicate Selects(s: Selector, t: TopicKey) {
    s.name == t.name && (s.partition == None || s.partition == Some(t.partition))
  }

  // ------------------------------------------------------------ refinement

  ghost predicate Refines(p: PubSub, l: Ledger) {
    p.subscriptions == l.subs && p.discovery == l.remote && Remembers(p, l.seen) && SameLast(p.sequences, l.last)
  }

  /** A channel lets a number through exactly if it is recent. */
  lemma OfferExactly(p: PubSub, h: History, c: Channel, n: U64)
    requires Remembers(p, h)
    ensures var r := Offer(p.received, c, n);
            (r.accepted <==> Recent(h, c, n)) && Remembers(p.(received := p.received[c := r.window]), Noted(h, c, n))
  {
    if c in p.received {
      AcceptTracks(p.received[c], h[c], n);
    } else {
      FirstTracks(n);
      assert {} + {n as nat} == {n as nat};
    }
  }

  /** Exactly the matching subscriptions get the envelope. */
  lemma ReceiveDelivers(p: PubSub, l: Ledger, source: NodeId, decoded: Result<Envelope, EnvelopeError>)
    requires Refines(p, l)
    ensures var r, event := Receive(p, source, decoded), Inbound(source, decoded);
            forall s, envelope :: DeliverToApp(s, envelope) in r.actions <==> Brings(p.policies, l, event, s, envelope)
  {
    if IsProper(p.policies, Inbound(source, decoded)) {
      var e := decoded.value;
      OfferExactly(p, l.seen, Channel(e.origin, e.topic), e.number);
    }
  }

  /** An envelope that is not brought to anyone is accounted for: rejected with its reason, or dropped as old. */
  lemma ReceiveExplains(p: PubSub, l: Ledger, source: NodeId, decoded: Result<Envelope, EnvelopeError>)
    requires Refines(p, l)
    ensures var actions := Receive(p, source, decoded).actions;
            if decoded.Err? then actions == [Rejected(InvalidEnvelope(decoded.error))]
            else
              var e := decoded.value;
              if e.origin != source then actions == [Rejected(SourceMismatch(source, e.origin))]
              else if e.topic.name !in p.policies then actions == [Rejected(UnknownTopic(e.topic.name))]
              else if !Recent(l.seen, Channel(e.origin, e.topic), e.number) then actions == [Dropped(Channel(e.origin, e.topic), e.number)]
              else forall a :: a in actions ==> a.DeliverToApp?
  {
    if IsProper(p.policies, Inbound(source, decoded)) {
      var e := decoded.value;
      OfferExactly(p, l.seen, Channel(e.origin, e.topic), e.number);
    }
  }

  /** The core ends in `q` where the ledger takes its next step. */
  ghost predicate StepRefines(p: PubSub, l: Ledger, e: TimedEvent, encode: Encoder, q: PubSub) {
    q.me == p.me && q.policies == p.policies && Refines(q, LedgerNext(p.me, p.policies, l, e, encode))
  }

  /** A publish moves the own counter and window, or at most touches the counter. */
  ghost predicate PublishMoves(p: PubSub, t: TopicKey, n: U64, accepted: bool, q: PubSub) {
    if accepted then
      && n < U64_MAX
      && var c := Channel(p.me, t);
         q == p.(sequences := p.sequences[t := n + 1], received := p.received[c := Offer(p.received, c, n + 1).window])
    else q == p || q == p.(sequences := p.sequences[t := n])
  }

  lemma PublishState(p: PubSub, l: Ledger, now: Time, t: TopicKey, payload: seq<byte>, encode: Encoder)
    requires Last(p.sequences, t) == LastOf(l, t)
    ensures PublishMoves(p, t, LastOf(l, t), CanPublish(p.me, p.policies, l, now, t, payload, encode), Publish(p, now, t, payload, encode).state)
  {
  }

  lemma MovedRefines(p: PubSub, l: Ledger, t: TopicKey, n: U64, accepted: bool, q: PubSub)
    requires Refines(p, l) && n == Last(p.sequences, t) == LastOf(l, t) && PublishMoves(p, t, n, accepted, q)
    ensures q.me == p.me && q.policies == p.policies && Refines(q, Posted(p.me, l, t, accepted))
  {
    if accepted {
      PublishedRefines(p, l, t, n);
    } else {
      TouchedRefines(p, l, t, n);
    }
  }

  lemma MovedStep(p: PubSub, l: Ledger, now: Time, t: TopicKey, payload: seq<byte>, encode: Encoder, q: PubSub)
    requires Refines(p, l) && PublishMoves(p, t, LastOf(l, t), CanPublish(p.me, p.policies, l, now, t, payload, encode), q)
    ensures StepRefines(p, l, TimedEvent(now, LocalPublish(t, payload)), encode, q)
  {
    assert Last(p.sequences, t) == LastOf(l, t);
    MovedRefines(p, l, t, LastOf(l, t), CanPublish(p.me, p.policies, l, now, t, payload, encode), q);
  }

  lemma PublishRefines(p: PubSub, l: Ledger, now: Time, t: TopicKey, payload: seq<byte>, encode: Encoder)
    requires Refines(p, l)
    ensures StepRefines(p, l, TimedEvent(now, LocalPublish(t, payload)), encode, Publish(p, now, t, payload, encode).state)
  {
    assert Last(p.sequences, t) == LastOf(l, t);
    PublishState(p, l, now, t, payload, encode);
    MovedStep(p, l, now, t, payload, encode, Publish(p, now, t, payload, encode).state);
  }

  lemma TouchedRefines(p: PubSub, l: Ledger, t: TopicKey, n: U64)
    requires Refines(p, l) && n == Last(p.sequences, t)
    ensures Refines(p.(sequences := p.sequences[t := n]), l)
  {
    assert Last(l.last, t) == n;
    var a := p.sequences[t := n];
    forall u ensures Last(a, u) == Last(l.last, u) {
      assert Last(p.sequences, u) == Last(l.last, u);
    }
  }

  lemma PublishedRefines(p: PubSub, l: Ledger, t: TopicKey, n: U64)
    requires Refines(p, l) && n == Last(p.sequences, t) < U64_MAX
    ensures var c := Channel(p.me, t);
            Refines(p.(sequences := p.sequences[t := n + 1], received := p.received[c := Offer(p.received, c, n + 1).window]),
                    l.(seen := Noted(l.seen, c, n + 1), last := l.last[t := n + 1]))
  {
    OfferExactly(p, l.seen, Channel(p.me, t), n + 1);
    var a, b := p.sequences[t := n + 1], l.last[t := n + 1];
    forall u ensures Last(a, u) == Last(b, u) {
      assert Last(p.sequences, u) == Last(l.last, u);
    }
  }

  lemma ReceiveRefines(p: PubSub, l: Ledger, now: Time, source: NodeId, decoded: Result<Envelope, EnvelopeError>, encode: Encoder)
    requires Refines(p, l)
    ensures StepRefines(p, l, TimedEvent(now, Inbound(source, decoded)), encode, Receive(p, source, decoded).state)
  {
    if IsProper(p.policies, Inbound(source, decoded)) {
      var e := decoded.value;
      OfferExactly(p, l.seen, Channel(e.origin, e.topic), e.number);
    }
  }

  lemma SubscribeRefines(p: PubSub, l: Ledger, subs: map<SubId, Selector>, discovery: map<Selector, set<NodeId>>)
    requires Refines(p, l)
    ensures Refines(p.(subscriptions := subs, discovery := discovery), l.(subs := subs, remote := discovery))
  {
  }

  /** Every event does to the core what it does to the ledger. */
  lemma HandleRefines(p: PubSub, l: Ledger, e: TimedEvent, encode: Encoder)
    requires Refines(p, l)
    ensures StepRefines(p, l, e, encode, Handle(p, e, encode).state)
  {
    match e.event
    case LocalPublish(t, payload) => PublishRefines(p, l, e.now, t, payload, encode);
    case Inbound(source, decoded) => ReceiveRefines(p, l, e.now, source, decoded, encode);
    case LocalSubscribe(sub, selector) => SubscribeRefines(p, l, p.subscriptions[sub := selector], p.discovery);
    case LocalUnsubscribe(sub) => SubscribeRefines(p, l, p.subscriptions - {sub}, p.discovery);
    case DiscoveryUpdated(discovery) => SubscribeRefines(p, l, p.subscriptions, discovery);
  }

  lemma HandleDelivers(p: PubSub, l: Ledger, e: TimedEvent, encode: Encoder)
    requires Refines(p, l)
    ensures forall s, envelope :: DeliverToApp(s, envelope) in Handle(p, e, encode).actions <==> Brings(p.policies, l, e.event, s, envelope)
  {
    match e.event
    case LocalPublish(t, payload) => PublishSendsOnly(p, e.now, t, payload, encode);
    case Inbound(source, decoded) => ReceiveDelivers(p, l, source, decoded);
    case _ =>
  }

  lemma PublishSendsOnly(p: PubSub, now: Time, t: TopicKey, payload: seq<byte>, encode: Encoder)
    ensures forall a :: a in Publish(p, now, t, payload, encode).actions ==> !a.DeliverToApp?
  {
    if t.name in p.policies && LastNumber(p, t) < U64_MAX {
      var encoded := encode.bytes(Envelope(p.me, t, LastNumber(p, t) + 1, now, payload));
      if |encoded| <= MAX_LIVE_ENVELOPE_LEN {
        ChunkLimitIsPositive(|encoded|);
        MulticastsCarry(Chunks(Ascending(Subscribers(p.discovery, t) - {p.me}), ChunkLimit(|encoded|)), StampOf(p.policies[t.name], p.me, t, encode), encoded);
      }
    }
  }

  // ------------------------------------------------------------ whole runs

  /** The ledger before event `j`. */
  ghost function LedgerAt(me: NodeId, policies: map<seq<byte>, Policy>, events: seq<TimedEvent>, encode: Encoder, l: Ledger, j: nat): Ledger
    requires j <= |events|
    decreases j
  {
    if j == 0 then l else LedgerNext(me, policies, LedgerAt(me, policies, events, encode, l, j - 1), events[j - 1], encode)
  }

  /** Event `j` of the run brings this delivery. */
  ghost predicate BringsAt(me: NodeId, policies: map<seq<byte>, Policy>, events: seq<TimedEvent>, encode: Encoder, l: Ledger, j: nat, d: Delivery) {
    && j < |events| && IsProper(policies, events[j].event)
    && var e := events[j].event.decoded.value;
       && Brings(policies, LedgerAt(me, policies, events, encode, l, j), events[j].event, d.sub, e)
       && d == Delivery(d.sub, Channel(e.origin, e.topic), e.number)
  }

  lemma {:induction false} LogMembers(actions: seq<PubSubAction>, d: Delivery)
    ensures d in LogOf(actions) <==>
            exists e :: DeliverToApp(d.sub, e) in actions && d == Delivery(d.sub, Channel(e.origin, e.topic), e.number)
  {
    if actions != [] {
      LogMembers(actions[1..], d);
      assert forall a :: a in actions <==> a == actions[0] || a in actions[1..];
    }
  }

  lemma {:induction false} LedgerShift(me: NodeId, policies: map<seq<byte>, Policy>, events: seq<TimedEvent>, encode: Encoder, l: Ledger, j: nat)
    requires 0 < j <= |events|
    ensures LedgerAt(me, policies, events, encode, l, j)
         == LedgerAt(me, policies, events[1..], encode, LedgerNext(me, policies, l, events[0], encode), j - 1)
    decreases j
  {
    if j > 1 {
      LedgerShift(me, policies, events, encode, l, j - 1);
      assert events[1..][j - 2] == events[j - 1];
    } else {
      assert LedgerAt(me, policies, events, encode, l, 0) == l;
    }
  }

  lemma BringsShift(me: NodeId, policies: map<seq<byte>, Policy>, events: seq<TimedEvent>, encode: Encoder, l: Ledger, j: nat, d: Delivery)
    requires 0 < j <= |events|
    ensures BringsAt(me, policies, events, encode, l, j, d)
       <==> BringsAt(me, policies, events[1..], encode, LedgerNext(me, policies, l, events[0], encode), j - 1, d)
  {
    LedgerShift(me, policies, events, encode, l, j);
  }

  lemma FirstDelivers(p: PubSub, l: Ledger, events: seq<TimedEvent>, encode: Encoder, d: Delivery)
    requires Refines(p, l) && events != []
    ensures d in LogOf(Handle(p, events[0], encode).actions) <==> BringsAt(p.me, p.policies, events, encode, l, 0, d)
  {
    LogMembers(Handle(p, events[0], encode).actions, d);
    HandleDelivers(p, l, events[0], encode);
  }

  lemma {:induction false} LogIsBrought(p: PubSub, l: Ledger, events: seq<TimedEvent>, encode: Encoder, d: Delivery)
    requires Refines(p, l)
    ensures d in Log(p, events, encode) <==> exists j :: BringsAt(p.me, p.policies, events, encode, l, j, d)
    decreases |events|
  {
    if events != [] {
      var q, m := Handle(p, events[0], encode).state, LedgerNext(p.me, p.policies, l, events[0], encode);
      HandleRefines(p, l, events[0], encode);
      FirstDelivers(p, l, events, encode, d);
      LogIsBrought(q, m, events[1..], encode, d);
      if j: nat :| BringsAt(p.me, p.policies, events, encode, l, j, d) {
        if j > 0 {
          BringsShift(p.me, p.policies, events, encode, l, j, d);
        }
      }
      if j: nat :| BringsAt(p.me, p.policies, events[1..], encode, m, j, d) {
        BringsShift(p.me, p.policies, events, encode, l, j + 1, d);
      }
    }
  }

  /**
   * On every run of a new core, a subscription is handed a number of a channel
   * exactly once if some event brings it, and otherwise not at all.
   */
  lemma DeliveredExactlyOnce(me: NodeId, policies: map<seq<byte>, Policy>, events: seq<TimedEvent>, encode: Encoder, d: Delivery)
    ensures var log := Log(NewCore(me, policies), events, encode);
            && Distinct(log)
            && (d in log <==> exists j :: BringsAt(me, policies, events, encode, Ledger(map[], map[], map[], map[]), j, d))
  {
    DeliveredAtMostOnce(NewCore(me, policies), map[], events, encode);
    LogIsBrought(NewCore(me, policies), Ledger(map[], map[], map[], map[]), events, encode, d);
  }

  // ------------------------------------------------------------ what a publish sends

  /** Some packet is for node `n`. */
  ghost predicate Addresses(actions: seq<PubSubAction>, n: NodeId) {
    exists a :: a in actions && a.SendMulticast? && n in a.destinations
  }

  lemma {:induction false} TargetsAreAddressed(actions: seq<PubSubAction>, n: NodeId)
    ensures n in Targets(actions) <==> Addresses(actions, n)
  {
    if actions != [] {
      TargetsAreAddressed(actions[1..], n);
      assert forall a :: a in actions <==> a == actions[0] || a in actions[1..];
    }
  }

  lemma PublishAddresses(p: PubSub, l: Ledger, now: Time, t: TopicKey, payload: seq<byte>, encode: Encoder, n: NodeId)
    requires Refines(p, l) && CanPublish(p.me, p.policies, l, now, t, payload, encode)
    ensures Addresses(Publish(p, now, t, payload, encode).actions, n) <==> n != p.me && exists s :: s in l.remote && Selects(s, t) && n in l.remote[s]
  {
    var actions := Publish(p, now, t, payload, encode).actions;
    assert LastNumber(p, t) == Last(p.sequences, t) == LastOf(l, t);
    PublishReachesAll(p, now, t, payload, encode);
    TargetsAreAddressed(actions, n);
    assert actions[|actions| - 1] == Published(t, LastOf(l, t) + 1);
    assert forall s :: Matches(s, t) <==> Selects(s, t);
  }

  /**
   * A publish is rejected for exactly one of three reasons; otherwise every packet
   * carries the encoding of the next envelope, under the policy of the topic, the
   * packets address exactly the other nodes known to subscribe to it, and the
   * number is acknowledged last.
   */
  lemma PublishCarries(p: PubSub, l: Ledger, now: Time, t: TopicKey, payload: seq<byte>, encode: Encoder)
    requires Refines(p, l)
    ensures var actions := Publish(p, now, t, payload, encode).actions;
            if t.name !in p.policies then actions == [Rejected(UnknownTopic(t.name))]
            else if LastOf(l, t) == U64_MAX then actions == [Rejected(SequenceExhausted(t))]
            else
              var encoded, policy := encode.bytes(NextEnvelope(p.me, l, now, t, payload)), p.policies[t.name];
              if |encoded| > MAX_LIVE_ENVELOPE_LEN then actions == [Rejected(EnvelopeTooLarge(|encoded|, MAX_LIVE_ENVELOPE_LEN))]
              else
                && actions != [] && actions[|actions| - 1] == Published(t, LastOf(l, t) + 1)
                && (forall n :: Addresses(actions, n) <==> n != p.me && exists s :: s in l.remote && Selects(s, t) && n in l.remote[s])
                && forall a :: a in actions[..|actions| - 1] ==>
                     && a.SendMulticast? && a.payload == encoded
                     && a.stamp.priority == policy.priority && (a.stamp.conflatable <==> policy.latest && policy.priority == P1)
                     && a.stamp.flowId == encode.flowId(t) && a.stamp.conflateKey == encode.conflateKey(p.me, t.partition)
  {
    assert LastNumber(p, t) == Last(p.sequences, t) == LastOf(l, t);
    if CanPublish(p.me, p.policies, l, now, t, payload, encode) {
      var encoded, stamp := encode.bytes(NextEnvelope(p.me, l, now, t, payload)), StampOf(p.policies[t.name], p.me, t, encode);
      ChunkLimitIsPositive(|encoded|);
      var chunks := Chunks(Ascending(Subscribers(p.discovery, t) - {p.me}), ChunkLimit(|encoded|));
      var sends := Multicasts(chunks, stamp, encoded);
      MulticastsCarry(chunks, stamp, encoded);
      forall n ensures Addresses(Publish(p, now, t, payload, encode).actions, n)
                       <==> n != p.me && exists s :: s in l.remote && Selects(s, t) && n in l.remote[s] {
        PublishAddresses(p, l, now, t, payload, encode, n);
      }
      assert (sends + [Published(t, LastOf(l, t) + 1)])[..|sends|] == sends;
    }
  }
}
