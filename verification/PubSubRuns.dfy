/** What publish/subscribe promises over whole runs. */
module PubSubRuns {
  import opened MeshTypes
  import opened Packets
  import opened PubSubModel

  datatype PubSubEvent =
    | LocalPublish(topic: TopicKey, payload: seq<byte>)
    | Inbound(source: NodeId, decoded: Result<Envelope, EnvelopeError>)
    | LocalSubscribe(sub: SubId, selector: Selector)
    | LocalUnsubscribe(sub: SubId)
    | DiscoveryUpdated(discovery: map<Selector, set<NodeId>>)

  datatype TimedEvent = TimedEvent(now: Time, event: PubSubEvent)

  function Handle(p: PubSub, e: TimedEvent, encode: Encoder): Reply {
    match e.event
    case LocalPublish(t, payload) => Publish(p, e.now, t, payload, encode)
    case Inbound(source, decoded) => Receive(p, source, decoded)
    case LocalSubscribe(sub, selector) => Reply(p.(subscriptions := p.subscriptions[sub := selector]), [])
    case LocalUnsubscribe(sub) => Reply(p.(subscriptions := p.subscriptions - {sub}), [])
    case DiscoveryUpdated(discovery) => Reply(p.(discovery := discovery), [])
  }

  // ------------------------------------------------------------ chunking

  function Flatten(chunks: seq<seq<NodeId>>): seq<NodeId> {
    if chunks == [] then [] else chunks[0] + Flatten(chunks[1..])
  }

  /** Every envelope that may be sent leaves room for at least one destination. */
  lemma ChunkLimitIsPositive(encodedLen: nat)
    requires encodedLen <= MAX_LIVE_ENVELOPE_LEN
    ensures 1 <= ChunkLimit(encodedLen) <= MAX_MULTICAST_DESTINATIONS
    ensures PrefixLen(ChunkLimit(encodedLen)) + encodedLen <= MAX_FORWARD_PAYLOAD_LEN
  {
  }

  lemma {:induction false} AscendingParts(ids: seq<NodeId>, n: nat)
    requires StrictlyAscending(ids) && n <= |ids|
    ensures StrictlyAscending(ids[..n]) && StrictlyAscending(ids[n..])
    decreases n
  {
    if n == 0 {
      assert ids[n..] == ids;
    } else {
      AscendingParts(ids[1..], n - 1);
      assert ids[..n][1..] == ids[1..][..n - 1];
      assert ids[1..][n - 1..] == ids[n..];
      forall x | x in ids[..n][1..] ensures ids[0] < x {
        assert x in ids[1..];
      }
      assert ids[..n][0] == ids[0];
    }
  }

  /** The chunks are the list, cut into canonical pieces of bounded size. */
  lemma {:induction false} ChunksPartition(ids: seq<NodeId>, limit: nat)
    requires StrictlyAscending(ids) && limit > 0
    ensures Flatten(Chunks(ids, limit)) == ids
    ensures forall c :: c in Chunks(ids, limit) ==> StrictlyAscending(c) && 1 <= |c| <= limit
    decreases |ids|
  {
    if ids != [] {
      AscendingParts(ids, Min(limit, |ids|));
      if |ids| > limit {
        ChunksPartition(ids[limit..], limit);
        assert Chunks(ids, limit)[1..] == Chunks(ids[limit..], limit);
        assert ids == ids[..limit] + ids[limit..];
      } else {
        assert [ids][1..] == [] && ids + [] == ids;
      }
    }
  }

  lemma {:induction false} MulticastsCarry(chunks: seq<seq<NodeId>>, stamp: Stamp, payload: seq<byte>)
    ensures forall a :: a in Multicasts(chunks, stamp, payload) ==> a.SendMulticast? && a.destinations in chunks && a.stamp == stamp && a.payload == payload
    ensures Targets(Multicasts(chunks, stamp, payload)) == Flatten(chunks)
  {
    if chunks != [] {
      MulticastsCarry(chunks[1..], stamp, payload);
      assert Multicasts(chunks, stamp, payload)[1..] == Multicasts(chunks[1..], stamp, payload);
    }
  }

  /** All destinations of a list of actions, in order. */
  function Targets(actions: seq<PubSubAction>): seq<NodeId> {
    if actions == [] then [] else (if actions[0].SendMulticast? then actions[0].destinations else []) + Targets(actions[1..])
  }

  lemma {:induction false} TargetsAdd(a: seq<PubSubAction>, b: seq<PubSubAction>)
    ensures Targets(a + b) == Targets(a) + Targets(b)
  {
    FirstOfSum(a, b);
    if a != [] {
      TargetsAdd(a[1..], b);
    }
  }

  /** The chunks of one publish address each target once, in lists the forwarder accepts as they are. */
  lemma DispatchReaches(stamp: Stamp, encoded: seq<byte>, targets: seq<NodeId>, t: TopicKey, n: U64)
    requires |encoded| <= MAX_LIVE_ENVELOPE_LEN && StrictlyAscending(targets)
    ensures ReachesAll(Dispatch(stamp, encoded, targets, t, n), targets)
  {
    ChunkLimitIsPositive(|encoded|);
    var chunks := Chunks(targets, ChunkLimit(|encoded|));
    var sends := Multicasts(chunks, stamp, encoded);
    ChunksPartition(targets, ChunkLimit(|encoded|));
    MulticastsCarry(chunks, stamp, encoded);
    TargetsAdd(sends, [Published(t, n)]);
    assert [Published(t, n)][1..] == [] && Targets([]) == [];
    forall a | a in sends ensures MulticastPayload(a.destinations, a.payload) == Ok(a.destinations) {
      CanonicalIsStable(a.destinations, a.payload);
    }
  }

  ghost predicate ReachesAll(actions: seq<PubSubAction>, targets: seq<NodeId>) {
    && Targets(actions) == targets
    && forall a :: a in actions && a.SendMulticast? ==> MulticastPayload(a.destinations, a.payload) == Ok(a.destinations)
  }

  /** A publish is rejected whole, or addresses every subscriber but this node exactly once, in chunks the forwarder accepts. */
  lemma PublishReachesAll(p: PubSub, now: Time, t: TopicKey, payload: seq<byte>, encode: Encoder)
    ensures var actions := Publish(p, now, t, payload, encode).actions;
            (|actions| == 1 && actions[0].Rejected?) || ReachesAll(actions, Ascending(Subscribers(p.discovery, t) - {p.me}))
  {
    if t.name in p.policies && LastNumber(p, t) < U64_MAX {
      var encoded := encode.bytes(Envelope(p.me, t, LastNumber(p, t) + 1, now, payload));
      if |encoded| <= MAX_LIVE_ENVELOPE_LEN {
        var targets := Ascending(Subscribers(p.discovery, t) - {p.me});
        AscendingFacts(Subscribers(p.discovery, t) - {p.me});
        DispatchReaches(StampOf(p.policies[t.name], p.me, t, encode), encoded, targets, t, LastNumber(p, t) + 1);
      }
    }
  }

  // ------------------------------------------------------------ numbering

  function NumbersIn(actions: seq<PubSubAction>, t: TopicKey): seq<nat> {
    if actions == [] then []
    else (if actions[0].Published? && actions[0].topic == t then [actions[0].number as nat] else []) + NumbersIn(actions[1..], t)
  }

  function NumbersOf(p: PubSub, events: seq<TimedEvent>, encode: Encoder, t: TopicKey): seq<nat>
    decreases |events|
  {
    if events == [] then []
    else
      var r := Handle(p, events[0], encode);
      NumbersIn(r.actions, t) + NumbersOf(r.state, events[1..], encode, t)
  }

  lemma {:induction false} NoNumbers(actions: seq<PubSubAction>, t: TopicKey)
    requires forall a :: a in actions ==> !a.Published?
    ensures NumbersIn(actions, t) == []
  {
    if actions != [] {
      NoNumbers(actions[1..], t);
    }
  }

  lemma {:induction false} NumbersAdd(a: seq<PubSubAction>, b: seq<PubSubAction>, t: TopicKey)
    ensures NumbersIn(a + b, t) == NumbersIn(a, t) + NumbersIn(b, t)
  {
    FirstOfSum(a, b);
    if a != [] {
      NumbersAdd(a[1..], b, t);
    }
  }

  lemma DispatchNumbers(stamp: Stamp, encoded: seq<byte>, targets: seq<NodeId>, u: TopicKey, n: U64, t: TopicKey)
    requires |encoded| <= MAX_LIVE_ENVELOPE_LEN
    ensures NumbersIn(Dispatch(stamp, encoded, targets, u, n), t) == if u == t then [n as nat] else []
  {
    ChunkLimitIsPositive(|encoded|);
    var chunks, last := Chunks(targets, ChunkLimit(|encoded|)), Published(u, n);
    MulticastsCarry(chunks, stamp, encoded);
    NoNumbers(Multicasts(chunks, stamp, encoded), t);
    NumbersAdd(Multicasts(chunks, stamp, encoded), [last], t);
    assert [last][1..] == [] && NumbersIn([], t) == [];
  }

  /** Either nothing is published on `t` and its counter stays, or exactly its next number is. */
  ghost predicate NextOrNone(p: PubSub, r: Reply, t: TopicKey) {
    || (NumbersIn(r.actions, t) == [] && LastNumber(r.state, t) == LastNumber(p, t))
    || (NumbersIn(r.actions, t) == [LastNumber(p, t) + 1] && LastNumber(r.state, t) == LastNumber(p, t) + 1)
  }

  lemma PublishNumbers(p: PubSub, now: Time, u: TopicKey, payload: seq<byte>, encode: Encoder, t: TopicKey)
    ensures NextOrNone(p, Publish(p, now, u, payload, encode), t)
  {
    var r := Publish(p, now, u, payload, encode);
    if u.name in p.policies && LastNumber(p, u) < U64_MAX {
      var encoded := encode.bytes(Envelope(p.me, u, LastNumber(p, u) + 1, now, payload));
      if |encoded| <= MAX_LIVE_ENVELOPE_LEN {
        DispatchNumbers(StampOf(p.policies[u.name], p.me, u, encode), encoded, Ascending(Subscribers(p.discovery, u) - {p.me}), u, LastNumber(p, u) + 1, t);
        return;
      }
    }
    NoNumbers(r.actions, t);
  }

  lemma StepNumbers(p: PubSub, e: TimedEvent, encode: Encoder, t: TopicKey)
    ensures NextOrNone(p, Handle(p, e, encode), t)
  {
    if e.event.LocalPublish? {
      PublishNumbers(p, e.now, e.event.topic, e.event.payload, encode, t);
    } else {
      NoNumbers(Handle(p, e, encode).actions, t);
    }
  }

  lemma NumbersStep(p: PubSub, events: seq<TimedEvent>, encode: Encoder, t: TopicKey)
    requires events != []
    ensures var r := Handle(p, events[0], encode);
            NumbersOf(p, events, encode, t) == NumbersIn(r.actions, t) + NumbersOf(r.state, events[1..], encode, t)
  {
  }

  /** On every run, the numbers published on a topic go up by one, whatever was rejected in between. */
  lemma {:induction false} NumbersAreGapFree(p: PubSub, events: seq<TimedEvent>, encode: Encoder, t: TopicKey, i: nat)
    requires i < |NumbersOf(p, events, encode, t)|
    ensures NumbersOf(p, events, encode, t)[i] == LastNumber(p, t) + 1 + i
    decreases |events|
  {
    var r := Handle(p, events[0], encode);
    var here, later := NumbersIn(r.actions, t), NumbersOf(r.state, events[1..], encode, t);
    StepNumbers(p, events[0], encode, t);
    NumbersStep(p, events, encode, t);
    if i >= |here| {
      NumbersAreGapFree(r.state, events[1..], encode, t, i - |here|);
      assert (here + later)[i] == later[i - |here|];
    }
  }

  // ------------------------------------------------------------ at most once

  datatype Delivery = Delivery(sub: SubId, channel: Channel, number: nat)

  /** The numbers each channel has let through. */
  type History = map<Channel, set<nat>>

  ghost predicate Tracked(received: map<Channel, Window>, h: History) {
    && (forall c :: c in received <==> c in h)
    && (forall c :: c in received ==> Tracks(received[c], h[c]))
  }

  ghost predicate Remembers(p: PubSub, h: History) {
    Tracked(p.received, h)
  }

  ghost predicate Known(h: History, d: Delivery) {
    d.channel in h && d.number in h[d.channel]
  }

  function LogOf(actions: seq<PubSubAction>): seq<Delivery> {
    if actions == [] then []
    else
      var a := actions[0];
      (if a.DeliverToApp? then [Delivery(a.sub, Channel(a.envelope.origin, a.envelope.topic), a.envelope.number)] else [])
      + LogOf(actions[1..])
  }

  function Log(p: PubSub, events: seq<TimedEvent>, encode: Encoder): seq<Delivery>
    decreases |events|
  {
    if events == [] then []
    else LogOf(Handle(p, events[0], encode).actions) + Log(Handle(p, events[0], encode).state, events[1..], encode)
  }

  ghost predicate Distinct(log: seq<Delivery>) {
    forall i, j :: 0 <= i < j < |log| ==> log[i] != log[j]
  }

  /** Offering a number to a channel: let through exactly if new and recent, and remembered from then on. */
  lemma OfferRemembers(p: PubSub, h: History, c: Channel, n: U64) returns (h': History)
    requires Remembers(p, h)
    ensures var r := Offer(p.received, c, n);
            && Remembers(p.(received := p.received[c := r.window]), h')
            && (r.accepted ==> (c !in h || n !in h[c]) && c in h' && n in h'[c])
    ensures forall d :: Known(h, d) ==> Known(h', d)
  {
    var r := Offer(p.received, c, n);
    if c in p.received {
      AcceptTracks(p.received[c], h[c], n);
      h' := if r.accepted then h[c := h[c] + {n}] else h;
    } else {
      FirstTracks(n);
      h' := h[c := {n}];
    }
  }

  lemma {:induction false} DeliveriesLog(subscriptions: map<SubId, Selector>, order: seq<SubId>, e: Envelope)
    requires (forall s :: s in order ==> s in subscriptions) && StrictlyAscending(order)
    ensures var log := LogOf(Deliveries(subscriptions, order, e));
            && Distinct(log)
            && forall d :: d in log ==> d.sub in order && d.channel == Channel(e.origin, e.topic) && d.number == e.number
  {
    if order != [] {
      DeliveriesLog(subscriptions, order[1..], e);
      var rest := Deliveries(subscriptions, order[1..], e);
      if Matches(subscriptions[order[0]], e.topic) {
        var first := DeliverToApp(order[0], e);
        assert ([first] + rest)[1..] == rest;
        var log := LogOf([first] + rest);
        assert log == [Delivery(order[0], Channel(e.origin, e.topic), e.number)] + LogOf(rest);
        forall i, j | 0 <= i < j < |log| ensures log[i] != log[j] {
          assert log[j] == LogOf(rest)[j - 1] && log[j] in LogOf(rest);
        }
      } else {
        assert [] + rest == rest;
      }
    }
  }

  lemma {:induction false} NothingLogged(actions: seq<PubSubAction>)
    requires forall a :: a in actions ==> !a.DeliverToApp?
    ensures LogOf(actions) == []
  {
    if actions != [] {
      NothingLogged(actions[1..]);
    }
  }

  /** What one event delivers is new to the history, distinct, and remembered afterwards. */
  lemma StepDelivers(p: PubSub, h: History, e: TimedEvent, encode: Encoder) returns (h': History)
    requires Remembers(p, h)
    ensures var r := Handle(p, e, encode);
            && Remembers(r.state, h') && Distinct(LogOf(r.actions))
            && forall d :: d in LogOf(r.actions) ==> !Known(h, d) && Known(h', d)
    ensures forall d :: Known(h, d) ==> Known(h', d)
  {
    h' := h;
    match e.event
    case LocalPublish(t, payload) => h' := PublishDelivers(p, h, e.now, t, payload, encode);
    case Inbound(source, decoded) =>
      if decoded.Ok? && decoded.value.origin == source && decoded.value.topic.name in p.policies {
        var v := decoded.value;
        h' := OfferRemembers(p, h, Channel(v.origin, v.topic), v.number);
        AscendingFacts(p.subscriptions.Keys);
        DeliveriesLog(p.subscriptions, Ascending(p.subscriptions.Keys), v);
      }
    case _ =>
  }

  lemma PublishDelivers(p: PubSub, h: History, now: Time, t: TopicKey, payload: seq<byte>, encode: Encoder) returns (h': History)
    requires Remembers(p, h)
    ensures var r := Publish(p, now, t, payload, encode); Remembers(r.state, h') && LogOf(r.actions) == []
    ensures forall d :: Known(h, d) ==> Known(h', d)
  {
    PublishLogsNothing(p, now, t, payload, encode);
    PublishIsNumbered(p, now, t, payload, encode);
    h' := NumberedRemembers(p, h, t, Publish(p, now, t, payload, encode).state);
  }

  lemma NumberedRemembers(p: PubSub, h: History, t: TopicKey, q: PubSub) returns (h': History)
    requires Remembers(p, h) && Numbered(p, t, q)
    ensures Remembers(q, h') && forall d :: Known(h, d) ==> Known(h', d)
  {
    if q.received == p.received {
      h' := h;
    } else {
      h' := OfferRemembers(p, h, Channel(p.me, t), LastNumber(p, t) + 1);
    }
  }

  lemma PublishLogsNothing(p: PubSub, now: Time, t: TopicKey, payload: seq<byte>, encode: Encoder)
    ensures LogOf(Publish(p, now, t, payload, encode).actions) == []
  {
    if t.name in p.policies && LastNumber(p, t) < U64_MAX {
      var encoded := encode.bytes(Envelope(p.me, t, LastNumber(p, t) + 1, now, payload));
      if |encoded| <= MAX_LIVE_ENVELOPE_LEN {
        DispatchLogsNothing(StampOf(p.policies[t.name], p.me, t, encode), encoded, Ascending(Subscribers(p.discovery, t) - {p.me}), t, LastNumber(p, t) + 1);
        return;
      }
    }
    NothingLogged(Publish(p, now, t, payload, encode).actions);
  }

  lemma DispatchLogsNothing(stamp: Stamp, encoded: seq<byte>, targets: seq<NodeId>, t: TopicKey, n: U64)
    requires |encoded| <= MAX_LIVE_ENVELOPE_LEN
    ensures LogOf(Dispatch(stamp, encoded, targets, t, n)) == []
  {
    ChunkLimitIsPositive(|encoded|);
    MulticastsCarry(Chunks(targets, ChunkLimit(|encoded|)), stamp, encoded);
    NothingLogged(Dispatch(stamp, encoded, targets, t, n));
  }

  /** On every run, no subscription is handed the same number of a channel twice. */
  lemma {:induction false} DeliveredAtMostOnce(p: PubSub, h: History, events: seq<TimedEvent>, encode: Encoder)
    requires Remembers(p, h)
    ensures Distinct(Log(p, events, encode))
    ensures forall d :: d in Log(p, events, encode) ==> !Known(h, d)
    decreases |events|
  {
    if events != [] {
      var r := Handle(p, events[0], encode);
      var h' := StepDelivers(p, h, events[0], encode);
      DeliveredAtMostOnce(r.state, h', events[1..], encode);
      var now, later := LogOf(r.actions), Log(r.state, events[1..], encode);
      DistinctJoin(now, later);
    }
  }

  lemma DistinctJoin(a: seq<Delivery>, b: seq<Delivery>)
    requires Distinct(a) && Distinct(b) && forall d :: d in a ==> d !in b
    ensures Distinct(a + b)
  {
    forall i, j | 0 <= i < j < |a + b| ensures (a + b)[i] != (a + b)[j] {
      if i < |a| <= j {
        assert a[i] in a && b[j - |a|] in b;
      }
    }
  }

  // ------------------------------------------------------------ the publisher's own window

  function AfterEvents(p: PubSub, events: seq<TimedEvent>, encode: Encoder): PubSub
    decreases |events|
  {
    if events == [] then p else AfterEvents(Handle(p, events[0], encode).state, events[1..], encode)
  }

  /** The number of an inbound envelope on topic `t` that names this node as its origin. */
  function Claimed(me: NodeId, policies: map<seq<byte>, Policy>, e: PubSubEvent, t: TopicKey): set<nat> {
    if e.Inbound? && e.decoded.Ok? && e.source == me && e.decoded.value.origin == me && e.decoded.value.topic == t && t.name in policies
    then {e.decoded.value.number as nat}
    else {}
  }

  /** All numbers on topic `t` that inbound envelopes claim for this node. */
  function AllClaimed(me: NodeId, policies: map<seq<byte>, Policy>, events: seq<TimedEvent>, t: TopicKey): set<nat>
    decreases |events|
  {
    if events == [] then {} else Claimed(me, policies, events[0].event, t) + AllClaimed(me, policies, events[1..], t)
  }

  /**
   * The own window on topic `t` when the numbers in `claimed` have come in from
   * outside: it has let through only those and own ones, and has seen them all.
   */
  ghost predicate OwnWindow(p: PubSub, t: TopicKey, claimed: set<nat>, accepted: set<nat>) {
    var c := Channel(p.me, t);
    if c !in p.received then LastNumber(p, t) == 0 && claimed == {}
    else Saw(p.received[c], LastNumber(p, t), claimed, accepted)
  }

  ghost predicate Saw(w: Window, last: nat, claimed: set<nat>, accepted: set<nat>) {
    && Tracks(w, accepted) && last <= w.highest
    && (forall n :: n in accepted ==> n <= last || n in claimed)
    && (forall n :: n in claimed ==> n <= w.highest && (n in accepted || n + WINDOW <= w.highest))
  }

  lemma OwnOffered(w: Window, last: U64, claimed: set<nat>, accepted: set<nat>) returns (accepted': set<nat>)
    requires Saw(w, last, claimed, accepted) && last < U64_MAX
    ensures Saw(Accept(w, last + 1).window, last + 1, claimed, accepted')
  {
    accepted' := OfferKeepsSeen(w, accepted, last + 1);
  }

  lemma ClaimedOffered(w: Window, last: U64, claimed: set<nat>, accepted: set<nat>, n: U64) returns (accepted': set<nat>)
    requires Saw(w, last, claimed, accepted)
    ensures Saw(Accept(w, n).window, last, claimed + {n}, accepted')
  {
    accepted' := OfferKeepsSeen(w, accepted, n);
  }

  lemma OfferKeepsSeen(w: Window, accepted: set<nat>, n: U64) returns (accepted': set<nat>)
    requires Tracks(w, accepted)
    ensures var r := Accept(w, n);
            && Tracks(r.window, accepted') && accepted <= accepted' <= accepted + {n} && w.highest <= r.window.highest && n <= r.window.highest
            && (n in accepted' || n + WINDOW <= r.window.highest)
  {
    AcceptTracks(w, accepted, n);
    accepted' := if Accept(w, n).accepted then accepted + {n} else accepted;
  }

  /** One event: publishing adds the next own number, an envelope naming this node adds its number, nothing else matters. */
  lemma StepOwn(p: PubSub, t: TopicKey, claimed: set<nat>, accepted: set<nat>, e: TimedEvent, encode: Encoder) returns (accepted': set<nat>)
    requires OwnWindow(p, t, claimed, accepted)
    ensures var q := Handle(p, e, encode).state;
            q.me == p.me && q.policies == p.policies && OwnWindow(q, t, claimed + Claimed(p.me, p.policies, e.event, t), accepted')
  {
    accepted' := accepted;
    match e.event
    case LocalPublish(u, payload) => accepted' := PublishOwn(p, t, claimed, accepted, e.now, u, payload, encode);
    case Inbound(source, decoded) => accepted' := ReceiveOwn(p, t, claimed, accepted, source, decoded);
    case _ =>
  }

  /** A publish on `u` either leaves numbers and windows alone or adds the next number of `u` to both. */
  ghost predicate Numbered(p: PubSub, u: TopicKey, q: PubSub) {
    && q.me == p.me && q.policies == p.policies
    && (|| (q.received == p.received && forall t :: LastNumber(q, t) == LastNumber(p, t))
        || (&& LastNumber(p, u) < U64_MAX
            && q.received == p.received[Channel(p.me, u) := Offer(p.received, Channel(p.me, u), LastNumber(p, u) + 1).window]
            && forall t :: LastNumber(q, t) == if t == u then LastNumber(p, u) + 1 else LastNumber(p, t)))
  }

  lemma PublishIsNumbered(p: PubSub, now: Time, u: TopicKey, payload: seq<byte>, encode: Encoder)
    ensures Numbered(p, u, Publish(p, now, u, payload, encode).state)
  {
  }

  lemma NumberedOwn(p: PubSub, t: TopicKey, claimed: set<nat>, accepted: set<nat>, q: PubSub) returns (accepted': set<nat>)
    requires OwnWindow(p, t, claimed, accepted) && Numbered(p, t, q)
    ensures OwnWindow(q, t, claimed, accepted')
  {
    accepted' := accepted;
    var c := Channel(p.me, t);
    if LastNumber(q, t) != LastNumber(p, t) {
      if c in p.received {
        accepted' := OwnOffered(p.received[c], LastNumber(p, t), claimed, accepted);
      } else {
        FirstTracks(LastNumber(p, t) + 1);
        accepted' := {LastNumber(p, t) + 1};
      }
    }
  }

  lemma PublishOwn(p: PubSub, t: TopicKey, claimed: set<nat>, accepted: set<nat>, now: Time, u: TopicKey, payload: seq<byte>, encode: Encoder)
    returns (accepted': set<nat>)
    requires OwnWindow(p, t, claimed, accepted)
    ensures var q := Publish(p, now, u, payload, encode).state;
            q.me == p.me && q.policies == p.policies && OwnWindow(q, t, claimed, accepted')
  {
    PublishIsNumbered(p, now, u, payload, encode);
    if u == t {
      accepted' := NumberedOwn(p, t, claimed, accepted, Publish(p, now, u, payload, encode).state);
    } else {
      accepted' := accepted;
    }
  }

  lemma ReceiveOwn(p: PubSub, t: TopicKey, claimed: set<nat>, accepted: set<nat>, source: NodeId, decoded: Result<Envelope, EnvelopeError>)
    returns (accepted': set<nat>)
    requires OwnWindow(p, t, claimed, accepted)
    ensures var q := Receive(p, source, decoded).state;
            && q.me == p.me && q.policies == p.policies
            && OwnWindow(q, t, claimed + Claimed(p.me, p.policies, Inbound(source, decoded), t), accepted')
  {
    accepted' := accepted;
    if Claimed(p.me, p.policies, Inbound(source, decoded), t) != {} {
      var c, n := Channel(p.me, t), decoded.value.number;
      if c in p.received {
        accepted' := ClaimedOffered(p.received[c], LastNumber(p, t), claimed, accepted, n);
      } else {
        FirstTracks(n);
        accepted' := {n};
      }
    }
  }

  lemma {:induction false} RunOwn(p: PubSub, t: TopicKey, claimed: set<nat>, accepted: set<nat>, events: seq<TimedEvent>, encode: Encoder)
    returns (accepted': set<nat>)
    requires OwnWindow(p, t, claimed, accepted)
    ensures var q := AfterEvents(p, events, encode);
            q.me == p.me && OwnWindow(q, t, claimed + AllClaimed(p.me, p.policies, events, t), accepted')
    decreases |events|
  {
    if events == [] {
      accepted' := accepted;
      assert claimed + {} == claimed;
    } else {
      var here := Claimed(p.me, p.policies, events[0].event, t);
      var mid := StepOwn(p, t, claimed, accepted, events[0], encode);
      accepted' := RunOwn(Handle(p, events[0], encode).state, t, claimed + here, mid, events[1..], encode);
      assert claimed + here + AllClaimed(p.me, p.policies, events[1..], t) == claimed + AllClaimed(p.me, p.policies, events, t);
    }
  }

  /**
   * After every run of a new core, the next own number passes the own window
   * exactly if no inbound envelope has claimed that number, or one 64 or more
   * ahead of it, for this node; in particular if none has named this node.
   */
  lemma OwnNumberPasses(me: NodeId, policies: map<seq<byte>, Policy>, events: seq<TimedEvent>, encode: Encoder, t: TopicKey)
    requires LastNumber(AfterEvents(NewCore(me, policies), events, encode), t) < U64_MAX
    ensures var p, claimed := AfterEvents(NewCore(me, policies), events, encode), AllClaimed(me, policies, events, t);
            var n := LastNumber(p, t) + 1;
            Offer(p.received, Channel(me, t), n).accepted <==> n !in claimed && forall m :: m in claimed ==> m < n + WINDOW
  {
    var accepted := RunOwn(NewCore(me, policies), t, {}, {}, events, encode);
    var p, claimed := AfterEvents(NewCore(me, policies), events, encode), AllClaimed(me, policies, events, t);
    assert {} + claimed == claimed;
    if Channel(me, t) in p.received {
      AcceptTracks(p.received[Channel(me, t)], accepted, LastNumber(p, t) + 1);
    }
  }

  /** It can fail on the first publish of a new core: an envelope that names this node as its source is let through first. */
  lemma OwnWindowCanBeAhead()
    ensures exists p: PubSub, t: TopicKey, e: Envelope ::
              && p == NewCore(p.me, p.policies) && e.origin == p.me && e.topic == t
              && !Offer(Receive(p, p.me, Ok(e)).state.received, Channel(p.me, t), LastNumber(p, t) + 1).accepted
  {
    var t := TopicKey([1], []);
    var p := NewCore(7, map[[1] := Policy(P1, true)]);
    var e := Envelope(7, t, 1, 0, []);
    assert p == NewCore(p.me, p.policies);
    assert Receive(p, 7, Ok(e)).state.received[Channel(7, t)] == FirstWindow(1);
    assert !Offer(Receive(p, p.me, Ok(e)).state.received, Channel(p.me, t), LastNumber(p, t) + 1).accepted;
  }
}
