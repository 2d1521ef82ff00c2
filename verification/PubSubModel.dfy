/** Live publish/subscribe: sequence numbers, duplicate suppression and chunked multicast. */
module PubSubModel {
  import opened MeshTypes
  import opened Packets

  const MAX_LIVE_ENVELOPE_LEN: nat := MAX_FORWARD_PAYLOAD_LEN - MULTICAST_COUNT_LEN - NODE_ID_LEN
  const WINDOW: nat := 64

  // ------------------------------------------------------------ the receive window

  function Zeros(n: nat): (r: seq<bool>)
    ensures |r| == n && forall i :: 0 <= i < n ==> !r[i]
  {
    if n == 0 then [] else Zeros(n - 1) + [false]
  }

  /** A 64-bit word as its bits, least significant first. */
  type Word = b: seq<bool> | |b| == 64 witness Zeros(64)

  function ShiftLeft(b: Word, n: nat): Word
    requires n <= 64
  {
    Zeros(n) + b[..64 - n]
  }

  function SetBit(b: Word, k: nat): Word
    requires k < 64
  {
    b[k := true]
  }

  function One(): Word {
    SetBit(Zeros(64), 0)
  }

  datatype Window = Window(highest: U64, bitmap: Word)

  function FirstWindow(n: U64): Window {
    Window(n, One())
  }

  datatype Acceptance = Acceptance(window: Window, accepted: bool)

  function Accept(w: Window, n: U64): Acceptance {
    if n > w.highest then
      var shift := n - w.highest;
      Acceptance(Window(n, if shift >= WINDOW then One() else SetBit(ShiftLeft(w.bitmap, shift), 0)), true)
    else if w.highest - n >= WINDOW then Acceptance(w, false)
    else if w.bitmap[w.highest - n] then Acceptance(w, false)
    else Acceptance(w.(bitmap := SetBit(w.bitmap, w.highest - n)), true)
  }

  /** The window is the set of numbers accepted so far, cut off below the newest 64. */
  ghost predicate Tracks(w: Window, accepted: set<nat>) {
    && w.highest in accepted
    && (forall n :: n in accepted ==> n <= w.highest)
    && (forall k :: 0 <= k < 64 ==> (w.bitmap[k] <==> k <= w.highest && w.highest - k in accepted))
  }

  lemma FirstTracks(n: U64)
    ensures Tracks(FirstWindow(n), {n})
  {
  }

  /** A number is accepted exactly if it is new and not 64 or more behind; accepting it adds it to the set. */
  lemma AcceptTracks(w: Window, accepted: set<nat>, n: U64)
    requires Tracks(w, accepted)
    ensures var r := Accept(w, n);
            && (r.accepted <==> n !in accepted && n + WINDOW > w.highest)
            && (r.accepted ==> Tracks(r.window, accepted + {n}))
            && (!r.accepted ==> r.window == w)
  {
    var r := Accept(w, n);
    if n > w.highest {
      var shift := n - w.highest;
      forall k | 0 <= k < 64 ensures r.window.bitmap[k] <==> k <= n && n - k in accepted + {n} {
        if shift < WINDOW && k >= shift {
          assert w.bitmap[k - shift] <==> k - shift <= w.highest && w.highest - (k - shift) in accepted;
        }
      }
    } else if w.highest - n < WINDOW {
      assert w.bitmap[w.highest - n] <==> n in accepted;
    }
  }

  // ------------------------------------------------------------ topics

  datatype TopicKey = TopicKey(name: seq<byte>, partition: seq<byte>)

  datatype Selector = Selector(name: seq<byte>, partition: Option<seq<byte>>)

  predicate Matches(s: Selector, t: TopicKey) {
    s.name == t.name && (s.partition.None? || s.partition.value == t.partition)
  }

  type SubId = Id

  datatype Policy = Policy(priority: Priority, latest: bool)

  datatype Envelope = Envelope(origin: NodeId, topic: TopicKey, number: U64, time: Time, payload: seq<byte>)

  datatype Channel = Channel(origin: NodeId, topic: TopicKey)

  datatype EnvelopeError = NotPubSub | Protobuf | InvalidOriginLength(length: nat) | InvalidSequence | InvalidTopic

  datatype Reject =
    | UnknownTopic(name: seq<byte>)
    | SequenceExhausted(topic: TopicKey)
    | EnvelopeTooLarge(encodedLen: nat, max: nat)
    | InvalidEnvelope(error: EnvelopeError)
    | SourceMismatch(header: NodeId, envelope: NodeId)

  /** What all multicasts of one publish carry in their headers. */
  datatype Stamp = Stamp(priority: Priority, conflatable: bool, flowId: U64, conflateKey: U64)

  datatype PubSubAction =
    | SendMulticast(destinations: seq<NodeId>, stamp: Stamp, payload: seq<byte>)
    | DeliverToApp(sub: SubId, envelope: Envelope)
    | Published(topic: TopicKey, number: U64)
    | Rejected(reason: Reject)
    | Dropped(channel: Channel, number: U64)

  datatype PubSub = PubSub(
    me: NodeId, policies: map<seq<byte>, Policy>, subscriptions: map<SubId, Selector>,
    discovery: map<Selector, set<NodeId>>, sequences: map<TopicKey, U64>, received: map<Channel, Window>)

  datatype Reply = Reply(state: PubSub, actions: seq<PubSubAction>)

  /** Serialization belongs to a library, and hashing has no promise but to be a function: any functions will do. */
  datatype Encoder = Encoder(bytes: Envelope -> seq<byte>, flowId: TopicKey -> U64, conflateKey: (NodeId, seq<byte>) -> U64)

  /** A core that has just started. */
  function NewCore(me: NodeId, policies: map<seq<byte>, Policy>): PubSub {
    PubSub(me, policies, map[], map[], map[], map[])
  }

  // ------------------------------------------------------------ publishing

  function Subscribers(discovery: map<Selector, set<NodeId>>, t: TopicKey): (r: set<NodeId>)
    ensures forall n :: n in r <==> exists s :: s in discovery && Matches(s, t) && n in discovery[s]
  {
    set s, n | s in discovery && Matches(s, t) && n in discovery[s] :: n
  }

  function ChunkLimit(encodedLen: nat): nat
    requires encodedLen + MULTICAST_COUNT_LEN <= MAX_FORWARD_PAYLOAD_LEN
  {
    Min(MAX_MULTICAST_DESTINATIONS, (MAX_FORWARD_PAYLOAD_LEN - encodedLen - MULTICAST_COUNT_LEN) / NODE_ID_LEN)
  }

  /** `chunks` of the standard library. */
  function Chunks(ids: seq<NodeId>, limit: nat): (r: seq<seq<NodeId>>)
    requires limit > 0
    decreases |ids|
  {
    if ids == [] then [] else if |ids| <= limit then [ids] else [ids[..limit]] + Chunks(ids[limit..], limit)
  }

  function StampOf(policy: Policy, me: NodeId, t: TopicKey, encode: Encoder): Stamp {
    Stamp(policy.priority, policy.latest && policy.priority.P1?, encode.flowId(t), encode.conflateKey(me, t.partition))
  }

  function Multicasts(chunks: seq<seq<NodeId>>, stamp: Stamp, payload: seq<byte>): seq<PubSubAction> {
    if chunks == [] then [] else [SendMulticast(chunks[0], stamp, payload)] + Multicasts(chunks[1..], stamp, payload)
  }

  function LastNumber(p: PubSub, t: TopicKey): U64 {
    if t in p.sequences then p.sequences[t] else 0
  }

  /** The window of a channel after `n` is offered to it. */
  function Offer(received: map<Channel, Window>, c: Channel, n: U64): Acceptance {
    if c in received then Accept(received[c], n) else Acceptance(FirstWindow(n), true)
  }

  /** The touched entry of an unpublished topic starts at zero. */
  function Publish(p: PubSub, now: Time, t: TopicKey, payload: seq<byte>, encode: Encoder): Reply {
    if t.name !in p.policies then Reply(p, [Rejected(UnknownTopic(t.name))])
    else
      var last := LastNumber(p, t);
      var touched := p.(sequences := p.sequences[t := last]);
      if last == U64_MAX then Reply(touched, [Rejected(SequenceExhausted(t))])
      else
        var policy, envelope := p.policies[t.name], Envelope(p.me, t, last + 1, now, payload);
        var encoded := encode.bytes(envelope);
        if |encoded| > MAX_LIVE_ENVELOPE_LEN then Reply(touched, [Rejected(EnvelopeTooLarge(|encoded|, MAX_LIVE_ENVELOPE_LEN))])
        else
          var c := Channel(p.me, t);
          Reply(p.(sequences := p.sequences[t := last + 1], received := p.received[c := Offer(p.received, c, last + 1).window]),
                Dispatch(StampOf(policy, p.me, t, encode), encoded, Ascending(Subscribers(p.discovery, t) - {p.me}), t, last + 1))
  }

  /** The multicasts of one publish, and its acknowledgement. */
  function Dispatch(stamp: Stamp, encoded: seq<byte>, targets: seq<NodeId>, t: TopicKey, n: U64): seq<PubSubAction>
    requires |encoded| <= MAX_LIVE_ENVELOPE_LEN
  {
    Multicasts(Chunks(targets, ChunkLimit(|encoded|)), stamp, encoded) + [Published(t, n)]
  }

  // ------------------------------------------------------------ receiving

  function Deliveries(subscriptions: map<SubId, Selector>, order: seq<SubId>, e: Envelope): (r: seq<PubSubAction>)
    requires forall s :: s in order ==> s in subscriptions
    ensures forall a :: a in r <==> a.DeliverToApp? && a.sub in order && Matches(subscriptions[a.sub], e.topic) && a.envelope == e
  {
    if order == [] then []
    else (if Matches(subscriptions[order[0]], e.topic) then [DeliverToApp(order[0], e)] else []) + Deliveries(subscriptions, order[1..], e)
  }

  function Receive(p: PubSub, source: NodeId, decoded: Result<Envelope, EnvelopeError>): Reply {
    if decoded.Err? then Reply(p, [Rejected(InvalidEnvelope(decoded.error))])
    else
      var e := decoded.value;
      var c := Channel(e.origin, e.topic);
      if e.origin != source then Reply(p, [Rejected(SourceMismatch(source, e.origin))])
      else if e.topic.name !in p.policies then Reply(p, [Rejected(UnknownTopic(e.topic.name))])
      else
        var r := Offer(p.received, c, e.number);
        var q := p.(received := p.received[c := r.window]);
        if !r.accepted then Reply(q, [Dropped(c, e.number)])
        else Reply(q, Deliveries(p.subscriptions, Ascending(p.subscriptions.Keys), e))
  }
}
