/** The publish/subscribe core as a mutable component. */
module PubSubCore {
  import opened MeshTypes
  import opened Packets
  import opened PubSubModel

  class ReceiveWindow {
    var highest: U64
    var bitmap: Word

    function View(): Window
      reads this
    {
      Window(highest, bitmap)
    }

    constructor (n: U64)
      ensures View() == FirstWindow(n)
    {
      highest, bitmap := n, One();
    }

    /** Lets a number through once, as long as it is fewer than 64 behind the newest. */
    method Accept(n: U64) returns (ok: bool)
      modifies this
      ensures View() == PubSubModel.Accept(old(View()), n).window && ok == PubSubModel.Accept(old(View()), n).accepted
      ensures forall accepted: set<nat> :: Tracks(old(View()), accepted) ==>
                && (ok <==> n !in accepted && n + WINDOW > old(highest))
                && Tracks(View(), if ok then accepted + {n} else accepted)
    {
      forall accepted: set<nat> | Tracks(View(), accepted)
        ensures var r := PubSubModel.Accept(View(), n);
                && (r.accepted <==> n !in accepted && n + WINDOW > highest)
                && Tracks(r.window, if r.accepted then accepted + {n} else accepted) {
        AcceptTracks(View(), accepted, n);
      }
      if n > highest {
        var shift := n - highest;
        bitmap := if shift >= WINDOW then One() else SetBit(ShiftLeft(bitmap, shift), 0);
        highest := n;
        return true;
      }
      var age := highest - n;
      if age >= WINDOW {
        return false;
      }
      if bitmap[age] {
        ok := false;
      } else {
        bitmap := SetBit(bitmap, age);
        ok := true;
      }
    }
  }

  class Core {
    const me: NodeId
    const policies: map<seq<byte>, Policy>
    var subscriptions: map<SubId, Selector>
    var discovery: map<Selector, set<NodeId>>
    var sequences: map<TopicKey, U64>
    var received: map<Channel, Window>

    function View(): PubSub
      reads this
    {
      PubSub(me, policies, subscriptions, discovery, sequences, received)
    }

    constructor (me: NodeId, policies: map<seq<byte>, Policy>)
      ensures View() == NewCore(me, policies)
    {
      this.me, this.policies := me, policies;
      subscriptions, discovery, sequences, received := map[], map[], map[], map[];
    }

    method Publish(now: Time, topic: TopicKey, payload: seq<byte>, encode: Encoder) returns (actions: seq<PubSubAction>)
      modifies this
      ensures Reply(View(), actions) == PubSubModel.Publish(old(View()), now, topic, payload, encode)
    {
      if topic.name !in policies {
        return [Rejected(UnknownTopic(topic.name))];
      }
      var policy := policies[topic.name];
      if topic !in sequences {
        sequences := sequences[topic := 0];
      }
      if sequences[topic] == U64_MAX {
        assert sequences == old(sequences)[topic := LastNumber(old(View()), topic)];
        return [Rejected(SequenceExhausted(topic))];
      }
      var number := sequences[topic] + 1;
      var encoded := encode.bytes(Envelope(me, topic, number, now, payload));
      if |encoded| > MAX_LIVE_ENVELOPE_LEN {
        assert sequences == old(sequences)[topic := LastNumber(old(View()), topic)];
        return [Rejected(EnvelopeTooLarge(|encoded|, MAX_LIVE_ENVELOPE_LEN))];
      }
      sequences := sequences[topic := number];
      var channel := Channel(me, topic);
      if channel in received {
        received := received[channel := PubSubModel.Accept(received[channel], number).window];
      } else {
        received := received[channel := FirstWindow(number)];
      }
      assert sequences == old(sequences)[topic := number];
      actions := DispatchAll(StampOf(policy, me, topic, encode), encoded, Ascending(Subscribers(discovery, topic) - {me}), topic, number);
    }

    /** Cuts the targets into chunks and sends one multicast per chunk. */
    method DispatchAll(stamp: Stamp, encoded: seq<byte>, targets: seq<NodeId>, topic: TopicKey, number: U64) returns (actions: seq<PubSubAction>)
      requires |encoded| <= MAX_LIVE_ENVELOPE_LEN
      ensures actions == Dispatch(stamp, encoded, targets, topic, number)
    {
      var chunks := Chunks(targets, ChunkLimit(|encoded|));
      actions := [];
      var i := 0;
      while i < |chunks|
        invariant 0 <= i <= |chunks|
        invariant actions + Multicasts(chunks[i..], stamp, encoded) == Multicasts(chunks, stamp, encoded)
      {
        assert chunks[i..][1..] == chunks[i + 1..];
        actions := actions + [SendMulticast(chunks[i], stamp, encoded)];
        i := i + 1;
      }
      actions := actions + [Published(topic, number)];
    }

    method Receive(source: NodeId, decoded: Result<Envelope, EnvelopeError>) returns (actions: seq<PubSubAction>)
      modifies this
      ensures Reply(View(), actions) == PubSubModel.Receive(old(View()), source, decoded)
    {
      if decoded.Err? {
        return [Rejected(InvalidEnvelope(decoded.error))];
      }
      var envelope := decoded.value;
      if envelope.origin != source {
        return [Rejected(SourceMismatch(source, envelope.origin))];
      }
      if envelope.topic.name !in policies {
        return [Rejected(UnknownTopic(envelope.topic.name))];
      }
      var channel := Channel(envelope.origin, envelope.topic);
      var accepted := true;
      if channel in received {
        var r := PubSubModel.Accept(received[channel], envelope.number);
        received := received[channel := r.window];
        accepted := r.accepted;
      } else {
        received := received[channel := FirstWindow(envelope.number)];
      }
      if !accepted {
        return [Dropped(channel, envelope.number)];
      }
      actions := Deliveries(subscriptions, Ascending(subscriptions.Keys), envelope);
    }
  }
}
