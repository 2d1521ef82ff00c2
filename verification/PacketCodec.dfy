/** The wire format of forward packets and of multicast destination lists. */
module PacketCodec {
  import opened MeshTypes
  import opened Sorting
  import opened Bytes
  import opened Packets

  const FORWARD_PACKET_VERSION: byte := 1

  datatype PacketError =
    | PacketTooShort(length: nat)
    | UnsupportedVersion(version: byte)
    | UnknownPacketType(code: byte)
    | UnknownPriority(code: byte)
    | UnsupportedFlags(flags: nat)
    | BadMulticast(error: MulticastError)
    | UnexpectedDestinations(count: nat)
    | PacketTooLarge(length: nat)

  function TypeCode(t: PacketType): byte {
    match t case Unicast => 1 case Multicast => 2 case CircuitData => 3 case CircuitControl => 4
  }

  function TypeOf(code: byte): Option<PacketType> {
    if code == 1 then Some(Unicast) else if code == 2 then Some(Multicast)
    else if code == 3 then Some(CircuitData) else if code == 4 then Some(CircuitControl) else None
  }

  function PriorityOf(code: byte): Option<Priority> {
    if code == 0 then Some(P0) else if code == 1 then Some(P1) else if code == 2 then Some(P2) else if code == 3 then Some(P3) else None
  }

  // ------------------------------------------------------------ destination lists

  function EncodeIds(ids: seq<NodeId>): (r: seq<byte>)
    ensures |r| == |ids| * NODE_ID_LEN
  {
    if ids == [] then [] else EncodeIds(ids[..|ids| - 1]) + BigEndian(ids[|ids| - 1], NODE_ID_LEN)
  }

  function IdAt(bytes: seq<byte>): NodeId
    requires |bytes| == NODE_ID_LEN
  {
    FromBigEndianBound(bytes);
    Widths();
    FromBigEndian(bytes)
  }

  function DecodeIds(bytes: seq<byte>, count: nat): (r: seq<NodeId>)
    requires |bytes| == count * NODE_ID_LEN
    ensures |r| == count
  {
    if count == 0 then [] else
      DecodeIds(bytes[..(count - 1) * NODE_ID_LEN], count - 1) + [IdAt(bytes[(count - 1) * NODE_ID_LEN..])]
  }

  lemma {:induction false} IdsRoundTrip(ids: seq<NodeId>)
    ensures DecodeIds(EncodeIds(ids), |ids|) == ids
  {
    if ids != [] {
      var n := |ids| - 1;
      IdsRoundTrip(ids[..n]);
      Widths();
      BigEndianRoundTrip(ids[n], NODE_ID_LEN);
      Cut(EncodeIds(ids[..n]), BigEndian(ids[n], NODE_ID_LEN), []);
      assert EncodeIds(ids) == EncodeIds(ids[..n]) + BigEndian(ids[n], NODE_ID_LEN) + [];
      assert ids == ids[..n] + [ids[n]];
    }
  }

  function EncodeMulticast(ids: seq<NodeId>, body: seq<byte>): (r: seq<byte>)
    ensures |r| == PrefixLen(|ids|) + |body|
  {
    BigEndian(|ids|, MULTICAST_COUNT_LEN) + EncodeIds(ids) + body
  }

  datatype Listing = Listing(ids: seq<NodeId>, body: seq<byte>)

  function DecodeMulticast(bytes: seq<byte>): Result<Listing, MulticastError> {
    if |bytes| > MAX_FORWARD_PAYLOAD_LEN then Err(PayloadTooLarge(|bytes|))
    else if |bytes| < MULTICAST_COUNT_LEN then Err(HeaderTooShort(|bytes|))
    else
      var count := FromBigEndian(bytes[..MULTICAST_COUNT_LEN]);
      if count == 0 then Err(EmptyDestinations)
      else if count > MAX_MULTICAST_DESTINATIONS then Err(TooManyDestinations(count))
      else if |bytes| < PrefixLen(count) then Err(DestinationListTruncated(PrefixLen(count), |bytes|))
      else
        var canonical := Canonicalize(DecodeIds(bytes[MULTICAST_COUNT_LEN..PrefixLen(count)], count));
        if canonical.Err? then Err(canonical.error)
        else
          var m := MulticastPayload(canonical.value, bytes[PrefixLen(count)..]);
          if m.Err? then Err(m.error) else Ok(Listing(m.value, bytes[PrefixLen(count)..]))
  }

  lemma MulticastParts(ids: seq<NodeId>, body: seq<byte>)
    ensures var bytes := EncodeMulticast(ids, body);
            && bytes[..MULTICAST_COUNT_LEN] == BigEndian(|ids|, MULTICAST_COUNT_LEN)
            && bytes[MULTICAST_COUNT_LEN..PrefixLen(|ids|)] == EncodeIds(ids) && bytes[PrefixLen(|ids|)..] == body
  {
    Cut(BigEndian(|ids|, MULTICAST_COUNT_LEN), EncodeIds(ids), body);
  }

  /** A payload whose count, list and body are those of a canonical list decodes to it. */
  lemma DecodesParts(bytes: seq<byte>, ids: seq<NodeId>, list: seq<byte>)
    requires StrictlyAscending(ids) && 1 <= |ids| <= MAX_MULTICAST_DESTINATIONS
    requires PrefixLen(|ids|) <= |bytes| <= MAX_FORWARD_PAYLOAD_LEN && FromBigEndian(bytes[..MULTICAST_COUNT_LEN]) == |ids|
    requires bytes[MULTICAST_COUNT_LEN..PrefixLen(|ids|)] == list && DecodeIds(list, |ids|) == ids
    ensures DecodeMulticast(bytes) == Ok(Listing(ids, bytes[PrefixLen(|ids|)..]))
  {
    CanonicalIsStable(ids, bytes[PrefixLen(|ids|)..]);
  }

  /** Encoding a canonical list and decoding it gives it back. */
  lemma MulticastRoundTrip(ids: seq<NodeId>, body: seq<byte>)
    requires StrictlyAscending(ids) && 1 <= |ids| <= MAX_MULTICAST_DESTINATIONS
    requires PrefixLen(|ids|) + |body| <= MAX_FORWARD_PAYLOAD_LEN
    ensures DecodeMulticast(EncodeMulticast(ids, body)) == Ok(Listing(ids, body))
  {
    Widths();
    BigEndianRoundTrip(|ids|, MULTICAST_COUNT_LEN);
    MulticastParts(ids, body);
    IdsRoundTrip(ids);
    DecodesParts(EncodeMulticast(ids, body), ids, EncodeIds(ids));
  }

  // ------------------------------------------------------------ packets

  /** What follows the header: the payload, behind the canonical destination list of a multicast. */
  function WirePayload(p: Packet): Result<seq<byte>, PacketError> {
    if p.header.packetType.Multicast? then
      var m := MulticastPayload(p.destinations, p.payload);
      if m.Err? then Err(BadMulticast(m.error)) else Ok(EncodeMulticast(m.value, p.payload))
    else if p.destinations != [] then Err(UnexpectedDestinations(|p.destinations|))
    else Ok(p.payload)
  }

  function EncodeHeader(h: Header): (r: seq<byte>)
    ensures |r| == FORWARD_HEADER_LEN
  {
    [FORWARD_PACKET_VERSION, TypeCode(h.packetType), h.priority.Index(), h.ttl]
    + BigEndian(h.flags, 4) + BigEndian(h.destination, NODE_ID_LEN) + BigEndian(h.source, NODE_ID_LEN)
    + BigEndian(h.flowId, 8) + BigEndian(h.conflateKey, 8)
  }

  function EncodePacket(p: Packet): Result<seq<byte>, PacketError> {
    var wire := WirePayload(p);
    if wire.Err? then wire
    else if |wire.value| > MAX_FORWARD_PAYLOAD_LEN then Err(PacketTooLarge(|wire.value|))
    else Ok(EncodeHeader(p.header) + wire.value)
  }

  function U64At(bytes: seq<byte>): U64
    requires |bytes| == 8
  {
    FromBigEndianBound(bytes);
    Widths();
    FromBigEndian(bytes)
  }

  function DecodeHeader(bytes: seq<byte>): Result<Header, PacketError>
    requires |bytes| == FORWARD_HEADER_LEN
  {
    if bytes[0] != FORWARD_PACKET_VERSION then Err(UnsupportedVersion(bytes[0]))
    else if TypeOf(bytes[1]).None? then Err(UnknownPacketType(bytes[1]))
    else if PriorityOf(bytes[2]).None? then Err(UnknownPriority(bytes[2]))
    else
      var flags := FromBigEndian(bytes[4..8]);
      if flags >= 8 then Err(UnsupportedFlags(flags))
      else Ok(Header(TypeOf(bytes[1]).value, PriorityOf(bytes[2]).value, bytes[3], flags,
                     IdAt(bytes[8..40]), IdAt(bytes[40..72]), U64At(bytes[72..80]), U64At(bytes[80..88])))
  }

  function DecodePacket(bytes: seq<byte>): Result<Packet, PacketError> {
    if |bytes| < FORWARD_HEADER_LEN then Err(PacketTooShort(|bytes|))
    else if |bytes| - FORWARD_HEADER_LEN > MAX_FORWARD_PAYLOAD_LEN then Err(PacketTooLarge(|bytes| - FORWARD_HEADER_LEN))
    else
      var header := DecodeHeader(bytes[..FORWARD_HEADER_LEN]);
      if header.Err? then Err(header.error)
      else if header.value.packetType.Multicast? then
        var m := DecodeMulticast(bytes[FORWARD_HEADER_LEN..]);
        if m.Err? then Err(BadMulticast(m.error)) else Ok(Packet(header.value, m.value.ids, m.value.body))
      else Ok(Packet(header.value, [], bytes[FORWARD_HEADER_LEN..]))
  }

  /** The fields of an encoded header lie where the decoder looks for them. */
  lemma HeaderFields(h: Header)
    ensures var r := EncodeHeader(h);
            && r[..4] == [FORWARD_PACKET_VERSION, TypeCode(h.packetType), h.priority.Index(), h.ttl]
            && r[4..8] == BigEndian(h.flags, 4)
            && r[8..40] == BigEndian(h.destination, NODE_ID_LEN) && r[40..72] == BigEndian(h.source, NODE_ID_LEN)
            && r[72..80] == BigEndian(h.flowId, 8) && r[80..88] == BigEndian(h.conflateKey, 8)
  {
    var r := EncodeHeader(h);
    assert r[4..8] == BigEndian(h.flags, 4);
    assert r[8..40] == BigEndian(h.destination, NODE_ID_LEN);
    assert r[40..72] == BigEndian(h.source, NODE_ID_LEN);
    assert r[72..80] == BigEndian(h.flowId, 8);
    assert r[80..88] == BigEndian(h.conflateKey, 8);
  }

  lemma HeaderRoundTrip(h: Header)
    ensures DecodeHeader(EncodeHeader(h)) == Ok(h)
  {
    var r := EncodeHeader(h);
    HeaderFields(h);
    assert r[0] == r[..4][0] && r[1] == r[..4][1] && r[2] == r[..4][2] && r[3] == r[..4][3];
    Widths();
    BigEndianRoundTrip(h.flags, 4);
    BigEndianRoundTrip(h.destination, NODE_ID_LEN);
    BigEndianRoundTrip(h.source, NODE_ID_LEN);
    BigEndianRoundTrip(h.flowId, 8);
    BigEndianRoundTrip(h.conflateKey, 8);
  }

  /** The packet with its destinations in canonical order. */
  function Canonical(p: Packet): Packet {
    if p.header.packetType.Multicast? && MulticastPayload(p.destinations, p.payload).Ok?
    then p.(destinations := MulticastPayload(p.destinations, p.payload).value) else p
  }

  /** Decoding what was encoded gives the packet back, with its destinations sorted. */
  lemma PacketRoundTrip(p: Packet)
    requires EncodePacket(p).Ok?
    ensures DecodePacket(EncodePacket(p).value) == Ok(Canonical(p))
  {
    var wire, bytes := WirePayload(p).value, EncodePacket(p).value;
    HeaderRoundTrip(p.header);
    assert bytes[..FORWARD_HEADER_LEN] == EncodeHeader(p.header);
    assert bytes[FORWARD_HEADER_LEN..] == wire;
    if p.header.packetType.Multicast? {
      PayloadIsCanonical(p.destinations, p.payload);
      MulticastRoundTrip(MulticastPayload(p.destinations, p.payload).value, p.payload);
    }
  }

  lemma SortedHeads(a: seq<NodeId>, b: seq<NodeId>)
    requires SortedBy(a, IdAtMost) && SortedBy(b, IdAtMost) && multiset(a) == multiset(b) && a != [] && b != []
    ensures a[0] == b[0]
  {
    assert a[0] in multiset(b) && b[0] in multiset(a);
    var i :| 0 <= i < |b| && b[i] == a[0];
    var j :| 0 <= j < |a| && a[j] == b[0];
    assert IdAtMost(b[0], b[i]) || i == 0;
    assert IdAtMost(a[0], a[j]) || j == 0;
  }

  lemma TailSorted(a: seq<NodeId>)
    requires SortedBy(a, IdAtMost) && a != []
    ensures SortedBy(a[1..], IdAtMost)
  {
    forall i, j | 0 <= i < j < |a[1..]| ensures IdAtMost(a[1..][i], a[1..][j]) {
      assert IdAtMost(a[i + 1], a[j + 1]);
    }
  }

  /** Sorted lists with the same elements are the same list. */
  lemma {:induction false} SortedIsUnique(a: seq<NodeId>, b: seq<NodeId>)
    requires SortedBy(a, IdAtMost) && SortedBy(b, IdAtMost) && multiset(a) == multiset(b)
    ensures a == b
    decreases |a|
  {
    assert |a| == |multiset(a)| == |multiset(b)| == |b|;
    if a != [] {
      SortedHeads(a, b);
      assert a == [a[0]] + a[1..] && b == [b[0]] + b[1..];
      assert multiset(a[1..]) == multiset(a) - multiset{a[0]};
      assert multiset(b[1..]) == multiset(b) - multiset{b[0]};
      TailSorted(a);
      TailSorted(b);
      SortedIsUnique(a[1..], b[1..]);
    }
  }

  lemma CanonicalIgnoresOrder(a: seq<NodeId>, b: seq<NodeId>)
    requires multiset(a) == multiset(b)
    ensures Canonicalize(a) == Canonicalize(b)
  {
    assert |a| == |multiset(a)| == |multiset(b)| == |b|;
    IdOrder();
    SortBySorts(a, IdAtMost);
    SortBySorts(b, IdAtMost);
    SortedIsUnique(SortIds(a), SortIds(b));
  }

  /** The encoding does not depend on the order in which destinations are listed. */
  lemma EncodingIgnoresOrder(p: Packet, ids: seq<NodeId>)
    requires p.header.packetType.Multicast? && multiset(ids) == multiset(p.destinations)
    ensures EncodePacket(p.(destinations := ids)) == EncodePacket(p)
  {
    CanonicalIgnoresOrder(ids, p.destinations);
    assert WirePayload(p.(destinations := ids)) == WirePayload(p);
  }

  /** An encoded packet is as long as its queue accounting says. */
  lemma EncodedLength(p: Packet)
    requires EncodePacket(p).Ok?
    ensures |EncodePacket(p).value| == EncodedLen(p)
  {
    if p.header.packetType.Multicast? {
      CanonicalizeSpec(p.destinations);
      var ids := MulticastPayload(p.destinations, p.payload).value;
      assert |ids| == |multiset(ids)| == |multiset(p.destinations)| == |p.destinations|;
    }
  }

  /** Whatever decodes is a packet that encodes again: canonical destinations, or none, within the size limit. */
  lemma DecodedIsCanonical(bytes: seq<byte>)
    requires DecodePacket(bytes).Ok?
    ensures var p := DecodePacket(bytes).value;
            && EncodedLen(p) == |bytes| <= MAX_PAYLOAD_LEN
            && (!p.header.packetType.Multicast? ==> p.destinations == [])
            && (p.header.packetType.Multicast? ==> StrictlyAscending(p.destinations) && 1 <= |p.destinations| <= MAX_MULTICAST_DESTINATIONS)
  {
    var p := DecodePacket(bytes).value;
    if p.header.packetType.Multicast? {
      var wire := bytes[FORWARD_HEADER_LEN..];
      var count := FromBigEndian(wire[..MULTICAST_COUNT_LEN]);
      var ids := DecodeIds(wire[MULTICAST_COUNT_LEN..PrefixLen(count)], count);
      CanonicalizeSpec(ids);
      var canonical := Canonicalize(ids).value;
      assert |canonical| == |multiset(canonical)| == |multiset(ids)| == count;
      CanonicalIsStable(canonical, wire[PrefixLen(count)..]);
    }
  }

  // ------------------------------------------------------------ what decodes

  lemma HeaderDecodesOnly(bytes: seq<byte>)
    requires |bytes| == FORWARD_HEADER_LEN && DecodeHeader(bytes).Ok?
    ensures EncodeHeader(DecodeHeader(bytes).value) == bytes
  {
    FromBigEndianRoundTrip(bytes[4..8]);
    FromBigEndianRoundTrip(bytes[8..40]);
    FromBigEndianRoundTrip(bytes[40..72]);
    FromBigEndianRoundTrip(bytes[72..80]);
    FromBigEndianRoundTrip(bytes[80..88]);
    assert bytes == [bytes[0], bytes[1], bytes[2], bytes[3]] + bytes[4..8] + bytes[8..40] + bytes[40..72] + bytes[72..80] + bytes[80..88];
  }

  lemma {:induction false} IdsDecodeOnly(bytes: seq<byte>, count: nat)
    requires |bytes| == count * NODE_ID_LEN
    ensures EncodeIds(DecodeIds(bytes, count)) == bytes
    decreases count
  {
    if count > 0 {
      var n := (count - 1) * NODE_ID_LEN;
      IdsDecodeOnly(bytes[..n], count - 1);
      FromBigEndianRoundTrip(bytes[n..]);
      var ids := DecodeIds(bytes, count);
      assert ids[..count - 1] == DecodeIds(bytes[..n], count - 1) && ids[count - 1] == IdAt(bytes[n..]);
      assert bytes == bytes[..n] + bytes[n..];
    }
  }

  /** The bytes of a packet whose destinations are listed as they are. */
  function Listed(p: Packet): seq<byte> {
    EncodeHeader(p.header) + (if p.header.packetType.Multicast? then EncodeMulticast(p.destinations, p.payload) else p.payload)
  }

  lemma MulticastDecodesOnly(bytes: seq<byte>) returns (ids: seq<NodeId>)
    requires DecodeMulticast(bytes).Ok?
    ensures var r := DecodeMulticast(bytes).value;
            && bytes == EncodeMulticast(ids, r.body) && MulticastPayload(ids, r.body) == Ok(r.ids)
  {
    var count := FromBigEndian(bytes[..MULTICAST_COUNT_LEN]);
    var list, body := bytes[MULTICAST_COUNT_LEN..PrefixLen(count)], bytes[PrefixLen(count)..];
    ids := DecodeIds(list, count);
    IdsDecodeOnly(list, count);
    FromBigEndianRoundTrip(bytes[..MULTICAST_COUNT_LEN]);
    assert bytes == bytes[..MULTICAST_COUNT_LEN] + list + body;
    CanonicalizeSpec(ids);
    var canonical := Canonicalize(ids).value;
    assert |canonical| == |multiset(canonical)| == |multiset(ids)| == count;
    CanonicalIsStable(canonical, body);
  }

  /** Exactly the bytes of a packet that encodes are accepted, whatever the order of its list, and yield that packet sorted. */
  lemma PacketDecodesOnly(bytes: seq<byte>) returns (p: Packet)
    requires DecodePacket(bytes).Ok?
    ensures EncodePacket(p).Ok? && Listed(p) == bytes && DecodePacket(bytes) == Ok(Canonical(p))
  {
    p := DecodePacket(bytes).value;
    HeaderDecodesOnly(bytes[..FORWARD_HEADER_LEN]);
    assert bytes == bytes[..FORWARD_HEADER_LEN] + bytes[FORWARD_HEADER_LEN..];
    if p.header.packetType.Multicast? {
      var ids := MulticastDecodesOnly(bytes[FORWARD_HEADER_LEN..]);
      p := p.(destinations := ids);
    }
  }

  lemma ListedDecodes(p: Packet)
    requires EncodePacket(p).Ok?
    ensures DecodePacket(Listed(p)) == Ok(Canonical(p))
  {
    var bytes := Listed(p);
    HeaderRoundTrip(p.header);
    assert bytes[..FORWARD_HEADER_LEN] == EncodeHeader(p.header);
    if p.header.packetType.Multicast? {
      assert bytes[FORWARD_HEADER_LEN..] == EncodeMulticast(p.destinations, p.payload);
      ListDecodes(p.destinations, p.payload);
    } else {
      assert bytes[FORWARD_HEADER_LEN..] == p.payload;
    }
  }

  /** A destination list in any order decodes to its canonical form. */
  lemma ListDecodes(ids: seq<NodeId>, body: seq<byte>)
    requires MulticastPayload(ids, body).Ok?
    ensures DecodeMulticast(EncodeMulticast(ids, body)) == Ok(Listing(MulticastPayload(ids, body).value, body))
  {
    CanonicalizeSpec(ids);
    var canonical := Canonicalize(ids).value;
    assert |canonical| == |multiset(canonical)| == |multiset(ids)| == |ids|;
    Widths();
    BigEndianRoundTrip(|ids|, MULTICAST_COUNT_LEN);
    MulticastParts(ids, body);
    IdsRoundTrip(ids);
    CanonicalIsStable(canonical, body);
  }
}
