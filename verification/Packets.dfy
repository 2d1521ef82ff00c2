/** Forward packets, their sizes, and the validity of explicit multicast destination lists. */
module Packets {
  import opened MeshTypes
  import opened Sorting

  const MAX_PAYLOAD_LEN: nat := 1_048_576
  const FORWARD_HEADER_LEN: nat := 88
  const MAX_FORWARD_PAYLOAD_LEN: nat := MAX_PAYLOAD_LEN - FORWARD_HEADER_LEN
  const MAX_MULTICAST_DESTINATIONS: nat := 64
  const MULTICAST_COUNT_LEN: nat := 2
  const NODE_ID_LEN: nat := 32

  datatype PacketType = Unicast | Multicast | CircuitData | CircuitControl

  datatype Priority = P0 | P1 | P2 | P3 {
    function Index(): (i: nat)
      ensures i < 4
    {
      match this case P0 => 0 case P1 => 1 case P2 => 2 case P3 => 3
    }
  }

  /** Three supported flag bits. */
  type ForwardFlags = n: nat | n < 8

  predicate Conflatable(flags: ForwardFlags) {
    flags / 2 % 2 == 1
  }

  type U64 = n: nat | n <= U64_MAX

  datatype Header = Header(packetType: PacketType, priority: Priority, ttl: byte, flags: ForwardFlags,
                           destination: NodeId, source: NodeId, flowId: U64, conflateKey: U64)

  datatype Packet = Packet(header: Header, destinations: seq<NodeId>, payload: seq<byte>)

  function PrefixLen(count: nat): nat {
    MULTICAST_COUNT_LEN + count * NODE_ID_LEN
  }

  function EncodedLen(p: Packet): (n: nat)
    ensures n >= FORWARD_HEADER_LEN
  {
    FORWARD_HEADER_LEN + (if p.header.packetType.Multicast? then PrefixLen(|p.destinations|) else 0) + |p.payload|
  }

  datatype MulticastError =
    | HeaderTooShort(length: nat)
    | EmptyDestinations
    | TooManyDestinations(count: nat)
    | DuplicateDestination(id: NodeId)
    | DestinationListTruncated(expected: nat, actual: nat)
    | PayloadTooLarge(length: nat)

  datatype Result<+T, +E> = Ok(value: T) | Err(error: E)

  predicate IdAtMost(a: NodeId, b: NodeId) {
    a <= b
  }

  function SortIds(ids: seq<NodeId>): seq<NodeId> {
    SortBy(ids, IdAtMost)
  }

  /** The first id that equals its successor. */
  function FirstRepeat(ids: seq<NodeId>): Option<NodeId> {
    if |ids| < 2 then None else if ids[0] == ids[1] then Some(ids[0]) else FirstRepeat(ids[1..])
  }

  function Canonicalize(ids: seq<NodeId>): Result<seq<NodeId>, MulticastError> {
    if ids == [] then Err(EmptyDestinations)
    else if |ids| > MAX_MULTICAST_DESTINATIONS then Err(TooManyDestinations(|ids|))
    else
      var sorted := SortIds(ids);
      var repeat := FirstRepeat(sorted);
      if repeat.Some? then Err(DuplicateDestination(repeat.value)) else Ok(sorted)
  }

  /** The canonical destination list of a multicast payload with this body. */
  function MulticastPayload(ids: seq<NodeId>, body: seq<byte>): Result<seq<NodeId>, MulticastError> {
    var canonical := Canonicalize(ids);
    if canonical.Err? then canonical
    else if PrefixLen(|canonical.value|) + |body| > MAX_FORWARD_PAYLOAD_LEN
    then Err(PayloadTooLarge(PrefixLen(|canonical.value|) + |body|))
    else canonical
  }

  lemma IdOrder()
    ensures TotalOrder(IdAtMost)
  {
  }

  lemma {:induction false} SortedRepeat(ids: seq<NodeId>)
    requires SortedBy(ids, IdAtMost)
    ensures FirstRepeat(ids).None? <==> StrictlyAscending(ids)
    ensures FirstRepeat(ids).Some? ==> multiset(ids)[FirstRepeat(ids).value] >= 2
  {
    if |ids| >= 2 {
      assert ids == [ids[0]] + ids[1..];
      SortedRepeat(ids[1..]);
      assert ids[1] in ids[1..];
      assert forall i :: 1 <= i < |ids| ==> IdAtMost(ids[1], ids[i]);
      assert forall x :: x in ids[1..] ==> ids[1] <= x;
      if ids[0] == ids[1] {
        assert ids[1..] == [ids[1]] + ids[2..];
      }
    }
  }

  /** A list is accepted exactly when it is non-empty, short enough and free of repeats; it comes back in order. */
  lemma CanonicalizeSpec(ids: seq<NodeId>)
    ensures var r := Canonicalize(ids);
            && (r.Ok? ==> 1 <= |ids| <= MAX_MULTICAST_DESTINATIONS && StrictlyAscending(r.value) && multiset(r.value) == multiset(ids))
            && (r.Err? && 1 <= |ids| <= MAX_MULTICAST_DESTINATIONS ==>
                  r.error.DuplicateDestination? && multiset(ids)[r.error.id] >= 2)
            && (r.Err? && r.error.EmptyDestinations? <==> ids == [])
            && (r.Err? && r.error.TooManyDestinations? <==> |ids| > MAX_MULTICAST_DESTINATIONS)
  {
    IdOrder();
    SortBySorts(ids, IdAtMost);
    SortedRepeat(SortIds(ids));
  }

  lemma {:induction false} AscendingIsSorted(ids: seq<NodeId>)
    requires StrictlyAscending(ids)
    ensures SortIds(ids) == ids && SortedBy(ids, IdAtMost)
  {
    if ids != [] {
      AscendingIsSorted(ids[1..]);
      assert ids == [ids[0]] + ids[1..];
      assert |ids| > 1 ==> ids[1..][0] in ids[1..];
      forall i, j | 0 <= i < j < |ids| ensures IdAtMost(ids[i], ids[j]) {
        if i == 0 {
          assert ids[j] == ids[1..][j - 1] && ids[j] in ids[1..];
        } else {
          assert IdAtMost(ids[1..][i - 1], ids[1..][j - 1]);
        }
      }
    }
  }

  /** A canonical list is accepted again, unchanged. */
  lemma CanonicalIsStable(ids: seq<NodeId>, body: seq<byte>)
    requires StrictlyAscending(ids) && 1 <= |ids| <= MAX_MULTICAST_DESTINATIONS
    ensures Canonicalize(ids) == Ok(ids)
    ensures PrefixLen(|ids|) + |body| <= MAX_FORWARD_PAYLOAD_LEN ==> MulticastPayload(ids, body) == Ok(ids)
  {
    AscendingIsSorted(ids);
    SortedRepeat(ids);
  }

  /** An accepted payload lists distinct destinations in order and fits a frame. */
  lemma PayloadIsCanonical(ids: seq<NodeId>, body: seq<byte>)
    requires MulticastPayload(ids, body).Ok?
    ensures var r := MulticastPayload(ids, body).value;
            StrictlyAscending(r) && 1 <= |r| <= MAX_MULTICAST_DESTINATIONS && PrefixLen(|r|) + |body| <= MAX_FORWARD_PAYLOAD_LEN
  {
    CanonicalizeSpec(ids);
    var r := Canonicalize(ids).value;
    assert |r| == |multiset(r)| == |multiset(ids)| == |ids|;
  }
}
