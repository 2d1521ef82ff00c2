/** Topic advertisements: validity, and the order in which they are sorted. */
module TopicAds {
  import opened MeshTypes
  import opened ControlData
  import opened Sorting

  const ALL_ROLES: nat := 7

  predicate ValidAd(ad: TopicAd) {
    && 1 <= |ad.topic| <= MAX_TOPIC_NAME_LEN
    && |ad.partition| <= MAX_TOPIC_PARTITION_LEN
    && 1 <= ad.roles <= ALL_ROLES
  }

  /** At most 256 well-formed ads, no two of them for the same topic and partition. */
  predicate ValidTopicAds(ads: seq<TopicAd>) {
    && |ads| <= MAX_LSA_TOPIC_ADS
    && (forall ad :: ad in ads ==> ValidAd(ad))
    && |set ad | ad in ads :: (ad.topic, ad.partition)| == |ads|
  }

  /** Lexicographic order of byte strings. */
  predicate BytesAtMost(a: seq<byte>, b: seq<byte>) {
    a == [] || (b != [] && (a[0] < b[0] || (a[0] == b[0] && BytesAtMost(a[1..], b[1..]))))
  }

  /** Field-by-field order of ads. */
  predicate AdAtMost(a: TopicAd, b: TopicAd) {
    if a.topic != b.topic then BytesAtMost(a.topic, b.topic)
    else if a.partition != b.partition then BytesAtMost(a.partition, b.partition)
    else if a.roles != b.roles then a.roles < b.roles
    else if a.headSeq != b.headSeq then a.headSeq < b.headSeq
    else a.tailSeq <= b.tailSeq
  }

  predicate DiscoveredAtMost(a: DiscoveredTopicAd, b: DiscoveredTopicAd) {
    if a.node != b.node then a.node < b.node else AdAtMost(a.ad, b.ad)
  }

  lemma {:induction false} BytesOrder(a: seq<byte>, b: seq<byte>, c: seq<byte>)
    ensures BytesAtMost(a, b) || BytesAtMost(b, a)
    ensures BytesAtMost(a, b) && BytesAtMost(b, c) ==> BytesAtMost(a, c)
    ensures BytesAtMost(a, b) && BytesAtMost(b, a) ==> a == b
    decreases |a| + |b| + |c|
  {
    if a != [] && b != [] {
      var tail := if c == [] then [] else c[1..];
      BytesOrder(a[1..], b[1..], tail);
      assert a == [a[0]] + a[1..] && b == [b[0]] + b[1..];
    }
  }

  lemma AdOrder()
    ensures TotalOrder(AdAtMost)
  {
    forall a: TopicAd, b: TopicAd, c: TopicAd
      ensures AdAtMost(a, b) || AdAtMost(b, a)
      ensures AdAtMost(a, b) && AdAtMost(b, c) ==> AdAtMost(a, c)
      ensures AdAtMost(a, b) && AdAtMost(b, a) ==> a == b
    {
      BytesOrder(a.topic, b.topic, c.topic);
      BytesOrder(a.partition, b.partition, c.partition);
      BytesOrder(b.topic, c.topic, a.topic);
      BytesOrder(b.partition, c.partition, a.partition);
      BytesOrder(c.topic, a.topic, b.topic);
      BytesOrder(c.partition, a.partition, b.partition);
    }
  }

  lemma DiscoveredOrder()
    ensures TotalOrder(DiscoveredAtMost)
  {
    AdOrder();
    assert forall a, b :: AdAtMost(a, b) || AdAtMost(b, a);
  }

  /** Sorting a list of ads does not change whether it is valid. */
  lemma SortKeepsValidity(ads: seq<TopicAd>)
    ensures ValidTopicAds(SortBy(ads, AdAtMost)) <==> ValidTopicAds(ads)
  {
    var sorted := SortBy(ads, AdAtMost);
    AdOrder();
    SortBySorts(ads, AdAtMost);
    assert |sorted| == |multiset(sorted)| && |ads| == |multiset(ads)|;
    assert forall ad :: ad in sorted <==> ad in multiset(sorted);
    assert forall ad :: ad in ads <==> ad in multiset(ads);
    assert (set ad | ad in sorted :: (ad.topic, ad.partition)) == (set ad | ad in ads :: (ad.topic, ad.partition));
  }
}
