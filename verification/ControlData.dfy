/** The values that the link-state control plane stores, sends and schedules. */
module ControlData {
  import opened MeshTypes

  const DIGEST_INTERVAL_MS: nat := 10_000
  const SPF_INITIAL_HOLD_MS: nat := 100
  const SPF_MAX_HOLD_MS: nat := 5_000
  const SPF_QUIET_RESET_MS: nat := 10_000
  const DEFAULT_LSA_TTL_SEC: nat := 300
  const MAX_LSA_TTL_SEC: nat := 3_600
  const MAX_LSDB_ENTRIES: nat := 1_000
  const MAX_LSA_ADJACENCIES: nat := 256
  const MAX_LSA_TOPIC_ADS: nat := 256
  const MAX_TOPIC_NAME_LEN: nat := 1_024
  const MAX_TOPIC_PARTITION_LEN: nat := 65_536
  const MAX_DIGEST_ENTRIES: nat := MAX_LSDB_ENTRIES
  const MAX_DIGEST_REQ_ORIGINS: nat := MAX_LSDB_ENTRIES

  /** A non-zero u16. */
  type LinkCost = c: nat | 1 <= c <= U16_MAX witness 1

  datatype Adjacency = Adjacency(peer: NodeId, cost: LinkCost)

  datatype TopicAd = TopicAd(topic: seq<byte>, partition: seq<byte>, roles: byte, headSeq: nat, tailSeq: nat)

  datatype DiscoveredTopicAd = DiscoveredTopicAd(node: NodeId, ad: TopicAd)

  /** LSA versions are ordered by epoch, then by sequence number. */
  datatype Version = Version(epoch: nat, number: nat) {
    predicate AtMost(other: Version) {
      epoch < other.epoch || (epoch == other.epoch && number <= other.number)
    }

    predicate Below(other: Version) {
      epoch < other.epoch || (epoch == other.epoch && number < other.number)
    }
  }

  datatype Lsa = Lsa(origin: NodeId, version: Version, ttlSec: nat,
                     adjacencies: seq<Adjacency>, topics: seq<TopicAd>)

  datatype DigestEntry = DigestEntry(origin: NodeId, version: Version)

  datatype EntryState =
    | Active(lsa: Lsa, receivedAt: Time, expiresAt: Time)
    | Tombstone

  datatype LsdbEntry = LsdbEntry(version: Version, state: EntryState)

  type Lsdb = map<NodeId, LsdbEntry>

  datatype Route = Route(nextHop: LinkId, cost: nat, hops: nat)

  datatype RouteTable = RouteTable(version: nat, routes: map<NodeId, Route>)

  datatype PendingSpf = PendingSpf(generation: nat, at: Time)

  datatype ControlFrame =
    | LsaFrame(lsa: Lsa)
    | DigestFrame(entries: seq<DigestEntry>)
    | DigestReqFrame(origins: seq<NodeId>)

  datatype ControlTimer =
    | DigestTimer(link: LinkId)
    | SpfHold(generation: nat)
    | LsaRefresh(version: Version)
    | LsaExpire(origin: NodeId, version: Version)

  datatype ControlEvent =
    | LinkUp(link: LinkId, peer: NodeId, cost: LinkCost)
    | LinkDown(link: LinkId)
    | LocalTopicAdsChanged(ads: seq<TopicAd>)
    | Frame(link: LinkId, frame: ControlFrame)
    | Timer(timer: ControlTimer)

  datatype ControlAction =
    | Send(link: LinkId, frame: ControlFrame)
    | SetTimer(timer: ControlTimer, at: Time)
    | PublishRoutes(table: RouteTable)
    | PublishTopicAds(ads: seq<DiscoveredTopicAd>)
    | PersistSeq(number: nat)

  /** Whether `lsdb` holds a live LSA of `origin`. */
  predicate IsActive(lsdb: Lsdb, origin: NodeId) {
    origin in lsdb && lsdb[origin].state.Active?
  }
}
