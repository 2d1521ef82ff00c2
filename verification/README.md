# A verified model of the mesh bus

This project models the I/O-free cores of the mesh bus in Dafny and proves what they promise when they are
composed: the link-state control plane, the packet forwarder, the runtime glue between them, publish/subscribe,
and the wire codecs. `dafny verify dfyconfig.toml` checks everything.

## How it is organised

Each core appears twice. A *model* gives its reaction to an event as a function from a state, a time and an event to
the next state and the actions to execute. A *component* is a class with the source's fields, whose methods keep the
source's loops and updates in place and are proved equal to the model. All properties are proved about the models and
hold of the components through those equations.

| part | model and properties | component |
|---|---|---|
| shortest paths | `Spf` | `ControlLoops` |
| control plane of one node | `ControlModel`, `ControlSafety`, `ControlRuns`, `ControlTimers`, `NodeContract` | `ControlComponent` |
| a network of control planes | `Network`, `NetInvariant`, `NetMoves`, `NetSafety`, `NetAgreement`, `NetQuiescence`, `Settling` | |
| hop-by-hop delivery | `Delivery`, `Convergence`, `MulticastDelivery` | |
| link scheduler | `Scheduler`, `Fairness` | `ForwardLoops` |
| forwarder | `Forwarding`, `LinkTrace`, `Weights`, `Conservation`, `ForwardInvariant`, `Fifo`, `ForwardTiming`, `CreditFlow`, `TtlBound`, `Placement` | `ForwardComponent` |
| runtime glue | `RuntimeModel`, `RuntimeFairness` | `RuntimeComponent` |
| publish/subscribe | `PubSubModel`, `PubSubRuns`, `PubSubDelivery`, `PublishConflation` | `PubSubCore` |
| wire formats | `Packets`, `PacketCodec`, `Frames` | `FrameReader` |

## Main results

* **Rest means delivery** (`Convergence.RunDelivers`). Take any run of any number (up to 1000) of nodes whose links
  connect, open at each end separately, die and reconnect, whose processes crash between any two actions and restart,
  whose LSAs expire, and whose timers fire at any time. The network is at rest when nothing is under way on live links,
  no recomputation is pending, and every open link end has an open far end, with no origin expired at one end and live
  at the other. At every such point each forwarder has routes to exactly the other nodes of its connected component, and a
  unicast packet arrives if and only if its destination is in the component and its TTL exceeds the hop count. It is
  never dropped as looping, and as unroutable only at its source. The proof goes through the network invariant
  (`NetSafety.MoveKeeps`), agreement (`NetAgreement.QuietLinkAgreesExactly`), exactness of Dijkstra
  (`Spf.ShortestPathsExact`) and strict descent of the remaining cost (`Convergence.RestHopIsCloser`). A multicast
  packet fares as one unicast packet for each of its destinations, on every routing state
  (`MulticastDelivery.MulticastFares`), so at rest each listed node of the component gets exactly one copy under the
  same condition on the TTL (`MulticastDelivery.MulticastAtRest`).
* **Networks come to rest** (`Settling.ComesToRest`). Without new originations or timers no schedule of deliveries goes
  on forever (`NetQuiescence.DeliveryIsFinite`), and one that cannot go on has left nothing under way on live links
  (`Settling.StuckIsQuiet`). So from every network whose links have settled and whose expired origins are gone
  everywhere, finitely many deliveries, executions and SPF timers lead to a network at rest.
* **Every destination is placed** (`Placement.PacketsAreDisposed`, `Placement.LinkLossDisposes`,
  `Placement.RoutesTakeEffect`). Stated over routes and down links alone: each destination of a packet that comes in, is
  queued on a lost link or waits for a route is delivered here, offered to its next hop with the right TTL or refused
  there by a full queue, or dropped or kept waiting for exactly the reason that applies.
* **Exactly once, under the right policy** (`PubSubDelivery.DeliveredExactlyOnce`, `PubSubDelivery.PublishCarries`):
  publish/subscribe refines a machine with sets in place of bitmaps, on every run.
* **Crash freshness** (`NetAgreement.RestartIsFresh`): a node that crashes at any point originates next a version above
  every version of it that exists anywhere else.
* **Conservation** (`Conservation.HandleBalances`): for every weighting of owed items, every forwarder event balances,
  so the items held, sent, delivered, dropped, refused and conflated are the same multiset as those held and brought in.
* **TTL bounds work** (`TtlBound.CarriedAtMostBudget`), for arbitrary, changing and inconsistent route tables.
* **Fair scheduling** (`RuntimeFairness.HeadLeavesInTime`, `RuntimeFairness.SharesAreProportional`), on every run of the
  runtime and every live link while its P0 queue is empty: the head of a backlogged class leaves before the transport
  has reported more than 29 000 (P1), 60 000 (P2) or 250 400 (P3) frames as sent, and two classes that both stay
  backlogged send bytes in proportion to their quanta, 14 to 5 to 1, up to a constant. The bridge is
  `LinkTrace.HandleReplays`: every event of the forwarder acts on its links by operations of the link scheduler alone.

## Conventions

* A `NodeId` is a 32-byte array; the model reads it as a big-endian number below 2^256, so array order is numeric order.
* Iteration over an ordered map or set is `Ascending` of its keys. The binary heap is the list of its entries in the
  order in which it yields them. The 64-bit receive bitmap is the list of its bits.
* Saturating, wrapping and checked arithmetic is written out where it can matter: times and credit saturate at 2^64-1,
  path costs at 2^32-1, hop counts at 255, generations wrap. In-memory lengths cannot reach 2^64, so they are plain sums.
* Where the source aborts (sequence numbers or SPF generations exhausted) or would loop forever (2^64 parked batches),
  the model has a precondition. The other two aborts of the cores, a full database on origination and an invalid
  multicast subset, are proved impossible.
* The transport is assumed to report a link as up before any frame on it, to use fresh link ids, to deliver frames in
  any order without loss until the link dies, and to report the payload length of each frame it has sent.

## Model

| member | source | states |
|---|---|---|
| `Spf.ShortestPathsExact` | crates/mb-control/src/lib.rs:828-928 | for every database within the 1000-entry limit whose own entry mirrors the adjacencies (both kept by `ControlSafety.HandleKeeps`), over paths of edges that the live LSAs of both ends list: exactly the nodes such a path leads to get a route, at the cost that the LSAs along a least-cost path add up to (no u32 saturation), with the least first hop among all least-cost paths, hops equal to the length (capped at 255) of such a path, and by the best link to that first hop |
| `Spf.GraphIsConfirmed` | crates/mb-control/src/lib.rs:892-920 | the graph has an edge exactly where the live LSAs of both ends list each other, at the cost that the LSA of its start gives it |
| `Spf.DijkstraExact` | crates/mb-control/src/lib.rs:828-876 | the search finds exactly the reachable nodes, each witnessed by a path that no other path beats on cost or, at equal cost, on first hop |
| `Spf.VisitKeeps` | crates/mb-control/src/lib.rs:840-876 | one heap pop keeps the search invariant and shrinks a well-founded measure, so the loop ends although nodes are pushed again at equal cost |
| `Spf.SettledIsOptimal` | crates/mb-control/src/lib.rs:848-875 | once every edge is relaxed, no path beats the recorded distance and first hop |
| `Spf.BestLinkTo` | crates/mb-control/src/lib.rs:922-928 | no link exactly if no adjacency leads to the peer; otherwise the least (cost, link) among those that do |
| `ControlLoops.BuildGraph` | crates/mb-control/src/lib.rs:892-920 | the loop builds the graph that `Spf.GraphIsConfirmed` is about |
| `ControlLoops.TryEdge` | crates/mb-control/src/lib.rs:849-874 | one relaxation, strictly better cost or equal cost with a smaller first hop, as in the search proved exact |
| `ControlLoops.RelaxEdges` | crates/mb-control/src/lib.rs:848-875 | the inner loop leaves no edge of the node unrelaxed, as in the search proved exact |
| `ControlLoops.SearchPaths` | crates/mb-control/src/lib.rs:835-876 | the heap loop, stale entries and equal-cost updates included, ends in the search that `Spf.DijkstraExact` is about |
| `ControlLoops.ComputeRoutes` | crates/mb-control/src/lib.rs:828-890 | the routes computed by the loops are those that `Spf.ShortestPathsExact` is about |
| `ControlLoops.CollectBestCosts` | crates/mb-control/src/lib.rs:421-427 | the loop finds, for each peer, the least cost of a link to it, and only peers with links |
| `ControlLoops.AdvertiseEdges` | crates/mb-control/src/lib.rs:421-436 | the advertised edges are one per peer, in order, at the cost of the best link |
| `ControlLoops.CollectRemote` | crates/mb-control/src/lib.rs:579-585 | the loop keeps the newest version a digest names for each origin |
| `ControlLoops.CompareOrigins` | crates/mb-control/src/lib.rs:594-614 | going through the origins in order picks exactly those newer here to offer and those newer there to request |
| `ControlLoops.AnswerDigest` | crates/mb-control/src/lib.rs:574-622 | the answer to a digest: stored live LSAs it lacks, then one request for what it has |
| `ControlComponent.ControlPlane.constructor` | crates/mb-control/src/lib.rs:350-373 | a new plane is well-formed, and its empty tables are those of its empty database |
| `ControlComponent.ControlPlane.Install` | crates/mb-control/src/lib.rs:642-665 | stores an LSA and names its expiry timer, or refuses when the database is full |
| `ControlComponent.ControlPlane.OriginateLsa` | crates/mb-control/src/lib.rs:415-452 | the new state and the actions in order: persist, flood, timers |
| `ControlComponent.ControlPlane.ReceiveLsa` | crates/mb-control/src/lib.rs:454-496 | ignored, answered with a newer one, refused for lack of room, or installed and flooded |
| `ControlComponent.ControlPlane.MarkDirty` | crates/mb-control/src/lib.rs:735-765 | hold timer, quiet reset and coalescing of changes, with the effect that `ControlRuns.StepClocked` bounds |
| `ControlComponent.ControlPlane.HandleExpire` | crates/mb-control/src/lib.rs:702-733 | only the timer of the stored version turns a live entry into a tombstone, and not before its time |
| `ControlComponent.ControlPlane.HandleSpf` | crates/mb-control/src/lib.rs:767-788 | only the newest generation fires, and not before its time; it doubles the hold (`ControlTimers.HoldsExactly`) and hands out recomputed tables (`ControlSafety.PublishesExactly`) |
| `ControlComponent.ControlPlane.PublishTables` | crates/mb-control/src/lib.rs:790-826 | each table is handed out exactly if it changed, as it is after the change (`ControlSafety.PublishesExactly`) |
| `ControlComponent.ControlPlane.HandleTimer` | crates/mb-control/src/lib.rs:683-733 | the four timers: refresh, expiry and SPF are inert once overtaken by a newer version or generation, the digest timer once its link is closed |
| `ControlComponent.ControlPlane.HandleFrame` | crates/mb-control/src/lib.rs:961-965 | LSA, digest and digest request are answered as `NodeContract.StepContract` promises the network |
| `ControlComponent.ControlPlane.OpenLink` | crates/mb-control/src/lib.rs:937-943 | a new adjacency is announced, then a digest goes out on the new link |
| `ControlComponent.ControlPlane.CloseLink` | crates/mb-control/src/lib.rs:944-950 | losing an adjacency is announced; an unknown link is ignored |
| `ControlComponent.ControlPlane.ChangeTopicAds` | crates/mb-control/src/lib.rs:951-959 | ads that are valid, in whatever order they come, and differ once sorted are announced, others ignored |
| `ControlComponent.ControlPlane.Handle` | crates/mb-control/src/lib.rs:935-976 | every event does what the model does and keeps the plane well-formed with its tables up to date unless a recomputation is pending |
| `Sorting.SortBySorts` | crates/mb-control/src/lib.rs:820-820 | sorting gives a sorted permutation |
| `TopicAds.SortKeepsValidity` | crates/mb-control/src/lib.rs:951-953 | sorting a list of ads does not change whether it is valid |
| `ControlSafety.OriginateKeeps` | crates/mb-control/src/lib.rs:437-441 | the database always has room for the node's own LSA, which then mirrors its adjacencies and ads |
| `ControlSafety.HandleKeeps` | crates/mb-control/src/lib.rs:935-976 | after every event: own entry present before any other and at (epoch, seq), database bounded and keyed by origin, hold within 100 to 5000 ms, and published tables equal to those of the database unless a recomputation is pending |
| `ControlSafety.DiscoveredExactly` | crates/mb-control/src/lib.rs:804-826 | the discovered ads are sorted field by field and hold each ad exactly as often as the live LSA of its node does |
| `ControlSafety.OwnEdgesExactly` | crates/mb-control/src/lib.rs:421-436 | a node advertises each of its peers once, at the cost of the cheapest link to it |
| `ControlSafety.PublishesExactly` | crates/mb-control/src/lib.rs:790-826 | across every event: a route table or list of ads is handed out exactly if it has changed, and then the one now in force; a changed route table has the next version |
| `ControlRuns.RunIsSafe` | crates/mb-control/src/lib.rs:415-526 | over every run: the invariant holds, no entry is removed, no version falls, and a tombstone is never revived by its own or an older version |
| `ControlRuns.StepClocked` | crates/mb-control/src/lib.rs:735-788 | an event that changes the database leaves a recomputation pending within the largest hold; any other event at most fires one |
| `ControlRuns.ClockKeeps` | crates/mb-control/src/lib.rs:735-765 | with timers on time every event keeps a pending recomputation due within 5000 ms of the latest change, and a change leaves one pending |
| `ControlRuns.ReflectedInTime` | crates/mb-control/src/lib.rs:735-788 | on every run of a new plane with timers on time and for every event that changes the database: before any event more than 5000 ms later there was a moment with no recomputation pending, at which the published tables are those of the database |
| `ControlTimers.RunInforms` | crates/mb-control/src/lib.rs:790-826 | on every run of a new plane the tables handed out last are those in force, and those of the database while no recomputation is pending |
| `ControlTimers.HoldsExactly` | crates/mb-control/src/lib.rs:735-788 | how every event moves the hold: firing doubles it up to 5000 ms, a change after 10 000 quiet ms puts it back to 100 ms, and a change schedules a recomputation that much later unless one is pending |
| `ControlTimers.HoldDoubles` | crates/mb-control/src/lib.rs:735-788 | on every run of a new plane the hold is 100 ms doubled by each recomputation since the last quiet spell, at most 5000 ms |
| `ControlTimers.EntriesAreTimed` | crates/mb-control/src/lib.rs:437-452 | every new entry expires its own lifetime after now and a timer is set for it; an own LSA lives 300 s and is refreshed after 60 s |
| `ControlTimers.TimersWork` | crates/mb-control/src/lib.rs:683-733 | each timer works exactly while it is meant: it asks to be woken again when early and does nothing once overtaken; a due expiry leaves a tombstone, a refresh the next own version, a digest timer a true digest and its next timer |
| `ControlTimers.AdsTakeEffect` | crates/mb-control/src/lib.rs:951-959 | valid ads become the sorted list that the next own LSA carries, invalid or unchanged ones change nothing |
| `ControlTimers.ReceivesExactly` | crates/mb-control/src/lib.rs:454-496 | an LSA is stored exactly if it comes over an open link, within the limits, from another node, newer than what is known and with room left, and is then passed on over exactly the other links; otherwise it is answered with a newer live one or ignored |
| `ControlTimers.OversizedIsIgnored` | crates/mb-control/src/lib.rs:574-640 | digests and requests on unknown links or with more than 1000 entries are ignored |
| `ControlTimers.NewLinkIsAnnounced` | crates/mb-control/src/lib.rs:937-943 | a new link is in the next own LSA, and its next digest is due in 10 s |
| `ControlTimers.LostLinkIsAnnounced` | crates/mb-control/src/lib.rs:944-950 | a lost link is announced exactly if it was known |
| `ControlTimers.OwnStaysLive` | crates/mb-control/src/lib.rs:437-452 | on every run of a new plane with refresh timers on time the own LSA never expires |
| `NodeContract.StepContract` | crates/mb-control/src/lib.rs:415-733 | what the network relies on: news is genuine and flooded on every other link, only stored LSAs and true digests are sent, digests and requests are served, sequence numbers are persisted first, and a frame without news costs a bounded, strictly progressing answer |
| `NetSafety.OwnLsaIsValid` | crates/mb-control/src/lib.rs:498-502 | peers accept a node's own LSA exactly as long as it has at most 256 distinct peers |
| `NetInvariant.ReactCovered` | crates/mb-control/src/lib.rs:466-495 | every reaction keeps coverage: the far end of a live link knows each live version, or an LSA, digest or request under way will see to it |
| `NetMoves.NewFlight` | crates/mb-runtime/src/lib.rs:849-908 | an LSA or a digest leaves a node only when the versions it reveals are on the disks of their origins |
| `NetSafety.MoveKeeps` | crates/mb-control/src/lib.rs:415-640 | connecting, opening, closing, losing, delivering, executing, crashing and every timer keep the network invariant: authenticity, persistence, coverage, and forwarders that have the published routes unless these are still to be handed over |
| `NetAgreement.RunKeeps` | crates/mb-control/src/lib.rs:415-640 | the network invariant holds at every point of every run from fresh nodes |
| `NetAgreement.SeenIsPersisted` | crates/mb-runtime/src/lib.rs:902-908 | whatever version of a node is held, sent or named in a digest elsewhere was on its disk first |
| `NetAgreement.RestartIsFresh` | crates/mb-runtime/src/lib.rs:510-515 | after a crash at any point and a restart in the same or a later epoch, the next own version exceeds every version held, in flight or named in a digest elsewhere |
| `NetAgreement.StoreNeverRefuses` | crates/mb-runtime/src/lib.rs:86-99 | the sequence store is never asked to move backward |
| `NetAgreement.QuietLinkKnows` | crates/mb-control/src/lib.rs:574-640 | when nothing is under way on a live link, each end knows whatever is live at the other |
| `NetAgreement.ComponentAgrees` | crates/mb-control/src/lib.rs:574-640 | when nothing is under way, all nodes of a connected component hold the same LSA of every unexpired origin |
| `NetAgreement.QuietLinkAgreesExactly` | crates/mb-control/src/lib.rs:702-733 | across a quiet link the ends disagree on an origin exactly if it has expired at one end and is live at the other |
| `NetAgreement.ExpiryParts` | crates/mb-control/src/lib.rs:702-733 | agreement does fail: from every network with a quiet link whose ends both hold an origin live, the due expiry timer of one end and the execution of what it asks for lead to one in which the link is quiet and the ends disagree |
| `NetQuiescence.StaleLowers` | crates/mb-control/src/lib.rs:466-485 | the answer to an outdated LSA is strictly newer and an equal LSA is not answered, which lowers the delivery measure |
| `NetQuiescence.DeliveryIsFinite` | crates/mb-control/src/lib.rs:466-640 | no schedule of deliveries and their actions goes on forever |
| `Delivery.JourneySucceeds` | crates/mb-forward/src/lib.rs:193-271 | over tables in which each hop lowers the remaining cost, a packet arrives exactly if its TTL exceeds the hop count, and otherwise only the TTL stops it |
| `Delivery.NoNodeTwice` | crates/mb-forward/src/lib.rs:193-226 | no node is visited twice on the way; there is one more node than hops, and the remaining cost bounds both |
| `Convergence.SameGraph` | crates/mb-control/src/lib.rs:892-920 | the graph depends on the live LSAs only |
| `Convergence.RestHopIsCloser` | crates/mb-control/src/lib.rs:828-928 | in a network at rest, expired origins included, the node behind every next hop is the destination or strictly closer by its own table |
| `Convergence.RoutesAreComponent` | crates/mb-control/src/lib.rs:828-928 | in a network at rest a node has a route to exactly the other nodes that a walk over open links leads to |
| `Convergence.RestDelivers` | crates/mb-forward/src/lib.rs:193-271 | at rest, with the tables the forwarders have been handed: a packet from any node to any destination arrives exactly if the destination is in the component of the node and the TTL exceeds the hop count; inside the component only the TTL stops it, and outside it is dropped at the source |
| `Convergence.RunDelivers` | crates/mb-forward/src/lib.rs:193-271 | the same at every resting point of every run from fresh nodes |
| `Settling.StuckIsQuiet` | crates/mb-control/src/lib.rs:466-640 | when every end of a live link has been reported as open and no delivery is possible any more, nothing is under way on live links and nothing is left to execute |
| `Settling.Quiesces` | crates/mb-control/src/lib.rs:466-640 | from every settled network finitely many deliveries and executions, at one time, lead to a settled network with nothing under way |
| `Settling.ComesToRest` | crates/mb-control/src/lib.rs:466-788 | from every settled network (openings and losses of links reported, expired origins gone everywhere, counters not exhausted) finitely many deliveries, executions and SPF timers lead to a network at rest |
| `MulticastDelivery.MulticastFares` | crates/mb-forward/src/lib.rs:273-343 | on every routing state, coherent or not, and for every weighting of what can happen to a destination: a multicast packet split hop by hop does to its destinations what one unicast packet for each would |
| `MulticastDelivery.MulticastAtRest` | crates/mb-forward/src/lib.rs:273-343 | at rest, a multicast packet reaches each listed destination in the component of its source exactly once if its TTL exceeds the hop count, and no other node |
| `Scheduler.SkipShrinks` | crates/mb-forward/src/lib.rs:437-470 | every skipped turn shrinks a measure, for every queue, credit and deficit state |
| `Scheduler.TrySendConserves` | crates/mb-forward/src/lib.rs:410-489 | a packet is sent exactly if the link is writable and not blocked; permission is left over only when a P0 head is unaffordable or no head fits |
| `Scheduler.TrySendTakesHead` | crates/mb-forward/src/lib.rs:424-488 | a send removes one head, from P0 if there is one, and pays exactly its length |
| `Scheduler.EmptiedForgets` | crates/mb-forward/src/lib.rs:478-482 | a class that has sent its last packet keeps no deficit |
| `Scheduler.KeyExactly` | crates/mb-forward/src/lib.rs:120-130 | two packets share a conflation key exactly if both are P1, have the conflatable bit set and agree in source, flow and key |
| `Scheduler.AdmitsExactly` | crates/mb-forward/src/lib.rs:358-390 | a packet takes the place of such a rival if one is queued; otherwise it is refused exactly if 256, 512, 1024 or 4096 packets of its priority are queued, and else goes to the back |
| `Fifo.FirstInFirstOut` | crates/mb-forward/src/lib.rs:345-489 | for every list of operations on a link and each class: what leaves followed by what remains is what was there followed by what joined, in order, where a conflating packet only takes over the place of the one it replaces |
| `Fifo.RunIsFifo` | crates/mb-forward/src/lib.rs:345-553 | the same on every run of a forwarder, on every link between two of its losses: what is sent in a class followed by what is queued at the end is what was queued at the start followed by what joined, whether it was forwarded, rerouted or retried |
| `Fifo.NewestWins` | crates/mb-forward/src/lib.rs:362-376 | an admitted P1 packet with the conflatable bit is the only one queued of its source, flow and key |
| `ForwardLoops.TakeTurn` | crates/mb-forward/src/lib.rs:447-487 | one turn serves the class or passes on, exactly as modelled |
| `ForwardLoops.RoundRobin` | crates/mb-forward/src/lib.rs:437-488 | the loop terminates and serves the class the model names |
| `ForwardLoops.TrySendOne` | crates/mb-forward/src/lib.rs:410-489 | the whole attempt, with work conservation |
| `ForwardLoops.SortOut` | crates/mb-forward/src/lib.rs:291-317 | one pass over the destinations sorts them by verdict and groups them by link |
| `Fairness.NoStarvation` | crates/mb-forward/src/lib.rs:437-489 | while P0 is empty and credit covers the heads, each write grant sends a packet, and a P1, P2 or P3 head of up to `size` bytes is passed over for at most budget/88 write grants, whatever is enqueued or conflated meanwhile |
| `Fairness.HeadStays` | crates/mb-forward/src/lib.rs:362-376 | for P2 and P3 the length of the head itself will do as `size`, because nothing replaces the head |
| `Fairness.OperateModest` | crates/mb-forward/src/lib.rs:447-482 | every operation keeps each deficit within one maximal packet, and one quantum more during its turn, as long as packets fit a frame and credit covers the heads, P0 traffic included |
| `Fairness.BudgetIsSmall` | crates/mb-forward/src/lib.rs:16-16 | with such deficits that is at most 29 000 grants for P1, 60 000 for P2 and 250 400 for P3 |
| `Fairness.NeverOverspends` | crates/mb-forward/src/lib.rs:447-482 | on every run a class sends at most its starting deficit plus the quanta it received |
| `Fairness.SpendsWhatItEarns` | crates/mb-forward/src/lib.rs:447-482 | a class that stays backlogged sends exactly what it earned but for a remainder of at most one maximum packet between its turns |
| `Fairness.QuantaAlternate` | crates/mb-forward/src/lib.rs:447-470 | two classes that both stay backlogged are granted quanta in turn: on every run their numbers differ by at most one |
| `Conservation.VerdictsPartition` | crates/mb-forward/src/lib.rs:291-317 | local, unroutable, looping and routed destinations partition the list |
| `Conservation.GroupsCover` | crates/mb-forward/src/lib.rs:337-341 | each routed destination is in the branch of exactly one link |
| `Conservation.UnusedIsFree` | crates/mb-forward/src/lib.rs:529-537 | the wrapping search for a generation ends on one no batch uses |
| `Conservation.HandleBalances` | crates/mb-forward/src/lib.rs:756-773 | for every weight of items, across every event: weight held plus weight brought in equals weight held after, in actions and overwritten by conflation |
| `Conservation.ClaimsAreConserved` | crates/mb-forward/src/lib.rs:756-773 | for every (source, flow, payload, destination): copies before plus copies brought in equal copies queued or parked, sent, delivered, dropped, refused or conflated |
| `LinkTrace.HandleReplays` | crates/mb-forward/src/lib.rs:756-773 | for every event, fan-out, rerouting, retries and link loss included: each surviving link ends in the state, and the packets sent and overwritten are those, that replaying the recorded offers and grants on the link scheduler gives; a packet is refused only at a moment when its queue is full, P0 by backpressure and others by a drop |
| `LinkTrace.HandleOn` | crates/mb-forward/src/lib.rs:345-489 | the same seen from one link |
| `LinkTrace.LossIsConflation` | crates/mb-forward/src/lib.rs:362-376 | across every event a packet is lost only where a P1 packet with the conflatable bit and the same source, flow and key is offered to the link it is queued on, and every such offer overwrites one |
| `ForwardInvariant.AdmitOk` | crates/mb-forward/src/lib.rs:358-390 | admission keeps length limits, exact byte counts, class membership and one packet per conflation key |
| `ForwardInvariant.BranchIsFine` | crates/mb-forward/src/lib.rs:718-732 | a non-empty part of a valid destination list is valid, so building a branch cannot fail |
| `ForwardInvariant.HandleOk` | crates/mb-forward/src/lib.rs:345-553 | every event keeps: no queue for a down link, no packet queued on its arrival link, bounded and exactly counted queues, no usable permission left over, batches of P0 only; and it sends only encodable packets and offers to a link only packets that belong there |
| `ForwardInvariant.RunIsOk` | crates/mb-forward/src/lib.rs:155-165 | so on every run of a new forwarder |
| `ForwardTiming.DeadlinesAreKept` | crates/mb-forward/src/lib.rs:555-604 | a packet expires only if it was parked and its deadline has come; on a route update or its due timer a due batch expires as a whole, an early timer is set again; a batch that waits on keeps its deadline, and only batches with time left wait on |
| `ForwardTiming.WaitingIsUndisturbed` | crates/mb-forward/src/lib.rs:491-604 | only a route update or its own due timer touches a waiting batch; parking never overwrites one |
| `CreditFlow.HandlePays` | crates/mb-forward/src/lib.rs:345-489 | on each link a packet, route update or timer sends nothing and spends nothing, or one packet for its length and the write permission |
| `CreditFlow.PermitPays` | crates/mb-forward/src/lib.rs:393-408 | a credit or write grant for a link that is not down does the same on that link once the grant is added, and touches no other |
| `CreditFlow.LinkDownPays` | crates/mb-forward/src/lib.rs:491-527 | losing a link sends nothing on it and clears its credit and permission; rerouting its packets pays for what it sends elsewhere |
| `CreditFlow.DownIsSilent` | crates/mb-forward/src/lib.rs:402-527 | after a link goes down nothing is sent on it until a write grant finds it no longer down; grants that are refused may come in between |
| `TtlBound.HandleWork` | crates/mb-forward/src/lib.rs:193-271 | an event adds no transmissions beyond the hops its packet brings |
| `TtlBound.ReroutingKeepsTtl` | crates/mb-forward/src/lib.rs:491-700 | a route update, a link loss or a timer keeps, for every weight of items that sees their TTL, the weight of what is queued, parked, sent, delivered, dropped or conflated: rerouting and waiting cost no TTL |
| `TtlBound.CarriedAtMostBudget` | crates/mb-forward/src/lib.rs:248-271 | in any network of forwarders, a claim is carried over links at most as often as the hops it was injected with |
| `Placement.PacketsAreDisposed` | crates/mb-forward/src/lib.rs:193-343 | every destination of a packet from the application or a link: this node gets its copy; one without a route or whose next hop is down is dropped as unroutable, one whose next hop is the arrival link as looping; any other is offered to its next hop, or refused there, with one hop less and nothing else changed; packets out of hops, of other types or with invalid lists are dropped whole |
| `Placement.LinkLossDisposes` | crates/mb-forward/src/lib.rs:491-527 | of a lost link: all of P0 waits in one new batch, in order, for 2000 ms with its timer and an unused number; all of P1 and P3 is dropped; every P2 destination is delivered here, offered to its next hop or refused there with its TTL, or dropped, and a packet is dropped for the lost link only for these reasons |
| `Placement.RoutesTakeEffect` | crates/mb-forward/src/lib.rs:539-585 | new routes are in force, down links are remembered exactly while a route names them, and every waiting destination with time left is delivered here or moved to its next hop with its TTL, except that exactly those without a usable next hop wait on in their batch |
| `Placement.RoutingStays` | crates/mb-forward/src/lib.rs:756-773 | nothing else changes the routes, and besides a route update only a link loss changes which links are down |
| `Placement.JourneyIsForwarded` | crates/mb-forward/src/lib.rs:193-271 | every hop of the journeys that `Convergence.RunDelivers` is about is what the forwarder of that node does with the packet |
| `ForwardComponent.Forwarder.LaunchLink` | crates/mb-forward/src/lib.rs:410-489 | stores the link after at most one write, which is reported exactly if it happened |
| `ForwardComponent.Forwarder.EnqueueOn` | crates/mb-forward/src/lib.rs:345-391 | refused on a down link, conflated in place, refused when full, or queued, as `Scheduler.AdmitsExactly` says |
| `ForwardComponent.Forwarder.SendBranches` | crates/mb-forward/src/lib.rs:337-341 | one branch per link, in link order |
| `ForwardComponent.Forwarder.ForwardMulticast` | crates/mb-forward/src/lib.rs:273-343 | explicit multicast in place equals the split that `Conservation` proves to be a partition: local copy, drops, one branch per link with one hop less |
| `ForwardComponent.Forwarder.ForwardUnicast` | crates/mb-forward/src/lib.rs:193-226 | delivered here, dropped as unroutable or looping, or queued with one hop less |
| `ForwardComponent.Forwarder.ProcessPacket` | crates/mb-forward/src/lib.rs:248-271 | an exhausted TTL drops the packet before anything else; unsupported types are dropped |
| `ForwardComponent.Forwarder.HandleMulticast` | crates/mb-forward/src/lib.rs:228-246 | an invalid destination set drops the packet, without the refused list; a valid one is processed in canonical order |
| `ForwardComponent.Forwarder.RerouteUnicast` | crates/mb-forward/src/lib.rs:620-632 | delivered, moved with its TTL, or unresolved |
| `ForwardComponent.Forwarder.RerouteMulticast` | crates/mb-forward/src/lib.rs:634-700 | split again with its TTL; what cannot be routed is left over as one packet |
| `ForwardComponent.Forwarder.RerouteQueue` | crates/mb-forward/src/lib.rs:571-575 | a batch is rerouted front to back, leftovers in order |
| `ForwardComponent.Forwarder.RerouteOrDropQueue` | crates/mb-forward/src/lib.rs:517-524 | a P2 queue is rerouted front to back, leftovers dropped where they fail |
| `ForwardComponent.Forwarder.NextPendingGeneration` | crates/mb-forward/src/lib.rs:529-537 | returns an unused generation |
| `ForwardComponent.Forwarder.HandleLinkDown` | crates/mb-forward/src/lib.rs:491-527 | P0 parked with a deadline, P1 and P3 dropped, P2 moved or dropped, in that order of actions, as `Placement.LinkLossDisposes` says |
| `ForwardComponent.Forwarder.RetryPending` | crates/mb-forward/src/lib.rs:555-585 | batches are retried in order of their generation |
| `ForwardComponent.Forwarder.HandleRoutesUpdated` | crates/mb-forward/src/lib.rs:539-553 | new routes take effect, down links without routes are forgotten, and parked batches are retried or expired |
| `ForwardComponent.Forwarder.HandleTimer` | crates/mb-forward/src/lib.rs:587-604 | early timers are set again, due ones expire the batch, stale ones do nothing |
| `ForwardComponent.Forwarder.Permit` | crates/mb-forward/src/lib.rs:393-408 | credit or permission for a link that is not down, then at most one write |
| `ForwardComponent.Forwarder.Handle` | crates/mb-forward/src/lib.rs:756-773 | every event does what the model does and, given checked packets, keeps the invariant |
| `RuntimeModel.FineEncodes` | crates/mb-runtime/src/lib.rs:1105-1116 | a packet that can reach a link always encodes, to exactly the length it was queued with |
| `RuntimeModel.ReactOk` | crates/mb-runtime/src/lib.rs:752-825 | every live link has at most one frame in flight, its credit and bytes in flight add up to one maximal frame, and it may write exactly when nothing is in flight; links refused for want of a configured peer, and their later loss, included |
| `RuntimeModel.InputsAreForwarded` | crates/mb-runtime/src/lib.rs:736-825 | the forwarder handles exactly the events that an input means (a frame of credit and a grant for a new link, the bytes of a sent frame and a grant, a loss, or the event itself), and what it sends is handed to the live links in order |
| `RuntimeModel.NeverStalls` | crates/mb-runtime/src/lib.rs:806-825 | a live link with anything queued has exactly one frame in flight |
| `RuntimeModel.FullCreditIsAmple` | crates/mb-runtime/src/lib.rs:752-763 | with a maximal frame of credit every head fits, so credit covers the heads whenever a write may start |
| `RuntimeModel.RunBalances` | crates/mb-runtime/src/lib.rs:752-825 | so at every point of every run |
| `RuntimeFairness.EffectOn` | crates/mb-runtime/src/lib.rs:736-825 | on every link that an input does not lose, the runtime acts by scheduler operations: a refill to a whole frame of credit with a write grant if the link comes up or reports a frame as sent, and offers otherwise |
| `RuntimeFairness.RunIsFair` | crates/mb-runtime/src/lib.rs:752-825 | on every run the credit books balance and every deficit of every link is modest |
| `RuntimeFairness.HeadLeavesInTime` | crates/mb-forward/src/lib.rs:437-489 | on every run, on a live link whose P0 queue is empty between inputs: once the transport has reported more frames as sent than the limit of the class, the class has sent, and its head, or what replaced it, first |
| `RuntimeFairness.BackloggedClassSpends` | crates/mb-forward/src/lib.rs:447-482 | on every run a class that stays backlogged there sends exactly the bytes of its quanta, but for the difference of two deficits of at most one maximal packet and a quantum each |
| `RuntimeFairness.SharesAreProportional` | crates/mb-forward/src/lib.rs:437-488 | on every run two classes that both stay backlogged there send bytes in proportion 14 to 5 to 1, up to three quanta and one maximal packet on each side |
| `RuntimeComponent.SeqStore.Persist` | crates/mb-runtime/src/lib.rs:86-99 | refuses exactly a lower number, and never moves backward |
| `RuntimeComponent.Driver.ExecuteForward` | crates/mb-runtime/src/lib.rs:1102-1116 | hands each encodable packet to its live link, in order |
| `RuntimeComponent.Driver.OnUp` | crates/mb-runtime/src/lib.rs:736-764 | a new link gets one maximal frame of credit and permission to write |
| `RuntimeComponent.Driver.OnRefused` | crates/mb-runtime/src/lib.rs:736-740 | a link to a peer without configured cost is not taken up: neither the forwarder nor the credit books see it |
| `RuntimeComponent.Driver.OnSent` | crates/mb-runtime/src/lib.rs:806-825 | a sent frame gives back its bytes and the permission |
| `RuntimeComponent.Driver.OnDown` | crates/mb-runtime/src/lib.rs:765-779 | a lost link is handed to the forwarder and forgotten |
| `RuntimeComponent.Driver.Handle` | crates/mb-runtime/src/lib.rs:736-825 | every input does what the model does and keeps the credit books balanced |
| `PubSubModel.AcceptTracks` | crates/mb-pubsub/src/lib.rs:375-406 | the window refines a set: a number is accepted exactly if it is new and fewer than 64 behind the newest, and bit k says whether newest minus k was accepted |
| `PubSubCore.ReceiveWindow.Accept` | crates/mb-pubsub/src/lib.rs:383-405 | the in-place window does so for every set it represents |
| `PubSubCore.Core.Publish` | crates/mb-pubsub/src/lib.rs:448-515 | rejections leave the counter alone; otherwise the next number, the own window and the multicasts |
| `PubSubCore.Core.DispatchAll` | crates/mb-pubsub/src/lib.rs:493-514 | one multicast per chunk, then the acknowledgement |
| `PubSubCore.Core.Receive` | crates/mb-pubsub/src/lib.rs:517-555 | malformed, spoofed, unknown and duplicate envelopes are reported; others go to each matching subscription, as `PubSubDelivery.ReceiveDelivers` says |
| `PubSubRuns.ChunkLimitIsPositive` | crates/mb-pubsub/src/lib.rs:497-498 | every envelope within the limit leaves room for at least one destination, and a full chunk still fits a packet |
| `PubSubRuns.ChunksPartition` | crates/mb-pubsub/src/lib.rs:499-513 | the chunks are the list, cut into canonical pieces of bounded size |
| `PubSubRuns.PublishReachesAll` | crates/mb-pubsub/src/lib.rs:448-515 | a publish is rejected whole, or addresses every subscriber but this node exactly once, in lists the forwarder accepts as they are |
| `PubSubRuns.NumbersAreGapFree` | crates/mb-pubsub/src/lib.rs:454-477 | on every run the numbers published on a topic go up by one, whatever is rejected in between |
| `PubSubRuns.DeliveredAtMostOnce` | crates/mb-pubsub/src/lib.rs:517-569 | on every run no subscription is handed the same number of an origin and topic twice |
| `PubSubDelivery.ReceiveDelivers` | crates/mb-pubsub/src/lib.rs:517-569 | an inbound envelope goes to exactly the subscriptions of its topic name with no or its own partition, if it comes from its own origin, its topic has a policy, and its number is new and fewer than 64 behind the newest |
| `PubSubDelivery.ReceiveExplains` | crates/mb-pubsub/src/lib.rs:517-553 | any other envelope is reported, with the reason that applies |
| `PubSubDelivery.HandleRefines` | crates/mb-pubsub/src/lib.rs:576-595 | every event does to the core what it does to a ledger of local and remote subscriptions, sets of numbers let through, and counters |
| `PubSubDelivery.DeliveredExactlyOnce` | crates/mb-pubsub/src/lib.rs:517-569 | on every run of a new core a subscription is handed a number of a channel exactly once if some event of the run brings it to that subscription, and otherwise not at all |
| `PubSubDelivery.PublishCarries` | crates/mb-pubsub/src/lib.rs:448-515 | a publish is rejected for exactly one of three reasons; otherwise each packet carries the encoding of the envelope with the next number, the priority of the policy, the conflatable bit exactly for latest-value P1 topics, and the hashes of topic and partition; exactly the other nodes known to subscribe are addressed, and the number is acknowledged last |
| `PubSubRuns.OwnNumberPasses` | crates/mb-pubsub/src/lib.rs:478-490 | after every run of a new core: the next own number passes the own window exactly if no inbound envelope has claimed that number, or one 64 or more ahead of it, for this node on this topic; in particular if none has named this node |
| `PubSubRuns.OwnWindowCanBeAhead` | crates/mb-pubsub/src/lib.rs:478-490 | the debug assertion on the own window can fail on the first publish of a new core, after an inbound envelope carrying this node's id |
| `PublishConflation.PublishSiblings` | crates/mb-pubsub/src/lib.rs:495-513 | the multicasts of one publish differ in nothing but their destinations, and share none of those |
| `PublishConflation.MulticastOps` | crates/mb-forward/src/lib.rs:273-343 | a published multicast acts on each link by at most one offer: its branch for that link, if there is one and the link has room or a packet to replace |
| `PublishConflation.LaterChunkOverwrites` | crates/mb-pubsub/src/lib.rs:495-509 | for any two successive chunks of a conflatable publish that both leave by some link of a forwarder: handling the second overwrites the branch of the first there exactly if that branch was admitted and could not be sent at once, and nothing else; the second addresses none of the subscribers of the first |
| `PublishConflation.ChunkIsLost` | crates/mb-pubsub/src/lib.rs:495-509 | this does happen: a publish to two subscribers, split by a large envelope, over one link that may not write loses the packet for the first subscriber |
| `Packets.CanonicalizeSpec` | crates/mb-wire/src/lib.rs:148-169 | a list is accepted exactly when it is non-empty, at most 64 long and free of repeats, and comes back as its strictly ascending permutation; each refusal names its cause and, for a repeat, an identifier that occurs twice |
| `PacketCodec.HeaderRoundTrip` | crates/mb-wire/src/lib.rs:355-405 | every header survives encoding |
| `PacketCodec.MulticastRoundTrip` | crates/mb-wire/src/lib.rs:101-145 | a canonical destination list and its body survive encoding |
| `PacketCodec.PacketRoundTrip` | crates/mb-wire/src/lib.rs:334-425 | decoding an encoded packet gives it back with its destinations sorted |
| `PacketCodec.EncodingIgnoresOrder` | crates/mb-wire/src/lib.rs:334-366 | the encoding does not depend on the order of the destinations |
| `PacketCodec.EncodedLength` | crates/mb-wire/src/lib.rs:273-282 | the length used for queue accounting is the length of the encoding |
| `PacketCodec.DecodedIsCanonical` | crates/mb-wire/src/lib.rs:368-425 | whatever decodes has canonical destinations or none, and the length it came with |
| `PacketCodec.PacketDecodesOnly` | crates/mb-wire/src/lib.rs:368-425 | whatever decodes is the wire image of a packet that encodes, with its destinations listed in some order, and decodes to that packet in canonical order |
| `PacketCodec.ListedDecodes` | crates/mb-wire/src/lib.rs:368-425 | every such image decodes |
| `Frames.DecodeOnPrefix` | crates/mb-wire/src/lib.rs:559-593 | on any prefix of a stream of frames decoding never fails, and yields the first frame as soon as it is complete |
| `Frames.DecodesExactly` | crates/mb-wire/src/lib.rs:559-593 | on all bytes: a frame comes out exactly if its encoding starts them, the decoder waits exactly for the rest of a header or of a frame, and fails exactly if no header of a frame starts them |
| `Frames.StreamingDecodes` | crates/mb-wire/src/lib.rs:538-593 | however the encoding of a list of frames is cut into chunks, exactly those frames come out, in order, with nothing left |
| `FrameReader.Reader.Decode` | crates/mb-wire/src/lib.rs:559-593 | takes one frame, asks for more, or reports the malformed field and leaves the buffer alone |
| `FrameReader.Reader.DecodeAll` | crates/mb-transport/src/lib.rs:379-394 | the decode loop ends with the frames, rest and error of the model |
| `FrameReader.Reader.ReadAll` | crates/mb-transport/src/lib.rs:379-394 | reading an encoded list of frames chunk by chunk returns that list |

## Left out

- TCP, tasks, channels, select order, wall clocks and the file format of the sequence store: the model keeps only the transport assumptions above and treats persisting as one step.
- Protobuf encoding of control frames and envelopes: serialization is a parameter or the identity. An LSA whose encoding exceeds 1 MiB (many maximal topic ads) closes its link in the transport; the network model treats every valid LSA as deliverable.
- LSA signatures and preserved bytes: the signer is the identity and the verifier accepts, as in the unsecured configuration the runtime uses.
- `stable_hash`: flow ids and conflation keys of published packets are arbitrary functions of what the source hashes; no property of the hash itself is used.
- Subscription change notices and the discovery index built from topic ads: easy, and nothing else depends on them.
- Diagnostics, snapshots and display code, the lab binaries and the unimplemented circuit overlay.
- Settling.ComesToRest: shows a schedule that comes to rest, not that every fair one does; between expiries on different nodes a network need not be settled, as `NetAgreement.ExpiryParts` shows.
- NetAgreement.ComponentAgrees: states agreement for origins not expired on the way only, because tombstones are never transferred; the exact condition is `NetAgreement.QuietLinkAgreesExactly`, and `NetAgreement.ExpiryParts` shows the failure.
- NetSafety.MoveKeeps: assumes at most 1000 nodes and 256 distinct peers per node, the limits beyond which databases and peers refuse LSAs.
- Delivery.JourneySucceeds: follows routing decisions and TTL only; a full queue can still drop the packet, as `Conservation.ClaimsAreConserved` accounts for.
- Fairness.NoStarvation: assumes credit for the heads whenever a write may start, because without it a class blocked by credit keeps collecting quanta; the runtime meets this on every run, as `RuntimeFairness.EffectOn` shows.
- RuntimeFairness.HeadLeavesInTime: counts while the P0 queue is empty between inputs; under P0 traffic strict priority lets the other classes wait without limit.
- ForwardComponent.Forwarder.Handle: does not track conflated packets, which the source does not report either; the ledger exists in the model only.
- ControlRuns.ReflectedInTime: assumes that time does not run back and that no event overtakes a due recomputation.
