/**
 * The part of the runtime that ties the forwarder to the transport: one maximal
 * frame of credit per link, one frame in flight, and both given back when the
 * transport reports the frame as sent.
 */
module RuntimeModel {
  import opened MeshTypes
  import opened Packets
  import opened PacketCodec
  import opened Scheduler
  import opened Forwarding
  import opened Conservation
  import opened ForwardInvariant
  import opened LinkTrace
  import opened CreditFlow
  import Fairness
  import Runs

  /** `inFlight` lists the payload lengths handed to each live link and not yet reported as sent. */
  datatype Runtime = Runtime(fwd: Fwd, up: set<LinkId>, seen: set<LinkId>, inFlight: map<LinkId, seq<nat>>)

  datatype Input =
    | Up(link: LinkId)
    | SentReport(link: LinkId)
    | Refused(link: LinkId)
    | DownReport(link: LinkId)
    | Other(event: ForwardEvent)

  function InFlight(rt: Runtime, k: LinkId): seq<nat> {
    if k in rt.inFlight then rt.inFlight[k] else []
  }

  /** Hands an encodable packet to its link, if that is live; other actions do not touch the transport. */
  function Handed(rt: Runtime, a: ForwardAction): Runtime {
    if a.Transmit? && EncodePacket(a.packet).Ok? && a.link in rt.up
    then rt.(inFlight := rt.inFlight[a.link := InFlight(rt, a.link) + [|EncodePacket(a.packet).value|]])
    else rt
  }

  function Execute(rt: Runtime, actions: seq<ForwardAction>): Runtime
    decreases |actions|
  {
    if actions == [] then rt else Execute(Handed(rt, actions[0]), actions[1..])
  }

  /** Credit and permission are granted together, as two events. */
  function Replenish(f: Fwd, now: Time, link: LinkId, bytes: nat): Effect {
    var credited := Forwarding.Handle(f, now, LinkCredit(link, bytes));
    Then(credited, Forwarding.Handle(credited.fwd, now, LinkWritable(link)))
  }

  /** Link ids are fresh, and the transport reports as sent or down only what it was given or has reported as up. */
  ghost predicate Possible(rt: Runtime, input: Input) {
    match input
    case Up(link) => link !in rt.seen
    case SentReport(link) => link in rt.up && InFlight(rt, link) != []
    case Refused(link) => link !in rt.seen
    case DownReport(link) => link in rt.seen
    case Other(event) => EventFine(event) && !event.LinkCredit? && !event.LinkWritable? && !event.LinkDown?
  }

  function OnUp(rt: Runtime, now: Time, link: LinkId): Runtime {
    var e := Replenish(rt.fwd, now, link, MAX_PAYLOAD_LEN);
    Execute(rt.(fwd := e.fwd, up := rt.up + {link}, seen := rt.seen + {link}), e.actions)
  }

  /** A link to a peer without a configured cost is closed again; the forwarder hears only of its end. */
  function OnRefused(rt: Runtime, link: LinkId): Runtime {
    rt.(seen := rt.seen + {link})
  }

  function OnSent(rt: Runtime, now: Time, link: LinkId): Runtime
    requires InFlight(rt, link) != []
  {
    var e := Replenish(rt.fwd, now, link, InFlight(rt, link)[0]);
    Execute(rt.(fwd := e.fwd, inFlight := rt.inFlight[link := InFlight(rt, link)[1..]]), e.actions)
  }

  function OnDown(rt: Runtime, now: Time, link: LinkId): Runtime {
    var e := HandleLinkDown(rt.fwd, now, link);
    Execute(rt.(fwd := e.fwd, up := rt.up - {link}, inFlight := rt.inFlight - {link}), e.actions)
  }

  function OnOther(rt: Runtime, now: Time, event: ForwardEvent): Runtime {
    var e := Forwarding.Handle(rt.fwd, now, event);
    Execute(rt.(fwd := e.fwd), e.actions)
  }

  function React(rt: Runtime, now: Time, input: Input): Runtime
    requires input.SentReport? ==> InFlight(rt, input.link) != []
  {
    match input
    case Up(link) => OnUp(rt, now, link)
    case SentReport(link) => OnSent(rt, now, link)
    case Refused(link) => OnRefused(rt, link)
    case DownReport(link) => OnDown(rt, now, link)
    case Other(event) => OnOther(rt, now, event)
  }

  // ------------------------------------------------------------ the invariant

  function Total(lengths: seq<nat>): nat {
    if lengths == [] then 0 else lengths[0] + Total(lengths[1..])
  }

  /** A live link's credit and bytes in flight add up to one maximal frame, and it has at most one frame in flight. */
  ghost predicate Balanced(live: bool, q: Link, lengths: seq<nat>) {
    if live then |lengths| <= 1 && q.credit + Total(lengths) == MAX_PAYLOAD_LEN && (q.writable <==> lengths == [])
    else q.credit == 0 && !q.writable && lengths == []
  }

  ghost predicate BooksOk(rt: Runtime) {
    forall k :: Balanced(k in rt.up, LinkOf(rt.fwd, k), InFlight(rt, k))
  }

  ghost predicate LinksKnown(rt: Runtime) {
    && (forall k :: k in rt.up ==> k in rt.seen && k !in rt.fwd.down)
    && (forall k :: k in rt.fwd.down ==> k in rt.seen)
  }

  ghost predicate RuntimeOk(rt: Runtime) {
    FwdOk(rt.fwd) && BooksOk(rt) && LinksKnown(rt)
  }

  // ------------------------------------------------------------ executing

  function Lengths(ps: seq<Packet>): seq<nat> {
    if ps == [] then [] else [EncodedLen(ps[0])] + Lengths(ps[1..])
  }

  /** A packet that can reach a link always encodes, to exactly the length it was queued with. */
  lemma FineEncodes(p: Packet)
    requires Fine(p)
    ensures EncodePacket(p).Ok? && |EncodePacket(p).value| == EncodedLen(p)
  {
    if p.header.packetType.Multicast? {
      CanonicalIsStable(p.destinations, p.payload);
    }
    EncodedLength(p);
  }

  lemma HandedLength(rt: Runtime, a: ForwardAction, k: LinkId)
    requires a.Transmit? ==> Fine(a.packet)
    ensures InFlight(Handed(rt, a), k) == InFlight(rt, k) + (if a.Transmit? && a.link == k && k in rt.up then [EncodedLen(a.packet)] else [])
  {
    if a.Transmit? {
      FineEncodes(a.packet);
    }
  }

  lemma {:induction false} ExecuteHands(rt: Runtime, actions: seq<ForwardAction>, k: LinkId)
    requires SendsFine(actions)
    ensures var r := Execute(rt, actions);
            && r.fwd == rt.fwd && r.up == rt.up && r.seen == rt.seen
            && InFlight(r, k) == InFlight(rt, k) + (if k in rt.up then Lengths(OnLink(actions, k)) else [])
    decreases |actions|
  {
    if actions != [] {
      var a := actions[0];
      var first := if a.Transmit? && a.link == k then [EncodedLen(a.packet)] else [];
      HandedLength(rt, a, k);
      HeadLength(actions, k);
      ExecuteHands(Handed(rt, a), actions[1..], k);
      Associates(InFlight(rt, k), first, Lengths(OnLink(actions[1..], k)));
    }
  }

  lemma HeadLength(actions: seq<ForwardAction>, k: LinkId)
    requires actions != []
    ensures var a := actions[0];
            Lengths(OnLink(actions, k)) == (if a.Transmit? && a.link == k then [EncodedLen(a.packet)] else []) + Lengths(OnLink(actions[1..], k))
  {
    var a, rest := actions[0], OnLink(actions[1..], k);
    if a.Transmit? && a.link == k {
      assert ([a.packet] + rest)[1..] == rest;
    } else {
      assert [] + rest == rest;
    }
  }

  /** Paying for what is handed over keeps the books of a live link. */
  lemma HandingOverBalances(q: Link, sent: seq<Packet>, r: Link, lengths: seq<nat>)
    requires Balanced(true, q, lengths) && Pays(q, sent, r)
    ensures Balanced(true, r, lengths + Lengths(sent))
  {
    if |sent| == 1 {
      assert sent[1..] == [] && lengths == [];
      assert Lengths(sent) == [EncodedLen(sent[0])];
      assert lengths + Lengths(sent) == [EncodedLen(sent[0])];
      assert [EncodedLen(sent[0])][1..] == [] && Total([]) == 0;
    } else {
      assert lengths + [] == lengths;
    }
  }

  // ------------------------------------------------------------ granting

  /** Replenishing grants the bytes and the permission, and then pays for at most one packet. */
  lemma ReplenishPays(f: Fwd, now: Time, link: LinkId, bytes: nat, k: LinkId)
    requires link !in f.down && !LinkOf(f, link).writable && LinkOf(f, link).credit + bytes <= U64_MAX
    ensures var e := Replenish(f, now, link, bytes);
            && (k != link ==> OnLink(e.actions, k) == [] && LinkOf(e.fwd, k) == LinkOf(f, k))
            && (k == link ==>
                  exists q: Link :: q.credit == LinkOf(f, link).credit + bytes && q.writable && Pays(q, OnLink(e.actions, k), LinkOf(e.fwd, k)))
  {
    var credited := Permit(f, link, AddCredit(bytes));
    PermitPays(f, link, AddCredit(bytes), k);
    PermitPays(f, link, AddCredit(bytes), link);
    PermitPays(credited.fwd, link, AllowWrite, k);
    OnLinkAdds(credited.actions, Permit(credited.fwd, link, AllowWrite).actions, k);
  }

  lemma ReplenishOk(f: Fwd, now: Time, link: LinkId, bytes: nat)
    requires FwdOk(f)
    ensures var e := Replenish(f, now, link, bytes); FwdOk(e.fwd) && SendsFine(e.actions) && e.fwd.down == f.down
  {
    ForwardInvariant.HandleOk(f, now, LinkCredit(link, bytes));
    var credited := Forwarding.Handle(f, now, LinkCredit(link, bytes));
    ForwardInvariant.HandleOk(credited.fwd, now, LinkWritable(link));
  }

  // ------------------------------------------------------------ which links are down

  lemma {:induction false} RetryKeepsDown(f: Fwd, now: Time, batches: map<Id, Batch>, order: seq<Id>)
    requires forall g :: g in order ==> g in batches
    ensures RetryBatches(f, now, batches, order).fwd.down == f.down
    decreases |order|
  {
    if order != [] {
      RerouteAllFrame(f, batches[order[0]].packets);
      RetryKeepsDown(RetryBatch(f, now, order[0], batches[order[0]]).fwd, now, batches, order[1..]);
    }
  }

  lemma {:induction false} RerouteOrDropKeepsDown(f: Fwd, xs: seq<Queued>)
    ensures RerouteOrDrop(f, xs).fwd.down == f.down
    decreases |xs|
  {
    if xs != [] {
      RerouteFrame(f, xs[0]);
      RerouteOrDropKeepsDown(Reroute(f, xs[0]).effect.fwd, xs[1..]);
    }
  }

  lemma DownAfterLoss(f: Fwd, now: Time, link: LinkId)
    ensures HandleLinkDown(f, now, link).fwd.down == f.down + {link}
  {
    if link in f.links {
      var closed := f.(down := f.down + {link}, links := f.links - {link});
      RerouteOrDropKeepsDown(Park(closed, now, f.links[link].queues[0]).fwd, f.links[link].queues[2]);
    }
  }

  lemma DownOnlyShrinks(f: Fwd, now: Time, event: ForwardEvent)
    requires !event.LinkDown?
    ensures Forwarding.Handle(f, now, event).fwd.down <= f.down
  {
    match event
    case Outbound(p) => ProcessFrame(f, None, p);
    case Inbound(link, p) => ProcessFrame(f, Some(link), p);
    case OutboundMulticast(ds, p) =>
      var m := MulticastPayload(ds, p.payload);
      if m.Ok? {
        ProcessFrame(f, None, Addressed(p).(destinations := m.value));
      }
    case RoutesUpdated(routes) =>
      RetryKeepsDown(f.(routes := routes, down := StillUsed(f.down, routes), pending := map[]), now, f.pending, Ascending(f.pending.Keys));
    case _ =>
  }

  // ------------------------------------------------------------ every input keeps the books

  lemma OtherOk(rt: Runtime, now: Time, event: ForwardEvent)
    requires RuntimeOk(rt) && Possible(rt, Other(event))
    ensures RuntimeOk(OnOther(rt, now, event))
  {
    var e := Forwarding.Handle(rt.fwd, now, event);
    var rt' := rt.(fwd := e.fwd);
    ForwardInvariant.HandleOk(rt.fwd, now, event);
    DownOnlyShrinks(rt.fwd, now, event);
    forall k ensures Balanced(k in rt.up, LinkOf(e.fwd, k), InFlight(Execute(rt', e.actions), k)) {
      HandlePays(rt.fwd, now, event, k);
      ExecuteHands(rt', e.actions, k);
      SettleLink(k in rt.up, LinkOf(rt.fwd, k), OnLink(e.actions, k), LinkOf(e.fwd, k), InFlight(rt, k));
    }
    ExecuteHands(rt', e.actions, 0);
  }

  lemma SettleLink(live: bool, q: Link, sent: seq<Packet>, r: Link, lengths: seq<nat>)
    requires Balanced(live, q, lengths) && Pays(q, sent, r)
    ensures Balanced(live, r, lengths + (if live then Lengths(sent) else []))
  {
    if live {
      HandingOverBalances(q, sent, r, lengths);
    } else {
      assert lengths + [] == [];
    }
  }

  lemma UpOk(rt: Runtime, now: Time, link: LinkId)
    requires RuntimeOk(rt) && link !in rt.seen
    ensures RuntimeOk(OnUp(rt, now, link))
  {
    var e := Replenish(rt.fwd, now, link, MAX_PAYLOAD_LEN);
    var rt' := rt.(fwd := e.fwd, up := rt.up + {link}, seen := rt.seen + {link});
    ReplenishOk(rt.fwd, now, link, MAX_PAYLOAD_LEN);
    assert Balanced(link in rt.up, LinkOf(rt.fwd, link), InFlight(rt, link));
    forall k ensures Balanced(k in rt'.up, LinkOf(e.fwd, k), InFlight(Execute(rt', e.actions), k)) {
      ReplenishPays(rt.fwd, now, link, MAX_PAYLOAD_LEN, k);
      ExecuteHands(rt', e.actions, k);
      if k == link {
        var q: Link :| q.credit == MAX_PAYLOAD_LEN && q.writable && Pays(q, OnLink(e.actions, k), LinkOf(e.fwd, k));
        HandingOverBalances(q, OnLink(e.actions, k), LinkOf(e.fwd, k), []);
      } else {
        SettleLink(k in rt.up, LinkOf(rt.fwd, k), [], LinkOf(e.fwd, k), InFlight(rt, k));
      }
    }
    ExecuteHands(rt', e.actions, 0);
  }

  lemma SentOk(rt: Runtime, now: Time, link: LinkId)
    requires RuntimeOk(rt) && link in rt.up && InFlight(rt, link) != []
    ensures RuntimeOk(OnSent(rt, now, link))
  {
    var bytes := InFlight(rt, link)[0];
    var e := Replenish(rt.fwd, now, link, bytes);
    var rt' := rt.(fwd := e.fwd, inFlight := rt.inFlight[link := InFlight(rt, link)[1..]]);
    ReplenishOk(rt.fwd, now, link, bytes);
    assert Balanced(true, LinkOf(rt.fwd, link), InFlight(rt, link));
    assert InFlight(rt, link)[1..] == [] && Total([]) == 0;
    forall k ensures Balanced(k in rt.up, LinkOf(e.fwd, k), InFlight(Execute(rt', e.actions), k)) {
      ReplenishPays(rt.fwd, now, link, bytes, k);
      ExecuteHands(rt', e.actions, k);
      if k == link {
        var q: Link :| q.credit == MAX_PAYLOAD_LEN && q.writable && Pays(q, OnLink(e.actions, k), LinkOf(e.fwd, k));
        HandingOverBalances(q, OnLink(e.actions, k), LinkOf(e.fwd, k), []);
      } else {
        SettleLink(k in rt.up, LinkOf(rt.fwd, k), [], LinkOf(e.fwd, k), InFlight(rt, k));
      }
    }
    ExecuteHands(rt', e.actions, 0);
  }

  lemma DownBooks(rt: Runtime, now: Time, link: LinkId, k: LinkId)
    requires RuntimeOk(rt) && link in rt.seen
    ensures var e := HandleLinkDown(rt.fwd, now, link);
            var rt' := rt.(fwd := e.fwd, up := rt.up - {link}, inFlight := rt.inFlight - {link});
            Balanced(k in rt'.up, LinkOf(e.fwd, k), InFlight(Execute(rt', e.actions), k))
  {
    var e := HandleLinkDown(rt.fwd, now, link);
    LinkDownOk(rt.fwd, now, link);
    LinkDownPays(rt.fwd, now, link, k);
    ExecuteHands(rt.(fwd := e.fwd, up := rt.up - {link}, inFlight := rt.inFlight - {link}), e.actions, k);
    if k != link {
      SettleLink(k in rt.up, LinkOf(rt.fwd, k), OnLink(e.actions, k), LinkOf(e.fwd, k), InFlight(rt, k));
    }
  }

  lemma DownKnown(rt: Runtime, r: Runtime, link: LinkId)
    requires LinksKnown(rt) && link in rt.seen
    requires r.up == rt.up - {link} && r.seen == rt.seen && r.fwd.down == rt.fwd.down + {link}
    ensures LinksKnown(r)
  {
  }

  lemma DownOk(rt: Runtime, now: Time, link: LinkId)
    requires RuntimeOk(rt) && link in rt.seen
    ensures RuntimeOk(OnDown(rt, now, link))
  {
    var e := HandleLinkDown(rt.fwd, now, link);
    var rt' := rt.(fwd := e.fwd, up := rt.up - {link}, inFlight := rt.inFlight - {link});
    var r := Execute(rt', e.actions);
    LinkDownOk(rt.fwd, now, link);
    DownAfterLoss(rt.fwd, now, link);
    ExecuteHands(rt', e.actions, 0);
    DownKnown(rt, r, link);
    forall k ensures Balanced(k in r.up, LinkOf(r.fwd, k), InFlight(r, k)) {
      DownBooks(rt, now, link, k);
    }
  }

  lemma RefusedOk(rt: Runtime, link: LinkId)
    requires RuntimeOk(rt)
    ensures RuntimeOk(OnRefused(rt, link))
  {
    forall k ensures Balanced(k in rt.up, LinkOf(rt.fwd, k), InFlight(OnRefused(rt, link), k)) {
      assert Balanced(k in rt.up, LinkOf(rt.fwd, k), InFlight(rt, k));
    }
  }

  /** Every input keeps at most one frame in flight per live link, and credit plus bytes in flight constant. */
  lemma ReactOk(rt: Runtime, now: Time, input: Input)
    requires RuntimeOk(rt) && Possible(rt, input)
    ensures RuntimeOk(React(rt, now, input))
  {
    match input
    case Up(link) => UpOk(rt, now, link);
    case SentReport(link) => SentOk(rt, now, link);
    case Refused(link) => RefusedOk(rt, link);
    case DownReport(link) => DownOk(rt, now, link);
    case Other(event) => OtherOk(rt, now, event);
  }

  // ------------------------------------------------------------ what an input amounts to

  /** The forwarder events that an input of the transport or the application means. */
  ghost function EventsOf(rt: Runtime, input: Input): seq<ForwardEvent>
    requires input.SentReport? ==> InFlight(rt, input.link) != []
  {
    match input
    case Up(link) => [LinkCredit(link, 1_048_576), LinkWritable(link)]
    case SentReport(link) => [LinkCredit(link, InFlight(rt, link)[0]), LinkWritable(link)]
    case Refused(_) => []
    case DownReport(link) => [LinkDown(link)]
    case Other(event) => [event]
  }

  ghost function AllHandled(f: Fwd, now: Time, events: seq<ForwardEvent>): Effect
    decreases |events|
  {
    if events == [] then Act(f, [])
    else
      var first := Forwarding.Handle(f, now, events[0]);
      Then(first, AllHandled(first.fwd, now, events[1..]))
  }

  lemma TwoHandled(f: Fwd, now: Time, link: LinkId, bytes: nat)
    ensures var e, r := AllHandled(f, now, [LinkCredit(link, bytes), LinkWritable(link)]), Replenish(f, now, link, bytes);
            e.fwd == r.fwd && e.actions == r.actions
  {
    var a, b := LinkCredit(link, bytes), LinkWritable(link);
    var credited := Forwarding.Handle(f, now, a);
    assert [a, b][1..] == [b] && [b][1..] == [];
    var last := Forwarding.Handle(credited.fwd, now, b);
    assert AllHandled(credited.fwd, now, [b]) == Then(last, Act(last.fwd, []));
    assert last.actions + [] == last.actions;
  }

  lemma OneHandled(f: Fwd, now: Time, event: ForwardEvent)
    ensures var e, r := AllHandled(f, now, [event]), Forwarding.Handle(f, now, event);
            e.fwd == r.fwd && e.actions == r.actions
  {
    var r := Forwarding.Handle(f, now, event);
    assert [event][1..] == [] && AllHandled(r.fwd, now, []) == Act(r.fwd, []);
    assert r.actions + [] == r.actions;
  }

  /** What is in flight on a link before the input sends anything: a reported frame is not any more. */
  function Remaining(rt: Runtime, input: Input, k: LinkId): seq<nat>
    requires input.SentReport? ==> InFlight(rt, input.link) != []
  {
    if input == DownReport(k) then [] else if input == SentReport(k) then InFlight(rt, k)[1..] else InFlight(rt, k)
  }

  ghost predicate Forwards(rt: Runtime, now: Time, input: Input, e: Effect, r: Runtime)
    requires input.SentReport? ==> InFlight(rt, input.link) != []
  {
    && r.fwd == e.fwd
    && (forall k :: k in r.up <==> input == Up(k) || (k in rt.up && input != DownReport(k)))
    && (forall k :: InFlight(r, k) == Remaining(rt, input, k) + (if k in r.up then Lengths(OnLink(e.actions, k)) else []))
  }

  /** Running the actions of `e` in the prepared state `s`. */
  lemma ExecuteForwards(rt: Runtime, now: Time, input: Input, e: Effect, s: Runtime)
    requires (input.SentReport? ==> InFlight(rt, input.link) != []) && SendsFine(e.actions) && s.fwd == e.fwd
    requires forall k :: k in s.up <==> input == Up(k) || (k in rt.up && input != DownReport(k))
    requires forall k :: InFlight(s, k) == Remaining(rt, input, k)
    ensures Forwards(rt, now, input, e, Execute(s, e.actions))
  {
    forall k ensures InFlight(Execute(s, e.actions), k) == Remaining(rt, input, k) + (if k in s.up then Lengths(OnLink(e.actions, k)) else []) {
      ExecuteHands(s, e.actions, k);
    }
    ExecuteHands(s, e.actions, 0);
  }

  lemma UpForwards(rt: Runtime, now: Time, link: LinkId, e: Effect)
    requires FwdOk(rt.fwd) && e == Replenish(rt.fwd, now, link, MAX_PAYLOAD_LEN)
    ensures Forwards(rt, now, Up(link), e, OnUp(rt, now, link))
  {
    ReplenishOk(rt.fwd, now, link, MAX_PAYLOAD_LEN);
    ExecuteForwards(rt, now, Up(link), e, rt.(fwd := e.fwd, up := rt.up + {link}, seen := rt.seen + {link}));
  }

  lemma SentForwards(rt: Runtime, now: Time, link: LinkId, e: Effect)
    requires FwdOk(rt.fwd) && InFlight(rt, link) != [] && e == Replenish(rt.fwd, now, link, InFlight(rt, link)[0])
    ensures Forwards(rt, now, SentReport(link), e, OnSent(rt, now, link))
  {
    ReplenishOk(rt.fwd, now, link, InFlight(rt, link)[0]);
    ExecuteForwards(rt, now, SentReport(link), e, rt.(fwd := e.fwd, inFlight := rt.inFlight[link := InFlight(rt, link)[1..]]));
  }

  lemma DownForwards(rt: Runtime, now: Time, link: LinkId, e: Effect)
    requires FwdOk(rt.fwd) && e == Forwarding.Handle(rt.fwd, now, LinkDown(link))
    ensures Forwards(rt, now, DownReport(link), e, OnDown(rt, now, link))
  {
    HandleOk(rt.fwd, now, LinkDown(link));
    ExecuteForwards(rt, now, DownReport(link), e, rt.(fwd := e.fwd, up := rt.up - {link}, inFlight := rt.inFlight - {link}));
  }

  lemma OtherForwards(rt: Runtime, now: Time, event: ForwardEvent, e: Effect)
    requires FwdOk(rt.fwd) && EventFine(event) && e == Forwarding.Handle(rt.fwd, now, event)
    ensures Forwards(rt, now, Other(event), e, OnOther(rt, now, event))
  {
    HandleOk(rt.fwd, now, event);
    ExecuteForwards(rt, now, Other(event), e, rt.(fwd := e.fwd));
  }

  lemma SameForwards(rt: Runtime, now: Time, input: Input, e: Effect, d: Effect, r: Runtime)
    requires (input.SentReport? ==> InFlight(rt, input.link) != []) && Forwards(rt, now, input, e, r) && d.fwd == e.fwd && d.actions == e.actions
    ensures Forwards(rt, now, input, d, r)
  {
  }

  /** The forwarder handles exactly the events an input means, and what it sends is handed to the links that are up, in order. */
  lemma InputsAreForwarded(rt: Runtime, now: Time, input: Input)
    requires RuntimeOk(rt) && Possible(rt, input)
    ensures Forwards(rt, now, input, AllHandled(rt.fwd, now, EventsOf(rt, input)), React(rt, now, input))
  {
    var e := AllHandled(rt.fwd, now, EventsOf(rt, input));
    match input
    case Up(link) =>
      TwoHandled(rt.fwd, now, link, MAX_PAYLOAD_LEN);
      UpForwards(rt, now, link, Replenish(rt.fwd, now, link, MAX_PAYLOAD_LEN));
      SameForwards(rt, now, input, Replenish(rt.fwd, now, link, MAX_PAYLOAD_LEN), e, React(rt, now, input));
    case SentReport(link) =>
      TwoHandled(rt.fwd, now, link, InFlight(rt, link)[0]);
      SentForwards(rt, now, link, Replenish(rt.fwd, now, link, InFlight(rt, link)[0]));
      SameForwards(rt, now, input, Replenish(rt.fwd, now, link, InFlight(rt, link)[0]), e, React(rt, now, input));
    case Refused(link) =>
    case DownReport(link) =>
      OneHandled(rt.fwd, now, LinkDown(link));
      DownForwards(rt, now, link, Forwarding.Handle(rt.fwd, now, LinkDown(link)));
      SameForwards(rt, now, input, Forwarding.Handle(rt.fwd, now, LinkDown(link)), e, React(rt, now, input));
    case Other(event) =>
      OneHandled(rt.fwd, now, event);
      OtherForwards(rt, now, event, Forwarding.Handle(rt.fwd, now, event));
      SameForwards(rt, now, input, Forwarding.Handle(rt.fwd, now, event), e, React(rt, now, input));
  }

  // ------------------------------------------------------------ consequences

  /** A live link with anything queued has exactly one frame in flight: it never stalls. */
  lemma NeverStalls(rt: Runtime, k: LinkId, c: nat)
    requires RuntimeOk(rt) && k in rt.up && k in rt.fwd.links && c < 4 && rt.fwd.links[k].queues[c] != []
    ensures |InFlight(rt, k)| == 1
  {
    var q := rt.fwd.links[k];
    assert Balanced(true, q, InFlight(rt, k));
    if q.writable {
      FullCreditIsAmple(k, q);
      assert false;
    }
  }

  /** With a whole frame of credit every head fits, so the fairness bounds apply whenever a write may start. */
  lemma FullCreditIsAmple(k: LinkId, q: Link)
    requires QueuesOk(k, q) && q.credit == MAX_PAYLOAD_LEN
    ensures Fairness.Ample(q) && Fairness.Bounded(q)
    ensures forall c :: 0 <= c < 4 && q.queues[c] != [] ==> HeadFits(q, c)
  {
    forall c | 0 <= c < 4 && q.queues[c] != [] ensures HeadFits(q, c) && Len(q.queues[c][0]) <= MAX_PAYLOAD_LEN {
      assert QueueOk(k, c, q.queues[c], q.queuedBytes[c]);
      assert Belongs(k, c, q.queues[c][0]);
      FineFits(q.queues[c][0].packet);
    }
  }

  datatype TimedInput = TimedInput(now: Time, input: Input)

  ghost predicate Advances(rt: Runtime, e: TimedInput, rt': Runtime) {
    Possible(rt, e.input) && rt' == React(rt, e.now, e.input)
  }

  ghost predicate Sound(rt: Runtime, n: nat) {
    RuntimeOk(rt)
  }

  /** The credit books balance throughout every run of the runtime. */
  lemma RunBalances(rts: seq<Runtime>, inputs: seq<TimedInput>, i: nat)
    requires Runs.Chain(rts, inputs, Advances) && i <= |inputs|
    requires exists me, routes :: rts[0] == Runtime(NewForwarder(me, routes), {}, {}, map[])
    ensures RuntimeOk(rts[i])
  {
    forall rt, e, rt', n: nat | Advances(rt, e, rt') && Sound(rt, n) && 0 < n ensures Sound(rt', n - 1) {
      ReactOk(rt, e.now, e.input);
    }
    assert Sound(rts[0], |inputs|);
    Runs.ChainHolds(rts, inputs, Advances, Sound, i);
    assert Sound(rts[i], |inputs| - i);
  }
}
