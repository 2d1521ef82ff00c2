/**
 * Fairness where it is promised: on every run of the runtime, whose credit
 * discipline makes each event an orderly list of operations on each live link.
 */
module RuntimeFairness {
  import opened MeshTypes
  import opened Packets
  import opened Scheduler
  import opened Fairness
  import opened Forwarding
  import opened LinkTrace
  import opened ForwardInvariant
  import opened Fifo
  import opened RuntimeModel
  import Runs

  // ------------------------------------------------------------ one link

  /** All queued packets fit a frame, and a write may start only with a whole frame of credit. */
  ghost predicate Funded(k: LinkId, q: Link) {
    QueuesOk(k, q) && (q.writable ==> q.credit == MAX_PAYLOAD_LEN)
  }

  lemma FundedIsTame(k: LinkId, q: Link)
    requires QueuesOk(k, q)
    ensures Bounded(q) && (q.writable && q.credit == MAX_PAYLOAD_LEN ==> Ample(q))
  {
    FullCreditIsAmple(k, q.(credit := MAX_PAYLOAD_LEN));
    assert forall c :: 1 <= c < 4 ==> q.(credit := MAX_PAYLOAD_LEN).queues[c] == q.queues[c];
    if q.writable && q.credit == MAX_PAYLOAD_LEN {
      FullCreditIsAmple(k, q);
    }
  }

  ghost predicate AllOffers(ops: seq<LinkOp>) {
    forall op :: op in ops ==> op.Offer?
  }

  lemma OperateFunded(k: LinkId, q: Link, op: LinkOp)
    requires Modest(q) && QueuesOk(k, q) && (op.Offer? ==> Belongs(k, op.x.packet.header.priority.Index(), op.x))
    requires Prepared(q, op).writable ==> Prepared(q, op).credit == MAX_PAYLOAD_LEN
    ensures Funded(k, Operate(q, op).link) && Modest(Operate(q, op).link)
    ensures Bounded(Prepared(q, op)) && (Prepared(q, op).writable ==> Ample(Prepared(q, op)))
  {
    var p := Prepared(q, op);
    OperateOk(k, q, op);
    FundedIsTame(k, p);
    OperateModest(q, op);
    if TrySend(p).sent.Some? {
      TrySendTakesHead(p);
    }
  }

  lemma {:induction false} OffersFunded(k: LinkId, q: Link, ops: seq<LinkOp>)
    requires Modest(q) && Funded(k, q) && AllOffers(ops) && AllBelong(k, ops)
    ensures Funded(k, AfterOps(q, ops)) && Modest(AfterOps(q, ops))
    decreases |ops|
  {
    if ops != [] {
      OperateFunded(k, q, ops[0]);
      OffersFunded(k, Operate(q, ops[0]).link, ops[1..]);
    }
  }

  /** A refill brings the credit to a whole frame and permits a write. */
  ghost predicate IsRefill(q: Link, ops: seq<LinkOp>) {
    |ops| == 2 && ops[0].AddCredit? && ops[1].AllowWrite? && !q.writable && q.credit + ops[0].bytes == MAX_PAYLOAD_LEN
  }

  lemma RefillFunded(k: LinkId, q: Link, ops: seq<LinkOp>)
    requires Modest(q) && QueuesOk(k, q) && IsRefill(q, ops)
    ensures Funded(k, AfterOps(q, ops)) && Modest(AfterOps(q, ops))
  {
    OperateFunded(k, q, ops[0]);
    OperateFunded(k, Operate(q, ops[0]).link, ops[1]);
    TwoOps(q, ops);
  }

  // ------------------------------------------------------------ one input

  /** What an input makes the forwarder do. */
  function EffectOf(rt: Runtime, e: TimedInput): Effect {
    match e.input
    case Up(link) => Replenish(rt.fwd, e.now, link, MAX_PAYLOAD_LEN)
    case SentReport(link) =>
      if InFlight(rt, link) == [] then Act(rt.fwd, []) else Replenish(rt.fwd, e.now, link, InFlight(rt, link)[0])
    case Refused(link) => Act(rt.fwd, [])
    case DownReport(link) => HandleLinkDown(rt.fwd, e.now, link)
    case Other(event) => Forwarding.Handle(rt.fwd, e.now, event)
  }

  function InputOps(rt: Runtime, e: TimedInput, k: LinkId): seq<LinkOp> {
    OpsOn(EffectOf(rt, e).trace, k)
  }

  /** The packets that an input makes the forwarder send on link `k`. */
  function InputSent(rt: Runtime, e: TimedInput, k: LinkId): seq<Packet> {
    OnLink(EffectOf(rt, e).actions, k)
  }

  /** A grant acts on its own link only. */
  lemma PermitOn(f: Fwd, link: LinkId, op: LinkOp, k: LinkId)
    requires link !in f.down && !op.Offer?
    ensures var e := Permit(f, link, op);
            && Acts(k, LinkOf(f, k), OpsOn(e.trace, k), OnLink(e.actions, k), LinkOf(e.fwd, k))
            && OpsOn(e.trace, k) == if k == link then [op] else []
  {
    HandleOn(f, 0, if op.AddCredit? then LinkCredit(link, op.bytes) else LinkWritable(link), k);
    OpsOnSingle(link, op, k);
  }

  lemma ReplenishOn(f: Fwd, now: Time, link: LinkId, bytes: nat, k: LinkId)
    requires link !in f.down
    ensures var e := Replenish(f, now, link, bytes);
            && Acts(k, LinkOf(f, k), OpsOn(e.trace, k), OnLink(e.actions, k), LinkOf(e.fwd, k))
            && OpsOn(e.trace, k) == if k == link then [AddCredit(bytes), AllowWrite] else []
  {
    var a := Permit(f, link, AddCredit(bytes));
    PermitOn(f, link, AddCredit(bytes), k);
    AgainOn(f, a, link, k);
    assert Replenish(f, now, link, bytes) == Then(a, Permit(a.fwd, link, AllowWrite));
  }

  lemma AgainOn(f: Fwd, a: Effect, link: LinkId, k: LinkId)
    requires link !in a.fwd.down && Acts(k, LinkOf(f, k), OpsOn(a.trace, k), OnLink(a.actions, k), LinkOf(a.fwd, k))
    ensures var e := Then(a, Permit(a.fwd, link, AllowWrite));
            && Acts(k, LinkOf(f, k), OpsOn(e.trace, k), OnLink(e.actions, k), LinkOf(e.fwd, k))
            && OpsOn(e.trace, k) == OpsOn(a.trace, k) + if k == link then [AllowWrite] else []
  {
    PermitOn(a.fwd, link, AllowWrite, k);
    ThenOn(f, a, Permit(a.fwd, link, AllowWrite), k);
  }

  lemma ThenOn(f: Fwd, a: Effect, b: Effect, k: LinkId)
    requires Acts(k, LinkOf(f, k), OpsOn(a.trace, k), OnLink(a.actions, k), LinkOf(a.fwd, k))
    requires Acts(k, LinkOf(a.fwd, k), OpsOn(b.trace, k), OnLink(b.actions, k), LinkOf(b.fwd, k))
    ensures var e := Then(a, b);
            && Acts(k, LinkOf(f, k), OpsOn(e.trace, k), OnLink(e.actions, k), LinkOf(e.fwd, k))
            && OpsOn(e.trace, k) == OpsOn(a.trace, k) + OpsOn(b.trace, k)
  {
    OpsOnAdds(a.trace, b.trace, k);
    OnLinkAdds(a.actions, b.actions, k);
    ActsThen(k, LinkOf(f, k), OpsOn(a.trace, k), OnLink(a.actions, k), LinkOf(a.fwd, k), OpsOn(b.trace, k), OnLink(b.actions, k), LinkOf(b.fwd, k));
  }

  /** The operations of an input on link `k`: a refill if the link comes up or reports a frame as sent, offers otherwise. */
  ghost predicate OpsFollow(rt: Runtime, e: TimedInput, k: LinkId, ops: seq<LinkOp>) {
    if e.input == Up(k) || e.input == SentReport(k) then IsRefill(LinkOf(rt.fwd, k), ops) else AllOffers(ops)
  }

  lemma EventOn(f: Fwd, now: Time, event: ForwardEvent, k: LinkId)
    requires FwdOk(f) && EventFine(event) && !event.LinkCredit? && !event.LinkWritable?
    ensures var e := Forwarding.Handle(f, now, event);
            && Acts(k, LinkIn(Surviving(f, event), k), OpsOn(e.trace, k), OnLink(e.actions, k), LinkOf(e.fwd, k))
            && AllOffers(OpsOn(e.trace, k))
  {
    HandleOn(f, now, event, k);
    HandleOk(f, now, event);
    OpsOnMembers(Forwarding.Handle(f, now, event).trace, k);
  }

  ghost predicate ActsOn(rt: Runtime, e: TimedInput, k: LinkId, effect: Effect) {
    var q := if e.input == DownReport(k) then NewLink else LinkOf(rt.fwd, k);
    && Acts(k, q, OpsOn(effect.trace, k), OnLink(effect.actions, k), LinkOf(effect.fwd, k))
    && OpsFollow(rt, e, k, OpsOn(effect.trace, k))
  }

  lemma RefillOn(rt: Runtime, e: TimedInput, link: LinkId, bytes: nat, k: LinkId)
    requires link !in rt.fwd.down && (e.input == Up(link) || e.input == SentReport(link))
    requires !LinkOf(rt.fwd, link).writable && LinkOf(rt.fwd, link).credit + bytes == MAX_PAYLOAD_LEN
    ensures ActsOn(rt, e, k, Replenish(rt.fwd, e.now, link, bytes))
  {
    ReplenishOn(rt.fwd, e.now, link, bytes, k);
  }

  lemma LossOn(rt: Runtime, e: TimedInput, link: LinkId, k: LinkId)
    requires FwdOk(rt.fwd) && e.input == DownReport(link)
    ensures ActsOn(rt, e, k, HandleLinkDown(rt.fwd, e.now, link))
  {
    EventOn(rt.fwd, e.now, ForwardEvent.LinkDown(link), k);
    assert LinkIn(rt.fwd.links - {link}, k) == if k == link then NewLink else LinkOf(rt.fwd, k);
  }

  lemma OtherOn(rt: Runtime, e: TimedInput, k: LinkId)
    requires FwdOk(rt.fwd) && Possible(rt, e.input) && e.input.Other?
    ensures ActsOn(rt, e, k, Forwarding.Handle(rt.fwd, e.now, e.input.event))
  {
    EventOn(rt.fwd, e.now, e.input.event, k);
  }

  /** On every link that an input does not lose, the runtime acts by orderly operations of the link scheduler. */
  lemma EffectOn(rt: Runtime, e: TimedInput, k: LinkId)
    requires RuntimeOk(rt) && Possible(rt, e.input)
    ensures ActsOn(rt, e, k, EffectOf(rt, e))
  {
    match e.input
    case Up(link) =>
      assert Balanced(link in rt.up, LinkOf(rt.fwd, link), InFlight(rt, link));
      RefillOn(rt, e, link, MAX_PAYLOAD_LEN, k);
    case SentReport(link) =>
      assert Balanced(link in rt.up, LinkOf(rt.fwd, link), InFlight(rt, link));
      assert InFlight(rt, link)[1..] == [] && Total([]) == 0;
      RefillOn(rt, e, link, InFlight(rt, link)[0], k);
    case Refused(link) =>
    case DownReport(link) => LossOn(rt, e, link, k);
    case Other(event) => OtherOn(rt, e, k);
  }

  lemma EffectSendsFine(rt: Runtime, e: TimedInput)
    requires RuntimeOk(rt) && Possible(rt, e.input)
    ensures SendsFine(EffectOf(rt, e).actions)
  {
    match e.input
    case Up(link) => ReplenishOk(rt.fwd, e.now, link, MAX_PAYLOAD_LEN);
    case SentReport(link) => ReplenishOk(rt.fwd, e.now, link, InFlight(rt, link)[0]);
    case Refused(link) =>
    case DownReport(link) => LinkDownOk(rt.fwd, e.now, link);
    case Other(event) => HandleOk(rt.fwd, e.now, event);
  }

  lemma ReactActs(rt: Runtime, e: TimedInput)
    requires e.input.SentReport? ==> InFlight(rt, e.input.link) != []
    requires SendsFine(EffectOf(rt, e).actions)
    ensures var r := React(rt, e.now, e.input);
            r.fwd == EffectOf(rt, e).fwd && forall k :: k in rt.up && e.input != DownReport(k) ==> k in r.up
  {
    match e.input
    case Up(link) => ExecuteHands(rt.(fwd := EffectOf(rt, e).fwd, up := rt.up + {link}, seen := rt.seen + {link}), EffectOf(rt, e).actions, 0);
    case SentReport(link) =>
      ExecuteHands(rt.(fwd := EffectOf(rt, e).fwd, inFlight := rt.inFlight[link := InFlight(rt, link)[1..]]), EffectOf(rt, e).actions, 0);
    case Refused(link) =>
    case DownReport(link) =>
      ExecuteHands(rt.(fwd := EffectOf(rt, e).fwd, up := rt.up - {link}, inFlight := rt.inFlight - {link}), EffectOf(rt, e).actions, 0);
    case Other(event) => ExecuteHands(rt.(fwd := EffectOf(rt, e).fwd), EffectOf(rt, e).actions, 0);
  }

  // ------------------------------------------------------------ modest deficits on every run

  ghost predicate LinksModest(f: Fwd) {
    forall k :: Modest(LinkOf(f, k))
  }

  ghost predicate Fair(rt: Runtime) {
    RuntimeOk(rt) && LinksModest(rt.fwd)
  }

  lemma LinkIsFunded(rt: Runtime, k: LinkId)
    requires RuntimeOk(rt)
    ensures Funded(k, LinkOf(rt.fwd, k))
  {
    assert Balanced(k in rt.up, LinkOf(rt.fwd, k), InFlight(rt, k));
    NewLinkOk(k);
  }

  lemma OpsModest(k: LinkId, q: Link, ops: seq<LinkOp>)
    requires Modest(q) && Funded(k, q) && AllBelong(k, ops) && (IsRefill(q, ops) || AllOffers(ops))
    ensures Modest(AfterOps(q, ops))
  {
    if IsRefill(q, ops) {
      RefillFunded(k, q, ops);
    } else {
      OffersFunded(k, q, ops);
    }
  }

  lemma InputModest(rt: Runtime, e: TimedInput, k: LinkId, effect: Effect)
    requires Funded(k, LinkOf(rt.fwd, k)) && Modest(LinkOf(rt.fwd, k)) && ActsOn(rt, e, k, effect)
    ensures Modest(LinkOf(effect.fwd, k))
  {
    if e.input == DownReport(k) {
      NewLinkOk(k);
      OpsModest(k, NewLink, OpsOn(effect.trace, k));
    } else {
      OpsModest(k, LinkOf(rt.fwd, k), OpsOn(effect.trace, k));
    }
  }

  /** Every input keeps the credit books balanced and every deficit modest. */
  lemma ReactFair(rt: Runtime, e: TimedInput)
    requires Fair(rt) && Possible(rt, e.input)
    ensures Fair(React(rt, e.now, e.input))
  {
    ReactOk(rt, e.now, e.input);
    EffectSendsFine(rt, e);
    ReactActs(rt, e);
    forall k ensures Modest(LinkOf(EffectOf(rt, e).fwd, k)) {
      EffectOn(rt, e, k);
      LinkIsFunded(rt, k);
      InputModest(rt, e, k, EffectOf(rt, e));
    }
  }

  ghost predicate FairAt(rt: Runtime, n: nat) {
    Fair(rt)
  }

  /** A runtime that has just started. */
  ghost predicate Starts(rt: Runtime) {
    exists me, routes :: rt == Runtime(NewForwarder(me, routes), {}, {}, map[])
  }

  lemma RunIsFair(rts: seq<Runtime>, inputs: seq<TimedInput>, i: nat)
    requires Runs.Chain(rts, inputs, Advances) && Starts(rts[0]) && i <= |inputs|
    ensures Fair(rts[i])
  {
    forall rt, e, rt', n: nat | Advances(rt, e, rt') && FairAt(rt, n) && 0 < n ensures FairAt(rt', n - 1) {
      ReactFair(rt, e);
    }
    assert FairAt(rts[0], |inputs|);
    Runs.ChainHolds(rts, inputs, Advances, FairAt, i);
    assert FairAt(rts[i], |inputs| - i);
  }

  // ------------------------------------------------------------ a class waits on one link

  ghost predicate NoneOf(ps: seq<Packet>, c: nat) {
    forall p :: p in ps ==> p.header.priority.Index() != c
  }

  lemma {:induction false} NoSlots(ps: seq<Packet>, c: nat)
    ensures NoneOf(ps, c) <==> SlotsIn(ps, c) == []
  {
    if ps != [] {
      NoSlots(ps[1..], c);
    }
  }

  /** A class that nothing is sent from stays backlogged. */
  lemma ClassStays(k: LinkId, q: Link, ops: seq<LinkOp>, c: nat)
    requires QueuesOk(k, q) && AllBelong(k, ops) && c < 4 && q.queues[c] != [] && NoneOf(SentBy(q, ops), c)
    ensures AfterOps(q, ops).queues[c] != []
  {
    AllLeaveInClass(k, q, ops, c);
    NoSlots(SentBy(q, ops), c);
    FirstInFirstOut(q, ops, c);
    assert |Slots(AfterOps(q, ops).queues[c])| >= |Slots(q.queues[c])|;
  }

  lemma OfferWaits(k: LinkId, q: Link, op: LinkOp, i: nat)
    requires i < 3 && QueuesOk(k, q) && !q.writable && op.Offer? && Belongs(k, op.x.packet.header.priority.Index(), op.x)
    requires q.queues[i + 1] != []
    ensures var r := Operate(q, op);
            && r.sent.None? && r.link == Prepared(q, op) && QueuesOk(k, r.link) && !r.link.writable && Bounded(r.link)
            && r.link.queues[i + 1] != [] && |q.queues[0]| <= |r.link.queues[0]|
  {
    OperateOk(k, q, op);
    FundedIsTame(k, Prepared(q, op));
  }

  /** While a link may not write, offers leave a backlogged class backlogged and can only add to P0. */
  lemma {:induction false} OffersWait(k: LinkId, q: Link, ops: seq<LinkOp>, i: nat)
    requires i < 3 && QueuesOk(k, q) && !q.writable && AllOffers(ops) && AllBelong(k, ops)
    requires q.queues[i + 1] != [] && AfterOps(q, ops).queues[0] == []
    ensures q.queues[0] == [] && AlwaysBacklogged(q, ops, i) && WriteGrants(ops) == 0
    decreases |ops|
  {
    if ops != [] {
      OfferWaits(k, q, ops[0], i);
      OffersWait(k, Operate(q, ops[0]).link, ops[1..], i);
    }
  }

  lemma RefillWaits(k: LinkId, q: Link, ops: seq<LinkOp>, i: nat)
    requires i < 3 && QueuesOk(k, q) && IsRefill(q, ops)
    requires q.queues[0] == [] && q.queues[i + 1] != [] && AfterOps(q, ops).queues[i + 1] != []
    ensures AlwaysBacklogged(q, ops, i) && WriteGrants(ops) == 1
  {
    var r := Operate(q, ops[0]).link;
    FundedIsTame(k, Prepared(q, ops[0]));
    FundedIsTame(k, Prepared(r, ops[1]));
    TwoOps(q, ops);
    assert ops[1..] == [ops[1]] && [ops[1]][1..] == [];
    assert AlwaysBacklogged(r, [ops[1]], i) && WriteGrants([ops[1]]) == 1;
  }

  /** A backlogged class from which nothing is sent is passed over. */
  lemma {:induction false} BackloggedPasses(k: LinkId, q: Link, ops: seq<LinkOp>, i: nat)
    requires i < 3 && QueuesOk(k, q) && AllBelong(k, ops) && AlwaysBacklogged(q, ops, i) && q.queues[i + 1] != []
    requires NoneOf(SentBy(q, ops), i + 1)
    ensures PassesOver(q, ops, i, MAX_PAYLOAD_LEN)
    decreases |ops|
  {
    if ops != [] {
      var p, r := Prepared(q, ops[0]), Operate(q, ops[0]);
      OperateOk(k, q, ops[0]);
      assert r.sent.Some? ==> r.sent.value.packet in SentBy(q, ops);
      if r.sent.Some? {
        TrySendTakesHead(p);
        var c := NextClass(p).value;
        assert QueueOk(k, c, p.queues[c], p.queuedBytes[c]);
        assert Belongs(k, c, p.queues[c][0]);
      }
      assert p.queues[i + 1] != [];
      BackloggedPasses(k, r.link, ops[1..], i);
    }
  }

  // ------------------------------------------------------------ a class waits on a run

  /** The operations on link `k`, input by input. */
  ghost function Operations(rts: seq<Runtime>, inputs: seq<TimedInput>, k: LinkId): (r: seq<seq<LinkOp>>)
    requires |inputs| < |rts|
    ensures |r| == |inputs| && forall j :: 0 <= j < |inputs| ==> r[j] == InputOps(rts[j], inputs[j], k)
  {
    seq(|inputs|, j requires 0 <= j < |inputs| => InputOps(rts[j], inputs[j], k))
  }

  /** The operations on link `k` by inputs `m` to `n`. */
  ghost function OpsAlong(rts: seq<Runtime>, inputs: seq<TimedInput>, m: nat, n: nat, k: LinkId): seq<LinkOp>
    requires m <= n <= |inputs| < |rts|
  {
    Runs.Joined(Operations(rts, inputs, k), m, n)
  }

  /** Link `k`, state by state. */
  ghost function LinkStates(rts: seq<Runtime>, k: LinkId): (r: seq<Link>)
    ensures |r| == |rts| && forall j :: 0 <= j < |rts| ==> r[j] == LinkOf(rts[j].fwd, k)
  {
    seq(|rts|, j requires 0 <= j < |rts| => LinkOf(rts[j].fwd, k))
  }

  /** The packets sent on link `k`, input by input. */
  ghost function Sendings(rts: seq<Runtime>, inputs: seq<TimedInput>, k: LinkId): (r: seq<seq<Packet>>)
    requires |inputs| < |rts|
    ensures |r| == |inputs| && forall j :: 0 <= j < |inputs| ==> r[j] == InputSent(rts[j], inputs[j], k)
  {
    seq(|inputs|, j requires 0 <= j < |inputs| => InputSent(rts[j], inputs[j], k))
  }

  /** The packets sent on link `k` by inputs `m` to `n`. */
  ghost function SentAlong(rts: seq<Runtime>, inputs: seq<TimedInput>, m: nat, n: nat, k: LinkId): seq<Packet>
    requires m <= n <= |inputs| < |rts|
  {
    Runs.Joined(Sendings(rts, inputs, k), m, n)
  }

  /** One for each report that a frame on link `k` was sent, input by input. */
  ghost function ReportsOf(inputs: seq<TimedInput>, k: LinkId): (r: seq<nat>)
    ensures |r| == |inputs| && forall j :: 0 <= j < |inputs| ==> r[j] == if inputs[j].input == SentReport(k) then 1 else 0
  {
    seq(|inputs|, j requires 0 <= j < |inputs| => if inputs[j].input == SentReport(k) then 1 else 0)
  }

  ghost function Sum(ns: seq<nat>, m: nat, n: nat): nat
    requires m <= n <= |ns|
    decreases n
  {
    if m == n then 0 else Sum(ns, m, n - 1) + ns[n - 1]
  }

  /** How often the transport reports a frame on link `k` as sent. */
  ghost function Reports(inputs: seq<TimedInput>, m: nat, n: nat, k: LinkId): nat
    requires m <= n <= |inputs|
  {
    Sum(ReportsOf(inputs, k), m, n)
  }

  /** The link is live, and the class at `i` is backlogged while P0 is empty. */
  ghost predicate Waiting(rt: Runtime, k: LinkId, i: nat)
    requires i < 3
  {
    var q := LinkOf(rt.fwd, k);
    k in rt.up && q.queues[0] == [] && q.queues[i + 1] != []
  }

  lemma WaitingCannotWrite(rt: Runtime, k: LinkId, i: nat)
    requires i < 3 && RuntimeOk(rt) && Waiting(rt, k, i)
    ensures QueuesOk(k, LinkOf(rt.fwd, k)) && !LinkOf(rt.fwd, k).writable && InFlight(rt, k) != []
  {
    LinkIsFunded(rt, k);
    NeverStalls(rt, k, i + 1);
    assert Balanced(true, LinkOf(rt.fwd, k), InFlight(rt, k));
  }

  /** The operations lead from `q` to `r` and send `sent`, the class at `i` stays backlogged, and writes are granted so often. */
  ghost predicate WaitsFor(k: LinkId, i: nat, q: Link, ops: seq<LinkOp>, sent: seq<Packet>, r: Link, grants: nat)
    requires i < 3
  {
    Acts(k, q, ops, sent, r) && AlwaysBacklogged(q, ops, i) && WriteGrants(ops) == grants
  }

  lemma WaitsThen(
    k: LinkId, i: nat, q: Link, ops: seq<LinkOp>, sent: seq<Packet>, r: Link, a: nat, more: seq<LinkOp>, later: seq<Packet>, s: Link, b: nat)
    requires i < 3 && WaitsFor(k, i, q, ops, sent, r, a) && WaitsFor(k, i, r, more, later, s, b)
    ensures WaitsFor(k, i, q, ops + more, sent + later, s, a + b)
  {
    ActsThen(k, q, ops, sent, r, more, later, s);
    BackloggedAdds(q, ops, more, i);
    WriteGrantsAdd(ops, more);
  }

  ghost predicate StepWaits(rt: Runtime, e: TimedInput, rt': Runtime, k: LinkId, i: nat)
    requires i < 3
  {
    WaitsFor(k, i, LinkOf(rt.fwd, k), InputOps(rt, e, k), InputSent(rt, e, k), LinkOf(rt'.fwd, k), if e.input == SentReport(k) then 1 else 0)
  }

  /** One input while a class waits: its operations on the link are orderly, with a write grant exactly for a report. */
  lemma InputWaits(rt: Runtime, e: TimedInput, rt': Runtime, k: LinkId, i: nat)
    requires i < 3 && RuntimeOk(rt) && Advances(rt, e, rt') && Waiting(rt, k, i) && Waiting(rt', k, i) && e.input != DownReport(k)
    ensures StepWaits(rt, e, rt', k, i)
  {
    EffectOn(rt, e, k);
    EffectSendsFine(rt, e);
    ReactActs(rt, e);
    WaitingCannotWrite(rt, k, i);
    if e.input == SentReport(k) {
      RefillWaits(k, LinkOf(rt.fwd, k), InputOps(rt, e, k), i);
    } else {
      assert e.input != Up(k);
      OffersWait(k, LinkOf(rt.fwd, k), InputOps(rt, e, k), i);
    }
  }

  lemma {:induction false} ChainWaits(
    k: LinkId, i: nat, links: seq<Link>, ops: seq<seq<LinkOp>>, sent: seq<seq<Packet>>, grants: seq<nat>, m: nat, n: nat)
    requires i < 3 && m <= n <= |ops| == |sent| == |grants| == |links| - 1
    requires forall j :: m <= j < n ==> WaitsFor(k, i, links[j], ops[j], sent[j], links[j + 1], grants[j])
    ensures WaitsFor(k, i, links[m], Runs.Joined(ops, m, n), Runs.Joined(sent, m, n), links[n], Sum(grants, m, n))
    decreases n
  {
    if m < n {
      ChainWaits(k, i, links, ops, sent, grants, m, n - 1);
      assert WaitsFor(k, i, links[n - 1], ops[n - 1], sent[n - 1], links[n - 1 + 1], grants[n - 1]);
      WaitsThen(k, i, links[m], Runs.Joined(ops, m, n - 1), Runs.Joined(sent, m, n - 1), links[n - 1], Sum(grants, m, n - 1),
                ops[n - 1], sent[n - 1], links[n], grants[n - 1]);
    }
  }

  /** While a class waits on a run, the operations on its link are orderly, with one write grant per report. */
  lemma RunWaits(rts: seq<Runtime>, inputs: seq<TimedInput>, m: nat, n: nat, k: LinkId, i: nat)
    requires i < 3 && m <= n <= |inputs| && Runs.Chain(rts, inputs, Advances)
    requires forall j :: m <= j <= n ==> RuntimeOk(rts[j]) && Waiting(rts[j], k, i)
    requires forall j :: m <= j < n ==> inputs[j].input != DownReport(k)
    ensures WaitsFor(k, i, LinkOf(rts[m].fwd, k), OpsAlong(rts, inputs, m, n, k), SentAlong(rts, inputs, m, n, k),
                     LinkOf(rts[n].fwd, k), Reports(inputs, m, n, k))
  {
    forall j | m <= j < n ensures StepWaits(rts[j], inputs[j], rts[j + 1], k, i) {
      assert Advances(rts[j], inputs[j], rts[j + 1]);
      InputWaits(rts[j], inputs[j], rts[j + 1], k, i);
    }
    ChainWaits(k, i, LinkStates(rts, k), Operations(rts, inputs, k), Sendings(rts, inputs, k), ReportsOf(inputs, k), m, n);
  }

  /** The link stays live from `m` to `n`, with no P0 packet queued at any point between inputs. */
  ghost predicate Undisturbed(rts: seq<Runtime>, inputs: seq<TimedInput>, m: nat, n: nat, k: LinkId)
    requires m <= n <= |inputs| < |rts|
  {
    && k in rts[m].up
    && (forall j :: m <= j < n ==> inputs[j].input != DownReport(k))
    && (forall j :: m <= j <= n ==> LinkOf(rts[j].fwd, k).queues[0] == [])
  }

  lemma InputKeepsWaiting(rt: Runtime, e: TimedInput, rt': Runtime, k: LinkId, i: nat)
    requires i < 3 && RuntimeOk(rt) && Advances(rt, e, rt') && Waiting(rt, k, i) && e.input != DownReport(k)
    requires LinkOf(rt'.fwd, k).queues[0] == [] && NoneOf(InputSent(rt, e, k), i + 1)
    ensures Waiting(rt', k, i)
  {
    EffectOn(rt, e, k);
    EffectSendsFine(rt, e);
    ReactActs(rt, e);
    WaitingCannotWrite(rt, k, i);
    ClassStays(k, LinkOf(rt.fwd, k), InputOps(rt, e, k), i + 1);
  }

  ghost predicate StaysWaiting(rt: Runtime, rt': Runtime, k: LinkId, i: nat)
    requires i < 3
  {
    Waiting(rt, k, i) ==> Waiting(rt', k, i)
  }

  lemma {:induction false} StepsKeepWaiting(rts: seq<Runtime>, m: nat, n: nat, k: LinkId, i: nat)
    requires i < 3 && m <= n < |rts| && Waiting(rts[m], k, i)
    requires forall j :: m <= j < n ==> StaysWaiting(rts[j], rts[j + 1], k, i)
    ensures Waiting(rts[n], k, i)
    decreases n
  {
    if m < n {
      StepsKeepWaiting(rts, m, n - 1, k, i);
      assert StaysWaiting(rts[n - 1], rts[n - 1 + 1], k, i);
    }
  }

  lemma KeepsWaiting(rts: seq<Runtime>, inputs: seq<TimedInput>, m: nat, n: nat, k: LinkId, i: nat)
    requires i < 3 && m <= n <= |inputs| && Runs.Chain(rts, inputs, Advances) && Undisturbed(rts, inputs, m, n, k)
    requires forall j :: m <= j <= n ==> RuntimeOk(rts[j])
    requires Waiting(rts[m], k, i) && forall j :: m <= j < n ==> NoneOf(InputSent(rts[j], inputs[j], k), i + 1)
    ensures forall j :: m <= j <= n ==> Waiting(rts[j], k, i)
  {
    forall j | m <= j < n ensures StaysWaiting(rts[j], rts[j + 1], k, i) {
      if Waiting(rts[j], k, i) {
        assert Advances(rts[j], inputs[j], rts[j + 1]);
        InputKeepsWaiting(rts[j], inputs[j], rts[j + 1], k, i);
      }
    }
    forall j | m <= j <= n ensures Waiting(rts[j], k, i) {
      StepsKeepWaiting(rts, m, j, k, i);
    }
  }

  lemma AllFair(rts: seq<Runtime>, inputs: seq<TimedInput>)
    requires Runs.Chain(rts, inputs, Advances) && Starts(rts[0])
    ensures forall j :: 0 <= j <= |inputs| ==> Fair(rts[j])
  {
    forall j | 0 <= j <= |inputs| ensures Fair(rts[j]) {
      RunIsFair(rts, inputs, j);
    }
  }

  lemma PassedOverBriefly(rts: seq<Runtime>, inputs: seq<TimedInput>, m: nat, n: nat, k: LinkId, i: nat)
    requires i < 3 && m <= n <= |inputs| && Runs.Chain(rts, inputs, Advances) && Undisturbed(rts, inputs, m, n, k)
    requires forall j :: m <= j <= n ==> Fair(rts[j])
    requires Waiting(rts[m], k, i) && NoneOf(SentAlong(rts, inputs, m, n, k), i + 1)
    ensures Reports(inputs, m, n, k) <= WaitLimit(i)
  {
    var q, ops := LinkOf(rts[m].fwd, k), OpsAlong(rts, inputs, m, n, k);
    forall j | m <= j < n ensures NoneOf(InputSent(rts[j], inputs[j], k), i + 1) {
      forall p | p in InputSent(rts[j], inputs[j], k) ensures p.header.priority.Index() != i + 1 {
        Runs.JoinedHolds(Sendings(rts, inputs, k), m, n, j, p);
      }
    }
    KeepsWaiting(rts, inputs, m, n, k, i);
    RunWaits(rts, inputs, m, n, k, i);
    WaitingCannotWrite(rts[m], k, i);
    BackloggedPasses(k, q, ops, i);
    NoStarvation(q, ops, i, MAX_PAYLOAD_LEN);
    BudgetIsSmall(q, i, MAX_PAYLOAD_LEN);
  }

  ghost predicate StepActs(rt: Runtime, e: TimedInput, rt': Runtime, k: LinkId) {
    Acts(k, LinkOf(rt.fwd, k), InputOps(rt, e, k), InputSent(rt, e, k), LinkOf(rt'.fwd, k))
  }

  /** What is sent first from a backlogged class on a link that stays live is the head, or what has replaced it. */
  lemma HeadLeavesFirst(rts: seq<Runtime>, inputs: seq<TimedInput>, m: nat, n: nat, k: LinkId, c: nat)
    requires c < 4 && m <= n <= |inputs| && Runs.Chain(rts, inputs, Advances)
    requires forall j :: m <= j <= n ==> RuntimeOk(rts[j])
    requires forall j :: m <= j < n ==> inputs[j].input != DownReport(k)
    requires LinkOf(rts[m].fwd, k).queues[c] != [] && SlotsIn(SentAlong(rts, inputs, m, n, k), c) != []
    ensures SlotsIn(SentAlong(rts, inputs, m, n, k), c)[0] == SlotOf(LinkOf(rts[m].fwd, k).queues[c][0].packet)
  {
    var q, ops := LinkOf(rts[m].fwd, k), OpsAlong(rts, inputs, m, n, k);
    forall j | m <= j < n ensures StepActs(rts[j], inputs[j], rts[j + 1], k) {
      assert Advances(rts[j], inputs[j], rts[j + 1]);
      EffectOn(rts[j], inputs[j], k);
      EffectSendsFine(rts[j], inputs[j]);
      ReactActs(rts[j], inputs[j]);
    }
    ChainActs(k, LinkStates(rts, k), Operations(rts, inputs, k), Sendings(rts, inputs, k), m, n);
    LinkIsFunded(rts[m], k);
    AllLeaveInClass(k, q, ops, c);
    FirstInFirstOut(q, ops, c);
    HeadOfSum(SlotsIn(SentAlong(rts, inputs, m, n, k), c), Slots(LinkOf(rts[n].fwd, k).queues[c]), Slots(q.queues[c]), AllJoin(q, ops, c));
  }

  lemma HeadOfSum<T>(a: seq<T>, b: seq<T>, c: seq<T>, d: seq<T>)
    requires a + b == c + d && a != [] && c != []
    ensures a[0] == c[0]
  {
    assert (a + b)[0] == a[0] && (c + d)[0] == c[0];
  }

  lemma ClassSends(rts: seq<Runtime>, inputs: seq<TimedInput>, m: nat, n: nat, k: LinkId, i: nat)
    requires i < 3 && m <= n <= |inputs| && Runs.Chain(rts, inputs, Advances) && Starts(rts[0])
    requires Undisturbed(rts, inputs, m, n, k) && LinkOf(rts[m].fwd, k).queues[i + 1] != []
    requires Reports(inputs, m, n, k) > WaitLimit(i)
    ensures !NoneOf(SentAlong(rts, inputs, m, n, k), i + 1)
  {
    if NoneOf(SentAlong(rts, inputs, m, n, k), i + 1) {
      AllFair(rts, inputs);
      PassedOverBriefly(rts, inputs, m, n, k, i);
    }
  }

  /**
   * On every run of the runtime, on every live link while its P0 queue is empty:
   * the head of a backlogged class, or what has replaced it, is sent before the
   * transport has reported more frames as sent than the limit of the class.
   */
  lemma HeadLeavesInTime(rts: seq<Runtime>, inputs: seq<TimedInput>, m: nat, n: nat, k: LinkId, i: nat)
    requires i < 3 && m <= n <= |inputs| && Runs.Chain(rts, inputs, Advances) && Starts(rts[0])
    requires Undisturbed(rts, inputs, m, n, k) && LinkOf(rts[m].fwd, k).queues[i + 1] != []
    requires Reports(inputs, m, n, k) > WaitLimit(i)
    ensures var sent := SlotsIn(SentAlong(rts, inputs, m, n, k), i + 1);
            sent != [] && sent[0] == SlotOf(LinkOf(rts[m].fwd, k).queues[i + 1][0].packet)
  {
    ClassSends(rts, inputs, m, n, k, i);
    NoSlots(SentAlong(rts, inputs, m, n, k), i + 1);
    AllFair(rts, inputs);
    HeadLeavesFirst(rts, inputs, m, n, k, i + 1);
  }

  // ------------------------------------------------------------ shares on a run

  /** The bytes of the packets of class `c`. */
  function BytesIn(ps: seq<Packet>, c: nat): nat {
    if ps == [] then 0 else (if ps[0].header.priority.Index() == c then EncodedLen(ps[0]) else 0) + BytesIn(ps[1..], c)
  }

  lemma OpBytesInClass(k: LinkId, q: Link, op: LinkOp, i: nat)
    requires i < 3 && QueuesOk(k, Prepared(q, op))
    ensures var a := Operate(q, op);
            OpBytes(q, op, i) == if a.sent.Some? && a.sent.value.packet.header.priority.Index() == i + 1 then EncodedLen(a.sent.value.packet) else 0
  {
    var a, p := Operate(q, op), Prepared(q, op);
    if a.sent.Some? {
      TrySendTakesHead(p);
      var c := NextClass(p).value;
      assert QueueOk(k, c, p.queues[c], p.queuedBytes[c]);
      assert Belongs(k, c, p.queues[c][0]);
    }
  }

  lemma {:induction false} RunBytesInClass(k: LinkId, q: Link, ops: seq<LinkOp>, i: nat)
    requires i < 3 && QueuesOk(k, q) && AllBelong(k, ops)
    ensures RunBytes(q, ops, i) == BytesIn(SentBy(q, ops), i + 1)
    decreases |ops|
  {
    if ops != [] {
      var a := Operate(q, ops[0]);
      OperateOk(k, q, ops[0]);
      OpBytesInClass(k, q, ops[0], i);
      RunBytesInClass(k, a.link, ops[1..], i);
      if a.sent.Some? {
        assert SentBy(q, ops)[1..] == SentBy(a.link, ops[1..]);
      } else {
        assert SentBy(q, ops) == SentBy(a.link, ops[1..]);
      }
    }
  }

  /** The class at `i` is backlogged on a live link with an empty P0 queue, from `m` to `n`. */
  ghost predicate Pressing(rts: seq<Runtime>, inputs: seq<TimedInput>, m: nat, n: nat, k: LinkId, i: nat)
    requires i < 3 && m <= n <= |inputs| < |rts|
  {
    && (forall j :: m <= j < n ==> inputs[j].input != DownReport(k))
    && (forall j :: m <= j <= n ==> Waiting(rts[j], k, i))
  }

  ghost predicate Spends(k: LinkId, i: nat, q: Link, ops: seq<LinkOp>, sent: seq<Packet>, r: Link)
    requires i < 3
  {
    && BytesIn(sent, i + 1) + r.deficits[i] == q.deficits[i] + Quantum(i) * RunQuanta(q, ops, i)
    && q.deficits[i] <= MAX_PAYLOAD_LEN + Quantum(i) && r.deficits[i] <= MAX_PAYLOAD_LEN + Quantum(i)
  }

  lemma WaitingSpends(k: LinkId, i: nat, q: Link, ops: seq<LinkOp>, sent: seq<Packet>, r: Link, grants: nat)
    requires i < 3 && QueuesOk(k, q) && Modest(q) && WaitsFor(k, i, q, ops, sent, r, grants)
    ensures Spends(k, i, q, ops, sent, r)
  {
    RunBytesInClass(k, q, ops, i);
    SpendsWhatItEarns(q, ops, i);
    EarnsQuanta(q, ops, i);
  }

  /**
   * On every run of the runtime, a class that stays backlogged on a live link with
   * an empty P0 queue sends exactly the bytes of the quanta it is granted, but for
   * the difference of two deficits, each at most one maximal packet and a quantum.
   */
  lemma BackloggedClassSpends(rts: seq<Runtime>, inputs: seq<TimedInput>, m: nat, n: nat, k: LinkId, i: nat)
    requires i < 3 && m <= n <= |inputs| && Runs.Chain(rts, inputs, Advances) && Starts(rts[0])
    requires Pressing(rts, inputs, m, n, k, i)
    ensures AlwaysBacklogged(LinkOf(rts[m].fwd, k), OpsAlong(rts, inputs, m, n, k), i)
    ensures Spends(k, i, LinkOf(rts[m].fwd, k), OpsAlong(rts, inputs, m, n, k), SentAlong(rts, inputs, m, n, k), LinkOf(rts[n].fwd, k))
  {
    AllFair(rts, inputs);
    RunWaits(rts, inputs, m, n, k, i);
    WaitingCannotWrite(rts[m], k, i);
    assert Modest(LinkOf(rts[m].fwd, k));
    WaitingSpends(k, i, LinkOf(rts[m].fwd, k), OpsAlong(rts, inputs, m, n, k), SentAlong(rts, inputs, m, n, k),
                  LinkOf(rts[n].fwd, k), Reports(inputs, m, n, k));
  }

  lemma MulMonotone(a: nat, b: nat, c: nat)
    requires a <= b
    ensures a * c <= b * c
  {
  }

  lemma Spread(a: nat, b: nat, c: nat)
    ensures (a + b) * c == a * c + b * c
  {
  }

  lemma AtMostEarned(bytes: nat, deficit: nat, quantum: nat, grants: nat, other: nat, slack: nat)
    requires bytes <= deficit + quantum * grants && deficit <= slack + quantum
    ensures bytes * other <= slack * other + quantum * other + quantum * grants * other
  {
    MulMonotone(bytes, slack + quantum + quantum * grants, other);
    Spread(slack + quantum, quantum * grants, other);
    Spread(slack, quantum, other);
  }

  lemma AtLeastEarned(bytes: nat, left: nat, quantum: nat, grants: nat, other: nat, slack: nat)
    requires quantum * grants <= bytes + left && left <= slack + quantum
    ensures quantum * grants * other <= bytes * other + slack * other + quantum * other
  {
    MulMonotone(quantum * grants, bytes + (slack + quantum), other);
    Spread(bytes, slack + quantum, other);
    Spread(slack, quantum, other);
  }

  lemma OneMore(qa: nat, ga: nat, qb: nat, gb: nat)
    requires ga <= gb + 1
    ensures qa * ga * qb <= qb * gb * qa + qa * qb
  {
    var x := qa * qb;
    assert qa * ga * qb == ga * x && qb * gb * qa == gb * x;
    MulMonotone(ga, gb + 1, x);
    Spread(gb, 1, x);
  }

  /** Bytes over quanta, when the numbers of quanta differ by at most one. */
  lemma Proportion(a: nat, da: nat, ea: nat, qa: nat, ga: nat, b: nat, db: nat, eb: nat, qb: nat, gb: nat, slack: nat)
    requires a + ea == da + qa * ga && b + eb == db + qb * gb && ga <= gb + 1 && da <= slack + qa && eb <= slack + qb
    ensures a * qb <= b * qa + 3 * (qa * qb) + slack * qa + slack * qb
  {
    AtMostEarned(a, da, qa, ga, qb, slack);
    OneMore(qa, ga, qb, gb);
    AtLeastEarned(b, eb, qb, gb, qa, slack);
  }

  /** The shares of P1, P2 and P3. */
  const SHARES: seq<nat> := [14, 5, 1]

  ghost predicate ByQuanta(a: nat, b: nat, i: nat, j: nat) {
    a * Quantum(j) <= b * Quantum(i) + 3 * (Quantum(i) * Quantum(j)) + MAX_PAYLOAD_LEN * Quantum(i) + MAX_PAYLOAD_LEN * Quantum(j)
  }

  /** `a` bytes are no more than the share of class `i` where `j` has sent `b`, up to three quanta and a maximal packet on each side. */
  ghost predicate ByShares(a: nat, b: nat, i: nat, j: nat)
    requires i < 3 && j < 3
  {
    a * SHARES[j] <= b * SHARES[i] + 3 * 1_024 * (SHARES[i] * SHARES[j]) + MAX_PAYLOAD_LEN * (SHARES[i] + SHARES[j])
  }

  /** Quanta are shares of 1024 bytes. */
  lemma InShares(a: nat, b: nat, i: nat, j: nat)
    requires i < 3 && j < 3 && ByQuanta(a, b, i, j)
    ensures ByShares(a, b, i, j)
  {
    assert Quantum(0) == 1_024 * 14 && Quantum(1) == 1_024 * 5 && Quantum(2) == 1_024 * 1;
    assert i == 0 || i == 1 || i == 2;
    assert j == 0 || j == 1 || j == 2;
  }

  lemma QuantaAreProportional(rts: seq<Runtime>, inputs: seq<TimedInput>, m: nat, n: nat, k: LinkId, i: nat, j: nat)
    requires i < 3 && j < 3 && i != j && m <= n <= |inputs| && Runs.Chain(rts, inputs, Advances) && Starts(rts[0])
    requires Pressing(rts, inputs, m, n, k, i) && Pressing(rts, inputs, m, n, k, j)
    ensures var sent := SentAlong(rts, inputs, m, n, k); ByQuanta(BytesIn(sent, i + 1), BytesIn(sent, j + 1), i, j)
  {
    var q, r, ops, sent := LinkOf(rts[m].fwd, k), LinkOf(rts[n].fwd, k), OpsAlong(rts, inputs, m, n, k), SentAlong(rts, inputs, m, n, k);
    BackloggedClassSpends(rts, inputs, m, n, k, i);
    BackloggedClassSpends(rts, inputs, m, n, k, j);
    QuantaAlternate(q, ops, i, j);
    Proportion(BytesIn(sent, i + 1), q.deficits[i], r.deficits[i], Quantum(i), RunQuanta(q, ops, i),
               BytesIn(sent, j + 1), q.deficits[j], r.deficits[j], Quantum(j), RunQuanta(q, ops, j), MAX_PAYLOAD_LEN);
  }

  /**
   * On every run of the runtime, two classes that both stay backlogged share a
   * link in proportion to their quanta, 14 to 5 to 1, up to a constant: at most
   * three quanta and one maximal packet on each side.
   */
  lemma SharesAreProportional(rts: seq<Runtime>, inputs: seq<TimedInput>, m: nat, n: nat, k: LinkId, i: nat, j: nat)
    requires i < 3 && j < 3 && i != j && m <= n <= |inputs| && Runs.Chain(rts, inputs, Advances) && Starts(rts[0])
    requires Pressing(rts, inputs, m, n, k, i) && Pressing(rts, inputs, m, n, k, j)
    ensures var sent := SentAlong(rts, inputs, m, n, k); ByShares(BytesIn(sent, i + 1), BytesIn(sent, j + 1), i, j)
  {
    QuantaAreProportional(rts, inputs, m, n, k, i, j);
    InShares(BytesIn(SentAlong(rts, inputs, m, n, k), i + 1), BytesIn(SentAlong(rts, inputs, m, n, k), j + 1), i, j);
  }
}
