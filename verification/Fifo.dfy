/** Order on a link: every class is first in, first out, and conflation replaces a packet in its place. */
module Fifo {
  import opened MeshTypes
  import opened ControlData
  import opened Packets
  import opened Scheduler
  import opened Fairness
  import opened Forwarding
  import opened LinkTrace
  import opened ForwardInvariant
  import Runs

  /** What keeps its place in a queue: a packet, or only its key where a newer packet may take the place. */
  datatype Slot = Whole(p: Packet) | Keyed(key: ConflationKey)

  function SlotOf(p: Packet): Slot {
    if KeyOf(p).Some? then Keyed(KeyOf(p).value) else Whole(p)
  }

  function Slots(xs: seq<Queued>): seq<Slot> {
    seq(|xs|, i requires 0 <= i < |xs| => SlotOf(xs[i].packet))
  }

  /** The slot that the operation adds to class `c`, if any. */
  function Joins(q: Link, op: LinkOp, c: nat): seq<Slot> {
    if op.Offer? && op.x.packet.header.priority.Index() == c && Admit(q, op.x).Stored? then [SlotOf(op.x.packet)] else []
  }

  /** The slot that the operation sends from class `c`, if any. */
  function Leaves(q: Link, op: LinkOp, c: nat): seq<Slot> {
    var r := Operate(q, op);
    if r.sent.Some? && Served(q, op) == Some(c) then [SlotOf(r.sent.value.packet)] else []
  }

  ghost function AllJoin(q: Link, ops: seq<LinkOp>, c: nat): seq<Slot>
    decreases |ops|
  {
    if ops == [] then [] else Joins(q, ops[0], c) + AllJoin(Operate(q, ops[0]).link, ops[1..], c)
  }

  ghost function AllLeave(q: Link, ops: seq<LinkOp>, c: nat): seq<Slot>
    decreases |ops|
  {
    if ops == [] then [] else Leaves(q, ops[0], c) + AllLeave(Operate(q, ops[0]).link, ops[1..], c)
  }

  lemma PreparedSlots(q: Link, op: LinkOp, c: nat)
    requires c < 4
    ensures Slots(Prepared(q, op).queues[c]) == Slots(q.queues[c]) + Joins(q, op, c)
  {
  }

  lemma OperateSlots(q: Link, op: LinkOp, c: nat)
    requires c < 4
    ensures Leaves(q, op, c) + Slots(Operate(q, op).link.queues[c]) == Slots(q.queues[c]) + Joins(q, op, c)
  {
    PreparedSlots(q, op, c);
    var p := Prepared(q, op);
    if Operate(q, op).sent.Some? {
      TrySendTakesHead(p);
      assert p.queues[c] != [] ==> Slots(p.queues[c]) == [SlotOf(p.queues[c][0].packet)] + Slots(p.queues[c][1..]);
    }
  }

  lemma Splice<T>(left: seq<T>, later: seq<T>, last: seq<T>, mid: seq<T>, first: seq<T>, joined: seq<T>, more: seq<T>)
    requires left + mid == first + joined && later + last == mid + more
    ensures (left + later) + last == first + (joined + more)
  {
    calc {
      (left + later) + last;
      left + (later + last);
      (left + mid) + more;
      first + (joined + more);
    }
  }

  /**
   * On every run of a link, what leaves a class followed by what is left in it
   * is what was in it followed by what joined it, in order. A packet that
   * conflates joins nothing: it takes over the place of the one it replaces.
   */
  lemma {:induction false} FirstInFirstOut(q: Link, ops: seq<LinkOp>, c: nat)
    requires c < 4
    ensures AllLeave(q, ops, c) + Slots(AfterOps(q, ops).queues[c]) == Slots(q.queues[c]) + AllJoin(q, ops, c)
    decreases |ops|
  {
    if ops != [] {
      var r := Operate(q, ops[0]).link;
      OperateSlots(q, ops[0], c);
      FirstInFirstOut(r, ops[1..], c);
      Splice(Leaves(q, ops[0], c), AllLeave(r, ops[1..], c), Slots(AfterOps(r, ops[1..]).queues[c]), Slots(r.queues[c]),
             Slots(q.queues[c]), Joins(q, ops[0], c), AllJoin(r, ops[1..], c));
    }
  }

  /** Once a conflatable packet is admitted, it is the only one queued with its key. */
  lemma NewestWins(k: LinkId, q: Link, x: Queued)
    requires QueuesOk(k, q) && x.packet.header.priority == P1 && x.packet.header.flags / 2 % 2 == 1 && !Admit(q, x).Full?
    ensures forall y :: y in Prepared(q, Offer(x)).queues[1] && Rivals(y.packet, x.packet) <==> y == x
  {
    var xs := q.queues[1];
    var ys := Prepared(q, Offer(x)).queues[1];
    var at := FindKey(xs, KeyOf(x.packet).value);
    var i := if at.Some? then at.value else |xs|;
    assert ys == if at.Some? then xs[i := x] else xs + [x];
    assert ys[i] == x;
    forall y | y in ys && Rivals(y.packet, x.packet) ensures y == x {
      var j :| 0 <= j < |ys| && ys[j] == y;
      if j != i {
        assert false;
      }
    }
  }

  // ------------------------------------------------------------ runs of the forwarder

  /** The slots of the packets of class `c`, in order. */
  function SlotsIn(ps: seq<Packet>, c: nat): seq<Slot> {
    if ps == [] then [] else (if ps[0].header.priority.Index() == c then [SlotOf(ps[0])] else []) + SlotsIn(ps[1..], c)
  }

  lemma {:induction false} SlotsInAdds(a: seq<Packet>, b: seq<Packet>, c: nat)
    ensures SlotsIn(a + b, c) == SlotsIn(a, c) + SlotsIn(b, c)
  {
    FirstOfSum(a, b);
    if a != [] {
      SlotsInAdds(a[1..], b, c);
      Associates(if a[0].header.priority.Index() == c then [SlotOf(a[0])] else [], SlotsIn(a[1..], c), SlotsIn(b, c));
    }
  }

  /** What an operation sends from a class is of that class. */
  lemma LeavesInClass(k: LinkId, q: Link, op: LinkOp, c: nat)
    requires QueuesOk(k, Prepared(q, op)) && c < 4
    ensures var r := Operate(q, op); Leaves(q, op, c) == SlotsIn(if r.sent.Some? then [r.sent.value.packet] else [], c)
  {
    var r, p := Operate(q, op), Prepared(q, op);
    if r.sent.Some? {
      TrySendTakesHead(p);
      var b := NextClass(p).value;
      assert QueueOk(k, b, p.queues[b], p.queuedBytes[b]);
      assert Belongs(k, b, p.queues[b][0]);
      assert [r.sent.value.packet][1..] == [];
    }
  }

  lemma {:induction false} AllLeaveInClass(k: LinkId, q: Link, ops: seq<LinkOp>, c: nat)
    requires QueuesOk(k, q) && AllBelong(k, ops) && c < 4
    ensures AllLeave(q, ops, c) == SlotsIn(SentBy(q, ops), c)
    decreases |ops|
  {
    if ops != [] {
      var r := Operate(q, ops[0]);
      OperateOk(k, q, ops[0]);
      LeavesInClass(k, q, ops[0], c);
      AllLeaveInClass(k, r.link, ops[1..], c);
      SlotsInAdds(if r.sent.Some? then [r.sent.value.packet] else [], SentBy(r.link, ops[1..]), c);
    }
  }

  ghost function StepOps(f: Fwd, e: TimedForward, k: LinkId): seq<LinkOp> {
    EventOps(f, e.now, e.event, k)
  }

  ghost function StepSent(f: Fwd, e: TimedForward, k: LinkId): seq<Packet> {
    OnLink(Handle(f, e.now, e.event).actions, k)
  }

  lemma StepReplays(f: Fwd, e: TimedForward, f': Fwd, k: LinkId)
    requires Reacts(f, e, f') && FwdOk(f) && e.event != ForwardEvent.LinkDown(k)
    ensures Acts(k, LinkOf(f, k), StepOps(f, e, k), StepSent(f, e, k), LinkOf(f', k))
  {
    HandleOn(f, e.now, e.event, k);
    HandleOk(f, e.now, e.event);
    OpsOnMembers(Handle(f, e.now, e.event).trace, k);
  }

  /** The operations on link `k`, event by event. */
  ghost function Operations(fs: seq<Fwd>, events: seq<TimedForward>, k: LinkId): (r: seq<seq<LinkOp>>)
    requires |events| < |fs|
    ensures |r| == |events| && forall j :: 0 <= j < |events| ==> r[j] == StepOps(fs[j], events[j], k)
  {
    seq(|events|, j requires 0 <= j < |events| => StepOps(fs[j], events[j], k))
  }

  /** The packets sent on link `k`, event by event. */
  ghost function Sendings(fs: seq<Fwd>, events: seq<TimedForward>, k: LinkId): (r: seq<seq<Packet>>)
    requires |events| < |fs|
    ensures |r| == |events| && forall j :: 0 <= j < |events| ==> r[j] == StepSent(fs[j], events[j], k)
  {
    seq(|events|, j requires 0 <= j < |events| => StepSent(fs[j], events[j], k))
  }

  /** Link `k`, state by state. */
  ghost function LinkStates(fs: seq<Fwd>, k: LinkId): (r: seq<Link>)
    ensures |r| == |fs| && forall j :: 0 <= j < |fs| ==> r[j] == LinkOf(fs[j], k)
  {
    seq(|fs|, j requires 0 <= j < |fs| => LinkOf(fs[j], k))
  }

  /** The operations of events `m` to `n` on link `k`. */
  ghost function RunOps(fs: seq<Fwd>, events: seq<TimedForward>, m: nat, n: nat, k: LinkId): seq<LinkOp>
    requires m <= n <= |events| < |fs|
  {
    Runs.Joined(Operations(fs, events, k), m, n)
  }

  /** The packets that events `m` to `n` send on link `k`. */
  ghost function RunSent(fs: seq<Fwd>, events: seq<TimedForward>, m: nat, n: nat, k: LinkId): seq<Packet>
    requires m <= n <= |events| < |fs|
  {
    Runs.Joined(Sendings(fs, events, k), m, n)
  }

  /** From `m` to `n` link `k` is never lost. */
  ghost predicate Stays(events: seq<TimedForward>, m: nat, n: nat, k: LinkId)
    requires m <= n <= |events|
  {
    forall j :: m <= j < n ==> events[j].event != ForwardEvent.LinkDown(k)
  }

  /** While a link is not lost, a run acts on it as the operations that its events record. */
  lemma RunReplays(fs: seq<Fwd>, events: seq<TimedForward>, m: nat, n: nat, k: LinkId)
    requires m <= n <= |events| && Runs.Chain(fs, events, Reacts) && Stays(events, m, n, k)
    requires forall j :: m <= j < n ==> FwdOk(fs[j])
    ensures Acts(k, LinkOf(fs[m], k), RunOps(fs, events, m, n, k), RunSent(fs, events, m, n, k), LinkOf(fs[n], k))
  {
    forall j | m <= j < n
      ensures Acts(k, LinkOf(fs[j], k), StepOps(fs[j], events[j], k), StepSent(fs[j], events[j], k), LinkOf(fs[j + 1], k)) {
      assert Reacts(fs[j], events[j], fs[j + 1]);
      StepReplays(fs[j], events[j], fs[j + 1], k);
    }
    ChainActs(k, LinkStates(fs, k), Operations(fs, events, k), Sendings(fs, events, k), m, n);
  }

  /**
   * On every run of a forwarder, on every link between two of its losses, and
   * for every class: what is sent followed by what is queued at the end is what
   * was queued at the start followed by what joined, in order.
   */
  lemma RunIsFifo(fs: seq<Fwd>, events: seq<TimedForward>, me: NodeId, routes: map<NodeId, Route>, m: nat, n: nat, k: LinkId, c: nat)
    requires Runs.Chain(fs, events, Reacts) && fs[0] == NewForwarder(me, routes)
    requires m <= n <= |events| && c < 4 && Stays(events, m, n, k)
    ensures SlotsIn(RunSent(fs, events, m, n, k), c) + Slots(LinkOf(fs[n], k).queues[c])
         == Slots(LinkOf(fs[m], k).queues[c]) + AllJoin(LinkOf(fs[m], k), RunOps(fs, events, m, n, k), c)
  {
    var q, ops := LinkOf(fs[m], k), RunOps(fs, events, m, n, k);
    forall j | m <= j <= n ensures FwdOk(fs[j]) {
      RunIsOk(fs, events, me, routes, j);
    }
    RunReplays(fs, events, m, n, k);
    NewLinkOk(k);
    AllLeaveInClass(k, q, ops, c);
    FirstInFirstOut(q, ops, c);
  }
}
