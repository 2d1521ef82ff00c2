/**
 * One link's outgoing queues: strict priority for P0, deficit round robin over
 * P1 to P3, byte credit, and permission for at most one write at a time.
 */
module Scheduler {
  import opened MeshTypes
  import opened Packets

  datatype Queued = Queued(incoming: Option<LinkId>, packet: Packet)

  datatype LinkQueues = LinkQueues(
    queues: seq<seq<Queued>>, queuedBytes: seq<nat>, credit: U64, writable: bool,
    deficits: seq<nat>, nextDrr: nat, needsQuantum: bool)

  predicate Shaped(q: LinkQueues) {
    |q.queues| == 4 && |q.queuedBytes| == 4 && |q.deficits| == 3 && q.nextDrr < 3
  }

  const NewLink: LinkQueues := LinkQueues([[], [], [], []], [0, 0, 0, 0], 0, false, [0, 0, 0], 0, true)

  type Link = q: LinkQueues | Shaped(q) witness NewLink

  /** Bytes a DRR class earns per visit. */
  function Quantum(i: nat): (n: nat)
    ensures n >= 1_024
  {
    if i == 0 then 14 * 1_024 else if i == 1 then 5 * 1_024 else 1_024
  }

  /** usize saturating addition. */
  function Saturated(n: nat): U64 {
    Min(n, U64_MAX)
  }

  function Len(x: Queued): (n: nat)
    ensures n >= FORWARD_HEADER_LEN
  {
    EncodedLen(x.packet)
  }

  /** The class has a head packet and the credit covers it. */
  predicate HeadFits(q: Link, class_: nat)
    requires class_ < 4
  {
    q.queues[class_] != [] && Len(q.queues[class_][0]) <= q.credit
  }

  function AdvanceDrr(q: Link): Link {
    q.(nextDrr := (q.nextDrr + 1) % 3, needsQuantum := true)
  }

  /** Takes the head of a class off its queue, paying for it with credit and the write permission. */
  function Take(q: Link, class_: nat): Link
    requires class_ < 4 && HeadFits(q, class_)
  {
    var n := Len(q.queues[class_][0]);
    q.(queues := q.queues[class_ := q.queues[class_][1..]],
       queuedBytes := q.queuedBytes[class_ := Max(q.queuedBytes[class_] - n, 0)],
       credit := q.credit - n, writable := false)
  }

  /** The class whose turn it is, after receiving its quantum if that is still due. */
  function Granted(q: Link): Link {
    if q.needsQuantum
    then q.(deficits := q.deficits[q.nextDrr := Saturated(q.deficits[q.nextDrr] + Quantum(q.nextDrr))], needsQuantum := false)
    else q
  }

  /** The class whose turn it is can send its head now. */
  predicate CanServe(q: Link) {
    var i := q.nextDrr;
    && q.queues[i + 1] != []
    && Len(q.queues[i + 1][0]) <= Granted(q).deficits[i]
    && HeadFits(q, i + 1)
  }

  function Serve(q: Link): Link
    requires CanServe(q)
  {
    var i, g := q.nextDrr, Granted(q);
    var n := Len(q.queues[i + 1][0]);
    var t := Take(g, i + 1).(deficits := g.deficits[i := g.deficits[i] - n]);
    if t.queues[i + 1] == [] then AdvanceDrr(t.(deficits := t.deficits[i := 0])) else t
  }

  /** The turn passes on without a packet. */
  function Skip(q: Link): Link {
    var i := q.nextDrr;
    if q.queues[i + 1] == [] then AdvanceDrr(q.(deficits := q.deficits[i := 0])) else AdvanceDrr(Granted(q))
  }

  predicate SomeFits(q: Link) {
    HeadFits(q, 1) || HeadFits(q, 2) || HeadFits(q, 3)
  }

  /** Some class that can be served once its deficit suffices. */
  function Candidate(q: Link): (i: nat)
    requires SomeFits(q)
    ensures i < 3 && HeadFits(q, i + 1)
  {
    if HeadFits(q, 1) then 0 else if HeadFits(q, 2) then 1 else 2
  }

  /** Visits of the round robin before the class at `i` is next offered a quantum. */
  function Distance(q: Link, i: nat): nat
    requires i < 3
  {
    if q.nextDrr == i then (if q.needsQuantum then 0 else 3) else (i + 3 - q.nextDrr) % 3
  }

  function Shortfall(q: Link, i: nat): nat
    requires i < 3 && q.queues[i + 1] != []
  {
    Max(Len(q.queues[i + 1][0]) - q.deficits[i], 0)
  }

  /** Shrinks on every skipped turn: a candidate's shortfall first, then the way back to it. */
  function Effort(q: Link): nat
    requires SomeFits(q)
  {
    4 * Shortfall(q, Candidate(q)) + Distance(q, Candidate(q))
  }

  /** Skipping a turn touches only the round-robin state. */
  lemma SkipFrame(q: Link)
    ensures Skip(q) == q.(deficits := Skip(q).deficits, nextDrr := Skip(q).nextDrr, needsQuantum := Skip(q).needsQuantum)
    ensures Skip(q).nextDrr == (q.nextDrr + 1) % 3 && Skip(q).needsQuantum
    ensures forall i :: 0 <= i < 3 && i != q.nextDrr ==> Skip(q).deficits[i] == q.deficits[i]
  {
  }

  /** A class that fits the credit is skipped only for want of deficit, and then gains a quantum if one was due. */
  lemma SkipNeed(q: Link, i: nat)
    requires i < 3 && HeadFits(q, i + 1) && !CanServe(q)
    ensures if q.nextDrr == i && q.needsQuantum then Shortfall(Skip(q), i) < Shortfall(q, i) else Shortfall(Skip(q), i) == Shortfall(q, i)
  {
  }

  lemma SkipShrinks(q: Link)
    requires SomeFits(q) && !CanServe(q)
    ensures SomeFits(Skip(q)) && Effort(Skip(q)) < Effort(q)
    ensures Skip(q) == q.(deficits := Skip(q).deficits, nextDrr := Skip(q).nextDrr, needsQuantum := Skip(q).needsQuantum)
  {
    SkipFrame(q);
    SkipNeed(q, Candidate(q));
    assert Candidate(Skip(q)) == Candidate(q);
  }

  /** The state in which the round robin finally serves a class. */
  function Turned(q: Link): (r: Link)
    requires SomeFits(q)
    ensures CanServe(r)
    ensures r == q.(deficits := r.deficits, nextDrr := r.nextDrr, needsQuantum := r.needsQuantum)
    decreases Effort(q)
  {
    if CanServe(q) then q else
      SkipShrinks(q);
      Turned(Skip(q))
  }

  /** The class that is served next, if any. */
  function NextClass(q: Link): (c: Option<nat>)
    ensures c.Some? ==> c.value < 4 && HeadFits(q, c.value) && q.writable
  {
    if !q.writable then None
    else if q.queues[0] != [] then (if HeadFits(q, 0) then Some(0) else None)
    else if SomeFits(q) then Some(Turned(q).nextDrr + 1)
    else None
  }

  function AfterSend(q: Link): Link
    requires NextClass(q).Some?
  {
    if q.queues[0] != [] then Take(q, 0) else Serve(Turned(q))
  }

  datatype Attempt = Attempt(link: Link, sent: Option<Queued>)

  /** Starts at most one write. */
  function TrySend(q: Link): Attempt {
    var c := NextClass(q);
    if c.None? then Attempt(q, None) else Attempt(AfterSend(q), Some(q.queues[c.value][0]))
  }

  /** Nothing can be sent: a P0 head waits for credit, or no P0 is queued and no other head fits. */
  predicate Blocked(q: Link) {
    if q.queues[0] != [] then !HeadFits(q, 0) else !SomeFits(q)
  }

  /** Work conservation: permission to write is left over only when nothing could be sent. */
  lemma TrySendConserves(q: Link)
    ensures var r := TrySend(q);
            && (r.link.writable ==> Blocked(r.link))
            && (r.sent.Some? <==> q.writable && !Blocked(q))
            && (r.sent.None? ==> r.link == q)
  {
  }

  /** A send removes exactly one head, from P0 if there is one, and pays exactly its length. */
  lemma TrySendTakesHead(q: Link)
    requires TrySend(q).sent.Some?
    ensures var r, c := TrySend(q), NextClass(q).value;
            && q.queues[c] != [] && r.sent.value == q.queues[c][0]
            && r.link.queues == q.queues[c := q.queues[c][1..]]
            && r.link.credit + Len(r.sent.value) == q.credit
            && r.link.queuedBytes == q.queuedBytes[c := Max(q.queuedBytes[c] - Len(r.sent.value), 0)]
            && !r.link.writable
            && (c != 0 ==> q.queues[0] == [])
  {
  }

  /** A class that has sent its last packet keeps no deficit for later. */
  lemma EmptiedForgets(q: Link)
    requires TrySend(q).sent.Some? && NextClass(q).value > 0
    ensures var r, c := TrySend(q).link, NextClass(q).value; r.queues[c] == [] ==> r.deficits[c - 1] == 0
  {
  }

  // ------------------------------------------------------------ admission

  const QUEUE_LIMITS: seq<nat> := [256, 512, 1_024, 4_096]

  datatype ConflationKey = ConflationKey(source: NodeId, flowId: U64, conflateKey: U64)

  function KeyOf(p: Packet): Option<ConflationKey> {
    if p.header.priority.P1? && Conflatable(p.header.flags)
    then Some(ConflationKey(p.header.source, p.header.flowId, p.header.conflateKey))
    else None
  }

  /** The position of the first queued packet with this key. */
  function FindKey(queue: seq<Queued>, key: ConflationKey): (r: Option<nat>)
    ensures r.Some? ==> r.value < |queue| && KeyOf(queue[r.value].packet) == Some(key)
    ensures r.Some? ==> forall i :: 0 <= i < r.value ==> KeyOf(queue[i].packet) != Some(key)
    ensures r.None? ==> forall i :: 0 <= i < |queue| ==> KeyOf(queue[i].packet) != Some(key)
  {
    if queue == [] then None
    else if KeyOf(queue[0].packet) == Some(key) then Some(0)
    else
      var rest := FindKey(queue[1..], key);
      assert forall i :: 1 <= i < |queue| ==> queue[i] == queue[1..][i - 1];
      if rest.Some? then Some(rest.value + 1) else None
  }

  /** Where a packet goes: in place of an older one with its key, to the back of its queue, or nowhere. */
  datatype Admission = Stored(link: Link) | Replaced(link: Link, lost: Queued) | Full

  function Admit(q: Link, x: Queued): Admission {
    var c := x.packet.header.priority.Index();
    var at := if KeyOf(x.packet).Some? then FindKey(q.queues[c], KeyOf(x.packet).value) else None;
    if at.Some? then
      var lost := q.queues[c][at.value];
      Replaced(q.(queues := q.queues[c := q.queues[c][at.value := x]],
                  queuedBytes := q.queuedBytes[c := Saturated(Max(q.queuedBytes[c] - Len(lost), 0) + Len(x))]), lost)
    else if |q.queues[c]| >= QUEUE_LIMITS[c] then Full
    else
      Stored(q.(queues := q.queues[c := q.queues[c] + [x]],
                queuedBytes := q.queuedBytes[c := Saturated(q.queuedBytes[c] + Len(x))]))
  }

  /** Both packets are P1 with the conflatable bit set, of one source, flow and conflation key. */
  ghost predicate Rivals(p: Packet, q: Packet) {
    && p.header.priority == P1 && q.header.priority == P1
    && p.header.flags / 2 % 2 == 1 && q.header.flags / 2 % 2 == 1
    && p.header.source == q.header.source && p.header.flowId == q.header.flowId && p.header.conflateKey == q.header.conflateKey
  }

  lemma KeyExactly(p: Packet, q: Packet)
    ensures KeyOf(p).Some? && KeyOf(p) == KeyOf(q) <==> Rivals(p, q)
  {
  }

  ghost predicate HasRival(queue: seq<Queued>, x: Queued) {
    exists y :: y in queue && Rivals(y.packet, x.packet)
  }

  /** How many packets of each priority a link holds at most. */
  function Capacity(priority: Priority): nat {
    match priority case P0 => 256 case P1 => 512 case P2 => 1_024 case P3 => 4_096
  }

  /** The queue of its priority gets the packet at the back, with everything else as it was. */
  ghost predicate Appended(q: Link, x: Queued, r: Link) {
    var c := x.packet.header.priority.Index();
    r.queues == q.queues[c := q.queues[c] + [x]] && SameButQueues(q, r)
  }

  /** The packet takes the place of a rival, with everything else as it was. */
  ghost predicate Replaces(q: Link, x: Queued, r: Link, lost: Queued) {
    SameButQueues(q, r) && Rivals(lost.packet, x.packet) &&
    exists i :: 0 <= i < |q.queues[1]| && q.queues[1][i] == lost && r.queues == q.queues[1 := q.queues[1][i := x]]
  }

  ghost predicate SameButQueues(q: Link, r: Link) {
    r == q.(queues := r.queues, queuedBytes := r.queuedBytes)
  }

  /** A packet replaces a queued rival if there is one, and else is refused exactly if its queue is full. */
  lemma AdmitsExactly(q: Link, x: Queued)
    ensures var priority := x.packet.header.priority;
            match Admit(q, x)
            case Replaced(r, lost) => Replaces(q, x, r, lost)
            case Full => !HasRival(q.queues[priority.Index()], x) && Capacity(priority) <= |q.queues[priority.Index()]|
            case Stored(r) => !HasRival(q.queues[priority.Index()], x) && |q.queues[priority.Index()]| < Capacity(priority) && Appended(q, x, r)
  {
    var queue := q.queues[x.packet.header.priority.Index()];
    forall i | 0 <= i < |queue| ensures KeyOf(x.packet).Some? && KeyOf(queue[i].packet) == KeyOf(x.packet) <==> Rivals(queue[i].packet, x.packet) {
      KeyExactly(queue[i].packet, x.packet);
    }
  }

  // ------------------------------------------------------------ operations on one link

  datatype LinkOp = Offer(x: Queued) | AddCredit(bytes: nat) | AllowWrite

  /** The state in which the operation tries to send. */
  function Prepared(q: Link, op: LinkOp): Link {
    match op
    case Offer(x) => var a := Admit(q, x); if a.Full? then q else a.link
    case AddCredit(bytes) => q.(credit := Saturated(q.credit + bytes))
    case AllowWrite => q.(writable := true)
  }

  function Operate(q: Link, op: LinkOp): Attempt {
    if op.Offer? && Admit(q, op.x).Full? then Attempt(q, None) else TrySend(Prepared(q, op))
  }

  /** The link after a list of operations. */
  function AfterOps(q: Link, ops: seq<LinkOp>): Link
    decreases |ops|
  {
    if ops == [] then q else AfterOps(Operate(q, ops[0]).link, ops[1..])
  }

  /** The packets sent by a list of operations, in order. */
  function SentBy(q: Link, ops: seq<LinkOp>): seq<Packet>
    decreases |ops|
  {
    if ops == [] then []
    else
      var a := Operate(q, ops[0]);
      (if a.sent.Some? then [a.sent.value.packet] else []) + SentBy(a.link, ops[1..])
  }

  /** The packet that the operation overwrites, if any. */
  function Overwritten(q: Link, op: LinkOp): seq<Packet> {
    if op.Offer? && Admit(q, op.x).Replaced? then [Admit(q, op.x).lost.packet] else []
  }

  /** The packets overwritten by a list of operations, in order. */
  function LostBy(q: Link, ops: seq<LinkOp>): seq<Packet>
    decreases |ops|
  {
    if ops == [] then [] else Overwritten(q, ops[0]) + LostBy(Operate(q, ops[0]).link, ops[1..])
  }

  lemma {:induction false} OpsAdd(q: Link, s: seq<LinkOp>, t: seq<LinkOp>)
    ensures AfterOps(q, s + t) == AfterOps(AfterOps(q, s), t)
    ensures SentBy(q, s + t) == SentBy(q, s) + SentBy(AfterOps(q, s), t)
    decreases |s|
  {
    FirstOfSum(s, t);
    if s != [] {
      OpsAdd(Operate(q, s[0]).link, s[1..], t);
    }
  }

  lemma TwoOps(q: Link, ops: seq<LinkOp>)
    requires |ops| == 2
    ensures AfterOps(q, ops) == Operate(Operate(q, ops[0]).link, ops[1]).link
  {
    assert ops[1..] == [ops[1]] && [ops[1]][1..] == [];
    assert AfterOps(Operate(q, ops[0]).link, ops[1..]) == Operate(Operate(q, ops[0]).link, ops[1]).link;
  }

  /** Each operation of the list meets `ok` in the state it finds. */
  ghost predicate Throughout(q: Link, ops: seq<LinkOp>, ok: (Link, LinkOp) -> bool)
    decreases |ops|
  {
    ops == [] || (ok(q, ops[0]) && Throughout(Operate(q, ops[0]).link, ops[1..], ok))
  }

  lemma {:induction false} ThroughoutAdds(q: Link, s: seq<LinkOp>, t: seq<LinkOp>, ok: (Link, LinkOp) -> bool)
    requires Throughout(q, s, ok) && Throughout(AfterOps(q, s), t, ok)
    ensures Throughout(q, s + t, ok)
    decreases |s|
  {
    FirstOfSum(s, t);
    if s != [] {
      ThroughoutAdds(Operate(q, s[0]).link, s[1..], t, ok);
    }
  }
}
