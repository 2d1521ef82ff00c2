/** Deficit round robin: byte accounting per class, and a bound on how long a head packet waits. */
module Fairness {
  import opened MeshTypes
  import opened Packets
  import opened Scheduler

  /** The credit covers every head that takes part in the round robin. */
  predicate Ample(q: Link) {
    forall c :: 1 <= c < 4 && q.queues[c] != [] ==> HeadFits(q, c)
  }

  // ------------------------------------------------------------ waiting time

  /** Quanta needed to make up a shortfall. */
  function Quanta(short: nat, quantum: nat): nat
    requires quantum > 0
    decreases short
  {
    if short == 0 then 0 else 1 + Quanta(Max(short - quantum, 0), quantum)
  }

  /** Quanta the class at `i` still receives, at most, before a head of up to `size` bytes leaves. */
  function Visits(q: Link, i: nat, size: nat): nat
    requires i < 3
  {
    var n := Quanta(Max(size - q.deficits[i], 0), Quantum(i));
    if q.nextDrr == i && !q.needsQuantum then n else Max(n, 1)
  }

  /** Whether class `j` is offered a quantum before class `i` is. */
  predicate Sooner(q: Link, j: nat, i: nat)
    requires i < 3 && j < 3
  {
    Distance(q, j) < Distance(q, i)
  }

  /** Quanta another class receives within `v` quanta of a class, depending on who comes sooner. */
  function Grants(v: nat, sooner: bool): nat {
    if v == 0 then 0 else if sooner then v else v - 1
  }

  function Allowance(deficit: nat, quantum: nat, grants: nat): nat {
    deficit + quantum * grants
  }

  /** Bytes the class at `j` may still send before a head of class `i` of up to `size` bytes leaves. */
  function Share(q: Link, i: nat, j: nat, size: nat): nat
    requires i < 3 && j < 3
  {
    Allowance(q.deficits[j], Quantum(j), Grants(Visits(q, i, size), Sooner(q, j, i)))
  }

  lemma AllowanceFalls(d: nat, e: nat, quantum: nat, m: nat, n: nat, slack: nat)
    requires (n == m && e + slack <= d) || (n + 1 == m && e + slack <= d + quantum)
    ensures Allowance(e, quantum, n) + slack <= Allowance(d, quantum, m)
  {
    if n + 1 == m {
      assert quantum * m == quantum * n + quantum;
    }
  }

  /** Bytes the other two classes may still send before a head of class `i` of up to `size` bytes leaves. */
  function Budget(q: Link, i: nat, size: nat): nat
    requires i < 3
  {
    Share(q, i, (i + 1) % 3, size) + Share(q, i, (i + 2) % 3, size)
  }

  /** The class at `i` has a head, of at most `size` bytes. */
  predicate HeadWithin(q: Link, i: nat, size: nat)
    requires i < 3
  {
    q.queues[i + 1] != [] && Len(q.queues[i + 1][0]) <= size
  }

  lemma SkipVisits(q: Link, i: nat, size: nat)
    requires i < 3 && HeadWithin(q, i, size) && Ample(q) && !CanServe(q)
    ensures Visits(Skip(q), i, size) == Visits(q, i, size) - (if q.nextDrr == i && q.needsQuantum then 1 else 0)
    ensures Visits(Skip(q), i, size) >= 1
  {
    assert HeadFits(q, i + 1);
  }

  /** How passing the turn on changes who comes sooner: the class that had the turn now comes last. */
  lemma SkipOrder(q: Link, i: nat, j: nat)
    requires i < 3 && j < 3 && i != j
    ensures Sooner(AdvanceDrr(q), j, i) == if q.nextDrr == j then false else if q.nextDrr == i then true else Sooner(q, j, i)
    ensures q.nextDrr == j ==> Sooner(q, j, i) == q.needsQuantum
    ensures q.nextDrr == i ==> Sooner(q, j, i) == !q.needsQuantum
  {
  }

  lemma SkipDeficit(q: Link, j: nat)
    requires j < 3
    ensures Skip(q).deficits[j] <= q.deficits[j] + (if q.nextDrr == j && q.needsQuantum then Quantum(j) else 0)
    ensures Skip(q).nextDrr == AdvanceDrr(q).nextDrr && Skip(q).needsQuantum
  {
  }

  lemma SkipShare(q: Link, i: nat, j: nat, size: nat)
    requires i < 3 && j < 3 && i != j && HeadWithin(q, i, size) && Ample(q) && !CanServe(q)
    ensures Share(Skip(q), i, j, size) <= Share(q, i, j, size)
  {
    SkipVisits(q, i, size);
    SkipOrder(q, i, j);
    SkipDeficit(q, j);
    assert Sooner(Skip(q), j, i) == Sooner(AdvanceDrr(q), j, i);
    AllowanceFalls(q.deficits[j], Skip(q).deficits[j], Quantum(j),
                   Grants(Visits(q, i, size), Sooner(q, j, i)), Grants(Visits(Skip(q), i, size), Sooner(Skip(q), j, i)), 0);
  }

  /** A skipped turn never gives the other classes more to send. */
  lemma SkipBudget(q: Link, i: nat, size: nat)
    requires i < 3 && HeadWithin(q, i, size) && Ample(q) && !CanServe(q)
    ensures Budget(Skip(q), i, size) <= Budget(q, i, size)
  {
    SkipShare(q, i, (i + 1) % 3, size);
    SkipShare(q, i, (i + 2) % 3, size);
  }

  lemma ServeVisits(q: Link, i: nat, size: nat)
    requires i < 3 && CanServe(q) && q.nextDrr != i
    ensures Visits(Serve(q), i, size) == Visits(q, i, size) >= 1
  {
  }

  /** After a packet the class keeps its turn without a new quantum, or the turn passes on. */
  ghost predicate TurnUsed(q: Link, s: Link) {
    || (s.nextDrr == q.nextDrr && !s.needsQuantum)
    || (s.nextDrr == (q.nextDrr + 1) % 3 && s.needsQuantum)
  }

  lemma ServeUsesTurn(q: Link)
    requires CanServe(q)
    ensures TurnUsed(q, Serve(q))
  {
  }

  /** A class that has used its turn comes last; among the others the order stays. */
  lemma UsedOrder(q: Link, s: Link, i: nat, j: nat)
    requires i < 3 && j < 3 && i != j && TurnUsed(q, s)
    ensures Sooner(s, j, i) == if q.nextDrr == j then false else if q.nextDrr == i then true else Sooner(q, j, i)
    ensures q.nextDrr == j ==> Sooner(q, j, i) == q.needsQuantum
    ensures q.nextDrr == i ==> Sooner(q, j, i) == !q.needsQuantum
  {
  }

  lemma ServeDeficit(q: Link, j: nat)
    requires j < 3 && CanServe(q)
    ensures if q.nextDrr == j
            then Serve(q).deficits[j] + FORWARD_HEADER_LEN <= q.deficits[j] + (if q.needsQuantum then Quantum(j) else 0)
            else Serve(q).deficits[j] == q.deficits[j]
  {
  }

  lemma ServeShare(q: Link, i: nat, j: nat, size: nat)
    requires i < 3 && j < 3 && i != j && CanServe(q) && q.nextDrr != i
    ensures Share(Serve(q), i, j, size) + (if q.nextDrr == j then FORWARD_HEADER_LEN else 0) <= Share(q, i, j, size)
  {
    ServeVisits(q, i, size);
    ServeUsesTurn(q);
    UsedOrder(q, Serve(q), i, j);
    ServeDeficit(q, j);
    AllowanceFalls(q.deficits[j], Serve(q).deficits[j], Quantum(j),
                   Grants(Visits(q, i, size), Sooner(q, j, i)), Grants(Visits(Serve(q), i, size), Sooner(Serve(q), j, i)),
                   if q.nextDrr == j then FORWARD_HEADER_LEN else 0);
  }

  /** A packet of another class uses up at least a header's worth of what they may send. */
  lemma ServeBudget(q: Link, i: nat, size: nat)
    requires i < 3 && CanServe(q) && q.nextDrr != i
    ensures Budget(Serve(q), i, size) + FORWARD_HEADER_LEN <= Budget(q, i, size)
  {
    var j, k := (i + 1) % 3, (i + 2) % 3;
    assert q.nextDrr == j || q.nextDrr == k;
    ServeShare(q, i, j, size);
    ServeShare(q, i, k, size);
  }

  lemma {:induction false} TurnedBudget(q: Link, i: nat, size: nat)
    requires i < 3 && HeadWithin(q, i, size) && Ample(q) && SomeFits(q)
    ensures Budget(Turned(q), i, size) <= Budget(q, i, size)
    decreases Effort(q)
  {
    if !CanServe(q) {
      SkipShrinks(q);
      SkipBudget(q, i, size);
      assert Ample(Skip(q)) by {
        forall c | 1 <= c < 4 && Skip(q).queues[c] != [] ensures HeadFits(Skip(q), c) {
          assert HeadFits(q, c);
        }
      }
      TurnedBudget(Skip(q), i, size);
    }
  }

  // ------------------------------------------------------------ runs of one link

  /** No P0 packet gets in the way, and the credit covers the heads whenever a write may start. */
  ghost predicate Orderly(q: Link, op: LinkOp) {
    var p := Prepared(q, op);
    q.queues[0] == [] && p.queues[0] == [] && (p.writable ==> Ample(p))
  }

  /** The class that the operation sends from, if it sends. */
  function Served(q: Link, op: LinkOp): Option<nat> {
    if op.Offer? && Admit(q, op.x).Full? then None else NextClass(Prepared(q, op))
  }

  /** Every operation of the run is orderly, none sends from the class at `i`, and its head never exceeds `size` bytes. */
  ghost predicate PassesOver(q: Link, ops: seq<LinkOp>, i: nat, size: nat)
    requires i < 3
    decreases |ops|
  {
    ops == [] ||
    (&& Orderly(q, ops[0]) && HeadWithin(Prepared(q, ops[0]), i, size) && Served(q, ops[0]) != Some(i + 1)
     && PassesOver(Operate(q, ops[0]).link, ops[1..], i, size))
  }

  /** How often the run is granted a write. */
  function WriteGrants(ops: seq<LinkOp>): nat {
    if ops == [] then 0 else (if ops[0].AllowWrite? then 1 else 0) + WriteGrants(ops[1..])
  }

  function SendCount(q: Link, ops: seq<LinkOp>): nat
    decreases |ops|
  {
    if ops == [] then 0
    else (if Operate(q, ops[0]).sent.Some? then 1 else 0) + SendCount(Operate(q, ops[0]).link, ops[1..])
  }

  lemma PreparedBudget(q: Link, op: LinkOp, i: nat, size: nat)
    requires i < 3
    ensures Budget(Prepared(q, op), i, size) == Budget(q, i, size)
  {
    PreparedModest(q, op);
    BudgetDepends(q, Prepared(q, op), i, size);
  }

  lemma BudgetDepends(q: Link, p: Link, i: nat, size: nat)
    requires i < 3 && p.deficits == q.deficits && p.nextDrr == q.nextDrr && p.needsQuantum == q.needsQuantum
    ensures Budget(p, i, size) == Budget(q, i, size)
  {
  }

  lemma ServeKeepsOthers(q: Link, i: nat)
    requires i < 3 && CanServe(q) && q.nextDrr != i
    ensures Serve(q).queues[i + 1] == q.queues[i + 1]
  {
  }

  lemma OperateBudget(q: Link, op: LinkOp, i: nat, size: nat)
    requires i < 3 && HeadWithin(Prepared(q, op), i, size) && Orderly(q, op) && Served(q, op) != Some(i + 1)
    ensures var r := Operate(q, op);
            && r.link.queues[i + 1] == Prepared(q, op).queues[i + 1]
            && Budget(r.link, i, size) + (if r.sent.Some? then FORWARD_HEADER_LEN else 0) <= Budget(q, i, size)
            && (op.AllowWrite? ==> r.sent.Some?)
  {
    var p := Prepared(q, op);
    PreparedBudget(q, op, i, size);
    if p.writable {
      assert HeadFits(p, i + 1);
    }
    if Operate(q, op).sent.Some? {
      TurnedBudget(p, i, size);
      ServeBudget(Turned(p), i, size);
      ServeKeepsOthers(Turned(p), i);
    }
  }

  /**
   * A head is passed over only for a bounded number of write grants, whatever is
   * enqueued or conflated meanwhile: each grant sends a packet, and each packet
   * sent before it uses up at least a header's worth of a budget that nothing
   * replenishes.
   */
  lemma {:induction false} NoStarvation(q: Link, ops: seq<LinkOp>, i: nat, size: nat)
    requires i < 3 && PassesOver(q, ops, i, size)
    ensures WriteGrants(ops) <= SendCount(q, ops)
    ensures FORWARD_HEADER_LEN * SendCount(q, ops) <= Budget(q, i, size)
    decreases |ops|
  {
    if ops != [] {
      OperateBudget(q, ops[0], i, size);
      NoStarvation(Operate(q, ops[0]).link, ops[1..], i, size);
    }
  }

  /** What arrives, P1 conflation included, does not move the head of P2 or P3. */
  lemma PreparedHead(q: Link, op: LinkOp, c: nat)
    requires 2 <= c < 4 && q.queues[c] != []
    ensures Prepared(q, op).queues[c] != [] && Prepared(q, op).queues[c][0] == q.queues[c][0]
  {
  }

  ghost predicate PassedOver(q: Link, ops: seq<LinkOp>, i: nat)
    decreases |ops|
  {
    ops == [] ||
    (Orderly(q, ops[0]) && Served(q, ops[0]) != Some(i + 1) && PassedOver(Operate(q, ops[0]).link, ops[1..], i))
  }

  /** For P2 and P3 the length of the head itself is the bound to count with, since nothing replaces the head. */
  lemma {:induction false} HeadStays(q: Link, ops: seq<LinkOp>, i: nat)
    requires 1 <= i < 3 && q.queues[i + 1] != [] && PassedOver(q, ops, i)
    ensures PassesOver(q, ops, i, Len(q.queues[i + 1][0]))
    decreases |ops|
  {
    if ops != [] {
      PreparedHead(q, ops[0], i + 1);
      OperateBudget(q, ops[0], i, Len(q.queues[i + 1][0]));
      HeadStays(Operate(q, ops[0]).link, ops[1..], i);
    }
  }

  // ------------------------------------------------------------ byte accounting

  /** What the class at `i` earns in the current turn. */
  function Earned(q: Link, i: nat): nat
    requires i < 3
  {
    if q.nextDrr == i && q.needsQuantum && q.queues[i + 1] != [] then Quantum(i) else 0
  }

  /** What the class at `i` earns, one quantum per visit, until the round robin finds its next packet. */
  function EarnedWhileTurning(q: Link, i: nat): nat
    requires i < 3 && SomeFits(q)
    decreases Effort(q)
  {
    if CanServe(q) then Earned(q, i) else
      SkipShrinks(q);
      Earned(q, i) + EarnedWhileTurning(Skip(q), i)
  }

  function BytesFrom(q: Link, i: nat): nat
    requires i < 3 && CanServe(q)
  {
    if q.nextDrr == i then Len(q.queues[i + 1][0]) else 0
  }

  /** A deficit left over from a finished turn is at most one packet; a quantum more during the turn. */
  ghost predicate Modest(q: Link) {
    forall i :: 0 <= i < 3 ==>
      q.deficits[i] <= MAX_PAYLOAD_LEN + (if q.nextDrr == i && !q.needsQuantum then Quantum(i) else 0)
  }

  /** Heads are no longer than the largest packet that fits a frame. */
  ghost predicate Bounded(q: Link) {
    forall c :: 1 <= c < 4 && q.queues[c] != [] ==> Len(q.queues[c][0]) <= MAX_PAYLOAD_LEN
  }

  lemma SkipAccount(q: Link, i: nat)
    requires i < 3 && SomeFits(q) && !CanServe(q)
    ensures Skip(q).deficits[i] <= q.deficits[i] + Earned(q, i)
    ensures Modest(q) && q.queues[i + 1] != [] ==> Skip(q).deficits[i] == q.deficits[i] + Earned(q, i)
  {
  }

  lemma ServeAccount(q: Link, i: nat)
    requires i < 3 && CanServe(q)
    ensures Serve(q).deficits[i] + BytesFrom(q, i) <= q.deficits[i] + Earned(q, i)
    ensures Modest(q) && Serve(q).queues[i + 1] != [] ==>
              Serve(q).deficits[i] + BytesFrom(q, i) == q.deficits[i] + Earned(q, i)
  {
  }

  /** Sent bytes and the remaining deficit never exceed the old deficit and the quanta received. */
  lemma {:induction false} TurnAccount(q: Link, i: nat)
    requires i < 3 && SomeFits(q)
    ensures Serve(Turned(q)).deficits[i] + BytesFrom(Turned(q), i) <= q.deficits[i] + EarnedWhileTurning(q, i)
    decreases Effort(q)
  {
    if CanServe(q) {
      ServeAccount(q, i);
    } else {
      SkipShrinks(q);
      SkipAccount(q, i);
      TurnAccount(Skip(q), i);
    }
  }

  lemma SkipModest(q: Link)
    requires Ample(q) && Bounded(q) && Modest(q) && !CanServe(q)
    ensures Modest(Skip(q)) && Ample(Skip(q)) && Bounded(Skip(q))
  {
    forall c | 1 <= c < 4 && Skip(q).queues[c] != []
      ensures HeadFits(Skip(q), c) && Len(Skip(q).queues[c][0]) <= MAX_PAYLOAD_LEN {
      assert HeadFits(q, c);
    }
  }

  lemma ServeModest(q: Link)
    requires Modest(q) && CanServe(q)
    ensures Modest(Serve(q))
  {
  }

  lemma {:induction false} TurnModest(q: Link)
    requires SomeFits(q) && Ample(q) && Bounded(q) && Modest(q)
    ensures Modest(Serve(Turned(q)))
    decreases Effort(q)
  {
    if CanServe(q) {
      ServeModest(q);
    } else {
      SkipShrinks(q);
      SkipModest(q);
      TurnModest(Skip(q));
    }
  }

  /** For a class that stays backlogged the account balances exactly. */
  lemma {:induction false} TurnBalances(q: Link, i: nat)
    requires i < 3 && SomeFits(q) && Ample(q) && Bounded(q) && Modest(q)
    requires q.queues[i + 1] != [] && Serve(Turned(q)).queues[i + 1] != []
    ensures Serve(Turned(q)).deficits[i] + BytesFrom(Turned(q), i) == q.deficits[i] + EarnedWhileTurning(q, i)
    decreases Effort(q)
  {
    if CanServe(q) {
      ServeAccount(q, i);
    } else {
      SkipShrinks(q);
      SkipModest(q);
      SkipAccount(q, i);
      assert Turned(q) == Turned(Skip(q));
      TurnBalances(Skip(q), i);
    }
  }

  function OpEarned(q: Link, op: LinkOp, i: nat): nat
    requires i < 3
  {
    var p := Prepared(q, op);
    if Served(q, op).Some? && p.queues[0] == [] then EarnedWhileTurning(p, i) else 0
  }

  function OpBytes(q: Link, op: LinkOp, i: nat): nat
    requires i < 3
  {
    if Served(q, op) == Some(i + 1) then Len(Prepared(q, op).queues[i + 1][0]) else 0
  }

  ghost function RunEarned(q: Link, ops: seq<LinkOp>, i: nat): nat
    requires i < 3
    decreases |ops|
  {
    if ops == [] then 0 else OpEarned(q, ops[0], i) + RunEarned(Operate(q, ops[0]).link, ops[1..], i)
  }

  ghost function RunBytes(q: Link, ops: seq<LinkOp>, i: nat): nat
    requires i < 3
    decreases |ops|
  {
    if ops == [] then 0 else OpBytes(q, ops[0], i) + RunBytes(Operate(q, ops[0]).link, ops[1..], i)
  }

  lemma OpAccount(q: Link, op: LinkOp, i: nat)
    requires i < 3
    ensures Operate(q, op).link.deficits[i] + OpBytes(q, op, i) <= q.deficits[i] + OpEarned(q, op, i)
  {
    var p := Prepared(q, op);
    if Served(q, op).Some? && p.queues[0] == [] {
      TurnAccount(p, i);
    }
  }

  /** On every run: a class sends at most its starting deficit plus the quanta it received. */
  lemma {:induction false} NeverOverspends(q: Link, ops: seq<LinkOp>, i: nat)
    requires i < 3
    ensures RunBytes(q, ops, i) + AfterOps(q, ops).deficits[i] <= q.deficits[i] + RunEarned(q, ops, i)
    decreases |ops|
  {
    if ops != [] {
      OpAccount(q, ops[0], i);
      NeverOverspends(Operate(q, ops[0]).link, ops[1..], i);
    }
  }

  /** The operation is orderly, all packets fit a frame, and the class at `i` stays backlogged. */
  ghost predicate Backlogged(q: Link, op: LinkOp, i: nat)
    requires i < 3
  {
    Orderly(q, op) && Bounded(Prepared(q, op)) && Operate(q, op).link.queues[i + 1] != []
  }

  ghost predicate AlwaysBacklogged(q: Link, ops: seq<LinkOp>, i: nat)
    requires i < 3
  {
    Throughout(q, ops, Backlog(i))
  }

  ghost function Backlog(i: nat): (Link, LinkOp) -> bool
    requires i < 3
  {
    (q: Link, op: LinkOp) => Backlogged(q, op, i)
  }

  lemma BackloggedAdds(q: Link, s: seq<LinkOp>, t: seq<LinkOp>, i: nat)
    requires i < 3 && AlwaysBacklogged(q, s, i) && AlwaysBacklogged(AfterOps(q, s), t, i)
    ensures AlwaysBacklogged(q, s + t, i)
  {
    ThroughoutAdds(q, s, t, Backlog(i));
  }

  lemma {:induction false} WriteGrantsAdd(s: seq<LinkOp>, t: seq<LinkOp>)
    ensures WriteGrants(s + t) == WriteGrants(s) + WriteGrants(t)
  {
    FirstOfSum(s, t);
    if s != [] {
      WriteGrantsAdd(s[1..], t);
    }
  }

  lemma PreparedModest(q: Link, op: LinkOp)
    ensures var p := Prepared(q, op);
            && p.deficits == q.deficits && p.nextDrr == q.nextDrr && p.needsQuantum == q.needsQuantum
            && (Modest(q) ==> Modest(p))
  {
  }

  /** Deficits stay modest under every operation whose packets fit a frame and whose credit covers the heads, P0 traffic included. */
  lemma OperateModest(q: Link, op: LinkOp)
    requires Modest(q) && Bounded(Prepared(q, op)) && (Prepared(q, op).writable ==> Ample(Prepared(q, op)))
    ensures Modest(Operate(q, op).link)
  {
    var p := Prepared(q, op);
    PreparedModest(q, op);
    if Served(q, op).Some? && p.queues[0] == [] {
      TurnModest(p);
    }
  }

  lemma OpBalances(q: Link, op: LinkOp, i: nat)
    requires i < 3 && Modest(q) && Backlogged(q, op, i)
    ensures Operate(q, op).link.deficits[i] + OpBytes(q, op, i) == q.deficits[i] + OpEarned(q, op, i)
  {
    var p := Prepared(q, op);
    PreparedModest(q, op);
    if Served(q, op).Some? {
      assert p.queues[i + 1] != [];
      TurnBalances(p, i);
    }
  }

  /**
   * A class that stays backlogged sends all it earned but for a remainder of at
   * most one maximum packet and one quantum; between its turns, one packet.
   */
  lemma {:induction false} SpendsWhatItEarns(q: Link, ops: seq<LinkOp>, i: nat)
    requires i < 3 && Modest(q) && AlwaysBacklogged(q, ops, i)
    ensures RunBytes(q, ops, i) + AfterOps(q, ops).deficits[i] == q.deficits[i] + RunEarned(q, ops, i)
    ensures var end := AfterOps(q, ops);
            end.deficits[i] <= MAX_PAYLOAD_LEN + (if end.nextDrr == i && !end.needsQuantum then Quantum(i) else 0)
    decreases |ops|
  {
    if ops != [] {
      OpBalances(q, ops[0], i);
      OperateModest(q, ops[0]);
      SpendsWhatItEarns(Operate(q, ops[0]).link, ops[1..], i);
    }
  }

  /** Write grants for which a head of the class at `i` can be passed over, at most. */
  function WaitLimit(i: nat): nat {
    if i == 0 then 29_000 else if i == 1 then 60_000 else 250_400
  }

  /** In numbers, with modest deficits and packets that fit a frame. */
  lemma BudgetIsSmall(q: Link, i: nat, size: nat)
    requires i < 3 && Modest(q) && size <= MAX_PAYLOAD_LEN
    ensures Budget(q, i, size) <= FORWARD_HEADER_LEN * WaitLimit(i)
  {
    ShareIsSmall(q, i, (i + 1) % 3, size);
    ShareIsSmall(q, i, (i + 2) % 3, size);
  }

  /** The visits earn less than a maximal packet and one more quantum. */
  lemma VisitsAreFew(q: Link, i: nat, size: nat)
    requires i < 3 && size <= MAX_PAYLOAD_LEN
    ensures Quantum(i) * Visits(q, i, size) < MAX_PAYLOAD_LEN + Quantum(i)
  {
    QuantaBound(Max(size - q.deficits[i], 0), Quantum(i));
  }

  lemma ShareIsSmall(q: Link, i: nat, j: nat, size: nat)
    requires i < 3 && j < 3 && i != j && Modest(q) && size <= MAX_PAYLOAD_LEN
    ensures Share(q, i, j, size) <= MAX_PAYLOAD_LEN + Quantum(j) * ((MAX_PAYLOAD_LEN + Quantum(i) - 1) / Quantum(i))
  {
    VisitsAreFew(q, i, size);
  }

  lemma {:induction false} QuantaBound(short: nat, quantum: nat)
    requires quantum > 0
    ensures quantum * Quanta(short, quantum) < short + quantum
    decreases short
  {
    if short > 0 {
      var rest := Max(short - quantum, 0);
      QuantaBound(rest, quantum);
      assert quantum * Quanta(short, quantum) == quantum + quantum * Quanta(rest, quantum);
    }
  }

  // ------------------------------------------------------------ quanta in turn

  /** Whether the class at `i` is granted a quantum in the current turn. */
  function GetsQuantum(q: Link, i: nat): nat
    requires i < 3
  {
    if q.nextDrr == i && q.needsQuantum && q.queues[i + 1] != [] then 1 else 0
  }

  function QuantaWhileTurning(q: Link, i: nat): nat
    requires i < 3 && SomeFits(q)
    decreases Effort(q)
  {
    if CanServe(q) then GetsQuantum(q, i) else
      SkipShrinks(q);
      GetsQuantum(q, i) + QuantaWhileTurning(Skip(q), i)
  }

  function OpQuanta(q: Link, op: LinkOp, i: nat): nat
    requires i < 3
  {
    var p := Prepared(q, op);
    if Served(q, op).Some? && p.queues[0] == [] then QuantaWhileTurning(p, i) else 0
  }

  /** The quanta granted to the class at `i` on a run. */
  ghost function RunQuanta(q: Link, ops: seq<LinkOp>, i: nat): nat
    requires i < 3
    decreases |ops|
  {
    if ops == [] then 0 else OpQuanta(q, ops[0], i) + RunQuanta(Operate(q, ops[0]).link, ops[1..], i)
  }

  lemma {:induction false} TurnEarnsQuanta(q: Link, i: nat)
    requires i < 3 && SomeFits(q)
    ensures EarnedWhileTurning(q, i) == Quantum(i) * QuantaWhileTurning(q, i)
    decreases Effort(q)
  {
    if !CanServe(q) {
      SkipShrinks(q);
      TurnEarnsQuanta(Skip(q), i);
    }
  }

  /** What a class earns is its quantum as often as it is granted. */
  lemma {:induction false} EarnsQuanta(q: Link, ops: seq<LinkOp>, i: nat)
    requires i < 3
    ensures RunEarned(q, ops, i) == Quantum(i) * RunQuanta(q, ops, i)
    decreases |ops|
  {
    if ops != [] {
      var rest := RunQuanta(Operate(q, ops[0]).link, ops[1..], i);
      OpEarnsQuanta(q, ops[0], i);
      EarnsQuanta(Operate(q, ops[0]).link, ops[1..], i);
      Distributes(Quantum(i), OpQuanta(q, ops[0], i), rest);
    }
  }

  lemma OpEarnsQuanta(q: Link, op: LinkOp, i: nat)
    requires i < 3
    ensures OpEarned(q, op, i) == Quantum(i) * OpQuanta(q, op, i)
  {
    var p := Prepared(q, op);
    if Served(q, op).Some? && p.queues[0] == [] {
      TurnEarnsQuanta(p, i);
    }
  }

  lemma Distributes(a: nat, b: nat, c: nat)
    ensures a * (b + c) == a * b + a * c
  {
  }

  /** One if the class at `i` is offered its next quantum before the class at `j` is. */
  function Lead(q: Link, i: nat, j: nat): nat
    requires i < 3 && j < 3
  {
    if Sooner(q, i, j) then 1 else 0
  }

  lemma SkipAlternates(q: Link, i: nat, j: nat)
    requires i < 3 && j < 3 && i != j && q.queues[i + 1] != [] && q.queues[j + 1] != []
    ensures GetsQuantum(q, i) + Lead(Skip(q), i, j) == GetsQuantum(q, j) + Lead(q, i, j)
  {
    SkipOrder(q, j, i);
    SkipOrder(q, i, j);
    assert Sooner(Skip(q), i, j) == Sooner(AdvanceDrr(q), i, j);
  }

  lemma ServeAlternates(q: Link, i: nat, j: nat)
    requires i < 3 && j < 3 && i != j && CanServe(q) && q.queues[i + 1] != [] && q.queues[j + 1] != []
    ensures GetsQuantum(q, i) + Lead(Serve(q), i, j) == GetsQuantum(q, j) + Lead(q, i, j)
  {
    ServeUsesTurn(q);
    UsedOrder(q, Serve(q), j, i);
  }

  lemma {:induction false} TurnAlternates(q: Link, i: nat, j: nat)
    requires i < 3 && j < 3 && i != j && SomeFits(q) && q.queues[i + 1] != [] && q.queues[j + 1] != []
    ensures QuantaWhileTurning(q, i) + Lead(Serve(Turned(q)), i, j) == QuantaWhileTurning(q, j) + Lead(q, i, j)
    decreases Effort(q)
  {
    if CanServe(q) {
      ServeAlternates(q, i, j);
    } else {
      SkipShrinks(q);
      SkipAlternates(q, i, j);
      TurnAlternates(Skip(q), i, j);
    }
  }

  lemma OpAlternates(q: Link, op: LinkOp, i: nat, j: nat)
    requires i < 3 && j < 3 && i != j && Backlogged(q, op, i) && Backlogged(q, op, j)
    ensures OpQuanta(q, op, i) + Lead(Operate(q, op).link, i, j) == OpQuanta(q, op, j) + Lead(q, i, j)
  {
    var p := Prepared(q, op);
    PreparedModest(q, op);
    LeadDepends(q, p, i, j);
    if Served(q, op).Some? {
      WasBacklogged(q, op, i);
      WasBacklogged(q, op, j);
      SendAlternates(p, i, j);
    }
  }

  lemma LeadDepends(q: Link, p: Link, i: nat, j: nat)
    requires i < 3 && j < 3 && p.nextDrr == q.nextDrr && p.needsQuantum == q.needsQuantum
    ensures Lead(p, i, j) == Lead(q, i, j)
  {
  }

  lemma SendAlternates(p: Link, i: nat, j: nat)
    requires i < 3 && j < 3 && i != j && p.queues[0] == [] && p.queues[i + 1] != [] && p.queues[j + 1] != [] && NextClass(p).Some?
    ensures QuantaWhileTurning(p, i) + Lead(TrySend(p).link, i, j) == QuantaWhileTurning(p, j) + Lead(p, i, j)
  {
    TurnAlternates(p, i, j);
  }

  /** Sending does not fill a queue. */
  lemma WasBacklogged(q: Link, op: LinkOp, i: nat)
    requires i < 3 && Operate(q, op).link.queues[i + 1] != []
    ensures Prepared(q, op).queues[i + 1] != []
  {
    if TrySend(Prepared(q, op)).sent.Some? {
      TrySendTakesHead(Prepared(q, op));
    }
  }

  /** Two classes that stay backlogged are granted quanta in turn: their numbers differ by at most one. */
  lemma {:induction false} QuantaAlternate(q: Link, ops: seq<LinkOp>, i: nat, j: nat)
    requires i < 3 && j < 3 && i != j && AlwaysBacklogged(q, ops, i) && AlwaysBacklogged(q, ops, j)
    ensures RunQuanta(q, ops, i) + Lead(AfterOps(q, ops), i, j) == RunQuanta(q, ops, j) + Lead(q, i, j)
    decreases |ops|
  {
    if ops != [] {
      OpAlternates(q, ops[0], i, j);
      QuantaAlternate(Operate(q, ops[0]).link, ops[1..], i, j);
    }
  }
}
