/** How one event of the forwarder spends the write permission and the credit of each link. */
module CreditFlow {
  import opened MeshTypes
  import opened Packets
  import opened Scheduler
  import opened Forwarding
  import opened LinkTrace

  /** From `q` to `r`: nothing sent and nothing spent, or one packet sent for its length and the write permission. */
  ghost predicate Pays(q: Link, sent: seq<Packet>, r: Link) {
    || (sent == [] && r.credit == q.credit && r.writable == q.writable)
    || (|sent| == 1 && q.writable && !r.writable && r.credit + EncodedLen(sent[0]) == q.credit)
  }

  ghost predicate EffectPays(f: Fwd, e: Effect, k: LinkId) {
    Pays(LinkOf(f, k), OnLink(e.actions, k), LinkOf(e.fwd, k))
  }

  lemma TrySendPays(q: Link)
    ensures var a := TrySend(q); Pays(q, if a.sent.Some? then [a.sent.value.packet] else [], a.link)
  {
    if TrySend(q).sent.Some? {
      TrySendTakesHead(q);
    }
  }

  /** The first packet sent uses up the permission, so a list of offers sends at most one. */
  lemma {:induction false} OffersPay(q: Link, ops: seq<LinkOp>)
    requires forall op :: op in ops ==> op.Offer?
    ensures Pays(q, SentBy(q, ops), AfterOps(q, ops))
    decreases |ops|
  {
    if ops != [] {
      TrySendPays(Prepared(q, ops[0]));
      OffersPay(Operate(q, ops[0]).link, ops[1..]);
    }
  }

  /** Every event but a grant or a loss pays for what it sends on each link, and sends at most one packet there. */
  lemma HandlePays(f: Fwd, now: Time, event: ForwardEvent, k: LinkId)
    requires !event.LinkCredit? && !event.LinkWritable? && !event.LinkDown?
    ensures EffectPays(f, Handle(f, now, event), k)
  {
    HandleOn(f, now, event, k);
    OffersPay(LinkOf(f, k), EventOps(f, now, event, k));
  }

  /** Link loss: the lost link falls silent, with neither credit nor permission; the others pay as usual. */
  lemma LinkDownPays(f: Fwd, now: Time, link: LinkId, k: LinkId)
    ensures var e := HandleLinkDown(f, now, link);
            if k == link then OnLink(e.actions, k) == [] && LinkOf(e.fwd, k).credit == 0 && !LinkOf(e.fwd, k).writable
            else EffectPays(f, e, k)
  {
    LinkDownOn(f, now, link, k);
    OffersPay(if k == link then NewLink else LinkOf(f, k), OpsOn(HandleLinkDown(f, now, link).trace, k));
  }

  /** A grant pays out of the state with the grant, and touches no other link. */
  lemma PermitPays(f: Fwd, link: LinkId, op: LinkOp, k: LinkId)
    requires !op.Offer? && link !in f.down
    ensures var e := Permit(f, link, op);
            if k == link then Pays(Prepared(LinkOf(f, link), op), OnLink(e.actions, k), LinkOf(e.fwd, k))
            else OnLink(e.actions, k) == [] && LinkOf(e.fwd, k) == LinkOf(f, k)
  {
    var event := if op.AddCredit? then LinkCredit(link, op.bytes) else LinkWritable(link);
    PermitReplays(f, link, op);
    HandleOn(f, 0, event, k);
    TrySendPays(Prepared(LinkOf(f, link), op));
    assert [LinkStep(link, op)][1..] == [] && [op][1..] == [];
  }

  // ------------------------------------------------------------ silence after a loss

  /** The link has no write permission. */
  ghost predicate Silent(f: Fwd, k: LinkId) {
    !LinkOf(f, k).writable
  }

  /** Nothing is sent on a link without write permission, and only a grant for that very link gives it permission. */
  lemma SilenceLasts(f: Fwd, now: Time, event: ForwardEvent, k: LinkId)
    requires Silent(f, k) && event != LinkWritable(k)
    ensures var e := Handle(f, now, event); OnLink(e.actions, k) == [] && Silent(e.fwd, k)
  {
    if event.LinkDown? {
      LinkDownPays(f, now, event.link, k);
    } else if event.LinkCredit? || event.LinkWritable? {
      if event.link !in f.down {
        PermitPays(f, event.link, if event.LinkCredit? then AddCredit(event.bytes) else AllowWrite, k);
      }
    } else {
      HandlePays(f, now, event, k);
    }
  }

  /** The links sent on during a run. */
  ghost function SentOn(f: Fwd, events: seq<(Time, ForwardEvent)>, k: LinkId): seq<Packet>
    decreases |events|
  {
    if events == [] then []
    else
      var e := Handle(f, events[0].0, events[0].1);
      OnLink(e.actions, k) + SentOn(e.fwd, events[1..], k)
  }

  lemma LossSilences(f: Fwd, now: Time, k: LinkId)
    ensures var e := Handle(f, now, ForwardEvent.LinkDown(k)); OnLink(e.actions, k) == [] && Silent(e.fwd, k)
  {
    LinkDownPays(f, now, k, k);
  }

  /** Each write grant for link `k` in the run finds the link still down, and is refused. */
  ghost predicate GrantsRefused(f: Fwd, events: seq<(Time, ForwardEvent)>, k: LinkId)
    decreases |events|
  {
    events == [] ||
    ((events[0].1 == LinkWritable(k) ==> k in f.down) && GrantsRefused(Handle(f, events[0].0, events[0].1).fwd, events[1..], k))
  }

  /** After a link goes down, nothing is sent on it until a write grant for it is accepted. */
  lemma DownIsSilent(f: Fwd, now: Time, k: LinkId, events: seq<(Time, ForwardEvent)>)
    requires GrantsRefused(Handle(f, now, ForwardEvent.LinkDown(k)).fwd, events, k)
    ensures var e := Handle(f, now, ForwardEvent.LinkDown(k)); OnLink(e.actions, k) == [] && SentOn(e.fwd, events, k) == []
  {
    LossSilences(f, now, k);
    StaysSilent(Handle(f, now, ForwardEvent.LinkDown(k)).fwd, k, events);
  }

  lemma {:induction false} StaysSilent(f: Fwd, k: LinkId, events: seq<(Time, ForwardEvent)>)
    requires Silent(f, k) && GrantsRefused(f, events, k)
    ensures SentOn(f, events, k) == []
    decreases |events|
  {
    if events != [] {
      StepSilent(f, events[0].0, events[0].1, k);
      StaysSilent(Handle(f, events[0].0, events[0].1).fwd, k, events[1..]);
    }
  }

  lemma StepSilent(f: Fwd, now: Time, event: ForwardEvent, k: LinkId)
    requires Silent(f, k) && (event == LinkWritable(k) ==> k in f.down)
    ensures var e := Handle(f, now, event); OnLink(e.actions, k) == [] && Silent(e.fwd, k)
  {
    if event != LinkWritable(k) {
      SilenceLasts(f, now, event, k);
    }
  }
}
