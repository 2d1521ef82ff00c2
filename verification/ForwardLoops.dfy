/** The loops of the forwarder that only compute, each proved equal to the function that specifies it. */
module ForwardLoops {
  import opened MeshTypes
  import opened Scheduler
  import opened Forwarding

  /** One turn of the round robin: the class either sends its head or passes the turn on. */
  method TakeTurn(q: Link) returns (s: Link, sent: Option<Queued>)
    ensures if CanServe(q) then s == Serve(q) && sent == Some(q.queues[q.nextDrr + 1][0]) else s == Skip(q) && sent == None
  {
    var i := q.nextDrr;
    s, sent := q, None;
    if s.queues[i + 1] == [] {
      s := AdvanceDrr(s.(deficits := s.deficits[i := 0]));
      return;
    }
    if s.needsQuantum {
      s := s.(deficits := s.deficits[i := Saturated(s.deficits[i] + Quantum(i))], needsQuantum := false);
    }
    var head := s.queues[i + 1][0];
    if Len(head) > s.deficits[i] || Len(head) > s.credit {
      s := AdvanceDrr(s);
      return;
    }
    s := Take(s, i + 1).(deficits := s.deficits[i := s.deficits[i] - Len(head)]);
    if s.queues[i + 1] == [] {
      s := AdvanceDrr(s.(deficits := s.deficits[i := 0]));
    }
    sent := Some(head);
  }

  /** Turns until some class sends; the effort measure shows that this ends for every queue, credit and deficit. */
  method RoundRobin(q: Link) returns (s: Link, head: Queued)
    requires SomeFits(q)
    ensures s == Serve(Turned(q)) && head == q.queues[Turned(q).nextDrr + 1][0]
  {
    s := q;
    var sent: Option<Queued> := None;
    while sent.None?
      invariant sent.None? ==> SomeFits(s) && Turned(s) == Turned(q)
      invariant sent.Some? ==> s == Serve(Turned(q)) && sent.value == q.queues[Turned(q).nextDrr + 1][0]
      decreases sent.None?, if sent.None? then Effort(s) else 0
    {
      if !CanServe(s) {
        SkipShrinks(s);
      }
      s, sent := TakeTurn(s);
    }
    head := sent.value;
  }

  /** Starts at most one write: P0 first, else round robin until a class can afford its head. */
  method TrySendOne(q: Link) returns (r: Attempt)
    ensures r == TrySend(q)
    ensures r.link.writable ==> Blocked(r.link)
  {
    TrySendConserves(q);
    if !q.writable {
      return Attempt(q, None);
    }
    if q.queues[0] != [] {
      if Len(q.queues[0][0]) > q.credit {
        return Attempt(q, None);
      }
      return Attempt(Take(q, 0), Some(q.queues[0][0]));
    }
    if !SomeFits(q) {
      return Attempt(q, None);
    }
    var s, head := RoundRobin(q);
    return Attempt(s, Some(head));
  }

  lemma {:induction false} SelectAppend(ds: seq<NodeId>, d: NodeId, verdict: NodeId -> Verdict, v: Verdict)
    ensures Select(ds + [d], verdict, v) == Select(ds, verdict, v) + (if verdict(d) == v then [d] else [])
  {
    FirstOfSum(ds, [d]);
    if ds == [] {
      assert [d][1..] == [] && Select([], verdict, v) == [];
    } else {
      SelectAppend(ds[1..], d, verdict, v);
      Associates(if verdict(ds[0]) == v then [ds[0]] else [], Select(ds[1..], verdict, v), if verdict(d) == v then [d] else []);
    }
  }

  lemma {:induction false} StuckAppend(ds: seq<NodeId>, d: NodeId, verdict: NodeId -> Verdict)
    ensures Stuck(ds + [d], verdict) == Stuck(ds, verdict) + (if verdict(d).Unroutable? || verdict(d).Looping? then [d] else [])
  {
    FirstOfSum(ds, [d]);
    if ds == [] {
      assert [d][1..] == [] && Stuck([], verdict) == [];
    } else {
      StuckAppend(ds[1..], d, verdict);
      Associates(if verdict(ds[0]).Unroutable? || verdict(ds[0]).Looping? then [ds[0]] else [], Stuck(ds[1..], verdict),
                 if verdict(d).Unroutable? || verdict(d).Looping? then [d] else []);
    }
  }

  /** `byLink` groups the routed destinations by the link they leave on. */
  ghost predicate Grouped(byLink: map<LinkId, seq<NodeId>>, ds: seq<NodeId>, verdict: NodeId -> Verdict) {
    && (forall k :: k in byLink <==> Select(ds, verdict, Via(k)) != [])
    && (forall k :: k in byLink ==> byLink[k] == Select(ds, verdict, Via(k)))
  }

  function Group(byLink: map<LinkId, seq<NodeId>>, k: LinkId, d: NodeId): map<LinkId, seq<NodeId>> {
    byLink[k := (if k in byLink then byLink[k] else []) + [d]]
  }

  lemma GroupNext(byLink: map<LinkId, seq<NodeId>>, ds: seq<NodeId>, d: NodeId, verdict: NodeId -> Verdict)
    requires Grouped(byLink, ds, verdict)
    ensures Grouped(if verdict(d).Via? then Group(byLink, verdict(d).link, d) else byLink, ds + [d], verdict)
  {
    forall k ensures Select(ds + [d], verdict, Via(k)) == Select(ds, verdict, Via(k)) + (if verdict(d) == Via(k) then [d] else []) {
      SelectAppend(ds, d, verdict, Via(k));
    }
  }

  lemma GroupedLinks(byLink: map<LinkId, seq<NodeId>>, ds: seq<NodeId>, verdict: NodeId -> Verdict)
    requires Grouped(byLink, ds, verdict)
    ensures byLink.Keys == set d | d in ds && verdict(d).Via? :: verdict(d).link
  {
    var links := set d | d in ds && verdict(d).Via? :: verdict(d).link;
    forall k ensures k in byLink <==> k in links {
      if k in byLink {
        assert byLink[k][0] in Select(ds, verdict, Via(k));
      }
      if k in links {
        var d :| d in ds && verdict(d).Via? && verdict(d).link == k;
        assert d in Select(ds, verdict, Via(k));
      }
    }
  }

  datatype Sorted = Sorted(local: bool, unroutable: seq<NodeId>, looping: seq<NodeId>, stuck: seq<NodeId>, byLink: map<LinkId, seq<NodeId>>)

  ghost predicate SortedOut(r: Sorted, ds: seq<NodeId>, verdict: NodeId -> Verdict) {
    && (r.local <==> Select(ds, verdict, Local) != [])
    && r.unroutable == Select(ds, verdict, Unroutable) && r.looping == Select(ds, verdict, Looping)
    && r.stuck == Stuck(ds, verdict) && Grouped(r.byLink, ds, verdict)
  }

  function SortNext(r: Sorted, d: NodeId, v: Verdict): Sorted {
    match v
    case Local => r.(local := true)
    case Unroutable => r.(unroutable := r.unroutable + [d], stuck := r.stuck + [d])
    case Looping => r.(looping := r.looping + [d], stuck := r.stuck + [d])
    case Via(k) => r.(byLink := Group(r.byLink, k, d))
  }

  lemma SortedOutNothing(verdict: NodeId -> Verdict)
    ensures SortedOut(Sorted(false, [], [], [], map[]), [], verdict)
  {
  }

  lemma SortedOutNext(r: Sorted, ds: seq<NodeId>, d: NodeId, verdict: NodeId -> Verdict)
    requires SortedOut(r, ds, verdict)
    ensures SortedOut(SortNext(r, d, verdict(d)), ds + [d], verdict)
  {
    SelectAppend(ds, d, verdict, Local);
    SelectAppend(ds, d, verdict, Unroutable);
    SelectAppend(ds, d, verdict, Looping);
    StuckAppend(ds, d, verdict);
    GroupNext(r.byLink, ds, d, verdict);
  }

  /** Sorts destinations by verdict, one after the other. */
  method SortOut(ds: seq<NodeId>, verdict: NodeId -> Verdict) returns (r: Sorted)
    ensures SortedOut(r, ds, verdict)
    ensures Ascending(r.byLink.Keys) == LinksFor(ds, verdict)
  {
    r := Sorted(false, [], [], [], map[]);
    SortedOutNothing(verdict);
    var i := 0;
    ghost var done: seq<NodeId> := [];
    while i < |ds|
      invariant 0 <= i <= |ds| && done == ds[..i]
      invariant SortedOut(r, done, verdict)
    {
      SortedOutNext(r, done, ds[i], verdict);
      r := SortNext(r, ds[i], verdict(ds[i]));
      done := done + [ds[i]];
      i := i + 1;
    }
    assert done == ds;
    GroupedLinks(r.byLink, ds, verdict);
  }
}
