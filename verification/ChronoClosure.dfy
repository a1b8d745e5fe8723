/**
 What an empty answer of the Bitcoin connectivity search excludes. The search keeps one payment for each address and
 follows only what is spent after it, so it can miss a trail through another payment. It misses one exactly where a
 spend of a kept address that leads on was rejected.
 */
module ChronoClosure {
  import opened Common
  import opened ChronoTrails
  import opened ChronoVisits
  import opened ChronoPaths

  /** The trail passes through addresses only, as the search does. */
  predicate NoScripts(trail: seq<Link>) {
    forall k :: 0 <= k < |trail| ==> !trail[k].output.to.Script?
  }

  /** A chronological trail of addresses within the hop limit. */
  predicate Walkable(load: Node -> Local, source: Node, hops: nat, trail: seq<Link>) {
    Chained(load, source, trail) && NoScripts(trail) && |trail| <= hops
  }

  /** The visit of an address, and its place. */
  predicate VisitAt(visits: seq<Visit>, a: Node, j: nat) {
    j < |visits| && visits[j].address == a
  }

  /** The first stops of the trail, up to the k-th, are visited. */
  predicate Inside(visits: seq<Visit>, source: Node, trail: seq<Link>, k: nat)
    requires k <= |trail|
  {
    forall i {:trigger StopAt(source, trail, i)} :: 0 <= i <= k ==> IsVisited(visits, StopAt(source, trail, i))
  }

  /** The time guard rejects the spend: it is not after the kept payment of its address. */
  ghost predicate TooEarly(visits: seq<Visit>, l: Link) {
    exists j: nat :: VisitAt(visits, l.input.from, j) && visits[j].link.Some?
      && !Before(visits[j].link.value.input.position, l.input.position)
  }

  ghost predicate AtLimit(visits: seq<Visit>, hops: nat, l: Link) {
    exists j: nat :: VisitAt(visits, l.input.from, j) && visits[j].depth >= hops
  }

  // ----- the first rejected spend -----

  /** A visited address, no deeper than k, has its later spends followed. */
  lemma NextStop(load: Node -> Local, source: Node, hops: nat, visits: seq<Visit>, j: nat, l: Link)
    requires Orderly(load, source, hops, |visits|, visits) && AllServed(load, hops, |visits|, visits)
    requires j < |visits| && visits[j].depth < hops
    requires LinkLoaded(load, l) && Spends(l.input, Item(visits[j])) && !l.output.to.Script?
    ensures exists i: nat :: VisitAt(visits, l.output.to, i) && visits[i].depth <= visits[j].depth + 1
  {
    assert Expanded(visits, |visits|, hops, j) && Served(load, visits, j);
    SpendOffered(load, Item(visits[j]), l);
    var o :| o in Offers(load, Item(visits[j])) && o.output == l.output;
    assert MetBy(visits, j, l.output.to);
    var i :| 0 <= i < |visits| && visits[i].address == l.output.to && visits[i].payer <= j;
    if i > 0 {
      assert Stemmed(load, hops, |visits|, visits, i);
      assert visits[i].payer == j || visits[visits[i].payer].depth <= visits[j].depth;
    }
    assert VisitAt(visits, l.output.to, i);
  }

  /** Unless the time guard rejects a spend of the trail, its stops are visited, no deeper than on the trail. */
  lemma {:induction false} StopsInside(load: Node -> Local, source: Node, hops: nat, visits: seq<Visit>,
                                       trail: seq<Link>, k: nat)
    requires Orderly(load, source, hops, |visits|, visits) && AllServed(load, hops, |visits|, visits)
    requires Walkable(load, source, hops, trail) && k <= |trail|
    requires forall i :: 0 <= i < k ==> !TooEarly(visits, trail[i])
    ensures exists j: nat :: VisitAt(visits, StopAt(source, trail, k), j) && visits[j].depth <= k
    ensures Inside(visits, source, trail, k)
  {
    if k == 0 {
      assert VisitAt(visits, source, 0);
    } else {
      StopsInside(load, source, hops, visits, trail, k - 1);
      var j: nat :| VisitAt(visits, StopAt(source, trail, k - 1), j) && visits[j].depth <= k - 1;
      var l := trail[k - 1];
      assert LinkLoaded(load, l) && l.input.from == StopAt(source, trail, k - 1);
      NextStop(load, source, hops, visits, j, l);
    }
  }

  /** A trail to an address that the search did not meet has a spend that the time guard rejected, at an address
      that was met no later than on the trail; before it, the search met the trail stop by stop. */
  lemma {:induction false} MissedAtGuard(load: Node -> Local, source: Node, hops: nat, visits: seq<Visit>,
                                         trail: seq<Link>, k: nat)
    requires Orderly(load, source, hops, |visits|, visits) && AllServed(load, hops, |visits|, visits)
    requires Walkable(load, source, hops, trail) && k <= |trail|
    requires !IsVisited(visits, StopAt(source, trail, |trail|))
    requires forall i :: 0 <= i < k ==> !TooEarly(visits, trail[i])
    ensures exists i: nat :: i < |trail| && TooEarly(visits, trail[i]) && Inside(visits, source, trail, i)
    decreases |trail| - k
  {
    StopsInside(load, source, hops, visits, trail, k);
    assert IsVisited(visits, StopAt(source, trail, k));
    if !TooEarly(visits, trail[k]) {
      MissedAtGuard(load, source, hops, visits, trail, k + 1);
    }
  }

  // ----- when something is missed -----

  /** A trail over visited addresses goes on to an address that was not visited, by a spend that was rejected. */
  ghost predicate Rejected(load: Node -> Local, source: Node, hops: nat, visits: seq<Visit>, trail: seq<Link>,
                           l: Link) {
    && Walkable(load, source, hops, trail) && |trail| < hops && Inside(visits, source, trail, |trail|)
    && Continues(load, source, trail, l) && !l.output.to.Script? && !IsVisited(visits, l.output.to)
    && (TooEarly(visits, l) || AtLimit(visits, hops, l))
  }

  /** A chronological trail within the hop limit leads to an address that was not visited. */
  ghost predicate Misses(load: Node -> Local, source: Node, hops: nat, visits: seq<Visit>, trail: seq<Link>) {
    Walkable(load, source, hops, trail) && !IsVisited(visits, StopAt(source, trail, |trail|))
  }

  lemma WalkableFront(load: Node -> Local, source: Node, hops: nat, trail: seq<Link>, k: nat)
    requires Walkable(load, source, hops, trail) && k < |trail|
    ensures Walkable(load, source, hops, trail[..k]) && Continues(load, source, trail[..k], trail[k])
  {
    assert LinkLoaded(load, trail[k]);
  }

  /** The first stop of the trail that was not visited. */
  lemma {:induction false} FirstOutside(visits: seq<Visit>, source: Node, trail: seq<Link>, k: nat) returns (m: nat)
    requires k < |trail| && Inside(visits, source, trail, k)
    requires !IsVisited(visits, StopAt(source, trail, |trail|))
    ensures m < |trail| && Inside(visits, source, trail, m) && !IsVisited(visits, StopAt(source, trail, m + 1))
    decreases |trail| - k
  {
    if IsVisited(visits, StopAt(source, trail, k + 1)) {
      m := FirstOutside(visits, source, trail, k + 1);
    } else {
      m := k;
    }
  }

  lemma MissedRejected(load: Node -> Local, source: Node, hops: nat, visits: seq<Visit>, trail: seq<Link>)
    requires Orderly(load, source, hops, |visits|, visits) && AllServed(load, hops, |visits|, visits)
    requires Misses(load, source, hops, visits, trail)
    ensures exists t, l :: Rejected(load, source, hops, visits, t, l)
  {
    assert VisitAt(visits, source, 0) && IsVisited(visits, source);
    var m := FirstOutside(visits, source, trail, 0);
    var t, l := trail[..m], trail[m];
    WalkableFront(load, source, hops, trail, m);
    forall i | 0 <= i <= m
      ensures IsVisited(visits, StopAt(source, t, i))
    {
      assert StopAt(source, t, i) == StopAt(source, trail, i);
    }
    assert StopAt(source, t, m) == l.input.from;
    var j :| 0 <= j < |visits| && visits[j].address == l.input.from;
    assert VisitAt(visits, l.input.from, j);
    if !TooEarly(visits, l) && visits[j].depth < hops {
      NextStop(load, source, hops, visits, j, l);
    }
    assert Rejected(load, source, hops, visits, t, l);
  }

  lemma RejectedMissed(load: Node -> Local, source: Node, hops: nat, visits: seq<Visit>, trail: seq<Link>, l: Link)
    requires Rejected(load, source, hops, visits, trail, l)
    ensures Misses(load, source, hops, visits, trail + [l])
  {
    ChainedLonger(load, source, trail, l);
  }

  /** A finished search misses an address within the hop limit exactly where a trail over visited addresses has a
      next spend that the time guard or the hop limit rejects and that pays an address not visited. */
  lemma MissesIff(load: Node -> Local, source: Node, hops: nat, n: nat)
    requires |Visits(load, source, hops, n)| <= n
    ensures var visits := Visits(load, source, hops, n);
            (exists trail :: Misses(load, source, hops, visits, trail))
            <==> (exists trail, l :: Rejected(load, source, hops, visits, trail, l))
  {
    VisitsComplete(load, source, hops, n);
    MissesAre(load, source, hops, Visits(load, source, hops, n));
  }

  lemma MissesAre(load: Node -> Local, source: Node, hops: nat, visits: seq<Visit>)
    requires Orderly(load, source, hops, |visits|, visits) && AllServed(load, hops, |visits|, visits)
    ensures (exists trail :: Misses(load, source, hops, visits, trail))
            <==> (exists trail, l :: Rejected(load, source, hops, visits, trail, l))
  {
    if trail :| Misses(load, source, hops, visits, trail) {
      MissedRejected(load, source, hops, visits, trail);
    }
    if trail, l :| Rejected(load, source, hops, visits, trail, l) {
      RejectedMissed(load, source, hops, visits, trail, l);
    }
  }

  /** A target that the search did not meet is within reach exactly over a trail with a spend that the time guard
      rejected, where the search had met every stop up to it. */
  lemma TargetMissedIff(load: Node -> Local, source: Node, target: Node, hops: nat, n: nat)
    requires Finished(load, source, target, hops, n)
    ensures var visits := Visits(load, source, hops, n);
            (exists trail :: LeadsTo(load, source, target, hops, trail))
            <==> (exists trail, i: nat :: LeadsTo(load, source, target, hops, trail) && i < |trail|
                    && TooEarly(visits, trail[i]) && Inside(visits, source, trail, i))
  {
    VisitsComplete(load, source, hops, n);
    if trail :| LeadsTo(load, source, target, hops, trail) {
      MissedAtGuard(load, source, hops, Visits(load, source, hops, n), trail, 0);
    }
  }

  ghost predicate LeadsTo(load: Node -> Local, source: Node, target: Node, hops: nat, trail: seq<Link>) {
    Walkable(load, source, hops, trail) && StopAt(source, trail, |trail|) == target
  }

  /** A search in which every visit had its turn. */
  lemma VisitsComplete(load: Node -> Local, source: Node, hops: nat, n: nat)
    requires |Visits(load, source, hops, n)| <= n
    ensures var visits := Visits(load, source, hops, n);
            Orderly(load, source, hops, |visits|, visits) && AllServed(load, hops, |visits|, visits)
  {
    VisitsRight(load, source, hops, n);
    var visits := Visits(load, source, hops, n);
    forall j | 0 < j < |visits|
      ensures Stemmed(load, hops, |visits|, visits, j)
    {
      assert Stemmed(load, hops, n, visits, j);
    }
    forall p: nat | Expanded(visits, |visits|, hops, p)
      ensures Served(load, visits, p)
    {
      assert Expanded(visits, n, hops, p);
    }
  }

  // ----- when nothing can be missed -----

  /** Whichever payment reaches an address, the same spends of it are later: no spend lies between two payments. */
  ghost predicate NoSpendBetween(load: Node -> Local) {
    forall l, m, e {:trigger LinkLoaded(load, l), LinkLoaded(load, m), e in load(l.output.to).edges} ::
      LinkLoaded(load, l) && LinkLoaded(load, m) && l.output.to == m.output.to
      && e in load(l.output.to).edges && e.from == l.output.to && e.transfer == UtxoInput ==>
        (Before(l.input.position, e.position) <==> Before(m.input.position, e.position))
  }

  lemma NeverEarly(load: Node -> Local, source: Node, hops: nat, visits: seq<Visit>, trail: seq<Link>, k: nat)
    requires NoSpendBetween(load) && Orderly(load, source, hops, |visits|, visits)
    requires Chained(load, source, trail) && k < |trail|
    ensures !TooEarly(visits, trail[k])
  {
    var e := trail[k].input;
    assert LinkLoaded(load, trail[k]);
    forall j: nat | VisitAt(visits, e.from, j) && visits[j].link.Some?
      ensures Before(visits[j].link.value.input.position, e.position)
    {
      assert j > 0 && Stemmed(load, hops, |visits|, visits, j);
      OfferRight(load, Item(visits[visits[j].payer]), visits[j].link.value);
      if k > 0 {
        LaterAnyway(load, visits[j].link.value, trail[k - 1], trail[k].input);
      }
    }
  }

  lemma LaterAnyway(load: Node -> Local, l: Link, m: Link, e: Edge)
    requires NoSpendBetween(load) && LinkLoaded(load, l) && LinkLoaded(load, m) && l.output.to == m.output.to == e.from
    requires e in load(e.from).edges && e.transfer == UtxoInput && Before(m.input.position, e.position)
    ensures Before(l.input.position, e.position)
  {
    assert e in load(l.output.to).edges;
  }

  /** When no spend lies between two payments of one address, a finished search that did not meet the target excludes
      every chronological trail of addresses from source to target within the hop limit. */
  lemma ClosedExcludes(load: Node -> Local, source: Node, target: Node, hops: nat, n: nat, trail: seq<Link>)
    requires Finished(load, source, target, hops, n)
    requires NoSpendBetween(load) && Walkable(load, source, hops, trail)
    ensures StopAt(source, trail, |trail|) != target
  {
    var visits := Visits(load, source, hops, n);
    VisitsComplete(load, source, hops, n);
    forall i | 0 <= i < |trail|
      ensures !TooEarly(visits, trail[i])
    {
      NeverEarly(load, source, hops, visits, trail, i);
    }
    StopsInside(load, source, hops, visits, trail, |trail|);
    assert IsVisited(visits, StopAt(source, trail, |trail|));
  }
}
