/**
 The BSC exposure report: the search over the claims that the query returns, its rows by score, and what
 the limit of that query can hide without a flag.
 */
module ExposureReport {
  import opened Common
  import opened Exposure

  // The query returns at most this many claims of an address; the search is not told when there are more.
  const MAX_CLAIMS: nat := 100

  function FirstClaims(claims: seq<Label>): seq<Label> {
    claims[..Min(MAX_CLAIMS, |claims|)]
  }

  /** The replies that the search sees: the claims of an address are cut at the limit of their query. */
  function Cut(db: Replies): Replies {
    Replies(db.edges, (a: Address) => FirstClaims(db.labels(a)))
  }

  // ----- the claims that the query cuts off -----

  lemma CutValid(db: Replies)
    requires ValidReplies(db)
    ensures ValidReplies(Cut(db))
  {
  }

  /** No address that the search has to meet has more claims than the query returns. */
  ghost predicate FewClaims(db: Replies, subject: Address) {
    forall a :: Met(db, subject, a) ==> |db.labels(a)| <= MAX_CLAIMS
  }

  lemma FewClaimsShown(db: Replies, subject: Address, a: Address)
    requires FewClaims(db, subject) && Met(db, subject, a)
    ensures Cut(db).labels(a) == db.labels(a)
  {
    assert db.labels(a)[..|db.labels(a)|] == db.labels(a);
  }

  lemma SameChains(db: Replies, subject: Address, t: Trail)
    ensures Chain(Cut(db), subject, t) <==> Chain(db, subject, t)
  {
    if |t.addresses| == |t.edges| + 1 {
      forall k | 0 <= k < |t.edges|
        ensures Linked(Cut(db), t, k) <==> Linked(db, t, k)
      {
      }
    }
  }

  lemma ParentLinked(db: Replies, t: Trail, k: nat)
    requires |t.addresses| == |t.edges| + 1 && k < |t.edges| - 1 && Linked(db, t, k)
    ensures Linked(db, Parent(t), k)
  {
  }

  lemma ParentCovered(db: Replies, subject: Address, t: Trail)
    requires Covered(db, subject, t) && |t.edges| > 1
    ensures Covered(db, subject, Parent(t))
  {
    var p := Parent(t);
    forall k | 0 <= k < |p.edges|
      ensures Linked(db, p, k)
    {
      assert Linked(db, t, k);
      ParentLinked(db, t, k);
    }
  }

  /** Every address of a covered chain is met. */
  lemma {:induction false} ChainMet(db: Replies, subject: Address, t: Trail, k: nat)
    requires Covered(db, subject, t) && k < |t.addresses|
    ensures Met(db, subject, t.addresses[k])
    decreases |t.edges|
  {
    if k == |t.edges| {
      assert Last(t) == t.addresses[k];
    } else if k > 0 {
      ParentCovered(db, subject, t);
      assert Parent(t).addresses[k] == t.addresses[k];
      ChainMet(db, subject, Parent(t), k);
    }
  }

  lemma CoveredIsShown(db: Replies, subject: Address, t: Trail)
    requires FewClaims(db, subject) && Covered(db, subject, t)
    ensures Covered(Cut(db), subject, t)
  {
    SameChains(db, subject, t);
    forall k | 0 <= k < |t.edges| && (k > 0 || |t.edges| > 1)
      ensures !Service(Cut(db).labels(t.addresses[k]))
    {
      ChainMet(db, subject, t, k);
      FewClaimsShown(db, subject, t.addresses[k]);
    }
  }

  lemma {:induction false} ShownIsCovered(db: Replies, subject: Address, t: Trail)
    requires FewClaims(db, subject) && Covered(Cut(db), subject, t)
    ensures Covered(db, subject, t)
    decreases |t.edges|
  {
    SameChains(db, subject, t);
    if |t.edges| > 1 {
      var p := Parent(t);
      ParentCovered(Cut(db), subject, t);
      ShownIsCovered(db, subject, p);
      forall k | 0 <= k < |t.edges|
        ensures !Service(db.labels(t.addresses[k]))
      {
        assert p.addresses[k] == t.addresses[k];
        ChainMet(db, subject, p, k);
        FewClaimsShown(db, subject, t.addresses[k]);
      }
    }
  }

  /** With few claims everywhere, the cut replies give the rows of all claims. */
  lemma SameRows(db: Replies, subject: Address, r: Row)
    requires FewClaims(db, subject)
    ensures GoodRow(Cut(db), subject, r) <==> GoodRow(db, subject, r)
  {
    var t := r.trail;
    if Covered(db, subject, t) || Covered(Cut(db), subject, t) {
      if Covered(db, subject, t) {
        CoveredIsShown(db, subject, t);
      } else {
        ShownIsCovered(db, subject, t);
      }
      ChainMet(db, subject, t, |t.edges|);
      FewClaimsShown(db, subject, Last(t));
      FewClaimsShown(db, subject, subject);
    }
  }

  // ----- exactly when the limit matters -----

  /** A covered chain ends at a seed claim that the query does not return. */
  predicate HidesSeed(db: Replies, subject: Address, t: Trail) {
    && Covered(db, subject, t)
    && exists l :: l in db.labels(Last(t)) && l.seed && l !in Cut(db).labels(Last(t))
  }

  /** A chain to a shown seed, as the search sees it, that passes through a service, or has one at its ends, which only
      claims beyond the limit tell. */
  predicate HidesService(db: Replies, subject: Address, t: Trail) {
    && Covered(Cut(db), subject, t)
    && (exists l :: l in Cut(db).labels(Last(t)) && l.seed)
    && (!Unmediated(db, t) || Mediated(db, subject, t) != Mediated(Cut(db), subject, t))
  }

  predicate Mediated(db: Replies, subject: Address, t: Trail)
    requires |t.addresses| > 0
  {
    Service(db.labels(subject)) || Service(db.labels(Last(t)))
  }

  /** No claim beyond the limit matters to the rows. */
  ghost predicate NothingHidden(db: Replies, subject: Address) {
    forall t :: !HidesSeed(db, subject, t) && !HidesService(db, subject, t)
  }

  lemma ShownServices(db: Replies, a: Address)
    ensures Service(Cut(db).labels(a)) ==> Service(db.labels(a))
  {
    if Service(Cut(db).labels(a)) {
      var i :| 0 <= i < |Cut(db).labels(a)| && ServiceLabel(Cut(db).labels(a)[i]);
      assert Cut(db).labels(a) == FirstClaims(db.labels(a));
      assert db.labels(a)[i] == Cut(db).labels(a)[i];
    }
  }

  lemma CoveredWhenCut(db: Replies, subject: Address, t: Trail)
    requires Covered(db, subject, t)
    ensures Covered(Cut(db), subject, t)
  {
    SameChains(db, subject, t);
    forall k | 0 <= k < |t.edges| && (k > 0 || |t.edges| > 1)
      ensures !Service(Cut(db).labels(t.addresses[k]))
    {
      ShownServices(db, t.addresses[k]);
    }
  }

  lemma RowStays(db: Replies, subject: Address, r: Row)
    requires NothingHidden(db, subject)
    ensures GoodRow(Cut(db), subject, r) <==> GoodRow(db, subject, r)
  {
    var t := r.trail;
    if GoodRow(db, subject, r) {
      CoveredWhenCut(db, subject, t);
      assert !HidesSeed(db, subject, t);
      assert r.claim in Cut(db).labels(Last(t));
      assert !HidesService(db, subject, t);
    }
    if GoodRow(Cut(db), subject, r) {
      assert !HidesService(db, subject, t);
      SameChains(db, subject, t);
    }
  }

  lemma HiddenSeedMatters(db: Replies, subject: Address, t: Trail) returns (r: Row)
    requires HidesSeed(db, subject, t)
    ensures GoodRow(db, subject, r) && !GoodRow(Cut(db), subject, r)
  {
    var l :| l in db.labels(Last(t)) && l.seed && l !in Cut(db).labels(Last(t));
    r := RowOf(db, subject, t, l);
  }

  lemma HiddenServiceMatters(db: Replies, subject: Address, t: Trail) returns (r: Row)
    requires HidesService(db, subject, t)
    ensures GoodRow(Cut(db), subject, r) && !GoodRow(db, subject, r)
  {
    var l :| l in Cut(db).labels(Last(t)) && l.seed;
    r := RowOf(Cut(db), subject, t, l);
    assert r.serviceMediated == Mediated(Cut(db), subject, t);
  }

  /** The limit of the claim query changes no row exactly when no claim beyond it is a seed at the end of a covered
      chain or makes a service on a chain to a seed. */
  lemma LimitHarmless(db: Replies, subject: Address)
    ensures (forall r :: GoodRow(Cut(db), subject, r) <==> GoodRow(db, subject, r)) <==> NothingHidden(db, subject)
  {
    if NothingHidden(db, subject) {
      forall r: Row
        ensures GoodRow(Cut(db), subject, r) <==> GoodRow(db, subject, r)
      {
        RowStays(db, subject, r);
      }
    } else {
      var t :| HidesSeed(db, subject, t) || HidesService(db, subject, t);
      var r;
      if HidesSeed(db, subject, t) {
        r := HiddenSeedMatters(db, subject, t);
      } else {
        r := HiddenServiceMatters(db, subject, t);
      }
      assert GoodRow(Cut(db), subject, r) != GoodRow(db, subject, r);
    }
  }

  /** In particular where no address that is met has more claims than the query returns. */
  lemma FewHideNothing(db: Replies, subject: Address)
    requires FewClaims(db, subject)
    ensures NothingHidden(db, subject)
  {
    forall r: Row
      ensures GoodRow(Cut(db), subject, r) <==> GoodRow(db, subject, r)
    {
      SameRows(db, subject, r);
    }
    LimitHarmless(db, subject);
  }

  // ----- the best rows -----

  /** The rows by decreasing score, equal scores in their old order. */
  function ByScore(rows: seq<Row>, score: Row -> int): seq<Row> {
    if rows == [] then [] else PlaceRow(rows[0], ByScore(rows[1..], score), score)
  }

  function PlaceRow(r: Row, rows: seq<Row>, score: Row -> int): seq<Row> {
    if rows == [] || score(r) >= score(rows[0]) then [r] + rows
    else [rows[0]] + PlaceRow(r, rows[1..], score)
  }

  predicate Descending(rows: seq<Row>, score: Row -> int) {
    forall i, j :: 0 <= i < j < |rows| ==> score(rows[i]) >= score(rows[j])
  }

  lemma {:induction false} PlaceSame(r: Row, rows: seq<Row>, score: Row -> int)
    ensures multiset(PlaceRow(r, rows, score)) == multiset(rows) + multiset{r}
  {
    if rows != [] {
      assert rows == [rows[0]] + rows[1..];
      if score(r) < score(rows[0]) {
        PlaceSame(r, rows[1..], score);
      }
    }
  }

  lemma {:induction false} PlaceDescends(r: Row, rows: seq<Row>, score: Row -> int)
    requires Descending(rows, score)
    ensures Descending(PlaceRow(r, rows, score), score)
  {
    if rows != [] && score(r) < score(rows[0]) {
      PlaceDescends(r, rows[1..], score);
      PlaceSame(r, rows[1..], score);
      var placed := PlaceRow(r, rows[1..], score);
      forall j | 0 <= j < |placed|
        ensures score(rows[0]) >= score(placed[j])
      {
        assert placed[j] in multiset(placed);
        assert placed[j] == r || placed[j] in rows[1..];
      }
    }
  }

  lemma {:induction false} ByScoreKeeps(rows: seq<Row>, score: Row -> int)
    ensures multiset(ByScore(rows, score)) == multiset(rows) && Descending(ByScore(rows, score), score)
  {
    if rows != [] {
      assert rows == [rows[0]] + rows[1..];
      ByScoreKeeps(rows[1..], score);
      PlaceSame(rows[0], ByScore(rows[1..], score), score);
      PlaceDescends(rows[0], ByScore(rows[1..], score), score);
    }
  }

  lemma {:induction false} CountsDistinct(rows: seq<Row>)
    ensures Distinct(rows) <==> forall r :: multiset(rows)[r] <= 1
    decreases |rows|
  {
    if rows != [] {
      var n := |rows| - 1;
      assert rows == rows[..n] + [rows[n]];
      CountsDistinct(rows[..n]);
      if !(forall r :: multiset(rows)[r] <= 1) && (forall r :: multiset(rows[..n])[r] <= 1) {
        assert multiset(rows[..n])[rows[n]] == 1;
        assert rows[n] in rows[..n];
      }
      if Distinct(rows) {
        assert rows[n] !in rows[..n];
        assert multiset(rows[..n])[rows[n]] == 0;
      }
      if forall r :: multiset(rows)[r] <= 1 {
        assert multiset(rows)[rows[n]] == multiset(rows[..n])[rows[n]] + 1;
        assert rows[n] !in rows[..n];
        forall r
          ensures multiset(rows[..n])[r] <= 1
        {
          assert multiset(rows)[r] <= 1;
        }
      }
    }
  }

  lemma ReorderedSame(rows: seq<Row>, more: seq<Row>)
    requires multiset(rows) == multiset(more) && Distinct(rows)
    ensures Distinct(more) && |rows| == |more| && forall r :: r in rows <==> r in more
  {
    CountsDistinct(rows);
    CountsDistinct(more);
    assert |multiset(rows)| == |rows| && |multiset(more)| == |more|;
    assert forall r :: r in rows <==> r in multiset(rows);
    assert forall r :: r in more <==> r in multiset(more);
  }

  /** The first rows by score, and none that is left out scores higher than one that is kept. */
  ghost predicate Best(found: seq<Row>, score: Row -> int, rows: seq<Row>) {
    && |rows| == Min(MAX_ROWS, |found|) && Descending(rows, score) && Distinct(rows)
    && (forall r :: r in rows ==> r in found)
    && (forall r, x :: r in rows && x in found && x !in rows ==> score(r) >= score(x))
  }

  /** What follows a prefix of rows by decreasing score scores no higher. */
  lemma PrefixScores(sorted: seq<Row>, n: nat, score: Row -> int, r: Row, x: Row)
    requires Descending(sorted, score) && n <= |sorted| && r in sorted[..n] && x in sorted && x !in sorted[..n]
    ensures score(r) >= score(x)
  {
    var i :| 0 <= i < n && sorted[i] == r;
    var j :| 0 <= j < |sorted| && sorted[j] == x;
    forall k | 0 <= k < n
      ensures sorted[k] in sorted[..n]
    {
      assert sorted[..n][k] == sorted[k];
    }
  }

  lemma PrefixBest(sorted: seq<Row>, score: Row -> int)
    requires Descending(sorted, score) && Distinct(sorted)
    ensures Best(sorted, score, sorted[..Min(MAX_ROWS, |sorted|)])
  {
    var n := Min(MAX_ROWS, |sorted|);
    forall r, x | r in sorted[..n] && x in sorted && x !in sorted[..n]
      ensures score(r) >= score(x)
    {
      PrefixScores(sorted, n, score, r, x);
    }
  }

  lemma FirstAreBest(found: seq<Row>, score: Row -> int)
    requires Distinct(found)
    ensures var sorted := ByScore(found, score);
            |sorted| == |found| && Best(found, score, sorted[..Min(MAX_ROWS, |sorted|)])
  {
    ByScoreKeeps(found, score);
    ReorderedSame(found, ByScore(found, score));
    PrefixBest(ByScore(found, score), score);
  }

  lemma AllKept(found: seq<Row>, score: Row -> int, rows: seq<Row>)
    requires Best(found, score, rows) && Distinct(found) && |found| <= MAX_ROWS
    ensures forall r :: r in rows <==> r in found
  {
    var a, b := set r | r in rows, set r | r in found;
    DistinctSize(rows);
    DistinctSize(found);
    assert a <= b;
    SameSize(a, b);
    forall r | r in found
      ensures r in rows
    {
      assert r in b && r in a;
    }
  }

  /** The exposure report of a subject: of the rows found, the fifty with the highest scores. Untruncated, they are
      exactly the rows of the claims that the query shows, and exactly those of all claims if and only if nothing that
      matters is hidden. */
  method ExposureOf(db: Replies, subject: Address, score: Row -> int) returns (r: Report, ghost found: seq<Row>)
    requires ValidReplies(db)
    ensures Sound(Cut(db), subject, found) && Best(found, score, r.rows)
    ensures |found| > MAX_ROWS ==> r.truncated
    ensures !r.truncated ==> Exact(Cut(db), subject, r.rows)
    ensures !r.truncated ==> (Exact(db, subject, r.rows) <==> NothingHidden(db, subject))
    ensures !r.truncated && FewClaims(db, subject) ==> Exact(db, subject, r.rows)
    ensures r.truncated ==> Overflows(Cut(db), subject)
  {
    CutValid(db);
    var all := Search(Cut(db), subject);
    var sorted := ByScore(all.rows, score);
    found := all.rows;
    FirstAreBest(found, score);
    if |found| > MAX_ROWS {
      assert ManyRows(Cut(db), subject);
    } else {
      AllKept(found, score, sorted[..|sorted|]);
    }
    r := Report(sorted[..Min(MAX_ROWS, |sorted|)], all.truncated || |sorted| > MAX_ROWS);
    LimitHarmless(db, subject);
    if FewClaims(db, subject) {
      FewHideNothing(db, subject);
    }
  }

  // ----- a claim that is not shown -----

  const SENDER := Address("S")
  const RECEIVER := Address("R")
  const TRANSFER := Edge("e", SENDER, RECEIVER, "t", 1, 0, "a", "")

  /** The i-th claim of the receiver: a hundred harmless ones, then a seed. */
  function ClaimAt(i: nat): Label {
    Label(seq(i, _ => 'c'), OtherKind(""), i == MAX_CLAIMS)
  }

  function Crowded(a: Address): seq<Label> {
    if a == RECEIVER then seq(MAX_CLAIMS + 1, i requires 0 <= i => ClaimAt(i)) else []
  }

  function OneTransfer(a: Address): seq<Edge> {
    if a == SENDER || a == RECEIVER then [TRANSFER] else []
  }

  const CROWD: Replies := Replies(OneTransfer, Crowded)

  const PAYMENT: Trail := Trail(false, [SENDER, RECEIVER], [TRANSFER])

  lemma ClaimsDiffer(i: nat, j: nat)
    requires i < j
    ensures ClaimAt(i) != ClaimAt(j)
  {
    assert |ClaimAt(i).claimId| == i && |ClaimAt(j).claimId| == j;
  }

  lemma CrowdValid()
    ensures ValidReplies(CROWD)
  {
    forall a: Address
      ensures Distinct(CROWD.labels(a))
    {
      forall i, j | 0 <= i < j < |Crowded(a)|
        ensures Crowded(a)[i] != Crowded(a)[j]
      {
        ClaimsDiffer(i, j);
      }
    }
  }

  lemma TransferAt(db: Replies, t: Trail, k: nat)
    requires db.edges == OneTransfer && |t.addresses| == |t.edges| + 1 && k < |t.edges| && Linked(db, t, k)
    ensures t.edges[k] == TRANSFER
    ensures t.addresses[k] == if t.incoming then RECEIVER else SENDER
    ensures t.addresses[k + 1] == if t.incoming then SENDER else RECEIVER
  {
  }

  /** The payment is the only chain of the two addresses. */
  lemma OnlyPayment(db: Replies, t: Trail)
    requires db.edges == OneTransfer && Chain(db, SENDER, t)
    ensures t.edges == [] ==> t.addresses == [SENDER]
    ensures t.edges != [] ==> t == PAYMENT
    ensures Last(t) in {SENDER, RECEIVER}
  {
    if t.edges != [] {
      assert SENDER.text[0] != RECEIVER.text[0];
      TransferAt(db, t, 0);
      if |t.edges| > 1 {
        TransferAt(db, t, 1);
        assert false;
      }
      assert t.edges == [TRANSFER] && t.addresses == [SENDER, RECEIVER];
    }
  }

  lemma FewInside<T(!new)>(q: seq<T>, all: set<T>)
    requires Distinct(q) && forall i :: 0 <= i < |q| ==> q[i] in all
    ensures |q| <= |all|
  {
    DistinctSize(q);
    var inside := set x | x in q;
    assert inside <= all;
    assert all == inside + (all - inside);
  }

  lemma NoManyChains(db: Replies)
    requires db.edges == OneTransfer
    ensures !ManyChains(db, SENDER)
  {
    var all := {Trail(false, [SENDER], []), Trail(true, [SENDER], []), PAYMENT};
    forall q: seq<Trail> | Distinct(q) && forall i :: 0 <= i < |q| ==> Growing(db, SENDER, q[i])
      ensures |q| <= 3
    {
      forall i | 0 <= i < |q|
        ensures q[i] in all
      {
        OnlyPayment(db, q[i]);
      }
      FewInside(q, all);
    }
  }

  lemma NoOverflow(db: Replies)
    requires db.edges == OneTransfer && forall l :: l in db.labels(RECEIVER) ==> !l.seed
    ensures !Overflows(db, SENDER)
    ensures forall rows :: Sound(db, SENDER, rows) ==> rows == []
  {
    NoManyChains(db);
    forall a | Met(db, SENDER, a) || Expandable(db, SENDER, a)
      ensures a in {SENDER, RECEIVER}
    {
      if Expandable(db, SENDER, a) {
        var t :| Growing(db, SENDER, t) && |t.addresses| > 0 && Last(t) == a;
        OnlyPayment(db, t);
      } else if a != SENDER {
        var t :| Covered(db, SENDER, t) && |t.addresses| > 0 && Last(t) == a;
        OnlyPayment(db, t);
      }
    }
    forall addresses: set<Address> | forall a :: a in addresses ==> a in {SENDER, RECEIVER}
      ensures |addresses| <= 2
    {
      assert {SENDER, RECEIVER} == addresses + ({SENDER, RECEIVER} - addresses);
    }
    forall known: map<Address, seq<Label>> | forall a :: a in known ==> a in {SENDER, RECEIVER}
      ensures |known| <= 2
    {
      assert forall a :: a in known.Keys ==> a in {SENDER, RECEIVER};
      assert |known| == |known.Keys|;
    }
    forall rows: seq<Row> | Sound(db, SENDER, rows)
      ensures rows == []
    {
      if rows != [] {
        assert rows[0] in rows;
        assert GoodRow(db, SENDER, rows[0]);
        OnlyPayment(db, rows[0].trail);
      }
    }
  }

  /** A seed claim beyond the hundredth of an address is missed, and no flag says so: the untruncated report has no
      row although the payment leads to a seed. */
  lemma HiddenSeed()
    ensures ValidReplies(CROWD) && !NothingHidden(CROWD, SENDER)
    ensures !Overflows(Cut(CROWD), SENDER)
    ensures forall rows :: Exact(Cut(CROWD), SENDER, rows) ==> rows == []
    ensures GoodRow(CROWD, SENDER, RowOf(CROWD, SENDER, PAYMENT, ClaimAt(MAX_CLAIMS)))
  {
    CrowdValid();
    forall l | l in Cut(CROWD).labels(RECEIVER)
      ensures !l.seed
    {
      var i :| 0 <= i < MAX_CLAIMS && Crowded(RECEIVER)[i] == l;
    }
    NoOverflow(Cut(CROWD));
    forall rows | Exact(Cut(CROWD), SENDER, rows)
      ensures Sound(Cut(CROWD), SENDER, rows)
    {
    }
    PaymentCovered();
    assert Crowded(RECEIVER)[MAX_CLAIMS] == ClaimAt(MAX_CLAIMS);
    assert HidesSeed(CROWD, SENDER, PAYMENT);
  }

  lemma PaymentCovered()
    ensures Covered(CROWD, SENDER, PAYMENT) && Last(PAYMENT) == RECEIVER
  {
    assert SENDER.text[0] != RECEIVER.text[0] && |RECEIVER.text| == 1 && |ZERO_ADDRESS.text| == 42;
    assert Linked(CROWD, PAYMENT, 0);
  }
}
