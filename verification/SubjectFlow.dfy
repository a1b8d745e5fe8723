/** Exact flow aggregation at a protocol or subject boundary
  * (dockerizd_bsc/src/semantic.rs). Addresses, assets and relationship ids are the
  * ranks of their texts in text order. */
module SubjectFlow {
  import opened Common

  const ZERO_ADDRESS: nat := 0
  const EXAMINED: nat := 256
  const LISTED: nat := 32

  const LIMIT_256: nat := 0x1_0000000000000000_0000000000000000_0000000000000000_0000000000000000
  const LIMIT_512: nat := LIMIT_256 * LIMIT_256

  type U256 = n: nat | n < LIMIT_256
  /** The sums of the program: leaving this range would stop it. */
  type U512 = n: nat | n < LIMIT_512

  datatype Leg = Leg(id: nat, from: nat, to: nat, asset: nat, amount: U256, nft: bool)

  datatype Direction = In | Out

  /** Whose boundary is looked at. */
  datatype Boundary = Boundary(subject: nat, protocol: nat, atProtocol: bool)

  type Flow = (nat, U512)

  datatype FlowSummary = FlowSummary(incoming: seq<Flow>, outgoing: seq<Flow>, refs: seq<nat>,
                                     recipient: Option<nat>, atProtocol: bool, truncated: bool, nftLegs: nat)

  // ----- what should be counted -----

  predicate Touches(l: Leg, protocol: nat) {
    l.from == protocol || l.to == protocol
  }

  predicate AnyTouches(legs: seq<Leg>, protocol: nat) {
    exists i :: 0 <= i < |legs| && Touches(legs[i], protocol)
  }

  /** The leg carries value over the boundary in this direction; nothing enters by
    * being burnt and nothing leaves by being minted. */
  predicate Moves(l: Leg, b: Boundary, d: Direction) {
    && !l.nft && l.from != l.to && l.amount > 0
    && match d
       case In => l.to != ZERO_ADDRESS && (if b.atProtocol then l.to == b.protocol else l.from == b.subject)
       case Out => l.from != ZERO_ADDRESS && (if b.atProtocol then l.from == b.protocol else l.to == b.subject)
  }

  function SumOf(legs: seq<Leg>, weight: Leg -> nat): nat {
    if legs == [] then 0 else SumOf(legs[..|legs| - 1], weight) + weight(legs[|legs| - 1])
  }

  function Carries(b: Boundary, d: Direction, asset: nat): Leg -> nat {
    (l: Leg) => if Moves(l, b, d) && l.asset == asset then l.amount else 0
  }

  function IsNft(): Leg -> nat {
    (l: Leg) => if l.nft then 1 else 0
  }

  /** The exact amount of the asset over the boundary. */
  function Total(legs: seq<Leg>, b: Boundary, d: Direction, asset: nat): nat {
    SumOf(legs, Carries(b, d, asset))
  }

  function Assets(legs: seq<Leg>, b: Boundary, d: Direction): set<nat> {
    set i | 0 <= i < |legs| && Moves(legs[i], b, d) :: legs[i].asset
  }

  function Witnesses(legs: seq<Leg>, b: Boundary): set<nat> {
    set i | 0 <= i < |legs| && (Moves(legs[i], b, In) || Moves(legs[i], b, Out)) :: legs[i].id
  }

  predicate Receives(l: Leg, b: Boundary) {
    Moves(l, b, Out) && l.from == b.protocol
  }

  /** The receiver of the first leg that leaves the protocol. */
  function Recipient(legs: seq<Leg>, b: Boundary): Option<nat> {
    if legs == [] then None
    else if Receives(legs[0], b) then Some(legs[0].to)
    else Recipient(legs[1..], b)
  }

  // ----- ordered tables -----

  predicate IncreasingKeys(s: seq<Flow>) {
    forall i, j :: 0 <= i < j < |s| ==> s[i].0 < s[j].0
  }

  predicate IncreasingIds(s: seq<nat>) {
    forall i, j :: 0 <= i < j < |s| ==> s[i] < s[j]
  }

  function Keys(s: seq<Flow>): set<nat> {
    set i | 0 <= i < |s| :: s[i].0
  }

  function Lookup(s: seq<Flow>, asset: nat): U512 {
    if s == [] then 0 else if s[0].0 == asset then s[0].1 else Lookup(s[1..], asset)
  }

  /** Adds to the entry of the asset, made first when there is none. */
  function Add(s: seq<Flow>, asset: nat, amount: U256): seq<Flow>
    requires Lookup(s, asset) + amount < LIMIT_512
  {
    if s == [] || asset < s[0].0 then [(asset, amount)] + s
    else if asset == s[0].0 then [(asset, s[0].1 + amount)] + s[1..]
    else [s[0]] + Add(s[1..], asset, amount)
  }

  lemma {:induction false} LookupAbove(s: seq<Flow>, asset: nat)
    requires IncreasingKeys(s) && (s != [] ==> asset < s[0].0)
    ensures Lookup(s, asset) == 0
  {
    if s != [] {
      LookupAbove(s[1..], asset);
    }
  }

  /** Puts an id in its place, once. */
  function Place(s: seq<nat>, id: nat): (r: seq<nat>)
  {
    if s == [] || id < s[0] then [id] + s
    else if id == s[0] then s
    else [s[0]] + Place(s[1..], id)
  }

  function SortedIds(ids: seq<nat>): seq<nat> {
    if ids == [] then [] else Place(SortedIds(ids[..|ids| - 1]), ids[|ids| - 1])
  }

  // ----- the tables are what the legs say -----

  lemma {:induction false} AddLooksUp(s: seq<Flow>, asset: nat, amount: U256, other: nat)
    requires IncreasingKeys(s) && Lookup(s, asset) + amount < LIMIT_512
    ensures Lookup(Add(s, asset, amount), other) == Lookup(s, other) + if other == asset then amount else 0
  {
    if s == [] || asset < s[0].0 {
      LookupAbove(s, asset);
      assert ([(asset, amount)] + s)[1..] == s;
    } else if asset > s[0].0 {
      AddLooksUp(s[1..], asset, amount, other);
      assert ([s[0]] + Add(s[1..], asset, amount))[1..] == Add(s[1..], asset, amount);
    } else {
      assert ([(asset, s[0].1 + amount)] + s[1..])[1..] == s[1..];
    }
  }

  lemma KeysSplit(s: seq<Flow>)
    requires s != []
    ensures Keys(s) == {s[0].0} + Keys(s[1..])
  {
    assert s == [s[0]] + s[1..];
    forall k | k in Keys(s)
      ensures k in {s[0].0} + Keys(s[1..])
    {
      var i :| 0 <= i < |s| && s[i].0 == k;
      if i > 0 {
        assert s[1..][i - 1].0 == k;
      }
    }
    forall k | k in Keys(s[1..])
      ensures k in Keys(s)
    {
      var i :| 0 <= i < |s[1..]| && s[1..][i].0 == k;
      assert s[i + 1].0 == k;
    }
  }

  lemma KeysCons(e: Flow, s: seq<Flow>)
    ensures Keys([e] + s) == {e.0} + Keys(s)
  {
    KeysSplit([e] + s);
    assert ([e] + s)[1..] == s;
  }

  lemma AboveAll(s: seq<Flow>, rest: seq<Flow>, asset: nat)
    requires IncreasingKeys(s) && s != [] && s[0].0 < asset
    requires IncreasingKeys(rest) && Keys(rest) == Keys(s[1..]) + {asset}
    ensures IncreasingKeys([s[0]] + rest)
  {
    forall j | 0 <= j < |rest|
      ensures s[0].0 < rest[j].0
    {
      assert rest[j].0 in Keys(rest);
      if rest[j].0 != asset {
        var i :| 0 <= i < |s[1..]| && s[1..][i].0 == rest[j].0;
      }
    }
  }

  lemma {:induction false} AddKeys(s: seq<Flow>, asset: nat, amount: U256)
    requires IncreasingKeys(s) && Lookup(s, asset) + amount < LIMIT_512
    ensures Keys(Add(s, asset, amount)) == Keys(s) + {asset}
    ensures IncreasingKeys(Add(s, asset, amount))
  {
    if s == [] || asset < s[0].0 {
      KeysCons((asset, amount), s);
    } else if asset > s[0].0 {
      var rest := Add(s[1..], asset, amount);
      AddKeys(s[1..], asset, amount);
      KeysSplit(s);
      KeysCons(s[0], rest);
      AboveAll(s, rest, asset);
    } else {
      KeysSplit(s);
      KeysCons((asset, s[0].1 + amount), s[1..]);
    }
  }

  lemma {:induction false} PlaceKeeps(s: seq<nat>, id: nat)
    requires IncreasingIds(s)
    ensures IncreasingIds(Place(s, id))
    ensures forall x :: x in Place(s, id) <==> x in s || x == id
  {
    if s != [] {
      assert s == [s[0]] + s[1..];
      if id > s[0] {
        PlaceKeeps(s[1..], id);
        var rest := Place(s[1..], id);
        forall j | 0 <= j < |rest|
          ensures s[0] < rest[j]
        {
          assert rest[j] in rest;
        }
      }
    }
  }

  /** Sorting and removing repetitions: the same ids, increasing. */
  lemma {:induction false} SortedIdsOf(ids: seq<nat>)
    ensures IncreasingIds(SortedIds(ids))
    ensures forall x :: x in SortedIds(ids) <==> x in ids
  {
    if ids != [] {
      var n := |ids| - 1;
      assert ids == ids[..n] + [ids[n]];
      SortedIdsOf(ids[..n]);
      PlaceKeeps(SortedIds(ids[..n]), ids[n]);
    }
  }

  // ----- the exact result -----

  /** The table holds the exact total of every asset that moved, and no other. */
  ghost predicate Tally(s: seq<Flow>, legs: seq<Leg>, b: Boundary, d: Direction) {
    && IncreasingKeys(s)
    && Keys(s) == Assets(legs, b, d)
    && forall a: nat :: Lookup(s, a) == Total(legs, b, d, a)
  }

  function Listed(s: seq<Flow>): seq<Flow> {
    s[..Min(LISTED, |s|)]
  }

  function Examined(legs: seq<Leg>): seq<Leg> {
    legs[..Min(EXAMINED, |legs|)]
  }

  /** The summary is the declarative one over the examined legs. */
  ghost predicate FlowOf(f: FlowSummary, subject: nat, protocol: nat, legs: seq<Leg>) {
    var b := Boundary(subject, protocol, AnyTouches(legs, protocol));
    var seen := Examined(legs);
    && f.atProtocol == b.atProtocol
    && f.nftLegs == SumOf(seen, IsNft())
    && f.recipient == Recipient(seen, b)
    && IncreasingIds(f.refs) && (forall x :: x in f.refs <==> x in Witnesses(seen, b))
    && exists incoming: seq<Flow>, outgoing: seq<Flow> :: TablesOf(f, incoming, outgoing, seen, |legs|, b)
  }

  ghost predicate TablesOf(f: FlowSummary, incoming: seq<Flow>, outgoing: seq<Flow>, seen: seq<Leg>, count: nat,
                           b: Boundary) {
    && Tally(incoming, seen, b, In) && Tally(outgoing, seen, b, Out)
    && f.incoming == Listed(incoming) && f.outgoing == Listed(outgoing)
    && f.truncated == (count > EXAMINED || |incoming| > LISTED || |outgoing| > LISTED)
  }

  lemma NeverBoth(l: Leg, b: Boundary)
    ensures !(Moves(l, b, In) && Moves(l, b, Out))
  {
  }

  lemma {:induction false} SumBound(legs: seq<Leg>, weight: Leg -> nat, bound: nat)
    requires forall l :: weight(l) <= bound
    ensures SumOf(legs, weight) <= |legs| * bound
  {
    if legs != [] {
      SumBound(legs[..|legs| - 1], weight, bound);
    }
  }

  /** The sums over the examined legs stay below 2^264, far from 2^512. */
  lemma TotalsFit(legs: seq<Leg>, b: Boundary, d: Direction, asset: nat)
    requires |legs| <= EXAMINED
    ensures Total(legs, b, d, asset) <= EXAMINED * (LIMIT_256 - 1) < EXAMINED * LIMIT_256 < LIMIT_512
  {
    SumBound(legs, Carries(b, d, asset), LIMIT_256 - 1);
  }

  lemma AssetsGrow(legs: seq<Leg>, i: nat, b: Boundary, d: Direction)
    requires i < |legs|
    ensures Assets(legs[..i + 1], b, d)
         == Assets(legs[..i], b, d) + if Moves(legs[i], b, d) then {legs[i].asset} else {}
  {
    var s, t := legs[..i], legs[..i + 1];
    assert t[i] == legs[i];
    assert forall k :: 0 <= k < i ==> t[k] == s[k];
  }

  lemma WitnessesGrow(legs: seq<Leg>, i: nat, b: Boundary)
    requires i < |legs|
    ensures Witnesses(legs[..i + 1], b)
         == Witnesses(legs[..i], b) + if Moves(legs[i], b, In) || Moves(legs[i], b, Out) then {legs[i].id} else {}
  {
    var s, t := legs[..i], legs[..i + 1];
    assert t[i] == legs[i];
    assert forall k :: 0 <= k < i ==> t[k] == s[k];
  }

  lemma SumGrows(legs: seq<Leg>, i: nat, weight: Leg -> nat)
    requires i < |legs|
    ensures SumOf(legs[..i + 1], weight) == SumOf(legs[..i], weight) + weight(legs[i])
  {
    assert legs[..i + 1][..i] == legs[..i];
  }

  lemma {:induction false} RecipientGrows(legs: seq<Leg>, i: nat, b: Boundary)
    requires i < |legs|
    ensures Recipient(legs[..i + 1], b) ==
              if Recipient(legs[..i], b).Some? then Recipient(legs[..i], b)
              else if Receives(legs[i], b) then Some(legs[i].to) else None
  {
    if i == 0 {
      assert legs[..1][1..] == [];
    } else {
      RecipientGrows(legs[1..], i - 1, b);
      assert legs[..i + 1][1..] == legs[1..][..i];
      assert legs[..i][1..] == legs[1..][..i - 1];
    }
  }

  lemma TallyGrows(s: seq<Flow>, legs: seq<Leg>, i: nat, b: Boundary, d: Direction)
    requires i < |legs| <= EXAMINED && Tally(s, legs[..i], b, d)
    ensures Moves(legs[i], b, d) ==>
              && Lookup(s, legs[i].asset) + legs[i].amount < LIMIT_512
              && Tally(Add(s, legs[i].asset, legs[i].amount), legs[..i + 1], b, d)
    ensures !Moves(legs[i], b, d) ==> Tally(s, legs[..i + 1], b, d)
  {
    var l := legs[i];
    AssetsGrow(legs, i, b, d);
    forall a: nat
      ensures Total(legs[..i + 1], b, d, a) == Total(legs[..i], b, d, a) + Carries(b, d, a)(l)
    {
      SumGrows(legs, i, Carries(b, d, a));
    }
    if Moves(l, b, d) {
      TotalsFit(legs[..i], b, d, l.asset);
      AddKeys(s, l.asset, l.amount);
      forall a: nat
        ensures Lookup(Add(s, l.asset, l.amount), a) == Total(legs[..i + 1], b, d, a)
      {
        AddLooksUp(s, l.asset, l.amount, a);
      }
    }
  }

  /** `subject_flow` with `join_flows`. */
  method Summarize(subject: nat, protocol: nat, legs: seq<Leg>) returns (f: FlowSummary)
    ensures FlowOf(f, subject, protocol, legs)
  {
    var incoming: seq<Flow>, outgoing: seq<Flow>, refs: seq<nat> := [], [], [];
    var recipient: Option<nat> := None;
    var nft := 0;
    var b := Boundary(subject, protocol, AnyTouches(legs, protocol));
    var seen := Examined(legs);
    for i := 0 to |seen|
      invariant Tally(incoming, seen[..i], b, In) && Tally(outgoing, seen[..i], b, Out)
      invariant forall x :: x in refs <==> x in Witnesses(seen[..i], b)
      invariant recipient == Recipient(seen[..i], b)
      invariant nft == SumOf(seen[..i], IsNft())
    {
      var l := seen[i];
      TallyGrows(incoming, seen, i, b, In);
      TallyGrows(outgoing, seen, i, b, Out);
      WitnessesGrow(seen, i, b);
      RecipientGrows(seen, i, b);
      SumGrows(seen, i, IsNft());
      if l.nft {
        nft := nft + 1;
        continue;
      }
      if l.from == l.to || l.amount == 0 {
        continue;
      }
      var inbound := if b.atProtocol then l.to == protocol else l.from == subject;
      var outbound := if b.atProtocol then l.from == protocol else l.to == subject;
      if inbound && l.to != ZERO_ADDRESS {
        incoming := Add(incoming, l.asset, l.amount);
        refs := refs + [l.id];
      }
      if outbound && l.from != ZERO_ADDRESS {
        outgoing := Add(outgoing, l.asset, l.amount);
        refs := refs + [l.id];
        if l.from == protocol && l.to != protocol && recipient.None? {
          recipient := Some(l.to);
        }
      }
    }
    assert seen[..|seen|] == seen;
    SortedIdsOf(refs);
    f := FlowSummary(Listed(incoming), Listed(outgoing), SortedIds(refs), recipient, b.atProtocol,
                     |legs| > EXAMINED || |incoming| > LISTED || |outgoing| > LISTED, nft);
    assert TablesOf(f, incoming, outgoing, seen, |legs|, b);
  }

  // ----- what the result depends on -----

  lemma {:induction false} LookupMember(s: seq<Flow>, i: nat)
    requires IncreasingKeys(s) && i < |s|
    ensures Lookup(s, s[i].0) == s[i].1
  {
    if i > 0 {
      LookupMember(s[1..], i - 1);
    }
  }

  lemma KeysTail(s: seq<Flow>)
    requires IncreasingKeys(s) && s != []
    ensures Keys(s[1..]) == Keys(s) - {s[0].0}
  {
    KeysSplit(s);
    forall k | k in Keys(s[1..])
      ensures k != s[0].0
    {
      var i :| 0 <= i < |s[1..]| && s[1..][i].0 == k;
    }
  }

  lemma KeysEmpty(s: seq<Flow>)
    ensures Keys(s) == {} <==> s == []
  {
    if s != [] {
      KeysSplit(s);
    }
  }

  lemma SameFirst(s: seq<Flow>, t: seq<Flow>)
    requires IncreasingKeys(s) && IncreasingKeys(t) && Keys(s) == Keys(t) && s != [] && t != []
    ensures s[0].0 == t[0].0
  {
    assert s[0].0 in Keys(t) && t[0].0 in Keys(s);
    var i :| 0 <= i < |t| && t[i].0 == s[0].0;
    var j :| 0 <= j < |s| && s[j].0 == t[0].0;
  }

  /** An ordered table is determined by its keys and what it says of them. */
  lemma {:induction false} TableUnique(s: seq<Flow>, t: seq<Flow>)
    requires IncreasingKeys(s) && IncreasingKeys(t) && Keys(s) == Keys(t)
    requires forall a: nat :: Lookup(s, a) == Lookup(t, a)
    ensures s == t
    decreases |s|
  {
    KeysEmpty(s);
    KeysEmpty(t);
    if s != [] {
      SameFirst(s, t);
      KeysTail(s);
      KeysTail(t);
      LookupAbove(s[1..], s[0].0);
      LookupAbove(t[1..], s[0].0);
      assert Lookup(s, s[0].0) == Lookup(t, s[0].0);
      forall a: nat
        ensures Lookup(s[1..], a) == Lookup(t[1..], a)
      {
        if a != s[0].0 {
          assert Lookup(s, a) == Lookup(t, a);
        }
      }
      TableUnique(s[1..], t[1..]);
      assert s == [s[0]] + s[1..] && t == [t[0]] + t[1..];
    }
  }

  lemma {:induction false} IdsUnique(s: seq<nat>, t: seq<nat>)
    requires IncreasingIds(s) && IncreasingIds(t) && (forall x :: x in s <==> x in t)
    ensures s == t
    decreases |s|
  {
    assert t == [] || t[0] in t;
    if s != [] {
      assert s[0] in s;
      assert s[0] in t && t[0] in s;
      assert s == [s[0]] + s[1..] && t == [t[0]] + t[1..];
      forall x | x in s[1..]
        ensures x in t[1..]
      {
        assert x in s && x != s[0];
      }
      forall x | x in t[1..]
        ensures x in s[1..]
      {
        assert x in t && x != t[0];
      }
      IdsUnique(s[1..], t[1..]);
    }
  }

  lemma {:induction false} SumWithout(legs: seq<Leg>, i: nat, weight: Leg -> nat)
    requires i < |legs|
    ensures SumOf(legs, weight) == SumOf(legs[..i] + legs[i + 1..], weight) + weight(legs[i])
    decreases |legs|
  {
    var n := |legs| - 1;
    if i < n {
      SumWithout(legs[..n], i, weight);
      assert legs[..n][..i] + legs[..n][i + 1..] == (legs[..i] + legs[i + 1..])[..n - 1];
    } else {
      assert legs[..i] + legs[i + 1..] == legs[..n];
    }
  }

  lemma LastRemoved(a: seq<Leg>)
    requires a != []
    ensures multiset(a[..|a| - 1]) == multiset(a) - multiset{a[|a| - 1]}
  {
    assert a == a[..|a| - 1] + [a[|a| - 1]];
  }

  lemma OneRemoved(b: seq<Leg>, i: nat)
    requires i < |b|
    ensures multiset(b[..i] + b[i + 1..]) == multiset(b) - multiset{b[i]}
  {
    assert b == b[..i] + [b[i]] + b[i + 1..];
  }

  lemma PermutedRest(a: seq<Leg>, b: seq<Leg>) returns (i: nat)
    requires multiset(a) == multiset(b) && a != []
    ensures i < |b| && b[i] == a[|a| - 1]
    ensures multiset(a[..|a| - 1]) == multiset(b[..i] + b[i + 1..])
  {
    i := PermutedHas(a, b, |a| - 1);
    LastRemoved(a);
    OneRemoved(b, i);
  }

  lemma {:induction false} SumPermuted(a: seq<Leg>, b: seq<Leg>, weight: Leg -> nat)
    requires multiset(a) == multiset(b)
    ensures SumOf(a, weight) == SumOf(b, weight)
    decreases |a|
  {
    assert |multiset(a)| == |a| && |multiset(b)| == |b|;
    if a != [] {
      var i := PermutedRest(a, b);
      SumWithout(b, i, weight);
      SumPermuted(a[..|a| - 1], b[..i] + b[i + 1..], weight);
    }
  }

  lemma PermutedHas(a: seq<Leg>, b: seq<Leg>, i: nat) returns (j: nat)
    requires multiset(a) == multiset(b) && i < |a|
    ensures j < |b| && b[j] == a[i]
  {
    assert a[i] in multiset(b);
    j :| 0 <= j < |b| && b[j] == a[i];
  }

  lemma SetsPermuted(a: seq<Leg>, b: seq<Leg>, e: Boundary, d: Direction, protocol: nat)
    requires multiset(a) == multiset(b)
    ensures Assets(a, e, d) <= Assets(b, e, d)
    ensures Witnesses(a, e) <= Witnesses(b, e)
    ensures AnyTouches(a, protocol) ==> AnyTouches(b, protocol)
  {
    forall x | x in Assets(a, e, d)
      ensures x in Assets(b, e, d)
    {
      var i: nat :| i < |a| && Moves(a[i], e, d) && a[i].asset == x;
      var j := PermutedHas(a, b, i);
    }
    forall x | x in Witnesses(a, e)
      ensures x in Witnesses(b, e)
    {
      var i: nat :| i < |a| && (Moves(a[i], e, In) || Moves(a[i], e, Out)) && a[i].id == x;
      var j := PermutedHas(a, b, i);
    }
    if AnyTouches(a, protocol) {
      var i: nat :| i < |a| && Touches(a[i], protocol);
      var j := PermutedHas(a, b, i);
    }
  }

  lemma TallyPermuted(s: seq<Flow>, t: seq<Flow>, a: seq<Leg>, b: seq<Leg>, e: Boundary, d: Direction)
    requires multiset(a) == multiset(b) && Tally(s, a, e, d) && Tally(t, b, e, d)
    ensures s == t
  {
    SetsPermuted(a, b, e, d, 0);
    SetsPermuted(b, a, e, d, 0);
    forall x: nat
      ensures Lookup(s, x) == Lookup(t, x)
    {
      SumPermuted(a, b, Carries(e, d, x));
    }
    TableUnique(s, t);
  }

  /** As long as every leg is examined, the summary does not depend on the order of
    * the legs, apart from the recipient. */
  lemma OrderIrrelevant(f: FlowSummary, g: FlowSummary, subject: nat, protocol: nat, a: seq<Leg>, b: seq<Leg>)
    requires FlowOf(f, subject, protocol, a) && FlowOf(g, subject, protocol, b)
    requires multiset(a) == multiset(b) && |a| <= EXAMINED
    ensures g == f.(recipient := g.recipient)
  {
    assert |multiset(a)| == |a| && |multiset(b)| == |b|;
    assert Examined(a) == a && Examined(b) == b;
    SetsPermuted(a, b, Boundary(subject, protocol, AnyTouches(a, protocol)), In, protocol);
    SetsPermuted(b, a, Boundary(subject, protocol, AnyTouches(a, protocol)), In, protocol);
    var e := Boundary(subject, protocol, AnyTouches(a, protocol));
    IdsUnique(f.refs, g.refs);
    SumPermuted(a, b, IsNft());
    var i: seq<Flow>, o: seq<Flow> :| TablesOf(f, i, o, a, |a|, e);
    var i': seq<Flow>, o': seq<Flow> :| TablesOf(g, i', o', b, |b|, e);
    TallyPermuted(i, i', a, b, e, In);
    TallyPermuted(o, o', a, b, e, Out);
  }

  /** All legs that leave the protocol go to one receiver. */
  predicate OneReceiver(legs: seq<Leg>, b: Boundary) {
    forall i, j :: 0 <= i < |legs| && 0 <= j < |legs| && Receives(legs[i], b) && Receives(legs[j], b) ==>
      legs[i].to == legs[j].to
  }

  /** The recipient is that of a receiving leg, and missing only when there is none. */
  lemma {:induction false} RecipientOf(legs: seq<Leg>, b: Boundary) returns (i: nat)
    requires Recipient(legs, b).Some?
    ensures i < |legs| && Receives(legs[i], b) && Recipient(legs, b) == Some(legs[i].to)
  {
    if Receives(legs[0], b) {
      i := 0;
    } else {
      var k := RecipientOf(legs[1..], b);
      i := k + 1;
    }
  }

  lemma {:induction false} SomeRecipient(legs: seq<Leg>, b: Boundary, i: nat)
    requires i < |legs| && Receives(legs[i], b)
    ensures Recipient(legs, b).Some?
  {
    if i > 0 && !Receives(legs[0], b) {
      SomeRecipient(legs[1..], b, i - 1);
    }
  }

  lemma OneReceiverStable(a: seq<Leg>, p: seq<Leg>, b: Boundary)
    requires OneReceiver(a, b) && multiset(p) == multiset(a)
    ensures Recipient(p, b) == Recipient(a, b)
  {
    if Recipient(a, b).Some? {
      var i := RecipientOf(a, b);
      var j := PermutedHas(a, p, i);
      SomeRecipient(p, b, j);
      var k := RecipientOf(p, b);
      var l := PermutedHas(p, a, k);
    } else if Recipient(p, b).Some? {
      var k := RecipientOf(p, b);
      var l := PermutedHas(p, a, k);
      SomeRecipient(a, b, l);
    }
  }

  /** The legs with the one at i in front. */
  function InFront(legs: seq<Leg>, i: nat): (r: seq<Leg>)
    requires i < |legs|
    ensures multiset(r) == multiset(legs) && r[0] == legs[i]
  {
    assert legs == legs[..i] + [legs[i]] + legs[i + 1..];
    [legs[i]] + (legs[..i] + legs[i + 1..])
  }

  lemma FrontReceives(legs: seq<Leg>, i: nat, b: Boundary)
    requires i < |legs| && Receives(legs[i], b)
    ensures Recipient(InFront(legs, i), b) == Some(legs[i].to)
  {
  }

  /** With two receivers some reordering has another recipient. */
  lemma AnotherOrder(a: seq<Leg>, b: Boundary) returns (p: seq<Leg>)
    requires !OneReceiver(a, b)
    ensures multiset(p) == multiset(a) && Recipient(p, b) != Recipient(a, b)
  {
    var i: nat, j: nat :| i < |a| && j < |a| && Receives(a[i], b) && Receives(a[j], b) && a[i].to != a[j].to;
    FrontReceives(a, i, b);
    FrontReceives(a, j, b);
    p := if Recipient(a, b) == Some(a[i].to) then InFront(a, j) else InFront(a, i);
  }

  /** The recipient of a list of legs is that of every reordering of it exactly when all legs that leave the
      protocol go to one receiver. */
  lemma RecipientStable(a: seq<Leg>, b: Boundary)
    ensures (forall p {:trigger Recipient(p, b)} :: multiset(p) == multiset(a) ==> Recipient(p, b) == Recipient(a, b))
            <==> OneReceiver(a, b)
  {
    if OneReceiver(a, b) {
      forall p | multiset(p) == multiset(a)
        ensures Recipient(p, b) == Recipient(a, b)
      {
        OneReceiverStable(a, p, b);
      }
    } else {
      var p := AnotherOrder(a, b);
    }
  }

  /** The boundary at which the program looks at these legs. */
  function BoundaryOf(subject: nat, protocol: nat, legs: seq<Leg>): Boundary {
    Boundary(subject, protocol, AnyTouches(legs, protocol))
  }

  /** As long as every leg is examined, the whole summary, recipient included, is the same for every order of the legs
      exactly when all legs that leave the protocol go to one receiver. */
  lemma SummaryStable(f: FlowSummary, subject: nat, protocol: nat, a: seq<Leg>)
    requires FlowOf(f, subject, protocol, a) && |a| <= EXAMINED
    ensures (forall g, p {:trigger FlowOf(g, subject, protocol, p)} ::
               multiset(p) == multiset(a) && FlowOf(g, subject, protocol, p) ==> g == f)
            <==> OneReceiver(a, BoundaryOf(subject, protocol, a))
  {
    var b := BoundaryOf(subject, protocol, a);
    assert Examined(a) == a;
    if OneReceiver(a, b) {
      forall g, p | multiset(p) == multiset(a) && FlowOf(g, subject, protocol, p)
        ensures g == f
      {
        OrderIrrelevant(f, g, subject, protocol, a, p);
        SameExamined(a, p, protocol);
        OneReceiverStable(a, p, b);
      }
    } else {
      var p := AnotherOrder(a, b);
      SameExamined(a, p, protocol);
      var g := SomeFlow(subject, protocol, p);
      assert g.recipient == Recipient(p, b);
    }
  }

  lemma SameExamined(a: seq<Leg>, p: seq<Leg>, protocol: nat)
    requires multiset(a) == multiset(p) && |a| <= EXAMINED
    ensures Examined(p) == p && AnyTouches(p, protocol) == AnyTouches(a, protocol)
  {
    assert |multiset(a)| == |a| && |multiset(p)| == |p|;
    SetsPermuted(a, p, Boundary(0, protocol, true), In, protocol);
    SetsPermuted(p, a, Boundary(0, protocol, true), In, protocol);
  }

  /** Every list of legs has a summary. */
  lemma SomeFlow(subject: nat, protocol: nat, legs: seq<Leg>) returns (f: FlowSummary)
    ensures FlowOf(f, subject, protocol, legs)
  {
    var b := BoundaryOf(subject, protocol, legs);
    var seen := Examined(legs);
    var incoming := SomeTally(seen, b, In);
    var outgoing := SomeTally(seen, b, Out);
    var refs := SomeRefs(seen, b);
    f := FlowSummary(Listed(incoming), Listed(outgoing), refs, Recipient(seen, b), b.atProtocol,
                     |legs| > EXAMINED || |incoming| > LISTED || |outgoing| > LISTED, SumOf(seen, IsNft()));
    assert TablesOf(f, incoming, outgoing, seen, |legs|, b);
  }

  lemma {:induction false} SomeRefs(legs: seq<Leg>, b: Boundary) returns (refs: seq<nat>)
    ensures IncreasingIds(refs) && forall x :: x in refs <==> x in Witnesses(legs, b)
    decreases |legs|
  {
    refs := [];
    if legs != [] {
      var n := |legs| - 1;
      refs := SomeRefs(legs[..n], b);
      WitnessesGrow(legs, n, b);
      assert legs[..n + 1] == legs;
      if Moves(legs[n], b, In) || Moves(legs[n], b, Out) {
        PlaceKeeps(refs, legs[n].id);
        refs := Place(refs, legs[n].id);
      }
    }
  }

  /** Two receivers of one protocol: the recipient is that of the leg that comes first. */
  lemma TwoReceivers()
    ensures var p, q := Leg(1, 5, 7, 3, 10, false), Leg(2, 5, 8, 3, 10, false);
            var b := Boundary(7, 5, true);
            && !OneReceiver([p, q], b) && Recipient([p, q], b) == Some(7) && Recipient([q, p], b) == Some(8)
  {
    var p, q := Leg(1, 5, 7, 3, 10, false), Leg(2, 5, 8, 3, 10, false);
    assert [p, q][0].to != [p, q][1].to && Receives([p, q][0], Boundary(7, 5, true))
      && Receives([p, q][1], Boundary(7, 5, true));
  }

  lemma ListedExactly(s: seq<Flow>, legs: seq<Leg>, b: Boundary, d: Direction, asset: nat, amount: U512)
    requires Tally(s, legs, b, d)
    ensures (asset, amount) in s <==> asset in Assets(legs, b, d) && amount == Total(legs, b, d, asset)
  {
    assert Lookup(s, asset) == Total(legs, b, d, asset);
    if (asset, amount) in s {
      var k: nat :| k < |s| && s[k] == (asset, amount);
      assert s[k].0 in Keys(s);
      LookupMember(s, k);
    }
    if asset in Keys(s) && amount == Lookup(s, asset) {
      var k: nat :| k < |s| && s[k].0 == asset;
      LookupMember(s, k);
      assert s[k] == (asset, amount);
    }
  }

  /** Untruncated, the two lists are the totals over all the legs: an asset is listed
    * with an amount exactly when it moved and that is its total. */
  lemma ExactWhenWhole(f: FlowSummary, subject: nat, protocol: nat, legs: seq<Leg>, d: Direction, asset: nat,
                       amount: U512)
    requires FlowOf(f, subject, protocol, legs) && !f.truncated
    ensures var b := Boundary(subject, protocol, f.atProtocol);
            (asset, amount) in (if d == In then f.incoming else f.outgoing)
            <==> asset in Assets(legs, b, d) && amount == Total(legs, b, d, asset)
  {
    var b := Boundary(subject, protocol, f.atProtocol);
    var i: seq<Flow>, o: seq<Flow> :| TablesOf(f, i, o, Examined(legs), |legs|, b);
    assert Examined(legs) == legs;
    assert Listed(i) == i && Listed(o) == o;
    ListedExactly(if d == In then i else o, legs, b, d, asset, amount);
  }

  // ----- nothing is lost between the assets -----

  function FlowSum(s: seq<Flow>): nat {
    if s == [] then 0 else s[0].1 + FlowSum(s[1..])
  }

  function Crossing(b: Boundary, d: Direction): Leg -> nat {
    (l: Leg) => if Moves(l, b, d) then l.amount else 0
  }

  lemma {:induction false} AddSums(s: seq<Flow>, asset: nat, amount: U256)
    requires Lookup(s, asset) + amount < LIMIT_512
    ensures FlowSum(Add(s, asset, amount)) == FlowSum(s) + amount
  {
    if s == [] || asset < s[0].0 {
      assert ([(asset, amount)] + s)[1..] == s;
    } else if asset == s[0].0 {
      assert ([(asset, s[0].1 + amount)] + s[1..])[1..] == s[1..];
    } else {
      AddSums(s[1..], asset, amount);
      assert ([s[0]] + Add(s[1..], asset, amount))[1..] == Add(s[1..], asset, amount);
    }
  }

  lemma {:induction false} SomeTally(legs: seq<Leg>, b: Boundary, d: Direction) returns (s: seq<Flow>)
    requires |legs| <= EXAMINED
    ensures Tally(s, legs, b, d) && FlowSum(s) == SumOf(legs, Crossing(b, d))
    decreases |legs|
  {
    if legs == [] {
      s := [];
    } else {
      var n := |legs| - 1;
      var t := SomeTally(legs[..n], b, d);
      TallyGrows(t, legs, n, b, d);
      assert legs[..n + 1] == legs;
      if Moves(legs[n], b, d) {
        s := Add(t, legs[n].asset, legs[n].amount);
        AddSums(t, legs[n].asset, legs[n].amount);
      } else {
        s := t;
      }
    }
  }

  /** The amounts of all assets together are the amounts of the legs that crossed. */
  lemma FlowsConserve(s: seq<Flow>, legs: seq<Leg>, b: Boundary, d: Direction)
    requires |legs| <= EXAMINED && Tally(s, legs, b, d)
    ensures FlowSum(s) == SumOf(legs, Crossing(b, d))
  {
    var t := SomeTally(legs, b, d);
    TallyPermuted(s, t, legs, legs, b, d);
  }
}
