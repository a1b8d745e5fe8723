/** The flow summary as it is stored: assets and amounts as texts joined by commas
  * (dockerizd_bsc/src/semantic.rs), which lose nothing and are taken apart again to
  * count the assets. */
module FlowText {
  import opened Common
  import opened SubjectFlow
  import opened RowDigest

  /** The text of an asset, of which the flows know the rank. */
  type Naming = nat -> string

  datatype FlowReport = FlowReport(assetsIn: string, amountsIn: string, assetsOut: string, amountsOut: string,
                                   refs: seq<nat>, recipient: Option<nat>, atProtocol: bool, truncated: bool,
                                   nftLegs: nat)

  function Join(parts: seq<string>): string {
    if parts == [] then "" else if |parts| == 1 then parts[0] else parts[0] + "," + Join(parts[1..])
  }

  function SplitComma(s: string): seq<string>
    decreases |s|
  {
    var n := Find(s, ',');
    if n == |s| then [s] else [s[..n]] + SplitComma(s[n + 1..])
  }

  function NonEmpty(parts: seq<string>): seq<string> {
    if parts == [] then []
    else if parts[0] == "" then NonEmpty(parts[1..])
    else [parts[0]] + NonEmpty(parts[1..])
  }

  function AssetTexts(flows: seq<Flow>, name: Naming): (r: seq<string>)
    ensures |r| == |flows|
    ensures forall i :: 0 <= i < |flows| ==> r[i] == name(flows[i].0)
  {
    if flows == [] then [] else [name(flows[0].0)] + AssetTexts(flows[1..], name)
  }

  function AmountTexts(flows: seq<Flow>): (r: seq<string>)
    ensures |r| == |flows|
    ensures forall i :: 0 <= i < |flows| ==> r[i] == Digits(flows[i].1)
  {
    if flows == [] then [] else [Digits(flows[0].1)] + AmountTexts(flows[1..])
  }

  /** `join_flows`, after the first 32 were taken. */
  function JoinFlows(flows: seq<Flow>, name: Naming): (string, string) {
    (Join(AssetTexts(flows, name)), Join(AmountTexts(flows)))
  }

  function ReportOf(f: FlowSummary, name: Naming): FlowReport {
    var (assetsIn, amountsIn) := JoinFlows(f.incoming, name);
    var (assetsOut, amountsOut) := JoinFlows(f.outgoing, name);
    FlowReport(assetsIn, amountsIn, assetsOut, amountsOut, f.refs, f.recipient, f.atProtocol, f.truncated, f.nftLegs)
  }

  /** `subject_flow` with its texts. */
  method Report(subject: nat, protocol: nat, legs: seq<Leg>, name: Naming) returns (r: FlowReport)
    ensures exists f :: FlowOf(f, subject, protocol, legs) && r == ReportOf(f, name)
  {
    var f := Summarize(subject, protocol, legs);
    r := ReportOf(f, name);
  }

  /** `unique_assets`: the number of different assets in the two texts. */
  function UniqueAssets(r: FlowReport): nat {
    |set t | t in NonEmpty(SplitComma(r.assetsIn)) + NonEmpty(SplitComma(r.assetsOut))|
  }

  // ----- the texts lose nothing -----

  predicate Plain(t: string) {
    t != "" && ',' !in t
  }

  predicate AllPlain(parts: seq<string>) {
    forall i :: 0 <= i < |parts| ==> Plain(parts[i])
  }

  lemma SplitPlain(t: string)
    requires Plain(t)
    ensures SplitComma(t) == [t]
  {
    if Find(t, ',') < |t| {
      assert t[Find(t, ',')] in t;
    }
  }

  lemma SplitFirst(t: string, rest: string)
    requires Plain(t)
    ensures SplitComma(t + "," + rest) == [t] + SplitComma(rest)
  {
    var s := t + "," + rest;
    forall i | 0 <= i < |t|
      ensures s[i] != ','
    {
      assert t[i] in t;
    }
    FindFirst(s, ',', |t|);
    assert s[..|t|] == t && s[|t| + 1..] == rest;
  }

  lemma {:induction false} SplitJoin(parts: seq<string>)
    requires parts != [] && AllPlain(parts)
    ensures SplitComma(Join(parts)) == parts
    decreases |parts|
  {
    HeadTail(parts);
    if |parts| == 1 {
      SplitPlain(parts[0]);
    } else {
      SplitJoin(parts[1..]);
      SplitFirst(parts[0], Join(parts[1..]));
    }
  }

  lemma {:induction false} NonEmptyPlain(parts: seq<string>)
    requires AllPlain(parts)
    ensures NonEmpty(parts) == parts
    decreases |parts|
  {
    if parts != [] {
      NonEmptyPlain(parts[1..]);
      HeadTail(parts);
    }
  }

  /** Joining, splitting and dropping empty pieces gives the pieces back, also of nothing at all. */
  lemma JoinedPieces(parts: seq<string>)
    requires AllPlain(parts)
    ensures NonEmpty(SplitComma(Join(parts))) == parts
  {
    if parts != [] {
      SplitJoin(parts);
      NonEmptyPlain(parts);
    }
  }

  /** Asset texts are plain and different. */
  ghost predicate GoodNaming(name: Naming) {
    && (forall a :: Plain(name(a)))
    && (forall a, b :: name(a) == name(b) ==> a == b)
  }

  lemma TextsPlain(flows: seq<Flow>, name: Naming)
    requires GoodNaming(name)
    ensures AllPlain(AssetTexts(flows, name)) && AllPlain(AmountTexts(flows))
  {
    forall i | 0 <= i < |flows|
      ensures Plain(Digits(flows[i].1))
    {
      DigitsAreDigits(flows[i].1);
    }
  }

  lemma JoinFlowsInjective(a: seq<Flow>, b: seq<Flow>, name: Naming)
    requires GoodNaming(name) && JoinFlows(a, name) == JoinFlows(b, name)
    ensures a == b
  {
    TextsPlain(a, name);
    TextsPlain(b, name);
    JoinedPieces(AssetTexts(a, name));
    JoinedPieces(AssetTexts(b, name));
    JoinedPieces(AmountTexts(a));
    JoinedPieces(AmountTexts(b));
    forall i | 0 <= i < |a|
      ensures a[i] == b[i]
    {
      assert AssetTexts(a, name)[i] == AssetTexts(b, name)[i] && AmountTexts(a)[i] == AmountTexts(b)[i];
      DigitsInjective(a[i].1, b[i].1);
    }
  }

  /** The stored texts determine the summary. */
  lemma ReportInjective(f: FlowSummary, g: FlowSummary, name: Naming)
    requires GoodNaming(name) && ReportOf(f, name) == ReportOf(g, name)
    ensures f == g
  {
    JoinFlowsInjective(f.incoming, g.incoming, name);
    JoinFlowsInjective(f.outgoing, g.outgoing, name);
  }

  // ----- counting the assets -----

  lemma {:induction false} ImageSize(s: set<nat>, name: Naming)
    requires GoodNaming(name)
    ensures |set a | a in s :: name(a)| == |s|
    decreases s
  {
    if s != {} {
      var x :| x in s;
      ImageSize(s - {x}, name);
      assert (set a | a in s :: name(a)) == (set a | a in s - {x} :: name(a)) + {name(x)};
    }
  }

  lemma TextsImage(flows: seq<Flow>, name: Naming)
    ensures forall t :: t in AssetTexts(flows, name) <==> exists a :: a in Keys(flows) && name(a) == t
  {
    forall a | a in Keys(flows)
      ensures name(a) in AssetTexts(flows, name)
    {
      var i :| 0 <= i < |flows| && flows[i].0 == a;
      assert AssetTexts(flows, name)[i] == name(a);
    }
    forall t | t in AssetTexts(flows, name)
      ensures exists a :: a in Keys(flows) && name(a) == t
    {
      var i :| 0 <= i < |flows| && AssetTexts(flows, name)[i] == t;
      assert flows[i].0 in Keys(flows);
    }
  }

  lemma PiecesBack(flows: seq<Flow>, name: Naming)
    requires GoodNaming(name)
    ensures NonEmpty(SplitComma(JoinFlows(flows, name).0)) == AssetTexts(flows, name)
  {
    TextsPlain(flows, name);
    JoinedPieces(AssetTexts(flows, name));
  }

  lemma BothImages(a: seq<Flow>, b: seq<Flow>, name: Naming)
    ensures (set t | t in AssetTexts(a, name) + AssetTexts(b, name)) == (set k | k in Keys(a) + Keys(b) :: name(k))
  {
    TextsImage(a, name);
    TextsImage(b, name);
  }

  /** The texts count the listed assets, each once even when it moves in both directions. */
  lemma UniqueListed(f: FlowSummary, name: Naming)
    requires GoodNaming(name)
    ensures UniqueAssets(ReportOf(f, name)) == |Keys(f.incoming) + Keys(f.outgoing)|
  {
    PiecesBack(f.incoming, name);
    PiecesBack(f.outgoing, name);
    BothImages(f.incoming, f.outgoing, name);
    ImageSize(Keys(f.incoming) + Keys(f.outgoing), name);
  }

  /** Untruncated, the stored texts count exactly the assets that crossed the boundary in any direction. */
  lemma UniqueMoved(f: FlowSummary, subject: nat, protocol: nat, legs: seq<Leg>, name: Naming)
    requires GoodNaming(name) && FlowOf(f, subject, protocol, legs) && !f.truncated
    ensures var b := Boundary(subject, protocol, f.atProtocol);
            UniqueAssets(ReportOf(f, name)) == |Assets(legs, b, In) + Assets(legs, b, Out)|
  {
    var b := Boundary(subject, protocol, f.atProtocol);
    UniqueListed(f, name);
    KeysMoved(f, subject, protocol, legs, In);
    KeysMoved(f, subject, protocol, legs, Out);
  }

  lemma KeysMoved(f: FlowSummary, subject: nat, protocol: nat, legs: seq<Leg>, d: Direction)
    requires FlowOf(f, subject, protocol, legs) && !f.truncated
    ensures Keys(if d == In then f.incoming else f.outgoing)
         == Assets(legs, Boundary(subject, protocol, f.atProtocol), d)
  {
    var b := Boundary(subject, protocol, f.atProtocol);
    var i: seq<Flow>, o: seq<Flow> :| TablesOf(f, i, o, Examined(legs), |legs|, b);
    assert Examined(legs) == legs && Listed(i) == i && Listed(o) == o;
  }
}
