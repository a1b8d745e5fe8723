/**
 Exact row verification of a backup: the typed text of a row and the sorted, length-delimited stream
 that is hashed. Two tables feed the hash with the same stream exactly when they hold the same rows,
 duplicates and NULLs included.
 */
module RowDigest {
  import opened Common

  datatype Kind =
    | Nullable(inner: Kind)
    | Array(inner: Kind)
    | Bytes                      // String, LowCardinality(String), FixedString(n)
    | Float(width: nat)          // Float32, Float64: the bytes of the value
    | Whole                      // DateTime64, DateTime, Bool and the integer types, by their exact number
    | Unsupported(name: string)

  datatype Value = Absent | Present(value: Value) | Raw(bytes: seq<nat>) | Number(n: int) | Items(items: seq<Value>)

  datatype Json = JNull | JText(text: string) | JList(items: seq<Json>)

  /** The kinds for which an expression exists; every other kind fails before the backup. */
  predicate Supported(k: Kind) {
    match k
    case Nullable(inner) => Supported(inner)
    case Array(inner) => Supported(inner)
    case Unsupported(_) => false
    case _ => true
  }

  /** No Nullable directly inside a Nullable. */
  predicate FlatNulls(k: Kind) {
    match k
    case Nullable(inner) => !inner.Nullable? && FlatNulls(inner)
    case Array(inner) => FlatNulls(inner)
    case _ => true
  }

  predicate IsBytes(s: seq<nat>) {
    forall i :: 0 <= i < |s| ==> s[i] < 256
  }

  predicate Typed(v: Value, k: Kind)
    decreases k, v
  {
    match k
    case Nullable(inner) => v.Absent? || (v.Present? && Typed(v.value, inner))
    case Array(inner) => v.Items? && forall i :: 0 <= i < |v.items| ==> Typed(v.items[i], inner)
    case Bytes => v.Raw? && IsBytes(v.bytes)
    case Float(width) => v.Raw? && IsBytes(v.bytes) && |v.bytes| == width
    case Whole => v.Number?
    case Unsupported(_) => false
  }

  // ----- reading a type text -----

  /** The text starts with the opening and ends with the closing parenthesis. */
  predicate Wrapped(opening: string, t: string) {
    |opening| < |t| && opening <= t && t[|t| - 1] == ')'
  }

  predicate AllDigits(t: string) {
    t != "" && forall i :: 0 <= i < |t| ==> '0' <= t[i] <= '9'
  }

  predicate FixedWidth(t: string) {
    Wrapped("FixedString(", t) && |t| > 12 && AllDigits(t[12..|t| - 1])
  }

  const INTEGERS: set<string> :=
    {"Int8", "Int16", "Int32", "Int64", "Int128", "Int256",
     "UInt8", "UInt16", "UInt32", "UInt64", "UInt128", "UInt256"}

  /** The kind of a column type, as the branches of the program tell it from its text. */
  function KindOf(t: string): Kind
    decreases |t|
  {
    if Wrapped("Nullable(", t) then Nullable(KindOf(t[9..|t| - 1]))
    else if Wrapped("Array(", t) then Array(KindOf(t[6..|t| - 1]))
    else if t == "String" || t == "LowCardinality(String)" || FixedWidth(t) then Bytes
    else if t == "Float32" then Float(4)
    else if t == "Float64" then Float(8)
    else if "DateTime64(" <= t || t == "DateTime" || "DateTime(" <= t || t == "Bool" || t in INTEGERS then Whole
    else Unsupported(t)
  }

  // ----- scalar texts -----

  const HEX := "0123456789ABCDEF"

  function Hex(s: seq<nat>): (t: string)
    requires IsBytes(s)
    ensures |t| == 2 * |s|
  {
    if s == [] then "" else [HEX[s[0] / 16], HEX[s[0] % 16]] + Hex(s[1..])
  }

  /** The bytes of a number as the server gives them: without the zero bytes at the end. */
  function Trim(s: seq<nat>): (t: seq<nat>)
    ensures |t| <= |s| && t == s[..|t|]
    ensures forall i :: |t| <= i < |s| ==> s[i] == 0
  {
    if s != [] && s[|s| - 1] == 0 then Trim(s[..|s| - 1]) else s
  }

  /** At a fixed width the zero bytes at the end can be put back. */
  lemma TrimInjective(a: seq<nat>, b: seq<nat>)
    requires |a| == |b| && Trim(a) == Trim(b)
    ensures a == b
  {
    var n := |Trim(a)|;
    forall i | 0 <= i < |a|
      ensures a[i] == b[i]
    {
      if i < n {
        assert a[i] == Trim(a)[i] == Trim(b)[i] == b[i];
      }
    }
  }

  function Digit(n: nat): char
    requires n < 10
  {
    HEX[n]
  }

  function Digits(n: nat): (t: string)
    ensures |t| > 0
  {
    if n < 10 then [Digit(n)] else Digits(n / 10) + [Digit(n % 10)]
  }

  function Decimal(n: int): string {
    if n < 0 then "-" + Digits(-n) else Digits(n)
  }

  // ----- encoding -----

  function Encode(k: Kind, v: Value): Json
    requires Typed(v, k)
    decreases k, v
  {
    match k
    case Nullable(inner) => if v.Absent? then JNull else Encode(inner, v.value)
    case Array(inner) => JList(EncodeAll(inner, v.items))
    case Whole => JText(Decimal(v.n))
    case Bytes => JText(Hex(v.bytes))
    case Float(_) => JText(Hex(Trim(v.bytes)))
    case Unsupported(_) => JNull
  }

  function EncodeAll(k: Kind, vs: seq<Value>): (js: seq<Json>)
    requires forall i :: 0 <= i < |vs| ==> Typed(vs[i], k)
    ensures |js| == |vs|
    decreases k, vs
  {
    if vs == [] then [] else [Encode(k, vs[0])] + EncodeAll(k, vs[1..])
  }

  lemma {:induction false} HexInjective(a: seq<nat>, b: seq<nat>)
    requires IsBytes(a) && IsBytes(b) && Hex(a) == Hex(b)
    ensures a == b
    decreases |a|
  {
    if a != [] && b != [] {
      var x, y := Hex(a), Hex(b);
      assert x[0] == HEX[a[0] / 16] && y[0] == HEX[b[0] / 16];
      assert x[1] == HEX[a[0] % 16] && y[1] == HEX[b[0] % 16];
      HexDigitInjective(a[0] / 16, b[0] / 16);
      HexDigitInjective(a[0] % 16, b[0] % 16);
      assert x[2..] == Hex(a[1..]) && y[2..] == Hex(b[1..]);
      HexInjective(a[1..], b[1..]);
      SplitAt(a, 1);
      SplitAt(b, 1);
      assert a[..1] == b[..1];
    }
  }

  lemma HexDigitInjective(a: nat, b: nat)
    requires a < 16 && b < 16 && HEX[a] == HEX[b]
    ensures a == b
  {
  }

  lemma {:induction false} DigitsInjective(a: nat, b: nat)
    requires Digits(a) == Digits(b)
    ensures a == b
    decreases a
  {
    var x, y := Digits(a), Digits(b);
    assert x[|x| - 1] == Digit(a % 10) && y[|y| - 1] == Digit(b % 10);
    HexDigitInjective(a % 10, b % 10);
    if a >= 10 && b >= 10 {
      assert x[..|x| - 1] == Digits(a / 10) && y[..|y| - 1] == Digits(b / 10);
      DigitsInjective(a / 10, b / 10);
    }
  }

  lemma {:induction false} DigitsAreDigits(n: nat)
    ensures forall i :: 0 <= i < |Digits(n)| ==> Digits(n)[i] in HEX
  {
    if n >= 10 { DigitsAreDigits(n / 10); }
  }

  lemma DecimalSign(a: int)
    ensures |Decimal(a)| > 0
    ensures Decimal(a)[0] == '-' <==> a < 0
  {
    if a >= 0 { DigitsAreDigits(a); }
  }

  lemma SameSign(a: int, b: int)
    requires Decimal(a) == Decimal(b)
    ensures a < 0 <==> b < 0
  {
    DecimalSign(a);
    DecimalSign(b);
  }

  lemma NegativeInjective(a: int, b: int)
    requires a < 0 && b < 0 && Decimal(a) == Decimal(b)
    ensures a == b
  {
    PrefixCancel("-", Digits(-a), Digits(-b));
    DigitsInjective(-a, -b);
  }

  lemma DecimalInjective(a: int, b: int)
    requires Decimal(a) == Decimal(b)
    ensures a == b
  {
    SameSign(a, b);
    if a < 0 {
      NegativeInjective(a, b);
    } else {
      DigitsInjective(a, b);
    }
  }

  /** The typed encoding separates all values of a kind without directly nested Nullables. */
  lemma {:induction false} EncodeInjective(k: Kind, a: Value, b: Value)
    requires FlatNulls(k) && Typed(a, k) && Typed(b, k) && Encode(k, a) == Encode(k, b)
    ensures a == b
    decreases k, a
  {
    match k
    case Nullable(inner) =>
      if a.Present? && b.Present? { EncodeInjective(inner, a.value, b.value); }
    case Array(inner) => EncodeAllInjective(inner, a.items, b.items);
    case Whole => DecimalInjective(a.n, b.n);
    case Bytes => HexInjective(a.bytes, b.bytes);
    case Float(_) =>
      HexInjective(Trim(a.bytes), Trim(b.bytes));
      TrimInjective(a.bytes, b.bytes);
  }

  lemma {:induction false} EncodeAllInjective(k: Kind, a: seq<Value>, b: seq<Value>)
    requires FlatNulls(k)
    requires (forall i :: 0 <= i < |a| ==> Typed(a[i], k)) && (forall i :: 0 <= i < |b| ==> Typed(b[i], k))
    requires EncodeAll(k, a) == EncodeAll(k, b)
    ensures a == b
    decreases k, a
  {
    assert |EncodeAll(k, a)| == |EncodeAll(k, b)|;
    if a != [] {
      assert EncodeAll(k, a)[0] == Encode(k, a[0]) && EncodeAll(k, b)[0] == Encode(k, b[0]);
      assert EncodeAll(k, a)[1..] == EncodeAll(k, a[1..]) && EncodeAll(k, b)[1..] == EncodeAll(k, b[1..]);
      EncodeInjective(k, a[0], b[0]);
      EncodeAllInjective(k, a[1..], b[1..]);
      SplitAt(a, 1);
      SplitAt(b, 1);
      assert a[..1] == b[..1];
    }
  }

  /** Two different values of a kind with a Nullable directly inside a Nullable share one encoding. */
  lemma {:induction false} NestedNullsCollide(k: Kind) returns (a: Value, b: Value)
    requires Supported(k) && !FlatNulls(k)
    ensures a != b && Typed(a, k) && Typed(b, k) && Encode(k, a) == Encode(k, b)
    decreases k
  {
    match k
    case Nullable(inner) =>
      if inner.Nullable? {
        a, b := Absent, Present(Absent);
      } else {
        a, b := NestedNullsCollide(inner);
        a, b := Present(a), Present(b);
      }
    case Array(inner) =>
      var x, y := NestedNullsCollide(inner);
      a, b := Items([x]), Items([y]);
      assert a.items[0] != b.items[0];
  }

  ghost predicate Injective(k: Kind) {
    forall a, b :: Typed(a, k) && Typed(b, k) && Encode(k, a) == Encode(k, b) ==> a == b
  }

  /** The encoding of a supported kind is injective exactly when no Nullable directly contains a Nullable. */
  lemma InjectiveIff(k: Kind)
    requires Supported(k)
    ensures Injective(k) <==> FlatNulls(k)
  {
    if FlatNulls(k) {
      forall a, b | Typed(a, k) && Typed(b, k) && Encode(k, a) == Encode(k, b)
        ensures a == b
      {
        EncodeInjective(k, a, b);
      }
    } else {
      var a, b := NestedNullsCollide(k);
    }
  }

  /** The same of a type text: the program refuses it or encodes its values injectively exactly when the type has no
      Nullable directly inside a Nullable. */
  lemma TypeInjectiveIff(t: string)
    ensures Supported(KindOf(t)) ==> (Injective(KindOf(t)) <==> FlatNulls(KindOf(t)))
    ensures Supported(KindOf("Nullable(" + t + ")")) <==> Supported(KindOf(t))
    ensures KindOf("Nullable(" + t + ")") == Nullable(KindOf(t))
    ensures KindOf("Array(" + t + ")") == Array(KindOf(t))
  {
    if Supported(KindOf(t)) {
      InjectiveIff(KindOf(t));
    }
    var n, a := "Nullable(" + t + ")", "Array(" + t + ")";
    assert n[9..|n| - 1] == t && a[6..|a| - 1] == t;
    assert a[0] != n[0];
  }

  // ----- the text of a row -----

  /** No character that JSON would escape or that ends a string. */
  predicate Plain(t: string) {
    forall i :: 0 <= i < |t| ==> t[i] != '"'
  }

  predicate PlainJson(j: Json) {
    match j
    case JNull => true
    case JText(t) => Plain(t)
    case JList(items) => forall i :: 0 <= i < |items| ==> PlainJson(items[i])
  }

  function Print(j: Json): (t: string)
    ensures |t| > 0
    decreases j
  {
    match j
    case JNull => "null"
    case JText(t) => "\"" + t + "\""
    case JList(items) => "[" + PrintItems(items, true)
  }

  /** The rest of a list: its items, separated by commas, and the closing bracket. */
  function PrintItems(items: seq<Json>, first: bool): (t: string)
    ensures |t| > 0
    decreases items
  {
    if items == [] then "]"
    else (if first then "" else ",") + Print(items[0]) + PrintItems(items[1..], false)
  }

  lemma PrintStarts(j: Json)
    ensures Print(j)[0] == match j case JNull => 'n' case JText(_) => '"' case JList(_) => '['
  {
  }

  lemma {:induction false} TextDelimited(a: string, b: string, s: string, t: string)
    requires Plain(a) && Plain(b) && a + "\"" + s == b + "\"" + t
    ensures a == b && s == t
    decreases |a|
  {
    var x, y := a + "\"" + s, b + "\"" + t;
    assert if a == "" then x[0] == '"' else x[0] == a[0];
    assert if b == "" then y[0] == '"' else y[0] == b[0];
    if a == "" {
      assert x[1..] == s && y[1..] == t;
    } else {
      assert x[1..] == a[1..] + "\"" + s && y[1..] == b[1..] + "\"" + t;
      TextDelimited(a[1..], b[1..], s, t);
      SplitAt(a, 1);
      SplitAt(b, 1);
      assert a[..1] == b[..1];
    }
  }

  lemma NullDelimited(s: string, t: string)
    requires "null" + s == "null" + t
    ensures s == t
  {
    assert ("null" + s)[4..] == s && ("null" + t)[4..] == t;
  }

  lemma QuotedDelimited(x: string, y: string, s: string, t: string)
    requires Plain(x) && Plain(y) && Print(JText(x)) + s == Print(JText(y)) + t
    ensures x == y && s == t
  {
    assert (Print(JText(x)) + s)[1..] == x + "\"" + s;
    assert (Print(JText(y)) + t)[1..] == y + "\"" + t;
    TextDelimited(x, y, s, t);
  }

  lemma InsideList(items: seq<Json>, s: string)
    ensures Print(JList(items)) + s == "[" + (PrintItems(items, true) + s)
    ensures (Print(JList(items)) + s)[1..] == PrintItems(items, true) + s
  {
  }

  /** Printed values delimit themselves: a text determines the first value and what follows it. */
  lemma {:induction false} PrintDelimited(a: Json, b: Json, s: string, t: string)
    requires PlainJson(a) && PlainJson(b) && Print(a) + s == Print(b) + t
    ensures a == b && s == t
    decreases a
  {
    PrintStarts(a);
    PrintStarts(b);
    assert (Print(a) + s)[0] == Print(a)[0] && (Print(b) + t)[0] == Print(b)[0];
    match a
    case JNull => NullDelimited(s, t);
    case JText(x) => QuotedDelimited(x, b.text, s, t);
    case JList(items) =>
      InsideList(items, s);
      InsideList(b.items, t);
      ItemsDelimited(items, b.items, true, s, t);
  }

  lemma ItemsStart(items: seq<Json>, first: bool)
    requires items != []
    ensures PrintItems(items, first)[0] == if first then Print(items[0])[0] else ','
  {
  }

  lemma ItemsSplit(items: seq<Json>, first: bool, s: string)
    requires items != []
    ensures first ==> PrintItems(items, first) + s == Print(items[0]) + (PrintItems(items[1..], false) + s)
    ensures !first ==> PrintItems(items, first) + s == "," + (Print(items[0]) + (PrintItems(items[1..], false) + s))
  {
    var p, r := Print(items[0]), PrintItems(items[1..], false);
    ConcatAssociative(p, r, s);
    ConcatEmpty(p);
    if !first {
      ConcatAssociative(",", p, r);
      ConcatAssociative(",", p + r, s);
    }
  }

  lemma {:induction false} ItemsDelimited(a: seq<Json>, b: seq<Json>, first: bool, s: string, t: string)
    requires (forall i :: 0 <= i < |a| ==> PlainJson(a[i])) && (forall i :: 0 <= i < |b| ==> PlainJson(b[i]))
    requires PrintItems(a, first) + s == PrintItems(b, first) + t
    ensures a == b && s == t
    decreases a
  {
    var x, y := PrintItems(a, first) + s, PrintItems(b, first) + t;
    assert x[0] == PrintItems(a, first)[0] && y[0] == PrintItems(b, first)[0];
    if a != [] { ItemsStart(a, first); PrintStarts(a[0]); }
    if b != [] { ItemsStart(b, first); PrintStarts(b[0]); }
    if a == [] {
      assert b == [];
      assert x[1..] == s && y[1..] == t;
    } else {
      assert b != [];
      ItemsSplit(a, first, s);
      ItemsSplit(b, first, t);
      var u, v := PrintItems(a[1..], false) + s, PrintItems(b[1..], false) + t;
      if !first {
        assert x[1..] == Print(a[0]) + u && y[1..] == Print(b[0]) + v;
      }
      PrintDelimited(a[0], b[0], u, v);
      ItemsDelimited(a[1..], b[1..], false, s, t);
      SplitAt(a, 1);
      SplitAt(b, 1);
      assert a[..1] == b[..1];
    }
  }

  lemma {:induction false} HexPlain(s: seq<nat>)
    requires IsBytes(s)
    ensures Plain(Hex(s))
    decreases |s|
  {
    if s != [] { HexPlain(s[1..]); }
  }

  lemma DecimalPlain(n: int)
    ensures Plain(Decimal(n))
  {
    DigitsAreDigits(if n < 0 then -n else n);
  }

  lemma {:induction false} EncodePlain(k: Kind, v: Value)
    requires Typed(v, k)
    ensures PlainJson(Encode(k, v))
    decreases k, v
  {
    match k
    case Nullable(inner) => if v.Present? { EncodePlain(inner, v.value); }
    case Array(inner) => EncodeAllPlain(inner, v.items);
    case Whole => DecimalPlain(v.n);
    case Bytes => HexPlain(v.bytes);
    case Float(_) => HexPlain(Trim(v.bytes));
    case Unsupported(_) =>
  }

  lemma {:induction false} EncodeAllPlain(k: Kind, vs: seq<Value>)
    requires forall i :: 0 <= i < |vs| ==> Typed(vs[i], k)
    ensures forall i :: 0 <= i < |vs| ==> PlainJson(EncodeAll(k, vs)[i])
    decreases k, vs
  {
    if vs != [] {
      EncodePlain(k, vs[0]);
      EncodeAllPlain(k, vs[1..]);
    }
  }

  type Row = seq<Value>

  predicate TypedRow(row: Row, columns: seq<Kind>) {
    |row| == |columns| && forall i :: 0 <= i < |row| ==> Typed(row[i], columns[i])
  }

  function EncodeRow(columns: seq<Kind>, row: Row): (js: seq<Json>)
    requires TypedRow(row, columns)
    ensures |js| == |row|
  {
    if row == [] then [] else [Encode(columns[0], row[0])] + EncodeRow(columns[1..], row[1..])
  }

  /** The text that the server sorts and sends for a row. */
  function RowText(columns: seq<Kind>, row: Row): string
    requires TypedRow(row, columns)
  {
    Print(JList(EncodeRow(columns, row)))
  }

  predicate Verifiable(columns: seq<Kind>) {
    forall i :: 0 <= i < |columns| ==> Supported(columns[i]) && FlatNulls(columns[i])
  }

  lemma {:induction false} EncodeRowPlain(columns: seq<Kind>, row: Row)
    requires TypedRow(row, columns)
    ensures forall i :: 0 <= i < |row| ==> PlainJson(EncodeRow(columns, row)[i])
    decreases |row|
  {
    if row != [] {
      EncodePlain(columns[0], row[0]);
      EncodeRowPlain(columns[1..], row[1..]);
    }
  }

  lemma {:induction false} EncodeRowInjective(columns: seq<Kind>, a: Row, b: Row)
    requires Verifiable(columns) && TypedRow(a, columns) && TypedRow(b, columns)
    requires EncodeRow(columns, a) == EncodeRow(columns, b)
    ensures a == b
    decreases |a|
  {
    if a != [] {
      var x, y := EncodeRow(columns, a), EncodeRow(columns, b);
      assert x[0] == Encode(columns[0], a[0]) && y[0] == Encode(columns[0], b[0]);
      assert x[1..] == EncodeRow(columns[1..], a[1..]) && y[1..] == EncodeRow(columns[1..], b[1..]);
      EncodeInjective(columns[0], a[0], b[0]);
      EncodeRowInjective(columns[1..], a[1..], b[1..]);
      SplitAt(a, 1);
      SplitAt(b, 1);
      assert a[..1] == b[..1];
    }
  }

  lemma RowTextInjective(columns: seq<Kind>, a: Row, b: Row)
    requires Verifiable(columns) && TypedRow(a, columns) && TypedRow(b, columns)
    requires RowText(columns, a) == RowText(columns, b)
    ensures a == b
  {
    EncodeRowPlain(columns, a);
    EncodeRowPlain(columns, b);
    ConcatEmpty(RowText(columns, a));
    PrintDelimited(JList(EncodeRow(columns, a)), JList(EncodeRow(columns, b)), "", "");
    EncodeRowInjective(columns, a, b);
  }

  // ----- the hashed stream -----

  const MAX_LINE: nat := 128 * 1024 * 1024

  /** The last `width` base-256 digits of n, most significant first. */
  function BigEndian(n: nat, width: nat): (s: seq<nat>)
    ensures |s| == width
  {
    if width == 0 then [] else BigEndian(n / 256, width - 1) + [n % 256]
  }

  function Pow256(n: nat): nat {
    if n == 0 then 1 else 256 * Pow256(n - 1)
  }

  lemma {:induction false} BigEndianInjective(a: nat, b: nat, width: nat)
    requires a < Pow256(width) && b < Pow256(width) && BigEndian(a, width) == BigEndian(b, width)
    ensures a == b
    decreases width
  {
    if width > 0 {
      var x, y := BigEndian(a, width), BigEndian(b, width);
      assert x[width - 1] == a % 256 && y[width - 1] == b % 256;
      assert x[..width - 1] == BigEndian(a / 256, width - 1) && y[..width - 1] == BigEndian(b / 256, width - 1);
      BigEndianInjective(a / 256, b / 256, width - 1);
    }
  }

  function Codes(t: string): (s: seq<nat>)
    ensures |s| == |t|
    ensures forall i :: 0 <= i < |t| ==> s[i] == t[i] as nat
  {
    seq(|t|, i requires 0 <= i < |t| => t[i] as nat)
  }

  lemma CodesInjective(a: string, b: string)
    requires Codes(a) == Codes(b)
    ensures a == b
  {
    assert |a| == |b|;
    forall i | 0 <= i < |a|
      ensures a[i] == b[i]
    {
      assert Codes(a)[i] == Codes(b)[i];
    }
  }

  /** One row as the hash sees it: its length in eight bytes, then its text. */
  function Framed(t: string): seq<nat> {
    BigEndian(|t|, 8) + Codes(t)
  }

  function Stream(texts: seq<string>): seq<nat> {
    if texts == [] then [] else Framed(texts[0]) + Stream(texts[1..])
  }

  lemma {:induction false} StreamAppend(texts: seq<string>, t: string)
    ensures Stream(texts + [t]) == Stream(texts) + Framed(t)
    decreases |texts|
  {
    if texts == [] {
      assert (texts + [t])[1..] == [];
      ConcatEmpty(Framed(t));
    } else {
      assert (texts + [t])[1..] == texts[1..] + [t];
      StreamAppend(texts[1..], t);
      ConcatAssociative(Framed(texts[0]), Stream(texts[1..]), Framed(t));
    }
  }

  predicate Short(texts: seq<string>) {
    forall i :: 0 <= i < |texts| ==> |texts[i]| <= MAX_LINE
  }

  lemma FramedDelimited(a: string, b: string, s: seq<nat>, t: seq<nat>)
    requires |a| <= MAX_LINE && |b| <= MAX_LINE && Framed(a) + s == Framed(b) + t
    ensures a == b && s == t
  {
    var x, y := Framed(a) + s, Framed(b) + t;
    assert x[..8] == BigEndian(|a|, 8) && y[..8] == BigEndian(|b|, 8);
    EightBytes();
    BigEndianInjective(|a|, |b|, 8);
    assert x[8..8 + |a|] == Codes(a) && y[8..8 + |b|] == Codes(b);
    CodesInjective(a, b);
    assert x[8 + |a|..] == s && y[8 + |b|..] == t;
  }

  lemma EightBytes()
    ensures MAX_LINE < Pow256(8)
  {
    assert Pow256(4) == 256 * (256 * (256 * (256 * Pow256(0))));
    assert Pow256(8) == 256 * (256 * (256 * (256 * Pow256(4))));
  }

  /** The stream determines the rows and their order. */
  lemma {:induction false} StreamInjective(a: seq<string>, b: seq<string>)
    requires Short(a) && Short(b) && Stream(a) == Stream(b)
    ensures a == b
    decreases |a|
  {
    if a != [] && b != [] {
      FramedDelimited(a[0], b[0], Stream(a[1..]), Stream(b[1..]));
      StreamInjective(a[1..], b[1..]);
      SplitAt(a, 1);
      SplitAt(b, 1);
      assert a[..1] == b[..1];
    }
  }

  // ----- sorted rows -----

  predicate Ascending(texts: seq<string>) {
    forall i, j :: 0 <= i < j < |texts| ==> !Less(texts[j], texts[i])
  }

  lemma TailMultiset(a: seq<string>)
    requires a != []
    ensures multiset(a[1..]) == multiset(a) - multiset{a[0]}
  {
    assert a == [a[0]] + a[1..];
    assert multiset(a) == multiset{a[0]} + multiset(a[1..]);
  }

  lemma SameFirst(a: seq<string>, b: seq<string>)
    requires a != [] && b != [] && Ascending(a) && Ascending(b) && multiset(a) == multiset(b)
    ensures a[0] == b[0]
  {
    assert a[0] in multiset(b) && b[0] in multiset(a);
    FirstLeast(a, b[0]);
    FirstLeast(b, a[0]);
    LessTotal(a[0], b[0]);
  }

  /** A sorted listing is determined by the multiset it lists. */
  lemma {:induction false} SortedUnique(a: seq<string>, b: seq<string>)
    requires Ascending(a) && Ascending(b) && multiset(a) == multiset(b)
    ensures a == b
    decreases |a|
  {
    assert |a| == |multiset(a)| == |multiset(b)| == |b|;
    if a != [] {
      SameFirst(a, b);
      TailMultiset(a);
      TailMultiset(b);
      SortedUnique(a[1..], b[1..]);
      assert a == [a[0]] + a[1..] && b == [b[0]] + b[1..];
    }
  }

  lemma FirstLeast(a: seq<string>, t: string)
    requires Ascending(a) && t in a
    ensures !Less(t, a[0])
  {
    LessIrreflexive(t);
  }

  // ----- tables -----

  predicate TypedTable(rows: seq<Row>, columns: seq<Kind>) {
    forall i :: 0 <= i < |rows| ==> TypedRow(rows[i], columns)
  }

  function Texts(columns: seq<Kind>, rows: seq<Row>): (ts: seq<string>)
    requires TypedTable(rows, columns)
    ensures |ts| == |rows|
  {
    if rows == [] then [] else [RowText(columns, rows[0])] + Texts(columns, rows[1..])
  }

  /** A row occurs as often as its text. */
  lemma {:induction false} TextCount(columns: seq<Kind>, rows: seq<Row>, r: Row)
    requires Verifiable(columns) && TypedTable(rows, columns) && TypedRow(r, columns)
    ensures multiset(Texts(columns, rows))[RowText(columns, r)] == multiset(rows)[r]
    decreases |rows|
  {
    if rows != [] {
      TextCount(columns, rows[1..], r);
      assert rows == [rows[0]] + rows[1..];
      assert multiset(rows) == multiset{rows[0]} + multiset(rows[1..]);
      assert multiset(Texts(columns, rows))
          == multiset{RowText(columns, rows[0])} + multiset(Texts(columns, rows[1..]));
      if RowText(columns, r) == RowText(columns, rows[0]) { RowTextInjective(columns, r, rows[0]); }
    }
  }

  lemma {:induction false} TextOfRow(columns: seq<Kind>, rows: seq<Row>, t: string)
    requires TypedTable(rows, columns) && t in Texts(columns, rows)
    ensures exists r :: r in rows && TypedRow(r, columns) && t == RowText(columns, r)
    decreases |rows|
  {
    if t == RowText(columns, rows[0]) {
      assert rows[0] in rows;
    } else {
      TextOfRow(columns, rows[1..], t);
    }
  }

  lemma {:induction false} SameRowsSameTexts(columns: seq<Kind>, a: seq<Row>, b: seq<Row>, t: string)
    requires Verifiable(columns) && TypedTable(a, columns) && TypedTable(b, columns) && multiset(a) == multiset(b)
    ensures multiset(Texts(columns, a))[t] == multiset(Texts(columns, b))[t]
  {
    if t in Texts(columns, a) {
      TextOfRow(columns, a, t);
      var r :| r in a && TypedRow(r, columns) && t == RowText(columns, r);
      TextCount(columns, a, r);
      TextCount(columns, b, r);
    } else if t in Texts(columns, b) {
      TextOfRow(columns, b, t);
      var r :| r in b && TypedRow(r, columns) && t == RowText(columns, r);
      TextCount(columns, a, r);
      TextCount(columns, b, r);
    }
  }

  lemma TextsMultiset(columns: seq<Kind>, a: seq<Row>, b: seq<Row>)
    requires Verifiable(columns) && TypedTable(a, columns) && TypedTable(b, columns)
    ensures multiset(Texts(columns, a)) == multiset(Texts(columns, b)) <==> multiset(a) == multiset(b)
  {
    if multiset(a) == multiset(b) {
      forall t
        ensures multiset(Texts(columns, a))[t] == multiset(Texts(columns, b))[t]
      {
        SameRowsSameTexts(columns, a, b, t);
      }
    }
    if multiset(Texts(columns, a)) == multiset(Texts(columns, b)) {
      forall r
        ensures multiset(a)[r] == multiset(b)[r]
      {
        if r in a || r in b {
          assert TypedRow(r, columns);
          TextCount(columns, a, r);
          TextCount(columns, b, r);
        }
      }
    }
  }

  /** What the server sends for a table: the texts of its rows in ascending order. */
  predicate Listing(columns: seq<Kind>, rows: seq<Row>, lines: seq<string>)
    requires TypedTable(rows, columns)
  {
    Ascending(lines) && multiset(lines) == multiset(Texts(columns, rows))
  }

  /** Exact verification: the hash of two tables sees the same stream exactly when the tables hold the same
      rows, each as often, NULLs included. */
  lemma StreamVerifies(columns: seq<Kind>, a: seq<Row>, b: seq<Row>, linesA: seq<string>, linesB: seq<string>)
    requires Verifiable(columns) && TypedTable(a, columns) && TypedTable(b, columns)
    requires Listing(columns, a, linesA) && Listing(columns, b, linesB)
    requires Short(linesA) && Short(linesB)
    ensures Stream(linesA) == Stream(linesB) <==> multiset(a) == multiset(b)
  {
    TextsMultiset(columns, a, b);
    if multiset(a) == multiset(b) { SortedUnique(linesA, linesB); }
    if Stream(linesA) == Stream(linesB) { StreamInjective(linesA, linesB); }
  }

  /** A received line and its size on the wire, at least that of the text it carries. */
  datatype Line = Line(size: nat, text: string)

  predicate ValidLine(l: Line) {
    |l.text| <= l.size
  }

  function LineTexts(lines: seq<Line>): (ts: seq<string>)
    ensures |ts| == |lines|
    ensures forall i :: 0 <= i < |lines| ==> ts[i] == lines[i].text
  {
    seq(|lines|, i requires 0 <= i < |lines| => lines[i].text)
  }

  /** Feed the hash line by line; a line over the cap is refused. */
  method TableStream(lines: seq<Line>) returns (r: Result<(nat, seq<nat>), ()>)
    requires forall i :: 0 <= i < |lines| ==> ValidLine(lines[i])
    ensures r.Ok? <==> forall i :: 0 <= i < |lines| ==> lines[i].size <= MAX_LINE
    ensures r.Ok? ==> r.value == (|lines|, Stream(LineTexts(lines))) && Short(LineTexts(lines))
  {
    var fed: seq<nat>, count := [], 0;
    for k := 0 to |lines|
      invariant count == k
      invariant fed == Stream(LineTexts(lines)[..k])
      invariant forall i :: 0 <= i < k ==> lines[i].size <= MAX_LINE
    {
      if lines[k].size > MAX_LINE {
        return Err(());
      }
      var text := lines[k].text;
      StreamAppend(LineTexts(lines)[..k], text);
      assert LineTexts(lines)[..k + 1] == LineTexts(lines)[..k] + [text];
      ConcatAssociative(fed, BigEndian(|text|, 8), Codes(text));
      fed := fed + BigEndian(|text|, 8);
      fed := fed + Codes(text);
      count := count + 1;
    }
    assert LineTexts(lines)[..|lines|] == LineTexts(lines);
    return Ok((count, fed));
  }
}
