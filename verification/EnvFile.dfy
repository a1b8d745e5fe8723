/** The environment file reader and writer of scripts/provision_vms.py. */
module EnvFile {
  import opened Common

  type Entry = (string, string)

  datatype Error = MissingFile | InvalidOrDuplicateKey | NotLiteral(key: string)

  // ----- characters -----

  /** What `str.splitlines` ends a line at. */
  predicate LineBreak(c: char) {
    || '\n' <= c <= '\r' || '\U{1c}' <= c <= '\U{1e}'
    || c == '\U{85}' || c == '\U{2028}' || c == '\U{2029}'
  }

  predicate Upper(c: char) {
    'A' <= c <= 'Z'
  }

  predicate LegalKey(k: string) {
    && k != "" && Upper(k[0])
    && forall i :: 0 <= i < |k| ==> Upper(k[i]) || '0' <= k[i] <= '9' || k[i] == '_'
  }

  /** The characters that the reader refuses inside a value. */
  predicate Forbidden(c: char) {
    c == '\r' || c == '\n' || c == '$' || c == '\'' || c < ' '
  }

  predicate Literal(v: string) {
    forall i :: 0 <= i < |v| ==> !Forbidden(v[i])
  }

  // ----- lines -----

  function LineEnd(t: string): (n: nat)
    ensures n <= |t|
    ensures n < |t| ==> LineBreak(t[n])
    ensures forall i :: 0 <= i < n ==> !LineBreak(t[i])
  {
    if t == "" || LineBreak(t[0]) then 0 else 1 + LineEnd(t[1..])
  }

  function SplitLines(t: string): seq<string>
    decreases |t|
  {
    if t == "" then []
    else
      var n := LineEnd(t);
      if n == |t| then [t]
      else if t[n] == '\r' && n + 1 < |t| && t[n + 1] == '\n' then [t[..n]] + SplitLines(t[n + 2..])
      else [t[..n]] + SplitLines(t[n + 1..])
  }

  function Unquote(v: string): string {
    if |v| >= 2 && v[0] == v[|v| - 1] && (v[0] == '\'' || v[0] == '"') then v[1..|v| - 1] else v
  }

  predicate HasKey(d: seq<Entry>, k: string) {
    exists i :: 0 <= i < |d| && d[i].0 == k
  }

  /** What a stripped line adds to the entries read so far. */
  function ReadStripped(line: string, d: seq<Entry>): Result<seq<Entry>, Error> {
    if line == "" || line[0] == '#' then Ok(d)
    else
      var n := Find(line, '=');
      if n == |line| || !LegalKey(line[..n]) || HasKey(d, line[..n]) then Err(InvalidOrDuplicateKey)
      else
        var value := Unquote(line[n + 1..]);
        if !Literal(value) then Err(NotLiteral(line[..n])) else Ok(d + [(line[..n], value)])
  }

  function ReadLine(raw: string, d: seq<Entry>): Result<seq<Entry>, Error> {
    ReadStripped(Strip(raw), d)
  }

  function ReadLines(lines: seq<string>, d: seq<Entry>): Result<seq<Entry>, Error>
    decreases |lines|
  {
    if lines == [] then Ok(d)
    else
      var next := ReadLine(lines[0], d);
      if next.Err? then next else ReadLines(lines[1..], next.value)
  }

  /** A byte order mark at the start is no part of the text. */
  function WithoutMark(t: string): string {
    if t != "" && t[0] == '\U{feff}' then t[1..] else t
  }

  function Read(t: string): Result<seq<Entry>, Error> {
    ReadLines(SplitLines(WithoutMark(t)), [])
  }

  /** One line of the file. */
  method TakeLine(raw: string, values: seq<Entry>) returns (r: Result<seq<Entry>, Error>)
    ensures r == ReadLine(raw, values)
  {
    var line := Strip(raw);
    if line == "" || line[0] == '#' {
      return Ok(values);
    }
    var e := Find(line, '=');
    var key := line[..e];
    if e == |line| || !LegalKey(key) || HasKey(values, key) {
      return Err(InvalidOrDuplicateKey);
    }
    var value := Unquote(line[e + 1..]);
    if !Literal(value) {
      return Err(NotLiteral(key));
    }
    r := Ok(values + [(key, value)]);
  }

  lemma NextLine(lines: seq<string>, n: nat, values: seq<Entry>)
    requires n < |lines|
    ensures var next := ReadLine(lines[n], values);
            ReadLines(lines[n..], values) == if next.Err? then next else ReadLines(lines[n + 1..], next.value)
  {
    assert lines[n..][1..] == lines[n + 1..];
  }

  /** `read_env`: the entries in the order of their lines. */
  method ReadEnv(file: Option<string>) returns (r: Result<seq<Entry>, Error>)
    ensures r == if file.None? then Err(MissingFile) else Read(file.value)
  {
    if file.None? {
      return Err(MissingFile);
    }
    var values: seq<Entry> := [];
    var lines := SplitLines(WithoutMark(file.value));
    assert lines[0..] == lines;
    for n := 0 to |lines|
      invariant ReadLines(lines[n..], values) == ReadLines(lines, [])
    {
      NextLine(lines, n, values);
      var next := TakeLine(lines[n], values);
      if next.Err? {
        return next;
      }
      values := next.value;
    }
    r := Ok(values);
  }

  // ----- the printer -----

  function Insert(e: Entry, s: seq<Entry>): seq<Entry> {
    if s == [] || Less(e.0, s[0].0) then [e] + s else [s[0]] + Insert(e, s[1..])
  }

  function Sort(d: seq<Entry>): seq<Entry> {
    if d == [] then [] else Insert(d[0], Sort(d[1..]))
  }

  function Line(e: Entry): string {
    e.0 + "='" + e.1 + "'"
  }

  function Print(s: seq<Entry>): string {
    if s == [] then "" else Line(s[0]) + "\n" + Print(s[1..])
  }

  /** `env_text`: one quoted line for each key, in the order of the keys. */
  function EnvText(d: seq<Entry>): string {
    Print(Sort(d))
  }

  // ----- what can be read -----

  predicate KeysDistinct(d: seq<Entry>) {
    forall i, j :: 0 <= i < j < |d| ==> d[i].0 != d[j].0
  }

  /** No character of the value is refused, and none ends a line. */
  predicate Printable(v: string) {
    Literal(v) && forall i :: 0 <= i < |v| ==> !LineBreak(v[i])
  }

  predicate Admissible(d: seq<Entry>) {
    KeysDistinct(d) && forall i :: 0 <= i < |d| ==> LegalKey(d[i].0) && Printable(d[i].1)
  }

  predicate OneLine(s: string) {
    forall i :: 0 <= i < |s| ==> !LineBreak(s[i])
  }

  predicate AllOneLine(lines: seq<string>) {
    forall k :: 0 <= k < |lines| ==> OneLine(lines[k])
  }

  lemma LeadingLine(t: string)
    ensures OneLine(t[..LineEnd(t)])
  {
  }

  lemma MoreLines(line: string, lines: seq<string>)
    requires OneLine(line) && AllOneLine(lines)
    ensures AllOneLine([line] + lines)
  {
  }

  lemma {:induction false} LinesAreLines(t: string)
    ensures AllOneLine(SplitLines(t))
    decreases |t|
  {
    if t != "" {
      var n := LineEnd(t);
      LeadingLine(t);
      if n == |t| {
        assert t[..n] == t;
      } else {
        var rest := if t[n] == '\r' && n + 1 < |t| && t[n + 1] == '\n' then t[n + 2..] else t[n + 1..];
        LinesAreLines(rest);
        MoreLines(t[..n], SplitLines(rest));
      }
    }
  }

  lemma StripOneLine(s: string)
    requires OneLine(s)
    ensures OneLine(Strip(s))
  {
    forall i | 0 <= i < |Strip(s)|
      ensures !LineBreak(Strip(s)[i])
    {
      StripInside(s, i);
    }
  }

  lemma ReadLineAdmissible(raw: string, d: seq<Entry>)
    requires OneLine(raw) && Admissible(d)
    ensures ReadLine(raw, d).Ok? ==> Admissible(ReadLine(raw, d).value)
  {
    StripOneLine(raw);
    ReadStrippedAdmissible(Strip(raw), d);
  }

  lemma UnquoteOneLine(line: string, n: nat)
    requires OneLine(line) && n <= |line|
    ensures OneLine(Unquote(line[n..]))
  {
    var value := Unquote(line[n..]);
    forall i | 0 <= i < |value|
      ensures !LineBreak(value[i])
    {
      assert value[i] == line[n + i] || value[i] == line[n + 1 + i];
    }
  }

  lemma ReadStrippedAdmissible(line: string, d: seq<Entry>)
    requires OneLine(line) && Admissible(d)
    ensures ReadStripped(line, d).Ok? ==> Admissible(ReadStripped(line, d).value)
  {
    if Find(line, '=') < |line| {
      UnquoteOneLine(line, Find(line, '=') + 1);
    }
  }

  lemma {:induction false} ReadLinesAdmissible(lines: seq<string>, d: seq<Entry>)
    requires Admissible(d) && forall k :: 0 <= k < |lines| ==> OneLine(lines[k])
    ensures ReadLines(lines, d).Ok? ==> Admissible(ReadLines(lines, d).value)
    decreases |lines|
  {
    if lines != [] {
      ReadLineAdmissible(lines[0], d);
      if ReadLine(lines[0], d).Ok? {
        ReadLinesAdmissible(lines[1..], ReadLine(lines[0], d).value);
      }
    }
  }

  lemma ReadsAdmissible(t: string)
    ensures Read(t).Ok? ==> Admissible(Read(t).value)
  {
    LinesAreLines(WithoutMark(t));
    ReadLinesAdmissible(SplitLines(WithoutMark(t)), []);
  }

  // ----- reading one printed line -----

  lemma StripNothing(s: string)
    requires s != "" && !IsSpace(s[0]) && !IsSpace(s[|s| - 1])
    ensures Strip(s) == s
  {
  }

  lemma LineParts(e: Entry)
    ensures var l := Line(e); var n := |e.0|;
            && |l| == n + 3 + |e.1| && l[..n] == e.0 && l[n] == '=' && l[n + 1..] == "'" + e.1 + "'"
            && l[|l| - 1] == '\''
  {
  }

  lemma UnquoteQuoted(v: string)
    ensures Unquote("'" + v + "'") == v
  {
  }

  lemma StripLine(e: Entry)
    requires LegalKey(e.0)
    ensures Strip(Line(e)) == Line(e)
  {
    LineParts(e);
    assert Line(e)[0] == e.0[0];
    StripNothing(Line(e));
  }

  lemma FindLine(e: Entry)
    requires LegalKey(e.0)
    ensures Find(Line(e), '=') == |e.0|
  {
    LineParts(e);
    forall i | 0 <= i < |e.0|
      ensures Line(e)[i] != '='
    {
      assert Line(e)[i] == e.0[i];
    }
    FindFirst(Line(e), '=', |e.0|);
  }

  lemma ReadStrippedLine(e: Entry, d: seq<Entry>)
    requires LegalKey(e.0) && Literal(e.1) && !HasKey(d, e.0)
    ensures ReadStripped(Line(e), d) == Ok(d + [e])
  {
    LineParts(e);
    assert Line(e)[0] == e.0[0];
    FindLine(e);
    UnquoteQuoted(e.1);
  }

  lemma ReadPrintedLine(e: Entry, d: seq<Entry>)
    requires LegalKey(e.0) && Literal(e.1) && !HasKey(d, e.0)
    ensures ReadLine(Line(e), d) == Ok(d + [e])
  {
    StripLine(e);
    ReadStrippedLine(e, d);
  }

  // ----- reading the printed text -----

  lemma PrintedOneLine(e: Entry)
    requires LegalKey(e.0) && Printable(e.1)
    ensures OneLine(Line(e))
  {
    var l := Line(e);
    LineParts(e);
    forall i | 0 <= i < |l|
      ensures !LineBreak(l[i])
    {
      if i < |e.0| {
        assert l[i] == e.0[i];
      } else if i > |e.0| {
        assert l[i] == l[|e.0| + 1..][i - |e.0| - 1];
      }
    }
  }

  lemma {:induction false} FirstLine(l: string, rest: string)
    requires OneLine(l)
    ensures LineEnd(l + "\n" + rest) == |l|
  {
    var t := l + "\n" + rest;
    assert t[|l|] == '\n';
    forall i | 0 <= i < |l|
      ensures !LineBreak(t[i])
    {
      assert t[i] == l[i];
    }
  }

  lemma SplitFirst(l: string, rest: string)
    requires OneLine(l)
    ensures SplitLines(l + "\n" + rest) == [l] + SplitLines(rest)
  {
    var t := l + "\n" + rest;
    FirstLine(l, rest);
    assert t[..|l|] == l && t[|l| + 1..] == rest && t[|l|] == '\n';
  }

  /** Printed entries are read back one by one, after those already there. */
  lemma {:induction false} ReadPrinted(s: seq<Entry>, d: seq<Entry>)
    requires Admissible(d + s)
    ensures ReadLines(SplitLines(Print(s)), d) == Ok(d + s)
    decreases |s|
  {
    if s == [] {
      assert d + s == d;
    } else {
      var e, rest := s[0], s[1..];
      assert (d + s)[|d|] == e;
      assert d + s == (d + [e]) + rest;
      PrintedOneLine(e);
      SplitFirst(Line(e), Print(rest));
      assert ([Line(e)] + SplitLines(Print(rest)))[1..] == SplitLines(Print(rest));
      forall i | 0 <= i < |d|
        ensures d[i].0 != e.0
      {
        assert (d + s)[i].0 != (d + s)[|d|].0;
      }
      ReadPrintedLine(e, d);
      ReadPrinted(rest, d + [e]);
    }
  }

  // ----- sorting -----

  /** Strictly increasing keys. */
  ghost predicate Increasing(s: seq<Entry>) {
    forall i, j :: 0 <= i < j < |s| ==> Less(s[i].0, s[j].0)
  }

  lemma {:induction false} InsertKeeps(e: Entry, s: seq<Entry>)
    ensures multiset(Insert(e, s)) == multiset(s) + multiset{e}
  {
    if s != [] {
      assert s == [s[0]] + s[1..];
      if !Less(e.0, s[0].0) {
        InsertKeeps(e, s[1..]);
      }
    }
  }

  lemma LessThanAll(e: Entry, s: seq<Entry>)
    requires Increasing(s) && s != [] && Less(e.0, s[0].0)
    ensures Increasing([e] + s)
  {
    forall j | 0 <= j < |s|
      ensures Less(e.0, s[j].0)
    {
      if j > 0 {
        LessTransitive(e.0, s[0].0, s[j].0);
      }
    }
  }

  lemma {:induction false} InsertSorted(e: Entry, s: seq<Entry>)
    requires Increasing(s) && forall i :: 0 <= i < |s| ==> s[i].0 != e.0
    ensures Increasing(Insert(e, s))
  {
    if s != [] {
      if Less(e.0, s[0].0) {
        LessThanAll(e, s);
      } else {
        LessTotal(e.0, s[0].0);
        InsertSorted(e, s[1..]);
        InsertKeeps(e, s[1..]);
        var r := Insert(e, s[1..]);
        forall j | 0 <= j < |r|
          ensures Less(s[0].0, r[j].0)
        {
          assert r[j] in multiset(r);
          assert r[j] == e || r[j] in s[1..];
        }
      }
    }
  }

  lemma {:induction false} SortSorts(d: seq<Entry>)
    requires KeysDistinct(d)
    ensures Increasing(Sort(d)) && multiset(Sort(d)) == multiset(d)
  {
    if d != [] {
      assert d == [d[0]] + d[1..];
      SortSorts(d[1..]);
      var s := Sort(d[1..]);
      forall i | 0 <= i < |s|
        ensures s[i].0 != d[0].0
      {
        assert s[i] in multiset(s);
        assert s[i] in d[1..];
      }
      InsertSorted(d[0], s);
      InsertKeeps(d[0], s);
    }
  }

  lemma IncreasingDistinct(s: seq<Entry>)
    requires Increasing(s)
    ensures KeysDistinct(s)
  {
    forall i, j | 0 <= i < j < |s|
      ensures s[i].0 != s[j].0
    {
      LessIrreflexive(s[i].0);
    }
  }

  // ----- the promises -----

  /** Equal as dictionaries: the same entries in any order. */
  predicate SameDict(a: seq<Entry>, b: seq<Entry>) {
    multiset(a) == multiset(b)
  }

  lemma SameDictAdmissible(a: seq<Entry>, b: seq<Entry>)
    requires SameDict(a, b) && Admissible(a) && KeysDistinct(b)
    ensures Admissible(b)
  {
    forall i | 0 <= i < |b|
      ensures LegalKey(b[i].0) && Printable(b[i].1)
    {
      assert b[i] in multiset(b);
      assert b[i] in a;
    }
  }

  /** Reading the printed text of a dictionary gives that dictionary back exactly
    * when its keys and values are ones that a file can hold. */
  lemma RoundTrip(d: seq<Entry>)
    requires KeysDistinct(d)
    ensures (Read(EnvText(d)).Ok? && SameDict(Read(EnvText(d)).value, d)) <==> Admissible(d)
  {
    if Admissible(d) {
      PrintedIsRead(d);
    }
    ReadsAdmissible(EnvText(d));
    if Read(EnvText(d)).Ok? && SameDict(Read(EnvText(d)).value, d) {
      SameDictAdmissible(Read(EnvText(d)).value, d);
    }
  }

  lemma PrintedIsRead(d: seq<Entry>)
    requires Admissible(d)
    ensures Read(EnvText(d)) == Ok(Sort(d)) && SameDict(Sort(d), d)
  {
    var s := Sort(d);
    SortSorts(d);
    IncreasingDistinct(s);
    SameDictAdmissible(d, s);
    assert [] + s == s;
    ReadPrinted(s, []);
    if s != [] {
      LineParts(s[0]);
      assert EnvText(d)[0] == Line(s[0])[0] == s[0].0[0];
    }
  }

  /** Whatever a file holds, printing what was read from it and reading that again
    * gives the same dictionary. */
  lemma ReadPrintRead(t: string)
    requires Read(t).Ok?
    ensures Read(EnvText(Read(t).value)).Ok? && SameDict(Read(EnvText(Read(t).value)).value, Read(t).value)
  {
    ReadsAdmissible(t);
    RoundTrip(Read(t).value);
  }

  lemma FirstIsLeast(a: seq<Entry>, b: seq<Entry>)
    requires Increasing(a) && Increasing(b) && SameDict(a, b) && a != [] && b != []
    ensures a[0] == b[0]
  {
    assert a[0] in multiset(a);
    assert a[0] in b;
    assert b[0] in multiset(b);
    assert b[0] in a;
    if a[0] != b[0] {
      assert Less(b[0].0, a[0].0) && Less(a[0].0, b[0].0);
      LessTransitive(a[0].0, b[0].0, a[0].0);
      LessIrreflexive(a[0].0);
    }
  }

  lemma TailsSame(a: seq<Entry>, b: seq<Entry>)
    requires SameDict(a, b) && a != [] && b != [] && a[0] == b[0]
    ensures SameDict(a[1..], b[1..])
    ensures a[1..] == b[1..] ==> a == b
  {
    assert a == [a[0]] + a[1..] && b == [b[0]] + b[1..];
    assert multiset(a[1..]) == multiset(a) - multiset{a[0]};
    assert multiset(b[1..]) == multiset(b) - multiset{b[0]};
  }

  lemma {:induction false} IncreasingUnique(a: seq<Entry>, b: seq<Entry>)
    requires Increasing(a) && Increasing(b) && SameDict(a, b)
    ensures a == b
    decreases |a|
  {
    assert |multiset(a)| == |a| && |multiset(b)| == |b|;
    if a != [] {
      FirstIsLeast(a, b);
      TailsSame(a, b);
      IncreasingUnique(a[1..], b[1..]);
    }
  }

  /** Two dictionaries that a file can hold have the same text exactly when they
    * are equal, in whatever order their entries were added. */
  lemma TextIsCanonical(a: seq<Entry>, b: seq<Entry>)
    requires Admissible(a) && Admissible(b)
    ensures EnvText(a) == EnvText(b) <==> SameDict(a, b)
  {
    PrintedIsRead(a);
    PrintedIsRead(b);
    if SameDict(a, b) {
      SortSorts(a);
      SortSorts(b);
      IncreasingUnique(Sort(a), Sort(b));
    }
  }

  /** A dictionary that cannot make the round trip: a quote inside a value. */
  lemma QuoteIsLost()
    ensures KeysDistinct([("A", "'")])
    ensures !(Read(EnvText([("A", "'")])).Ok? && SameDict(Read(EnvText([("A", "'")])).value, [("A", "'")]))
  {
    var d: seq<Entry> := [("A", "'")];
    assert Forbidden(d[0].1[0]);
    assert !Admissible(d);
    RoundTrip(d);
  }
}
