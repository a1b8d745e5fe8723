/**
 A character-by-character lexer for the SQL dialect of the schema files: what counts as a literal,
 a comment and a top-level semicolon. It never looks ahead and serves as the reference for the
 statement splitter.
 */
module SqlLexer {
  import opened Common

  /** Code states remember a character that may open a comment; Closed(q) a literal that a further q reopens. */
  datatype Mode =
    | Code | Dash | Slash | Closed(quote: char)
    | Literal(quote: char) | Escape(quote: char)
    | LineComment | BlockComment | BlockStar

  datatype Item = Symbol(c: char) | Quoted(text: string)

  /** `items` are the symbols and literals of the current statement, `groups` those of the finished ones;
      `plain` tells that neither a comment nor a top-level semicolon was seen. */
  datatype Lex = Lex(mode: Mode, items: seq<Item>, groups: seq<seq<Item>>, plain: bool)

  const START := Lex(Code, [], [], true)

  predicate IsQuote(c: char) {
    c == '\'' || c == '"' || c == '`'
  }

  predicate InCode(m: Mode) {
    m.Code? || m.Dash? || m.Slash? || m.Closed?
  }

  predicate InComment(m: Mode) {
    m.LineComment? || m.BlockComment? || m.BlockStar?
  }

  function Grow(items: seq<Item>, c: char): seq<Item> {
    if items != [] && items[|items| - 1].Quoted? then
      items[..|items| - 1] + [Quoted(items[|items| - 1].text + [c])]
    else items
  }

  function Retract(items: seq<Item>): seq<Item> {
    if items == [] then [] else items[..|items| - 1]
  }

  function CloseGroup(groups: seq<seq<Item>>, items: seq<Item>): seq<seq<Item>> {
    if items == [] then groups else groups + [items]
  }

  function Step(l: Lex, c: char): Lex {
    match l.mode
    case Literal(q) =>
      l.(mode := if c == '\\' then Escape(q) else if c == q then Closed(q) else Literal(q), items := Grow(l.items, c))
    case Escape(q) => l.(mode := Literal(q), items := Grow(l.items, c))
    case LineComment => if c == '\n' then l.(mode := Code) else l
    case BlockComment => if c == '*' then l.(mode := BlockStar) else l
    case BlockStar => l.(mode := if c == '/' then Code else if c == '*' then BlockStar else BlockComment)
    case _ =>
      if l.mode == Closed(c) then l.(mode := Literal(c), items := Grow(l.items, c))
      else if l.mode == Dash && c == '-' then l.(mode := LineComment, items := Retract(l.items), plain := false)
      else if l.mode == Slash && c == '*' then l.(mode := BlockComment, items := Retract(l.items), plain := false)
      else if IsQuote(c) then l.(mode := Literal(c), items := l.items + [Quoted([c])])
      else if c == ';' then Lex(Code, [], CloseGroup(l.groups, l.items), false)
      else if IsSpace(c) then l.(mode := Code)
      else l.(mode := if c == '-' then Dash else if c == '/' then Slash else Code, items := l.items + [Symbol(c)])
  }

  function RunFrom(l: Lex, s: string): Lex {
    if s == "" then l else Step(RunFrom(l, s[..|s| - 1]), s[|s| - 1])
  }

  function Run(s: string): Lex {
    RunFrom(START, s)
  }

  /** The text is accepted: no literal and no block comment is left open. */
  predicate Accepts(s: string) {
    InCode(Run(s).mode) || Run(s).mode == LineComment
  }

  /** The symbols and literals of every statement, in order; statements without any are dropped. */
  function Statements(s: string): seq<seq<Item>> {
    CloseGroup(Run(s).groups, Run(s).items)
  }

  /** One statement as the splitter returns it: no comment, no top-level semicolon, every literal closed,
      no surrounding white space. */
  predicate Clean(r: string) {
    && Run(r).plain
    && InCode(Run(r).mode)
    && r != "" && !IsSpace(r[0]) && !IsSpace(r[|r| - 1])
  }

  // ----- facts about runs -----

  lemma {:induction false} RunConcat(l: Lex, a: string, b: string)
    ensures RunFrom(l, a + b) == RunFrom(RunFrom(l, a), b)
    decreases |b|
  {
    if b == "" {
      assert a + b == a;
    } else {
      RunConcat(l, a, b[..|b| - 1]);
      assert (a + b)[..|a + b| - 1] == a + b[..|b| - 1];
    }
  }

  lemma RunOne(l: Lex, c: char)
    ensures RunFrom(l, [c]) == Step(l, c)
  {
    assert [c][..0] == "";
  }

  lemma RunPush(p: string, c: char)
    ensures Run(p + [c]) == Step(Run(p), c)
  {
    RunConcat(START, p, [c]);
    RunOne(Run(p), c);
  }

  /** A run that stayed plain is in no comment and has closed no statement; literals are opened by quotes. */
  predicate Coherent(l: Lex) {
    && (l.plain ==> !InComment(l.mode) && l.groups == [])
    && (l.mode.Closed? || l.mode.Literal? || l.mode.Escape? ==> IsQuote(l.mode.quote))
  }

  lemma {:induction false} RunCoherent(l: Lex, s: string)
    requires Coherent(l)
    ensures Coherent(RunFrom(l, s))
    ensures RunFrom(l, s).plain ==> l.plain
    decreases |s|
  {
    if s != "" { RunCoherent(l, s[..|s| - 1]); }
  }

  /** A run that stays plain never loses what it has collected. */
  lemma {:induction false} PlainKeepsItems(l: Lex, s: string)
    requires Coherent(l)
    ensures RunFrom(l, s).plain && l.items != [] ==> RunFrom(l, s).items != []
    decreases |s|
  {
    if s != "" {
      RunCoherent(l, s[..|s| - 1]);
      PlainKeepsItems(l, s[..|s| - 1]);
    }
  }

  predicate AllSpace(s: string) {
    forall i :: 0 <= i < |s| ==> IsSpace(s[i])
  }

  lemma {:induction false} LeadingSpace(s: string)
    requires AllSpace(s)
    ensures Run(s) == START
    decreases |s|
  {
    if s != "" { LeadingSpace(s[..|s| - 1]); }
  }

  /** White space after code changes nothing but the mode; it never leaves a literal. */
  lemma {:induction false} TrailingSpace(l: Lex, s: string)
    requires AllSpace(s) && Coherent(l) && l.plain
    ensures RunFrom(l, s).plain
    ensures InCode(l.mode) ==> RunFrom(l, s).items == l.items && InCode(RunFrom(l, s).mode)
    ensures l.mode.Literal? || l.mode.Escape? ==> RunFrom(l, s).mode.Literal? || RunFrom(l, s).mode.Escape?
    decreases |s|
  {
    if s != "" {
      TrailingSpace(l, s[..|s| - 1]);
      RunCoherent(l, s[..|s| - 1]);
    }
  }
}
