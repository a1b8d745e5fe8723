/**
 The statement splitter of the schema inventory: one pass with one character of lookahead. It is
 proved against the lexer of SqlLexer, which has no lookahead, and shown to be canonical: splitting
 its own output again changes nothing.
 */
module SqlSplitter {
  import opened Common
  import opened SqlLexer

  datatype SplitState = Top | Line | Block | InQuote(quote: char)

  // ----- the statements -----

  function Flush(current: string): seq<string> {
    if Strip(current) == "" then [] else [Strip(current)]
  }

  // ----- the scan, from the rest of the text on -----

  function Prepend(first: seq<string>, rest: Result<seq<string>, ()>): Result<seq<string>, ()> {
    if rest.Ok? then Ok(first + rest.value) else rest
  }

  predicate OpensComment(s: string) {
    |s| > 1 && ((s[0] == '-' && s[1] == '-') || (s[0] == '/' && s[1] == '*'))
  }

  predicate ClosesBlock(s: string) {
    |s| > 1 && s[0] == '*' && s[1] == '/'
  }

  /** An escaped character or a doubled quote. */
  predicate QuotePair(s: string, q: char) {
    |s| > 1 && (s[0] == '\\' || (s[0] == q && s[1] == q))
  }

  /** How many characters one turn of the scan takes. */
  function Taken(s: string, state: SplitState): (n: nat)
    requires s != ""
    ensures 1 <= n <= 2 && n <= |s|
  {
    match state
    case Line => 1
    case Block => if ClosesBlock(s) then 2 else 1
    case InQuote(q) => if QuotePair(s, q) then 2 else 1
    case Top => if OpensComment(s) then 2 else 1
  }

  /** The state after the turn. */
  function NextState(s: string, state: SplitState): SplitState
    requires s != ""
  {
    match state
    case Line => if s[0] == '\n' then Top else Line
    case Block => if ClosesBlock(s) then Top else Block
    case InQuote(q) => if QuotePair(s, q) then state else if s[0] == q then Top else state
    case Top =>
      if OpensComment(s) then (if s[0] == '-' then Line else Block)
      else if IsQuote(s[0]) then InQuote(s[0])
      else Top
  }

  /** The current statement after the turn. */
  function NextText(s: string, state: SplitState, current: string): string
    requires s != ""
  {
    match state
    case Line => if s[0] == '\n' then current + ['\n'] else current
    case Block => if ClosesBlock(s) then current + [' '] else current
    case InQuote(q) => if QuotePair(s, q) then (current + [s[0]]) + [s[1]] else current + [s[0]]
    case Top => if OpensComment(s) then current else if s[0] == ';' then "" else current + [s[0]]
  }

  /** What the turn emits: a finished statement at a top-level semicolon. */
  function Emitted(s: string, state: SplitState, current: string): seq<string>
    requires s != ""
  {
    if state == Top && s[0] == ';' then Flush(current) else []
  }

  function Split(s: string, state: SplitState, current: string): Result<seq<string>, ()>
    decreases |s|
  {
    if s == "" then
      if state == Top || state == Line then Ok(Flush(current)) else Err(())
    else
      Prepend(Emitted(s, state, current),
              Split(s[Taken(s, state)..], NextState(s, state), NextText(s, state, current)))
  }

  lemma PrependNone(rest: Result<seq<string>, ()>)
    ensures Prepend([], rest) == rest
  {
    if rest.Ok? { assert [] + rest.value == rest.value; }
  }

  lemma PrependTwice(a: seq<string>, b: seq<string>, rest: Result<seq<string>, ()>)
    ensures Prepend(a, Prepend(b, rest)) == Prepend(a + b, rest)
  {
    if rest.Ok? { assert a + (b + rest.value) == (a + b) + rest.value; }
  }

  lemma RestAt(sql: string, i: nat, taken: nat)
    requires i < |sql| && 1 <= taken <= |sql| - i
    ensures sql[i..][0] == sql[i] && |sql[i..]| == |sql| - i && sql[i..][taken..] == sql[i + taken..]
    ensures i + 1 < |sql| ==> sql[i..][1] == sql[i + 1]
  {
  }

  /** One turn of the scan at position `i`. */
  method TakeTurn(sql: string, i: nat, state: SplitState, current: string)
    returns (taken: nat, state': SplitState, current': string, out: seq<string>)
    requires i < |sql|
    ensures taken == Taken(sql[i..], state) && state' == NextState(sql[i..], state)
    ensures current' == NextText(sql[i..], state, current) && out == Emitted(sql[i..], state, current)
  {
    var c := sql[i];
    var pair := i + 1 < |sql|;
    taken, state', current', out := 1, state, current, [];
    RestAt(sql, i, 1);
    match state {
      case Line =>
        if c == '\n' {
          state' := Top;
          current' := current + "\n";
        }
      case Block =>
        if c == '*' && pair && sql[i + 1] == '/' {
          state' := Top;
          current' := current + " ";
          taken := 2;
        }
      case InQuote(q) =>
        current' := current + [c];
        if c == '\\' && pair {
          current' := current' + [sql[i + 1]];
          taken := 2;
        } else if c == q {
          if pair && sql[i + 1] == q {
            current' := current' + [sql[i + 1]];
            taken := 2;
          } else {
            state' := Top;
          }
        }
      case Top =>
        if c == '-' && pair && sql[i + 1] == '-' {
          state' := Line;
          taken := 2;
        } else if c == '/' && pair && sql[i + 1] == '*' {
          state' := Block;
          taken := 2;
        } else if IsQuote(c) {
          state' := InQuote(c);
          current' := current + [c];
        } else if c == ';' {
          var stripped := Strip(current);
          if stripped != "" {
            out := [stripped];
          }
          current' := "";
        } else {
          current' := current + [c];
        }
    }
  }

  lemma SplitTurn(s: string, state: SplitState, current: string)
    requires s != ""
    ensures Split(s, state, current) ==
            Prepend(Emitted(s, state, current),
                    Split(s[Taken(s, state)..], NextState(s, state), NextText(s, state, current)))
  {
  }

  lemma TurnKeepsMeaning(sql: string, i: nat, state: SplitState, current: string, result: seq<string>)
    requires i < |sql|
    ensures var s := sql[i..];
            Prepend(result, Split(s, state, current)) ==
            Prepend(result + Emitted(s, state, current),
                    Split(sql[i + Taken(s, state)..], NextState(s, state), NextText(s, state, current)))
  {
    var s := sql[i..];
    SplitTurn(s, state, current);
    RestAt(sql, i, Taken(s, state));
    PrependTwice(result, Emitted(s, state, current),
                 Split(s[Taken(s, state)..], NextState(s, state), NextText(s, state, current)));
  }

  /** What was emitted so far and the split of the rest make up the split of the whole text. */
  predicate Underway(sql: string, i: nat, state: SplitState, current: string, result: seq<string>) {
    i <= |sql| && Prepend(result, Split(sql[i..], state, current)) == Split(sql, Top, "")
  }

  lemma StartUnderway(sql: string)
    ensures Underway(sql, 0, Top, "", [])
  {
    assert sql[0..] == sql;
    PrependNone(Split(sql, Top, ""));
  }

  lemma StaysUnderway(sql: string, i: nat, state: SplitState, current: string, result: seq<string>)
    requires i < |sql| && Underway(sql, i, state, current, result)
    requires i + Taken(sql[i..], state) <= |sql|
    ensures var s := sql[i..];
            Underway(sql, i + Taken(s, state), NextState(s, state), NextText(s, state, current),
                     result + Emitted(s, state, current))
  {
    TurnKeepsMeaning(sql, i, state, current, result);
  }

  lemma EndUnderway(sql: string, state: SplitState, current: string, result: seq<string>)
    requires Underway(sql, |sql|, state, current, result)
    ensures Split(sql, Top, "")
         == if state != Top && state != Line then Err(())
            else Ok(if Strip(current) != "" then result + [Strip(current)] else result)
  {
    assert sql[|sql|..] == "";
    SplitFinished(state, current, result);
  }

  /** Split DDL without splitting semicolons inside strings or comments. */
  method SplitStatements(sql: string) returns (r: Result<seq<string>, ()>)
    ensures r == Split(sql, Top, "")
  {
    var result: seq<string>, current: string, state, i := [], "", Top, 0;
    StartUnderway(sql);
    while i < |sql|
      invariant Underway(sql, i, state, current, result)
    {
      var taken, state', current', out := TakeTurn(sql, i, state, current);
      StaysUnderway(sql, i, state, current, result);
      i, state, current, result := i + taken, state', current', result + out;
    }
    EndUnderway(sql, state, current, result);
    if state != Top && state != Line {
      return Err(());
    }
    var stripped := Strip(current);
    if stripped != "" {
      result := result + [stripped];
    }
    return Ok(result);
  }

  lemma SplitFinished(state: SplitState, current: string, result: seq<string>)
    ensures Prepend(result, Split("", state, current)) ==
            if state != Top && state != Line then Err(())
            else Ok(if Strip(current) != "" then result + [Strip(current)] else result)
  {
    ConcatEmpty(result);
  }

  // ----- stripping keeps what a statement contains -----

  lemma {:induction false} TrimLeftSplits(s: string)
    ensures forall i :: 0 <= i < |s| - |TrimLeft(s)| ==> IsSpace(s[i])
    decreases |s|
  {
    if s != "" && IsSpace(s[0]) {
      TrimLeftSplits(s[1..]);
      forall i | 0 <= i < |s| - |TrimLeft(s)|
        ensures IsSpace(s[i])
      {
        if i > 0 { assert s[i] == s[1..][i - 1]; }
      }
    }
  }

  lemma {:induction false} TrimRightSplits(s: string)
    ensures forall i :: |TrimRight(s)| <= i < |s| ==> IsSpace(s[i])
    decreases |s|
  {
    if s != "" && IsSpace(s[|s| - 1]) {
      TrimRightSplits(s[..|s| - 1]);
      forall i | |TrimRight(s)| <= i < |s|
        ensures IsSpace(s[i])
      {
        if i < |s| - 1 { assert s[i] == s[..|s| - 1][i]; }
      }
    }
  }

  lemma TrimLeftRun(current: string)
    ensures Run(TrimLeft(current)) == Run(current)
  {
    var n := |current| - |TrimLeft(current)|;
    TrimLeftSplits(current);
    SplitAt(current, n);
    LeadingSpace(current[..n]);
    RunConcat(START, current[..n], current[n..]);
  }

  lemma TrimRightRun(left: string)
    requires Run(left).plain && InCode(Run(left).mode)
    ensures Run(TrimRight(left)).plain && InCode(Run(TrimRight(left)).mode)
    ensures Run(TrimRight(left)).items == Run(left).items
  {
    var r := TrimRight(left);
    var tail := left[|r|..];
    TrimRightSplits(left);
    SplitAt(left, |r|);
    RunConcat(START, r, tail);
    RunCoherent(START, r);
    RunCoherent(Run(r), tail);
    TrailingSpace(Run(r), tail);
  }

  lemma SolidHasItems(r: string)
    requires r != "" && !IsSpace(r[0]) && Run(r).plain
    ensures Run(r).items != []
  {
    assert r == [r[0]] + r[1..];
    RunConcat(START, [r[0]], r[1..]);
    RunOne(START, r[0]);
    RunCoherent(START, [r[0]]);
    RunCoherent(Run([r[0]]), r[1..]);
    PlainKeepsItems(Run([r[0]]), r[1..]);
  }

  /** A finished plain statement, stripped, is clean and has the same symbols and literals. */
  lemma FlushClean(current: string)
    requires Run(current).plain && InCode(Run(current).mode)
    ensures Strip(current) == "" <==> Run(current).items == []
    ensures Strip(current) != "" ==> Clean(Strip(current)) && Run(Strip(current)).items == Run(current).items
  {
    TrimLeftRun(current);
    TrimRightRun(TrimLeft(current));
    if Strip(current) != "" {
      assert Strip(current)[0] == TrimLeft(current)[0];
      SolidHasItems(Strip(current));
    }
  }

  // ----- the scan and the lexer in lockstep -----

  /** The next character does not change what the last one was. */
  predicate Guard(m: Mode, s: string) {
    s != "" ==>
      && (m.Dash? ==> s[0] != '-')
      && (m.Slash? ==> s[0] != '*')
      && (m.Closed? ==> s[0] != m.quote)
      && (m.BlockStar? ==> s[0] != '/')
  }

  /** `l` has read the source so far, `k` the current statement text; `s` is what is left of the source. */
  predicate Together(l: Lex, k: Lex, state: SplitState, s: string) {
    && Coherent(l) && Coherent(k)
    && k.plain && k.groups == [] && k.items == l.items
    && Guard(l.mode, s)
    && match state
       case Top => InCode(l.mode) && k.mode == l.mode
       case Line => l.mode == LineComment && InCode(k.mode)
       case Block => (l.mode == BlockComment || l.mode == BlockStar) && InCode(k.mode)
       case InQuote(q) => l.mode == k.mode && (l.mode == Literal(q) || (l.mode == Escape(q) && s == ""))
  }

  predicate AllClean(statements: seq<string>) {
    forall i :: 0 <= i < |statements| ==> Clean(statements[i])
  }

  function GroupsOf(statements: seq<string>): seq<seq<Item>> {
    if statements == [] then [] else [Run(statements[0]).items] + GroupsOf(statements[1..])
  }

  lemma FlushGroups(current: string, groups: seq<seq<Item>>)
    requires Run(current).plain && InCode(Run(current).mode)
    ensures CloseGroup(groups, Run(current).items) == groups + GroupsOf(Flush(current))
    ensures AllClean(Flush(current))
  {
    FlushClean(current);
    ConcatEmpty(groups);
  }

  /** The lexer of the source after the characters of one turn. */
  function After(l: Lex, s: string, taken: nat): Lex
    requires 1 <= taken <= 2 && taken <= |s|
  {
    if taken == 1 then Step(l, s[0]) else Step(Step(l, s[0]), s[1])
  }

  lemma AfterRuns(l: Lex, s: string, taken: nat)
    requires 1 <= taken <= 2 && taken <= |s|
    ensures RunFrom(l, s[..taken]) == After(l, s, taken)
  {
    RunOne(l, s[0]);
    if taken == 1 {
      assert s[..1] == [s[0]];
    } else {
      assert s[..2] == [s[0]] + [s[1]];
      RunConcat(l, [s[0]], [s[1]]);
      RunOne(Step(l, s[0]), s[1]);
    }
  }

  /** The lexer of the current statement after one turn. */
  function TextAfter(k: Lex, s: string, state: SplitState): Lex
    requires s != ""
  {
    match state
    case Line => if s[0] == '\n' then Step(k, '\n') else k
    case Block => if ClosesBlock(s) then Step(k, ' ') else k
    case InQuote(q) => if QuotePair(s, q) then Step(Step(k, s[0]), s[1]) else Step(k, s[0])
    case Top => if OpensComment(s) then k else if s[0] == ';' then START else Step(k, s[0])
  }

  lemma TextAfterRuns(s: string, state: SplitState, current: string)
    requires s != ""
    ensures Run(NextText(s, state, current)) == TextAfter(Run(current), s, state)
  {
    match state
    case Line => RunPush(current, '\n');
    case Block => RunPush(current, ' ');
    case InQuote(q) =>
      RunPush(current, s[0]);
      if QuotePair(s, q) { RunPush(current + [s[0]], s[1]); }
    case Top => RunPush(current, s[0]);
  }

  lemma StepCoherent(l: Lex, c: char)
    requires Coherent(l)
    ensures Coherent(Step(l, c))
  {
  }

  /** The two lexers stay together over one turn; only a top-level semicolon closes a group. */
  predicate TurnGood(l: Lex, k: Lex, s: string, state: SplitState)
    requires s != ""
  {
    var n := Taken(s, state);
    && Together(After(l, s, n), TextAfter(k, s, state), NextState(s, state), s[n..])
    && After(l, s, n).groups == if state == Top && s[0] == ';' then CloseGroup(l.groups, l.items) else l.groups
  }

  lemma LineTurn(l: Lex, k: Lex, s: string)
    requires s != "" && Together(l, k, Line, s)
    ensures TurnGood(l, k, s, Line)
  {
  }

  lemma BlockTurn(l: Lex, k: Lex, s: string)
    requires s != "" && Together(l, k, Block, s)
    ensures TurnGood(l, k, s, Block)
  {
    StepCoherent(k, ' ');
  }

  lemma QuoteTurn(l: Lex, k: Lex, s: string, q: char)
    requires s != "" && Together(l, k, InQuote(q), s)
    ensures TurnGood(l, k, s, InQuote(q))
  {
  }

  lemma TopTurn(l: Lex, k: Lex, s: string)
    requires s != "" && Together(l, k, Top, s)
    ensures TurnGood(l, k, s, Top)
  {
    StepCoherent(l, s[0]);
    StepCoherent(k, s[0]);
    if OpensComment(s) {
      StepCoherent(Step(l, s[0]), s[1]);
      assert Retract(l.items + [Symbol(s[0])]) == l.items;
    }
  }

  lemma TurnTogether(l: Lex, s: string, state: SplitState, current: string)
    requires s != "" && Together(l, Run(current), state, s)
    ensures var n := Taken(s, state);
            && Together(RunFrom(l, s[..n]), Run(NextText(s, state, current)), NextState(s, state), s[n..])
            && RunFrom(l, s[..n]).groups == l.groups + GroupsOf(Emitted(s, state, current))
            && AllClean(Emitted(s, state, current))
  {
    AfterRuns(l, s, Taken(s, state));
    TextAfterRuns(s, state, current);
    match state
    case Line => LineTurn(l, Run(current), s);
    case Block => BlockTurn(l, Run(current), s);
    case InQuote(q) => QuoteTurn(l, Run(current), s, q);
    case Top => TopTurn(l, Run(current), s);
    if state == Top && s[0] == ';' {
      FlushGroups(current, l.groups);
    } else {
      ConcatEmpty(l.groups);
    }
  }

  lemma {:induction false} GroupsConcat(a: seq<string>, b: seq<string>)
    ensures GroupsOf(a + b) == GroupsOf(a) + GroupsOf(b)
    decreases |a|
  {
    if a == [] {
      assert a + b == b;
    } else {
      assert (a + b)[1..] == a[1..] + b;
      GroupsConcat(a[1..], b);
    }
  }

  lemma {:induction false} GroupsMeaning(statements: seq<string>)
    ensures |GroupsOf(statements)| == |statements|
    ensures forall i :: 0 <= i < |statements| ==> GroupsOf(statements)[i] == Run(statements[i]).items
    decreases |statements|
  {
    if statements != [] { GroupsMeaning(statements[1..]); }
  }

  predicate Accepting(m: Mode) {
    InCode(m) || m == LineComment
  }

  /** What a scan of the text `s` has to achieve. */
  predicate ScanGood(l: Lex, s: string, r: Result<seq<string>, ()>) {
    && (r.Ok? <==> Accepting(RunFrom(l, s).mode))
    && (r.Ok? ==>
          && CloseGroup(RunFrom(l, s).groups, RunFrom(l, s).items) == l.groups + GroupsOf(r.value)
          && AllClean(r.value))
  }

  lemma ScanEnd(l: Lex, state: SplitState, current: string)
    requires Together(l, Run(current), state, "")
    ensures ScanGood(l, "", Split("", state, current))
  {
    if state == Top || state == Line { FlushGroups(current, l.groups); }
  }

  lemma CleanConcat(a: seq<string>, b: seq<string>)
    requires AllClean(a) && AllClean(b)
    ensures AllClean(a + b)
  {
  }

  lemma ScanJoin(l: Lex, a: string, b: string, out: seq<string>, rest: Result<seq<string>, ()>)
    requires ScanGood(RunFrom(l, a), b, rest)
    requires RunFrom(l, a).groups == l.groups + GroupsOf(out) && AllClean(out)
    ensures ScanGood(l, a + b, Prepend(out, rest))
  {
    RunConcat(l, a, b);
    if rest.Ok? {
      CleanConcat(out, rest.value);
      GroupsConcat(out, rest.value);
      ConcatAssociative(l.groups, GroupsOf(out), GroupsOf(rest.value));
    }
  }

  lemma {:induction false} Lockstep(l: Lex, s: string, state: SplitState, current: string)
    requires Together(l, Run(current), state, s)
    ensures ScanGood(l, s, Split(s, state, current))
    decreases |s|
  {
    if s == "" {
      ScanEnd(l, state, current);
    } else {
      var n := Taken(s, state);
      TurnTogether(l, s, state, current);
      Lockstep(RunFrom(l, s[..n]), s[n..], NextState(s, state), NextText(s, state, current));
      ScanJoin(l, s[..n], s[n..], Emitted(s, state, current),
               Split(s[n..], NextState(s, state), NextText(s, state, current)));
      SplitAt(s, n);
    }
  }

  // ----- main results -----

  /** The splitter accepts exactly the texts whose literals and block comments are closed; it returns one
      clean statement for every group of symbols and literals between top-level semicolons, in order and
      with every literal verbatim. */
  lemma SplitMeaning(sql: string)
    ensures Split(sql, Top, "").Ok? <==> Accepts(sql)
    ensures Split(sql, Top, "").Ok? ==>
              var statements := Split(sql, Top, "").value;
              && Statements(sql) == GroupsOf(statements)
              && AllClean(statements)
  {
    Lockstep(START, sql, Top, "");
    if Split(sql, Top, "").Ok? {
      assert [] + GroupsOf(Split(sql, Top, "").value) == GroupsOf(Split(sql, Top, "").value);
    }
  }

  function Join(statements: seq<string>): string {
    if statements == [] then ""
    else if |statements| == 1 then statements[0]
    else statements[0] + ";" + Join(statements[1..])
  }

  /** A run that ends plain was plain after its first turn. */
  lemma PlainAfter(l: Lex, u: string, n: nat)
    requires Coherent(l) && RunFrom(l, u).plain && 1 <= n <= 2 && n <= |u|
    ensures RunFrom(l, u) == RunFrom(After(l, u, n), u[n..])
    ensures After(l, u, n).plain && Coherent(After(l, u, n))
  {
    SplitAt(u, n);
    AfterRuns(l, u, n);
    RunConcat(l, u[..n], u[n..]);
    RunCoherent(l, u[..n]);
    RunCoherent(After(l, u, n), u[n..]);
  }

  /** The scan stands where the lexer stands, inside a statement without comments. */
  predicate InStatement(l: Lex, state: SplitState, s: string) {
    && Coherent(l) && l.plain && Guard(l.mode, s)
    && if state == Top then InCode(l.mode) else state.InQuote? && l.mode == Literal(state.quote)
  }

  /** After a turn that neither opens a comment nor meets a semicolon, the scan is still in the statement,
      or it has read a lone backslash at the end of the text. */
  lemma StaysInStatement(l: Lex, state: SplitState, s: string)
    requires s != "" && InStatement(l, state, s)
    requires state == Top ==> !OpensComment(s) && s[0] != ';'
    requires |s| == 1 && state.InQuote? ==> s[0] != '\\'
    ensures InStatement(After(l, s, Taken(s, state)), NextState(s, state), s[Taken(s, state)..])
  {
    StepCoherent(l, s[0]);
    if |s| > 1 { StepCoherent(Step(l, s[0]), s[1]); }
  }

  /** The last character of a clean statement, followed by nothing or by a semicolon. */
  lemma TurnInsideLast(l: Lex, s: string, state: SplitState)
    requires s != "" && (|s| > 1 ==> s[1] == ';')
    requires InStatement(l, state, s)
    requires Step(l, s[0]).plain && InCode(Step(l, s[0]).mode)
    ensures Taken(s, state) == 1
    ensures state == Top ==> !OpensComment(s) && s[0] != ';'
    ensures state.InQuote? ==> s[0] != '\\'
  {
  }

  /** Two characters inside a clean statement. */
  lemma TurnInsidePair(l: Lex, s: string, state: SplitState)
    requires |s| > 1 && InStatement(l, state, s)
    requires Step(l, s[0]).plain && Step(Step(l, s[0]), s[1]).plain
    ensures state == Top ==> !OpensComment(s) && s[0] != ';'
  {
  }

  /** A clean statement `u` followed by nothing or by a semicolon: the turn stays inside `u`. */
  lemma TurnInside(l: Lex, u: string, s: string, state: SplitState)
    requires u != "" && |u| <= |s| && s[0] == u[0] && (if |u| > 1 then s[1] == u[1] else |s| > 1 ==> s[1] == ';')
    requires InStatement(l, state, s)
    requires RunFrom(l, u).plain && InCode(RunFrom(l, u).mode)
    ensures Taken(s, state) <= |u|
    ensures state == Top ==> !OpensComment(s) && s[0] != ';'
    ensures |u| == 1 && state.InQuote? ==> s[0] != '\\'
  {
    PlainAfter(l, u, 1);
    if |u| > 1 {
      PlainAfter(l, u, 2);
      TurnInsidePair(l, s, state);
    } else {
      AfterRuns(l, u, 1);
      assert u[..1] == u;
      TurnInsideLast(l, s, state);
    }
  }

  lemma {:induction false} PassThrough(l: Lex, v: string, u: string, t: string, state: SplitState)
    requires t == "" || t[0] == ';'
    requires InStatement(l, state, u + t)
    requires RunFrom(l, u).plain && InCode(RunFrom(l, u).mode)
    ensures Split(u + t, state, v) == Split(t, Top, v + u)
    decreases |u|
  {
    if u == "" {
      ConcatEmpty(v);
      ConcatEmpty(t);
    } else {
      var s := u + t;
      TurnInside(l, u, s, state);
      StaysInStatement(l, state, s);
      var n := Taken(s, state);
      PlainAfter(l, u, n);
      SplitAt(u, n);
      ConcatSplits(u, t, n);
      CopiesText(s, state, v, u, n);
      PassThrough(After(l, u, n), v + u[..n], u[n..], t, NextState(s, state));
      ConcatAssociative(v, u[..n], u[n..]);
      PrependNone(Split(u[n..] + t, NextState(s, state), v + u[..n]));
    }
  }

  lemma CopiesText(s: string, state: SplitState, v: string, u: string, n: nat)
    requires s != "" && u != "" && n == Taken(s, state) <= |u| <= |s| && s[0] == u[0] && (|u| > 1 ==> s[1] == u[1])
    requires state == Top || state.InQuote?
    requires state == Top ==> !OpensComment(s) && s[0] != ';'
    ensures NextText(s, state, v) == v + u[..n]
    ensures Emitted(s, state, v) == []
  {
    if n == 1 {
      assert u[..1] == [u[0]];
    } else {
      assert u[..2] == [u[0]] + [u[1]];
      ConcatAssociative(v, [u[0]], [u[1]]);
    }
  }

  lemma CleanStrip(r: string)
    requires Clean(r)
    ensures Flush(r) == [r]
  {
    assert r[|r| - |r|..] == r;
  }

  lemma SplitEnd(r: string)
    requires Flush(r) == [r]
    ensures Split("", Top, r) == Ok([r])
  {
  }

  lemma SplitSemicolon(r: string, rest: string)
    requires Flush(r) == [r]
    ensures Split(";" + rest, Top, r) == Prepend([r], Split(rest, Top, ""))
  {
    var t := ";" + rest;
    ConcatSplits(";", rest, 1);
    ConcatEmpty(rest);
    assert t[1..] == rest;
    assert NextText(t, Top, r) == "" && NextState(t, Top) == Top && Taken(t, Top) == 1;
  }

  lemma CopiesClean(r: string, t: string)
    requires Clean(r) && (t == "" || t[0] == ';')
    ensures Split(r + t, Top, "") == Split(t, Top, r)
  {
    ConcatEmpty(r);
    PassThrough(START, "", r, t, Top);
  }

  /** A clean statement alone is returned as it stands. */
  lemma CleanAlone(r: string)
    requires Clean(r)
    ensures Split(r, Top, "") == Ok([r])
  {
    CopiesClean(r, "");
    ConcatEmpty(r);
    CleanStrip(r);
    SplitEnd(r);
  }

  lemma CleanTail(statements: seq<string>)
    requires AllClean(statements) && |statements| > 0
    ensures Clean(statements[0]) && AllClean(statements[1..])
    ensures [statements[0]] + statements[1..] == statements
  {
  }

  lemma {:induction false} JoinedSplits(statements: seq<string>)
    requires AllClean(statements)
    ensures Split(Join(statements), Top, "") == Ok(statements)
    decreases |statements|
  {
    if statements == [] {
      SplitNothing();
    } else {
      CleanTail(statements);
      if |statements| == 1 {
        assert statements == [statements[0]];
        CleanAlone(statements[0]);
      } else {
        JoinedSplits(statements[1..]);
        JoinedFirst(statements[0], statements[1..]);
      }
    }
  }

  lemma SplitNothing()
    ensures Split("", Top, "") == Ok([])
  {
  }

  /** A clean statement in front of a joined text is returned as it stands. */
  lemma JoinedFirst(r: string, rest: seq<string>)
    requires Clean(r) && Split(Join(rest), Top, "") == Ok(rest)
    ensures Split(r + ";" + Join(rest), Top, "") == Ok([r] + rest)
  {
    var t := ";" + Join(rest);
    ConcatAssociative(r, ";", Join(rest));
    CopiesClean(r, t);
    CleanStrip(r);
    SplitSemicolon(r, Join(rest));
  }

  /** Canonical form: splitting the joined output of the splitter gives the same statements. */
  lemma SplitIsCanonical(sql: string)
    requires Split(sql, Top, "").Ok?
    ensures Split(Join(Split(sql, Top, "").value), Top, "") == Split(sql, Top, "")
  {
    SplitMeaning(sql);
    JoinedSplits(Split(sql, Top, "").value);
  }
}
