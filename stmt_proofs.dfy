/** The statement and definition parsers invert Render on canonical trees:
    blocks keep their statements in order and in number, `if` keeps its arms,
    `case` keeps its entries (none included), and the module keeps its
    definitions. Compound statements need no separator; assignments, calls
    and returns do. */
module StmtProofs {
  import opened Wrappers
  import opened Precedence
  import opened Lexer
  import opened Syntax
  import opened Parser
  import opened Seqs
  import opened ExprProofs

  /** No `else` comes next, so an `if` cannot take more arms from `rest`. */
  predicate NotElse(rest: seq<Token>) {
    !IsWord(rest, "else")
  }

  // Measures for the mutual induction over statements, blocks and arms.

  function StmtSize(s: Stmt): nat {
    match s
    case If(first, elifs, other) =>
      1 + ArmSize(first) + ArmsSize(elifs) + (if other.Some? then ArmSize(other.value) else 0)
    case For(_, _, body) => 2 + BlockSize(body)
    case While(_, body) => 2 + BlockSize(body)
    case Repeat(_, body) => 2 + BlockSize(body)
    case Case(_, entries) => 1 + ArmsSize(entries)
    case _ => 1
  }

  function StmtsSize(ss: seq<Stmt>): nat {
    if ss == [] then 0 else 1 + StmtSize(ss[0]) + StmtsSize(ss[1..])
  }

  function BlockSize(b: Block): nat {
    StmtsSize(b.stmts)
  }

  function ArmSize(a: Arm): nat {
    1 + BlockSize(a.body)
  }

  function ArmsSize(arms: seq<Arm>): nat {
    if arms == [] then 0 else ArmSize(arms[0]) + ArmsSize(arms[1..])
  }

  /** A statement starts with a command or with a word other than `else`,
      never on a flagged line. */
  lemma StmtStart(s: Stmt)
    requires CanonicalStmt(s)
    ensures var k := RenderStmt(s)[0].kind;
            (k.Cmd? || (k.Ident? && k.name != "else")) && !RenderStmt(s)[0].nl
  {}

  /** What follows a statement that is followed by more statements (or by
      the closing `}`). */
  lemma NextStmtFollows(ss: seq<Stmt>, rest: seq<Token>)
    requires CanonicalStmts(ss)
    ensures NotElse(RenderStmts(ss) + [Tok(Sym("}"))] + rest)
  {
    if ss != [] {
      StmtStart(ss[0]);
      assert RenderStmts(ss) + [Tok(Sym("}"))] + rest == RenderStmt(ss[0]) + (RenderStmts(ss[1..]) + [Tok(Sym("}"))] + rest);
    }
  }

  lemma {:induction false} BlockRoundTrip(b: Block, rest: seq<Token>)
    requires CanonicalBlock(b)
    ensures ParseBlock(RenderBlock(b) + rest) == POk(b, rest)
    decreases BlockSize(b), 2
  {
    var ts := RenderBlock(b) + rest;
    assert ts[1..] == RenderStmts(b.stmts) + [Tok(Sym("}"))] + rest;
    StmtsRoundTrip(b.stmts, rest);
  }

  /** Statements followed by `}` read back in order, one for each statement. */
  lemma {:induction false} StmtsRoundTrip(ss: seq<Stmt>, rest: seq<Token>)
    requires CanonicalStmts(ss)
    ensures ParseStmts(RenderStmts(ss) + [Tok(Sym("}"))] + rest) == POk(ss, rest)
    decreases StmtsSize(ss), 1
  {
    var close := [Tok(Sym("}"))] + rest;
    var ts := RenderStmts(ss) + [Tok(Sym("}"))] + rest;
    if ss == [] {
      assert ts == close;
      assert close[1..] == rest;
    } else {
      var after := RenderStmts(ss[1..]) + [Tok(Sym("}"))] + rest;
      assert ts == RenderStmt(ss[0]) + after;
      StmtStart(ss[0]);
      assert ts[0] == RenderStmt(ss[0])[0];
      assert !IsSym(ts, "}");
      NextStmtFollows(ss[1..], rest);
      StmtRoundTrip(ss[0], after);
      StmtsRoundTrip(ss[1..], rest);
      assert [ss[0]] + ss[1..] == ss;
    }
  }

  /** An expression followed by a block. */
  lemma {:induction false} ArmRoundTrip(a: Arm, rest: seq<Token>)
    requires CanonicalArm(a)
    ensures ParseArm(RenderArm(a) + rest) == POk(a, rest)
    decreases ArmSize(a), 3
  {
    var after := RenderBlock(a.body) + rest;
    assert RenderArm(a) + rest == Render(a.cond) + after;
    assert BinOpNamed("{") == None;
    ExprRoundTrip(a.cond, after, ASSIGN);
    BlockRoundTrip(a.body, rest);
  }

  /** The `else if` arms and the optional trailing `else` arm of an `if`. */
  lemma {:induction false} ElseRoundTrip(elifs: seq<Arm>, other: Option<Arm>, rest: seq<Token>)
    requires CanonicalArms(elifs) && (other.Some? ==> CanonicalArm(other.value)) && NotElse(rest)
    ensures ParseElseArms(RenderElseIfs(elifs) + RenderElse(other) + rest) == POk((elifs, other), rest)
    decreases ArmsSize(elifs) + (if other.Some? then ArmSize(other.value) else 0), 5
  {
    if elifs != [] {
      ElseIfsRoundTrip(elifs, other, rest);
    } else if other.Some? {
      assert RenderElseIfs(elifs) + RenderElse(other) + rest == RenderElse(Some(other.value)) + rest;
      TrailingElseRoundTrip(other.value, rest);
    } else {
      assert RenderElseIfs(elifs) + RenderElse(other) + rest == rest;
    }
  }

  lemma {:induction false} ElseIfsRoundTrip(elifs: seq<Arm>, other: Option<Arm>, rest: seq<Token>)
    requires CanonicalArms(elifs) && elifs != [] && (other.Some? ==> CanonicalArm(other.value)) && NotElse(rest)
    ensures ParseElseArms(RenderElseIfs(elifs) + RenderElse(other) + rest) == POk((elifs, other), rest)
    decreases ArmsSize(elifs) + (if other.Some? then ArmSize(other.value) else 0), 4
  {
    var ts := RenderElseIfs(elifs) + RenderElse(other) + rest;
    var after := RenderElseIfs(elifs[1..]) + RenderElse(other) + rest;
    ElseIfsSplit(elifs, RenderElse(other), rest);
    ArmRoundTrip(elifs[0], after);
    ElseRoundTrip(elifs[1..], other, rest);
    ElseIfStep(ts, elifs[0], after, elifs[1..], other, rest);
    HeadTail(elifs);
  }

  /** The tokens of the `else if` arms split after the first arm. */
  lemma ElseIfsSplit(elifs: seq<Arm>, other: seq<Token>, rest: seq<Token>)
    requires elifs != []
    ensures |RenderElseIfs(elifs) + other + rest| >= 2
    ensures (RenderElseIfs(elifs) + other + rest)[0] == Tok(Ident("else"))
    ensures (RenderElseIfs(elifs) + other + rest)[1] == Tok(Ident("if"))
    ensures (RenderElseIfs(elifs) + other + rest)[2..] == RenderArm(elifs[0]) + (RenderElseIfs(elifs[1..]) + other + rest)
  {
    var p := [Tok(Ident("else")), Tok(Ident("if"))];
    var a, e := RenderArm(elifs[0]), RenderElseIfs(elifs[1..]);
    assert RenderElseIfs(elifs) == p + a + e;
    Assoc5(p, a, e, other, rest);
    DropPrefix(p, a + (e + other + rest));
  }

  /** One `else if` arm in front of the remaining else arms. */
  lemma ElseIfStep(ts: seq<Token>, arm: Arm, after: seq<Token>, more: seq<Arm>, other: Option<Arm>, rest: seq<Token>)
    requires |ts| >= 2 && ts[0] == Tok(Ident("else")) && ts[1] == Tok(Ident("if"))
    requires ParseArm(ts[2..]) == POk(arm, after)
    requires ParseElseArms(after) == POk((more, other), rest)
    ensures ParseElseArms(ts) == POk(([arm] + more, other), rest)
  {
    assert IsWord(ts, "else") && IsWord(ts[1..], "if");
    assert ts[1..][1..] == ts[2..];
  }

  /** The trailing `else` arm: its condition cannot begin with `if`. */
  lemma {:induction false} TrailingElseRoundTrip(arm: Arm, rest: seq<Token>)
    requires CanonicalArm(arm)
    ensures ParseElseArms(RenderElse(Some(arm)) + rest) == POk(([], Some(arm)), rest)
    decreases ArmSize(arm), 4
  {
    var ts := RenderElse(Some(arm)) + rest;
    assert ts == [Tok(Ident("else"))] + (RenderArm(arm) + rest);
    assert ts[1..] == Render(arm.cond) + (RenderBlock(arm.body) + rest);
    RenderStart(arm.cond);
    assert ts[1..][0] == Render(arm.cond)[0];
    assert IsWord(ts, "else") && !IsWord(ts[1..], "if");
    ArmRoundTrip(arm, rest);
  }

  /** The entries of a `case_body` followed by its `}`; there may be none. */
  lemma {:induction false} EntriesRoundTrip(arms: seq<Arm>, rest: seq<Token>)
    requires CanonicalArms(arms)
    ensures ParseEntries(RenderEntries(arms) + [Tok(Sym("}"))] + rest) == POk(arms, rest)
    decreases ArmsSize(arms), 5
  {
    if arms == [] {
      var close := [Tok(Sym("}"))] + rest;
      assert RenderEntries(arms) + [Tok(Sym("}"))] + rest == close;
      assert close[1..] == rest;
    } else {
      EntryRoundTrip(arms, rest);
    }
  }

  lemma {:induction false} EntryRoundTrip(arms: seq<Arm>, rest: seq<Token>)
    requires CanonicalArms(arms) && arms != []
    ensures ParseEntries(RenderEntries(arms) + [Tok(Sym("}"))] + rest) == POk(arms, rest)
    decreases ArmsSize(arms), 4
  {
    var a, e, close := RenderArm(arms[0]), RenderEntries(arms[1..]), [Tok(Sym("}"))];
    var ts := RenderEntries(arms) + close + rest;
    var after := e + close + rest;
    assert RenderEntries(arms) == a + e;
    Assoc4(a, e, close, rest);
    RenderStart(arms[0].cond);
    FirstOf(Render(arms[0].cond), RenderBlock(arms[0].body));
    FirstOf(a, after);
    ArmRoundTrip(arms[0], after);
    EntriesRoundTrip(arms[1..], rest);
    EntryStep(arms[0], ts, after, arms[1..], rest);
    HeadTail(arms);
  }

  /** One entry in front of the remaining entries. */
  lemma EntryStep(arm: Arm, ts: seq<Token>, after: seq<Token>, more: seq<Arm>, rest: seq<Token>)
    requires ts != [] && !IsSym(ts, "}")
    requires ParseArm(ts) == POk(arm, after) && ParseEntries(after) == POk(more, rest)
    ensures ParseEntries(ts) == POk([arm] + more, rest)
  {
  }

  /** Every statement form reads back as itself, with compound statements
      followed directly by what comes next and simple ones by `;`. */
  lemma {:induction false} StmtRoundTrip(s: Stmt, rest: seq<Token>)
    requires CanonicalStmt(s) && NotElse(rest)
    ensures ParseStmt(RenderStmt(s) + rest) == POk(s, rest)
    decreases StmtSize(s), 1
  {
    match s
    case If(first, elifs, other) => IfRoundTrip(first, elifs, other, rest);
    case For(x, it, body) => ForRoundTrip(x, it, body, rest);
    case While(c, body) => WhileRoundTrip(c, body, rest);
    case Repeat(c, body) => RepeatRoundTrip(c, body, rest);
    case Case(x, entries) => CaseRoundTrip(x, entries, rest);
    case Command(t) => CommandRoundTrip(t, rest);
    case Assign(x, v) => AssignRoundTrip(x, v, rest);
    case CallStmt(f, args) => CallRoundTrip(f, args, rest);
    case Return(v) => ReturnRoundTrip(v, rest);
  }

  lemma {:induction false} IfRoundTrip(first: Arm, elifs: seq<Arm>, other: Option<Arm>, rest: seq<Token>)
    requires CanonicalStmt(If(first, elifs, other)) && NotElse(rest)
    ensures ParseStmt(RenderStmt(If(first, elifs, other)) + rest) == POk(If(first, elifs, other), rest)
    decreases StmtSize(If(first, elifs, other)), 0
  {
    var ts := RenderStmt(If(first, elifs, other)) + rest;
    var after := RenderElseIfs(elifs) + RenderElse(other) + rest;
    assert ts == [Tok(Ident("if"))] + (RenderArm(first) + after);
    assert ParseStmt(ts) == ParseIf(RenderArm(first) + after);
    ArmRoundTrip(first, after);
    ElseRoundTrip(elifs, other, rest);
  }

  lemma {:induction false} ForRoundTrip(x: string, it: Expr, body: Block, rest: seq<Token>)
    requires CanonicalStmt(For(x, it, body))
    ensures ParseStmt(RenderStmt(For(x, it, body)) + rest) == POk(For(x, it, body), rest)
    decreases StmtSize(For(x, it, body)), 0
  {
    var ts := RenderStmt(For(x, it, body)) + rest;
    var tail := [Tok(Ident(x)), Tok(Ident("in"))] + (RenderArm(Arm(it, body)) + rest);
    assert ts == [Tok(Ident("for"))] + tail;
    assert ParseStmt(ts) == ParseFor(tail);
    assert tail[2..] == RenderArm(Arm(it, body)) + rest;
    ArmRoundTrip(Arm(it, body), rest);
  }

  lemma {:induction false} WhileRoundTrip(c: Expr, body: Block, rest: seq<Token>)
    requires CanonicalStmt(While(c, body))
    ensures ParseStmt(RenderStmt(While(c, body)) + rest) == POk(While(c, body), rest)
    decreases StmtSize(While(c, body)), 0
  {
    var ts := RenderStmt(While(c, body)) + rest;
    assert ts == [Tok(Ident("while"))] + (RenderArm(Arm(c, body)) + rest);
    assert ParseStmt(ts) == ParseWhile(RenderArm(Arm(c, body)) + rest);
    ArmRoundTrip(Arm(c, body), rest);
  }

  lemma {:induction false} RepeatRoundTrip(c: Expr, body: Block, rest: seq<Token>)
    requires CanonicalStmt(Repeat(c, body))
    ensures ParseStmt(RenderStmt(Repeat(c, body)) + rest) == POk(Repeat(c, body), rest)
    decreases StmtSize(Repeat(c, body)), 0
  {
    var ts := RenderStmt(Repeat(c, body)) + rest;
    assert ts == [Tok(Ident("repeat"))] + (RenderArm(Arm(c, body)) + rest);
    assert ParseStmt(ts) == ParseRepeat(RenderArm(Arm(c, body)) + rest);
    ArmRoundTrip(Arm(c, body), rest);
  }

  /** A `case` whose body holds the given entries, none included. */
  lemma {:induction false} CaseRoundTrip(x: Expr, entries: seq<Arm>, rest: seq<Token>)
    requires CanonicalStmt(Case(x, entries))
    ensures ParseStmt(RenderStmt(Case(x, entries)) + rest) == POk(Case(x, entries), rest)
    decreases StmtSize(Case(x, entries)), 0
  {
    var word, open, close := [Tok(Ident("case"))], [Tok(Sym("{"))], [Tok(Sym("}"))];
    var e := RenderEntries(entries);
    var inner := e + close + rest;
    var after := open + inner;
    var ts := RenderStmt(Case(x, entries)) + rest;
    assert RenderStmt(Case(x, entries)) == word + Render(x) + open + e + close;
    Assoc6(word, Render(x), open, e, close, rest);
    DropPrefix(word, Render(x) + after);
    CaseDispatch(ts);
    assert BinOpNamed("{") == None;
    ExprRoundTrip(x, after, ASSIGN);
    EntriesRoundTrip(entries, rest);
    CaseStep(Render(x) + after, x, inner, entries, rest);
  }

  lemma CaseDispatch(ts: seq<Token>)
    requires |ts| > 0 && ts[0] == Tok(Ident("case"))
    ensures ParseStmt(ts) == ParseCase(ts[1..])
  {
  }

  /** `case`, its subject, `{`, then the entries. */
  lemma CaseStep(ts: seq<Token>, x: Expr, inner: seq<Token>, entries: seq<Arm>, rest: seq<Token>)
    requires ParseExpr(ts, ASSIGN) == POk(x, [Tok(Sym("{"))] + inner)
    requires ParseEntries(inner) == POk(entries, rest)
    ensures ParseCase(ts) == POk(Case(x, entries), rest)
  {
    assert ([Tok(Sym("{"))] + inner)[1..] == inner;
  }

  lemma CommandRoundTrip(t: string, rest: seq<Token>)
    ensures ParseStmt(RenderStmt(Command(t)) + rest) == POk(Command(t), rest)
  {
    assert (RenderStmt(Command(t)) + rest)[1..] == rest;
  }

  /** A statement that starts with a name other than a keyword is an
      assignment or a call. */
  lemma NamedDispatch(n: string, tail: seq<Token>)
    requires n !in Keywords
    ensures ParseStmt([Tok(Ident(n))] + tail) == ParseNamed(n, tail)
  {
    assert ([Tok(Ident(n))] + tail)[1..] == tail;
  }

  /** An assignment: the value, then `rest`, which must start with `;` or
      with a token on a new line, or the statement is rejected. */

  lemma AssignCloses(x: string, v: Expr, rest: seq<Token>)
    requires IsName(x) && Canonical(v) && Follows(rest, ASSIGN)
    ensures ParseStmt([Tok(Ident(x)), Tok(Sym("="))] + Render(v) + rest)
            == if IsSym(rest, ";") then POk(Assign(x, v), rest[1..])
               else if |rest| > 0 && rest[0].nl then POk(Assign(x, v), rest)
               else Fail(rest, "';' or newline")
  {
    AssignParsed(x, v, rest);
  }

  /** An assignment is its value followed by a separator. */
  lemma AssignParsed(x: string, v: Expr, rest: seq<Token>)
    requires IsName(x) && Canonical(v) && Follows(rest, ASSIGN)
    ensures ParseStmt([Tok(Ident(x)), Tok(Sym("="))] + Render(v) + rest) == Separated(Assign(x, v), rest)
  {
    var tail := [Tok(Sym("="))] + (Render(v) + rest);
    assert [Tok(Ident(x)), Tok(Sym("="))] + Render(v) + rest == [Tok(Ident(x))] + tail;
    NamedDispatch(x, tail);
    assert tail[1..] == Render(v) + rest;
    ExprRoundTrip(v, rest, ASSIGN);
  }

  /** A call statement: the closing `)`, then `rest`, under the same rule. */
  lemma CallCloses(f: string, args: seq<Expr>, rest: seq<Token>)
    requires IsName(f) && CanonicalList(args)
    ensures ParseStmt([Tok(Ident(f)), Tok(Sym("("))] + RenderList(args) + [Tok(Sym(")"))] + rest)
            == if IsSym(rest, ";") then POk(CallStmt(f, args), rest[1..])
               else if |rest| > 0 && rest[0].nl then POk(CallStmt(f, args), rest)
               else Fail(rest, "';' or newline")
  {
    CallParsed(f, args, rest);
  }

  /** A call statement is its argument list followed by a separator. */
  lemma CallParsed(f: string, args: seq<Expr>, rest: seq<Token>)
    requires IsName(f) && CanonicalList(args)
    ensures ParseStmt([Tok(Ident(f)), Tok(Sym("("))] + RenderList(args) + [Tok(Sym(")"))] + rest)
            == Separated(CallStmt(f, args), rest)
  {
    var inner := RenderList(args) + [Tok(Sym(")"))] + rest;
    var tail := [Tok(Sym("("))] + inner;
    assert [Tok(Ident(f)), Tok(Sym("("))] + RenderList(args) + [Tok(Sym(")"))] + rest == [Tok(Ident(f))] + tail;
    NamedDispatch(f, tail);
    assert tail[1..] == inner;
    ListRoundTrip(args, ")", rest);
  }

  /** `return` with a value on the same line: the value, then `rest`, under
      the same rule. */
  lemma ReturnCloses(v: Expr, rest: seq<Token>)
    requires Canonical(v) && Follows(rest, ASSIGN)
    ensures ParseStmt([Tok(Ident("return"))] + Render(v) + rest)
            == if IsSym(rest, ";") then POk(Return(Some(v)), rest[1..])
               else if |rest| > 0 && rest[0].nl then POk(Return(Some(v)), rest)
               else Fail(rest, "';' or newline")
  {
    ReturnParsed(v, rest);
  }

  /** A `return` with a value is that value followed by a separator. */
  lemma ReturnParsed(v: Expr, rest: seq<Token>)
    requires Canonical(v) && Follows(rest, ASSIGN)
    ensures ParseStmt([Tok(Ident("return"))] + Render(v) + rest) == Separated(Return(Some(v)), rest)
  {
    var tail := Render(v) + rest;
    assert [Tok(Ident("return"))] + Render(v) + rest == [Tok(Ident("return"))] + tail;
    assert ParseStmt([Tok(Ident("return"))] + tail) == ParseReturn(tail);
    RenderStart(v);
    assert tail[0] == Render(v)[0];
    ExprRoundTrip(v, rest, ASSIGN);
  }

  lemma AssignRoundTrip(x: string, v: Expr, rest: seq<Token>)
    requires IsName(x) && Canonical(v)
    ensures ParseStmt(RenderStmt(Assign(x, v)) + rest) == POk(Assign(x, v), rest)
  {
    var semi := [Tok(Sym(";"))] + rest;
    assert RenderStmt(Assign(x, v)) + rest == [Tok(Ident(x)), Tok(Sym("="))] + Render(v) + semi;
    assert BinOpNamed(";") == None;
    AssignCloses(x, v, semi);
    assert semi[1..] == rest;
  }

  lemma CallRoundTrip(f: string, args: seq<Expr>, rest: seq<Token>)
    requires IsName(f) && CanonicalList(args)
    ensures ParseStmt(RenderStmt(CallStmt(f, args)) + rest) == POk(CallStmt(f, args), rest)
  {
    var semi := [Tok(Sym(";"))] + rest;
    var inner := RenderList(args) + [Tok(Sym(")"))] + semi;
    var tail := [Tok(Sym("("))] + inner;
    assert RenderStmt(CallStmt(f, args)) + rest == [Tok(Ident(f))] + tail;
    NamedDispatch(f, tail);
    assert tail[1..] == inner;
    ListRoundTrip(args, ")", semi);
    assert ParseNamed(f, tail) == Separated(CallStmt(f, args), semi);
    assert semi[1..] == rest;
  }

  lemma ReturnRoundTrip(v: Option<Expr>, rest: seq<Token>)
    requires v.Some? ==> Canonical(v.value)
    ensures ParseStmt(RenderStmt(Return(v)) + rest) == POk(Return(v), rest)
  {
    var semi := [Tok(Sym(";"))] + rest;
    assert semi[1..] == rest;
    if v.Some? {
      assert RenderStmt(Return(v)) + rest == [Tok(Ident("return"))] + (Render(v.value) + semi);
      assert ParseStmt([Tok(Ident("return"))] + (Render(v.value) + semi)) == ParseReturn(Render(v.value) + semi);
      RenderStart(v.value);
      assert BinOpNamed(";") == None;
      ExprRoundTrip(v.value, semi, ASSIGN);
    } else {
      assert RenderStmt(Return(v)) + rest == [Tok(Ident("return"))] + semi;
      assert ParseStmt([Tok(Ident("return"))] + semi) == ParseReturn(semi);
    }
  }

  // ---------------------------------------------------------------- separators

  /** A `return` at the end of its line returns nothing; what follows on the
      next line is the next statement. */
  lemma ReturnAtLineEnd(rest: seq<Token>)
    requires rest != [] && rest[0].nl && !IsSym(rest, ";")
    ensures ParseStmt([Tok(Ident("return"))] + rest) == POk(Return(None), rest)
  {
    assert ([Tok(Ident("return"))] + rest)[1..] == rest;
  }

  /** A command is a statement, never an expression. */
  lemma CommandNotExpression(t: string, nl: bool, rest: seq<Token>, m: nat)
    ensures ParseExpr([Token(Cmd(t), nl)] + rest, m).PErr?
  {
    var ts := [Token(Cmd(t), nl)] + rest;
    assert ts[0].kind == Cmd(t);
    assert ParseUnary(ts) == ParsePrimary(ts);
  }

  /** A block whose closing `}` is missing is rejected at the end of the input. */
  lemma {:induction false} MissingCloseFails(ss: seq<Stmt>)
    requires CanonicalStmts(ss)
    ensures ParseStmts(RenderStmts(ss)) == PErr(UnexpectedEnd("'}'"))
  {
    if ss != [] {
      var after := RenderStmts(ss[1..]);
      if ss[1..] != [] {
        StmtStart(ss[1..][0]);
        assert after == RenderStmt(ss[1..][0]) + RenderStmts(ss[1..][1..]);
      }
      StmtRoundTrip(ss[0], after);
      MissingCloseFails(ss[1..]);
    }
  }

  // ---------------------------------------------------------------- definitions

  lemma {:induction false} ParamsRoundTrip(ps: seq<Param>, rest: seq<Token>)
    requires CanonicalParams(ps)
    ensures ParseParams(RenderParams(ps) + [Tok(Sym(")"))] + rest) == POk(ps, rest)
  {
    if ps == [] {
      assert ([Tok(Sym(")"))] + rest)[1..] == rest;
    } else {
      Params1RoundTrip(ps, rest);
    }
  }

  lemma {:induction false} Params1RoundTrip(ps: seq<Param>, rest: seq<Token>)
    requires CanonicalParams(ps) && ps != []
    ensures ParseParams1(RenderParams(ps) + [Tok(Sym(")"))] + rest) == POk(ps, rest)
  {
    var ts := RenderParams(ps) + [Tok(Sym(")"))] + rest;
    var p := RenderParam(ps[0]);
    if |ps| == 1 {
      assert RenderParams(ps) == p;
      Assoc(p, [Tok(Sym(")"))], rest);
      ParamRead(ps[0], [Tok(Sym(")"))] + rest);
      ParamLast(ts, ps[0], rest);
      assert [ps[0]] == ps;
    } else {
      var comma, more := [Tok(Sym(","))], RenderParams(ps[1..]);
      var tail := more + [Tok(Sym(")"))] + rest;
      assert RenderParams(ps) == p + comma + more;
      Assoc5(p, comma, more, [Tok(Sym(")"))], rest);
      ParamRead(ps[0], comma + tail);
      Params1RoundTrip(ps[1..], rest);
      ParamMore(ts, ps[0], tail, ps[1..], rest);
      HeadTail(ps);
    }
  }

  /** `identifier ':' identifier` reads back as the parameter. */
  lemma ParamRead(p: Param, w: seq<Token>)
    requires IsName(p.name) && IsName(p.typ)
    ensures ParseParam(RenderParam(p) + w) == POk(p, w)
  {
    var ts := RenderParam(p) + w;
    DropPrefix(RenderParam(p), w);
    assert ts[1..][0] == Tok(Sym(":"));
  }

  /** The last parameter, then `)`. */
  lemma ParamLast(ts: seq<Token>, p: Param, rest: seq<Token>)
    requires ParseParam(ts) == POk(p, [Tok(Sym(")"))] + rest)
    ensures ParseParams1(ts) == POk([p], rest)
  {
    DropPrefix([Tok(Sym(")"))], rest);
  }

  /** A parameter followed by `,` and the remaining parameters. */
  lemma ParamMore(ts: seq<Token>, p: Param, tail: seq<Token>, ps: seq<Param>, rest: seq<Token>)
    requires ParseParam(ts) == POk(p, [Tok(Sym(","))] + tail)
    requires ParseParams1(tail) == POk(ps, rest)
    ensures ParseParams1(ts) == POk([p] + ps, rest)
  {
    DropPrefix([Tok(Sym(","))], tail);
  }

  lemma DefRoundTrip(d: FunctionDef, rest: seq<Token>)
    requires CanonicalDef(d)
    ensures ParseDef(RenderDef(d) + rest) == POk(d, rest)
  {
    var ret: seq<Token> := match d.retType case None => [] case Some(t) => [Tok(Sym(":")), Tok(Ident(t))];
    var after := ret + (RenderBlock(d.body) + rest);
    var ts := RenderDef(d) + rest;
    assert ts == [Tok(Ident(d.name)), Tok(Sym("("))] + (RenderParams(d.params) + [Tok(Sym(")"))] + after);
    assert ts[2..] == RenderParams(d.params) + [Tok(Sym(")"))] + after;
    ParamsRoundTrip(d.params, after);
    BlockRoundTrip(d.body, rest);
    DefStep(d, ts, after, rest);
  }

  /** The name, `(`, the parameters, then an optional `: type` and the body. */
  lemma DefStep(d: FunctionDef, ts: seq<Token>, after: seq<Token>, rest: seq<Token>)
    requires CanonicalDef(d) && |ts| > 1 && ts[0] == Tok(Ident(d.name)) && ts[1] == Tok(Sym("("))
    requires ParseParams(ts[2..]) == POk(d.params, after)
    requires after == (match d.retType case None => [] case Some(t) => [Tok(Sym(":")), Tok(Ident(t))])
                      + (RenderBlock(d.body) + rest)
    requires ParseBlock(RenderBlock(d.body) + rest) == POk(d.body, rest)
    ensures ParseDef(ts) == POk(d, rest)
  {
    assert IsSym(ts[1..], "(");
    if d.retType.Some? {
      assert IsSym(after, ":") && after[1].kind == Ident(d.retType.value);
      assert after[2..] == RenderBlock(d.body) + rest;
    } else {
      assert after == RenderBlock(d.body) + rest;
      assert !IsSym(after, ":");
    }
  }

  /** `ds` in front of the outcome of parsing the rest of a module. */
  function Prepend(ds: seq<FunctionDef>, r: PResult<seq<FunctionDef>>): PResult<seq<FunctionDef>> {
    match r
    case PErr(e) => PErr(e)
    case POk(more, rest) => POk(ds + more, rest)
  }

  /** One definition in front of `rest`. */
  lemma DefsStep(d: FunctionDef, rest: seq<Token>)
    requires CanonicalDef(d)
    ensures ParseDefs(RenderDef(d) + rest) == Prepend([d], ParseDefs(rest))
  {
    var ts := RenderDef(d) + rest;
    assert ts[0] == RenderDef(d)[0];
    DefRoundTrip(d, rest);
  }

  /** Definitions followed by `rest` read back as themselves, followed by
      whatever `rest` parses as; an error in `rest` is reported unchanged. */
  lemma {:induction false} DefsRoundTrip(ds: seq<FunctionDef>, rest: seq<Token>)
    requires CanonicalDefs(ds)
    ensures ParseDefs(RenderDefs(ds) + rest) == Prepend(ds, ParseDefs(rest))
  {
    if ds == [] {
      assert RenderDefs(ds) + rest == rest;
      PrependNone(ParseDefs(rest));
    } else {
      var after := RenderDefs(ds[1..]) + rest;
      assert RenderDefs(ds) + rest == RenderDef(ds[0]) + after;
      DefsRoundTrip(ds[1..], rest);
      DefsStep(ds[0], after);
      PrependTwice(ds[0], ds[1..], ParseDefs(rest));
      assert [ds[0]] + ds[1..] == ds;
    }
  }

  lemma PrependNone(r: PResult<seq<FunctionDef>>)
    ensures Prepend([], r) == r
  {
    if r.POk? {
      assert [] + r.value == r.value;
    }
  }

  lemma PrependTwice(d: FunctionDef, ds: seq<FunctionDef>, r: PResult<seq<FunctionDef>>)
    ensures Prepend([d], Prepend(ds, r)) == Prepend([d] + ds, r)
  {
    if r.POk? {
      assert [d] + (ds + r.value) == [d] + ds + r.value;
    }
  }

  /** The whole token stream of a canonical module reads back as that module. */
  lemma ModuleRoundTrip(ds: seq<FunctionDef>)
    requires CanonicalDefs(ds)
    ensures ParseTokens(RenderDefs(ds)) == Parsed(Module(ds))
  {
    DefsRoundTrip(ds, []);
    assert RenderDefs(ds) + [] == RenderDefs(ds);
    assert ds + [] == ds;
  }

  /** A stray `}` after the definitions is rejected, and the diagnostic
      points at that `}`. */
  lemma StrayCloseFails(ds: seq<FunctionDef>)
    requires CanonicalDefs(ds)
    ensures ParseTokens(RenderDefs(ds) + [Tok(Sym("}"))])
            == Failed(ParseDiagnostic(UnexpectedToken("function name", Sym("}"), 1), |RenderDefs(ds)|))
  {
    DefsRoundTrip(ds, [Tok(Sym("}"))]);
  }
}
