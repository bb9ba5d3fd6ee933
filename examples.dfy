/** Worked instances of the operator table and of the statement rules, each
    stated on the tokens (or the text) a programmer would write. */
module Examples {
  import opened Wrappers
  import opened Precedence
  import opened Lexer
  import opened Syntax
  import opened Parser
  import opened ExprProofs
  import opened StmtProofs
  import opened LexerProofs

  function Op(s: string): Token { Tok(Sym(s)) }
  function Name(n: string): Token { Tok(Ident(n)) }
  function Lit(d: string): Token { Tok(Number(d)) }

  // Each example takes its tokens as a parameter fixed by the precondition, so
  // that the parser is not evaluated symbolically on a literal.

  /** `1 + 2 * 3` groups as `1 + (2 * 3)`. */
  lemma TimesAbovePlus(ts: seq<Token>)
    requires ts == [Lit("1"), Op("+"), Lit("2"), Op("*"), Lit("3")]
    ensures ParseExpr(ts, ASSIGN) == POk(Binary(Add, Num("1"), Binary(Mul, Num("2"), Num("3"))), [])
  {
    var e := Binary(Add, Num("1"), Binary(Mul, Num("2"), Num("3")));
    assert Render(e) + [] == ts;
    ExprRoundTrip(e, [], ASSIGN);
  }

  /** `a - b - c` groups as `(a - b) - c`. */
  lemma MinusIsLeftAssociative(ts: seq<Token>)
    requires ts == [Name("a"), Op("-"), Name("b"), Op("-"), Name("c")]
    ensures ParseExpr(ts, ASSIGN) == POk(Binary(Sub, Binary(Sub, Id("a"), Id("b")), Id("c")), [])
  {
    var e := Binary(Sub, Binary(Sub, Id("a"), Id("b")), Id("c"));
    assert Render(e) + [] == ts;
    ExprRoundTrip(e, [], ASSIGN);
  }

  /** The table puts the relational operators (level 5) above `+` (level 4)
      and below `*` (level 6), so `a + b > c * d` groups as `a + (b > (c * d))`. */
  lemma RelationalBetweenPlusAndTimes(ts: seq<Token>)
    requires ts == [Name("a"), Op("+"), Name("b"), Op(">"), Name("c"), Op("*"), Name("d")]
    ensures ParseExpr(ts, ASSIGN) == POk(Binary(Add, Id("a"), Binary(Gt, Id("b"), Binary(Mul, Id("c"), Id("d")))), [])
  {
    var e := Binary(Add, Id("a"), Binary(Gt, Id("b"), Binary(Mul, Id("c"), Id("d"))));
    assert Render(e) + [] == ts by { RelRendered(e, ts); }
    assert Canonical(e) by { RelCanonical(e); }
    ExprRoundTrip(e, [], ASSIGN);
  }

  lemma RelRendered(e: Expr, ts: seq<Token>)
    requires e == Binary(Add, Id("a"), Binary(Gt, Id("b"), Binary(Mul, Id("c"), Id("d"))))
    requires ts == [Name("a"), Op("+"), Name("b"), Op(">"), Name("c"), Op("*"), Name("d")]
    ensures Render(e) + [] == ts
  {
  }

  lemma RelCanonical(e: Expr)
    requires e == Binary(Add, Id("a"), Binary(Gt, Id("b"), Binary(Mul, Id("c"), Id("d"))))
    ensures Canonical(e)
  {
  }

  /** `-a * b` groups as `(-a) * b`. */
  lemma NegationAboveTimes(ts: seq<Token>)
    requires ts == [Op("-"), Name("a"), Op("*"), Name("b")]
    ensures ParseExpr(ts, ASSIGN) == POk(Binary(Mul, Unary(Neg, Id("a")), Id("b")), [])
  {
    var e := Binary(Mul, Unary(Neg, Id("a")), Id("b"));
    assert Render(e) + [] == ts;
    ExprRoundTrip(e, [], ASSIGN);
  }

  /** `!a & b` groups as `(!a) & b`. */
  lemma NotAboveAnd(ts: seq<Token>)
    requires ts == [Op("!"), Name("a"), Op("&"), Name("b")]
    ensures ParseExpr(ts, ASSIGN) == POk(Binary(And, Unary(Not, Id("a")), Id("b")), [])
  {
    var e := Binary(And, Unary(Not, Id("a")), Id("b"));
    assert Render(e) + [] == ts;
    ExprRoundTrip(e, [], ASSIGN);
  }

  /** `{}` read as a condition is an empty map literal, and then no block follows. */
  lemma MapLiteralIsNoBlock(ts: seq<Token>)
    requires ts == [Op("{"), Op("}")]
    ensures ParseArm(ts) == PErr(UnexpectedEnd("'{'"))
  {
    var none: seq<Token> := [];
    assert Render(MapLit([])) + none == ts;
    ExprRoundTrip(MapLit([]), none, ASSIGN);
    assert ParseBlock(none) == PErr(UnexpectedEnd("'{'"));
  }

  /** The trailing `else` takes a condition: `if c {} else {}` reads `{}` as
      an empty map literal and then misses its block. */
  lemma ElseNeedsCondition(ts: seq<Token>)
    requires ts == [Name("if"), Name("c"), Op("{"), Op("}"), Name("else"), Op("{"), Op("}")]
    ensures ParseStmt(ts) == PErr(UnexpectedEnd("'{'"))
  {
    var arm := Arm(Id("c"), Block([]));
    var after := ts[4..];
    assert ts[1..] == RenderArm(arm) + after;
    ArmRoundTrip(arm, after);
    assert ParseStmt(ts) == ParseIf(ts[1..]);
    assert IsWord(after, "else") && !IsWord(after[1..], "if");
    MapLiteralIsNoBlock(after[1..]);
  }

  /** With a condition the trailing `else` arm is accepted. */
  lemma ElseWithCondition(ts: seq<Token>)
    requires ts == [Name("if"), Name("c"), Op("{"), Op("}"), Name("else"), Name("true"), Op("{"), Op("}")]
    ensures ParseStmt(ts) == POk(If(Arm(Id("c"), Block([])), [], Some(Arm(BoolLit(true), Block([])))), [])
  {
    var s := If(Arm(Id("c"), Block([])), [], Some(Arm(BoolLit(true), Block([]))));
    assert RenderStmt(s) + [] == ts;
    StmtRoundTrip(s, []);
  }

  /** `case x {}`: a case body may hold no entries. */
  lemma EmptyCase(ts: seq<Token>)
    requires ts == [Name("case"), Name("x"), Op("{"), Op("}")]
    ensures ParseStmt(ts) == POk(Case(Id("x"), []), [])
  {
    assert RenderStmt(Case(Id("x"), [])) + [] == ts;
    StmtRoundTrip(Case(Id("x"), []), []);
  }

  function MainDefs(): seq<FunctionDef> {
    [FunctionDef("main", [], None, Block([Assign("x", Binary(Add, Num("1"), Binary(Mul, Num("2"), Num("3"))))]))]
  }

  function MainTokens(): seq<Token> {
    [Name("main"), Op("("), Op(")"), Op("{"), Name("x"), Op("="),
     Lit("1"), Op("+"), Lit("2"), Op("*"), Lit("3"), Op(";"), Op("}")]
  }

  lemma MainCanonical()
    ensures CanonicalDefs(MainDefs())
  {
    assert IsName("main") && IsName("x");
    var v := Binary(Add, Num("1"), Binary(Mul, Num("2"), Num("3")));
    assert Canonical(v);
    assert CanonicalStmt(Assign("x", v));
    assert [Assign("x", v)][1..] == [];
    assert CanonicalStmts([Assign("x", v)]);
    assert CanonicalDef(MainDefs()[0]);
    assert MainDefs()[1..] == [];
  }

  lemma MainRendered()
    ensures RenderDefs(MainDefs()) == MainTokens()
  {
    var v := Binary(Add, Num("1"), Binary(Mul, Num("2"), Num("3")));
    assert Render(v) == [Lit("1"), Op("+"), Lit("2"), Op("*"), Lit("3")];
    assert RenderStmts([Assign("x", v)]) == [Name("x"), Op("=")] + Render(v) + [Op(";")];
  }

  /** A whole program from its text: tokenizing and parsing the text
      `main ( ) { x = 1 + 2 * 3 ; }` (a space before each token) gives one
      definition whose body assigns `1 + (2 * 3)` to `x`. */
  lemma ProgramFromText()
    ensures Parse(Unlex(MainTokens())) == Parsed(Module(MainDefs()))
  {
    var ts := MainTokens();
    forall i | 0 <= i < |ts|
      ensures WellFormed(ts[i].kind) && !ts[i].kind.Cmd? && ts[i].kind != Sym("/")
    {
      assert IsIdentifier("main") && IsIdentifier("x");
      assert IsDigits("1") && IsDigits("2") && IsDigits("3");
    }
    PlainLexable(ts, true);
    TokenizeUnlex(ts);
    MainRendered();
    MainCanonical();
    ModuleRoundTrip(MainDefs());
  }
}
