/** The expression parser inverts Render on canonical trees. Since Canonical
    encodes the operator levels and left associativity, this fixes how every
    operator sequence groups: the parser reads the tokens of a tree back as
    that tree and no other. */
module ExprProofs {
  import opened Wrappers
  import opened Precedence
  import opened Lexer
  import opened Syntax
  import opened Parser
  import opened Seqs

  /** What may follow an expression parsed at level `m` without being taken
      into it: not a `(` (which would make a call of an identifier) and not a
      binary operator of level `m` or above. */
  predicate Follows(rest: seq<Token>, m: nat) {
    !IsSym(rest, "(") && !BinAtLeast(rest, m)
  }

  /** The leftmost operand of the binary spine of `e`. */
  function Base(e: Expr): (b: Expr)
    ensures !b.Binary? && Size(b) <= Size(e)
    ensures Canonical(e) ==> Canonical(b)
  {
    if e.Binary? then Base(e.left) else e
  }

  /** The tokens of `e` after those of Base(e). */
  function TailTokens(e: Expr): seq<Token> {
    if e.Binary? then TailTokens(e.left) + [Tok(Sym(BinText(e.op)))] + Render(e.right) else []
  }

  lemma {:induction false} RenderSplits(e: Expr)
    ensures Render(e) == Render(Base(e)) + TailTokens(e)
    ensures TailTokens(e) != [] ==> TailTokens(e)[0].kind.Sym? && BinOpNamed(TailTokens(e)[0].kind.text).Some?
  {
    if e.Binary? {
      RenderSplits(e.left);
      assert Render(e) == Render(e.left) + [Tok(Sym(BinText(e.op)))] + Render(e.right);
    }
  }

  /** The tokens that can begin an expression: a name, `true`, `false`, a
      literal, an opening bracket or a unary operator. */
  predicate StartsExpr(k: Kind) {
    (k.Ident? && (IsName(k.name) || k.name == "true" || k.name == "false"))
    || k.Number? || k.Str? || k in {Sym("("), Sym("["), Sym("{"), Sym("-"), Sym("!")}
  }

  lemma {:induction false} RenderStart(e: Expr)
    requires Canonical(e)
    ensures StartsExpr(Render(e)[0].kind) && !Render(e)[0].nl
  {
    if e.Binary? {
      RenderStart(e.left);
    } else if e.Unary? {
      assert Render(e)[0].kind == Sym(UnText(e.uop));
    }
  }

  lemma ListSizeBound(es: seq<Expr>, i: nat)
    requires i < |es|
    ensures Size(es[i]) <= ListSize(es)
  {
    if i > 0 {
      ListSizeBound(es[1..], i - 1);
    }
  }

  /** The steps of ParseUnary on each kind of compound operand, given the
      result of the inner parse. */
  lemma UnaryStep(op: UnOp, ts: seq<Token>, x: Expr, rest: seq<Token>)
    requires |ts| > 0 && ts[0] == Tok(Sym(UnText(op)))
    requires ParseExpr(ts[1..], UnLevel(op) + 1) == POk(x, rest)
    ensures ParseUnary(ts) == POk(Unary(op, x), rest)
  {
  }

  lemma ParenStep(ts: seq<Token>, x: Expr, rest: seq<Token>)
    requires |ts| > 0 && ts[0] == Tok(Sym("("))
    requires ParseExpr(ts[1..], ASSIGN) == POk(x, [Tok(Sym(")"))] + rest)
    ensures ParseUnary(ts) == POk(Paren(x), rest)
  {
    assert ([Tok(Sym(")"))] + rest)[1..] == rest;
  }

  lemma ArrayStep(ts: seq<Token>, items: seq<Expr>, rest: seq<Token>)
    requires |ts| > 0 && ts[0] == Tok(Sym("["))
    requires ParseCommaSep(ts[1..], "]") == POk(items, rest)
    ensures ParseUnary(ts) == POk(ArrayLit(items), rest)
  {
  }

  lemma MapStep(ts: seq<Token>, pairs: seq<Pair>, rest: seq<Token>)
    requires |ts| > 0 && ts[0] == Tok(Sym("{"))
    requires ParsePairs(ts[1..]) == POk(pairs, rest)
    ensures ParseUnary(ts) == POk(MapLit(pairs), rest)
  {
  }

  lemma CallStep(f: string, ts: seq<Token>, args: seq<Expr>, rest: seq<Token>)
    requires IsName(f) && |ts| > 1 && ts[0] == Tok(Ident(f)) && ts[1] == Tok(Sym("("))
    requires ParseCommaSep(ts[2..], ")") == POk(args, rest)
    ensures ParseUnary(ts) == POk(CallExpr(f, args), rest)
  {
  }

  /** A canonical operand that is not binary reads back as itself. */
  lemma {:induction false} UnaryRoundTrip(b: Expr, rest: seq<Token>)
    requires Canonical(b) && !b.Binary? && !IsSym(rest, "(")
    ensures ParseUnary(Render(b) + rest) == POk(b, rest)
    decreases Size(b), 1
  {
    var ts := Render(b) + rest;
    match b
    case Id(n) =>
      assert ts == [Tok(Ident(n))] + rest;
      assert ts[1..] == rest;
    case BoolLit(v) =>
      assert ts == [Tok(Ident(if v then "true" else "false"))] + rest;
      assert ts[1..] == rest;
    case Num(d) =>
      assert ts == [Tok(Number(d))] + rest;
      assert ts[1..] == rest;
    case StrLit(t) =>
      assert ts == [Tok(Str(t))] + rest;
      assert ts[1..] == rest;
    case Unary(op, x) => NegatedRoundTrip(op, x, rest);
    case Paren(x) => ParenRoundTrip(x, rest);
    case ArrayLit(items) => ArrayRoundTrip(items, rest);
    case CallExpr(f, args) => CallExprRoundTrip(f, args, rest);
    case MapLit(pairs) => MapRoundTrip(pairs, rest);
  }

  lemma {:induction false} NegatedRoundTrip(op: UnOp, x: Expr, rest: seq<Token>)
    requires Canonical(Unary(op, x)) && !IsSym(rest, "(")
    ensures ParseUnary(Render(Unary(op, x)) + rest) == POk(Unary(op, x), rest)
    decreases Size(Unary(op, x)), 0
  {
    var ts := Render(Unary(op, x)) + rest;
    assert ts == [Tok(Sym(UnText(op)))] + (Render(x) + rest);
    assert ts[1..] == Render(x) + rest;
    assert Follows(rest, UnLevel(op) + 1) by {
      // No binary operator binds above the unary ones.
      if BinOpAt(rest).Some? { UnaryAboveBinary(op, BinOpAt(rest).value); }
    }
    ExprRoundTrip(x, rest, UnLevel(op) + 1);
    UnaryStep(op, ts, x, rest);
  }

  lemma {:induction false} ParenRoundTrip(x: Expr, rest: seq<Token>)
    requires Canonical(Paren(x))
    ensures ParseUnary(Render(Paren(x)) + rest) == POk(Paren(x), rest)
    decreases Size(Paren(x)), 0
  {
    var ts := Render(Paren(x)) + rest;
    var close := [Tok(Sym(")"))] + rest;
    assert ts == [Tok(Sym("("))] + (Render(x) + close);
    assert ts[1..] == Render(x) + close;
    ExprRoundTrip(x, close, ASSIGN);
    ParenStep(ts, x, rest);
  }

  lemma {:induction false} ArrayRoundTrip(items: seq<Expr>, rest: seq<Token>)
    requires Canonical(ArrayLit(items))
    ensures ParseUnary(Render(ArrayLit(items)) + rest) == POk(ArrayLit(items), rest)
    decreases Size(ArrayLit(items)), 0
  {
    var ts := Render(ArrayLit(items)) + rest;
    assert ts == [Tok(Sym("["))] + (RenderList(items) + [Tok(Sym("]"))] + rest);
    assert ts[1..] == RenderList(items) + [Tok(Sym("]"))] + rest;
    ListRoundTrip(items, "]", rest);
    ArrayStep(ts, items, rest);
  }

  lemma {:induction false} CallExprRoundTrip(f: string, args: seq<Expr>, rest: seq<Token>)
    requires Canonical(CallExpr(f, args))
    ensures ParseUnary(Render(CallExpr(f, args)) + rest) == POk(CallExpr(f, args), rest)
    decreases Size(CallExpr(f, args)), 0
  {
    var ts := Render(CallExpr(f, args)) + rest;
    assert ts == [Tok(Ident(f)), Tok(Sym("("))] + (RenderList(args) + [Tok(Sym(")"))] + rest);
    assert ts[2..] == RenderList(args) + [Tok(Sym(")"))] + rest;
    ListRoundTrip(args, ")", rest);
    CallStep(f, ts, args, rest);
  }

  lemma {:induction false} MapRoundTrip(pairs: seq<Pair>, rest: seq<Token>)
    requires Canonical(MapLit(pairs))
    ensures ParseUnary(Render(MapLit(pairs)) + rest) == POk(MapLit(pairs), rest)
    decreases Size(MapLit(pairs)), 0
  {
    var ts := Render(MapLit(pairs)) + rest;
    assert ts == [Tok(Sym("{"))] + (RenderPairs(pairs) + [Tok(Sym("}"))] + rest);
    assert ts[1..] == RenderPairs(pairs) + [Tok(Sym("}"))] + rest;
    PairsRoundTrip(pairs, rest);
    MapStep(ts, pairs, rest);
  }

  /** One turn of the tail loop: an operator of level `m` or above, then its
      right operand, extends the left operand by one node. */
  lemma TailStep(l: Expr, ts: seq<Token>, m: nat, op: BinOp, r: Expr, rest: seq<Token>)
    requires BinAtLeast(ts, m) && BinOpAt(ts) == Some(op)
    requires ParseExpr(ts[1..], BinLevel(op) + 1) == POk(r, rest)
    ensures ParseTail(l, ts, m) == ParseTail(Binary(op, l, r), rest, m)
  {
  }

  /** The fold of the tail loop: the operators of the spine of `e` are taken in
      order, each right operand at one level above its operator. */
  lemma {:induction false} TailRoundTrip(e: Expr, rest: seq<Token>, m: nat)
    requires Canonical(e) && AtLeast(e, m)
    requires e.Binary? ==> Follows(rest, BinLevel(e.op) + 1)
    ensures ParseTail(Base(e), TailTokens(e) + rest, m) == ParseTail(e, rest, m)
    decreases Size(e), 1
  {
    if e.Binary? {
      var op, l, r := e.op, e.left, e.right;
      var after := [Tok(Sym(BinText(op)))] + Render(r) + rest;
      TailOperator(e, rest);
      assert l.Binary? ==> Follows(after, BinLevel(l.op) + 1);
      TailRoundTrip(l, after, m);
      ExprRoundTrip(r, rest, BinLevel(op) + 1);
      assert BinAtLeast(after, m);
      TailStep(l, after, m, op, r, rest);
    } else {
      assert TailTokens(e) + rest == rest;
    }
  }

  /** The tail of a binary expression is the tail of its left operand, then
      its operator and its right operand. */
  lemma TailOperator(e: Expr, rest: seq<Token>)
    requires e.Binary?
    ensures var after := [Tok(Sym(BinText(e.op)))] + Render(e.right) + rest;
            TailTokens(e) + rest == TailTokens(e.left) + after
            && BinOpAt(after) == Some(e.op) && after[1..] == Render(e.right) + rest
            && Base(e) == Base(e.left)
  {
    var opTok := [Tok(Sym(BinText(e.op)))];
    Assoc4(TailTokens(e.left), opTok, Render(e.right), rest);
    Assoc(opTok, Render(e.right), rest);
  }

  /** The main round trip: a canonical expression whose root binds at level
      `m` or above, followed by tokens that cannot extend it, parses back as
      itself and leaves exactly those tokens. */
  lemma {:induction false} ExprRoundTrip(e: Expr, rest: seq<Token>, m: nat)
    requires Canonical(e) && AtLeast(e, m) && Follows(rest, m)
    ensures ParseExpr(Render(e) + rest, m) == POk(e, rest)
    decreases Size(e), 2
  {
    RenderSplits(e);
    var mid := TailTokens(e) + rest;
    assert Render(e) + rest == Render(Base(e)) + mid;
    UnaryRoundTrip(Base(e), mid);
    TailRoundTrip(e, rest, m);
  }

  /** `commaSep`: the items of a list followed by its closing token read back
      as exactly that list, in order. */
  lemma {:induction false} ListRoundTrip(es: seq<Expr>, close: string, rest: seq<Token>)
    requires CanonicalList(es) && close in {")", "]"}
    ensures ParseCommaSep(RenderList(es) + [Tok(Sym(close))] + rest, close) == POk(es, rest)
    decreases ListSize(es), 5
  {
    if es == [] {
      assert ([Tok(Sym(close))] + rest)[1..] == rest;
    } else {
      RenderStart(es[0]);
      Comma1RoundTrip(es, close, rest);
    }
  }

  /** The last item of a list, then its closing token. */
  lemma CommaLast(ts: seq<Token>, close: string, x: Expr, rest: seq<Token>)
    requires close in {")", "]"} && ParseExpr(ts, ASSIGN) == POk(x, [Tok(Sym(close))] + rest)
    ensures ParseCommaSep1(ts, close) == POk([x], rest)
  {
    assert ([Tok(Sym(close))] + rest)[1..] == rest;
  }

  /** An item of a list followed by `,` and the remaining items. */
  lemma CommaMore(ts: seq<Token>, close: string, x: Expr, tail: seq<Token>, xs: seq<Expr>, rest: seq<Token>)
    requires ParseExpr(ts, ASSIGN) == POk(x, [Tok(Sym(","))] + tail)
    requires ParseCommaSep1(tail, close) == POk(xs, rest)
    ensures ParseCommaSep1(ts, close) == POk([x] + xs, rest)
  {
    assert ([Tok(Sym(","))] + tail)[1..] == tail;
  }

  /** The non-empty form `commaSep1`. */
  lemma {:induction false} Comma1RoundTrip(es: seq<Expr>, close: string, rest: seq<Token>)
    requires CanonicalList(es) && es != [] && close in {")", "]"}
    ensures ParseCommaSep1(RenderList(es) + [Tok(Sym(close))] + rest, close) == POk(es, rest)
    decreases ListSize(es), 4
  {
    if |es| == 1 {
      Comma1Last(es, close, rest);
    } else {
      Comma1More(es, close, rest);
    }
  }

  lemma {:induction false} Comma1Last(es: seq<Expr>, close: string, rest: seq<Token>)
    requires CanonicalList(es) && |es| == 1 && close in {")", "]"}
    ensures ParseCommaSep1(RenderList(es) + [Tok(Sym(close))] + rest, close) == POk(es, rest)
    decreases ListSize(es), 3
  {
    ListSizeBound(es, 0);
    var ts := RenderList(es) + [Tok(Sym(close))] + rest;
    var after := [Tok(Sym(close))] + rest;
    assert ts == Render(es[0]) + after;
    assert Follows(after, ASSIGN) by {
      if close == ")" { assert BinOpNamed(")") == None; } else { assert BinOpNamed("]") == None; }
    }
    ExprRoundTrip(es[0], after, ASSIGN);
    CommaLast(ts, close, es[0], rest);
    assert [es[0]] == es;
  }

  lemma {:induction false} Comma1More(es: seq<Expr>, close: string, rest: seq<Token>)
    requires CanonicalList(es) && |es| > 1 && close in {")", "]"}
    ensures ParseCommaSep1(RenderList(es) + [Tok(Sym(close))] + rest, close) == POk(es, rest)
    decreases ListSize(es), 3
  {
    ListSizeBound(es, 0);
    var ts := RenderList(es) + [Tok(Sym(close))] + rest;
    var tail := RenderList(es[1..]) + [Tok(Sym(close))] + rest;
    var after := [Tok(Sym(","))] + tail;
    assert ts == Render(es[0]) + after;
    ExprRoundTrip(es[0], after, ASSIGN);
    Comma1RoundTrip(es[1..], close, rest);
    CommaMore(ts, close, es[0], tail, es[1..], rest);
    assert [es[0]] + es[1..] == es;
  }

  /** The pairs of a map literal followed by `}` read back in order. */
  lemma {:induction false} PairsRoundTrip(ps: seq<Pair>, rest: seq<Token>)
    requires CanonicalPairs(ps)
    ensures ParsePairs(RenderPairs(ps) + [Tok(Sym("}"))] + rest) == POk(ps, rest)
    decreases PairsSize(ps), 5
  {
    if ps == [] {
      assert ([Tok(Sym("}"))] + rest)[1..] == rest;
    } else {
      Pairs1RoundTrip(ps, rest);
    }
  }

  /** A pair of a map literal: its key, `:` and value, then what follows. */
  lemma PairHead(key: string, ts: seq<Token>, v: Expr, after: seq<Token>)
    requires IsName(key) && |ts| > 1 && ts[0] == Tok(Ident(key)) && ts[1] == Tok(Sym(":"))
    requires ParseExpr(ts[2..], ASSIGN) == POk(v, after)
    ensures ParsePairs1(ts) == (if IsSym(after, ",") then
                                  match ParsePairs1(after[1..])
                                  case PErr(e) => PErr(e)
                                  case POk(ps, rest') => POk([Pair(key, v)] + ps, rest')
                                else if IsSym(after, "}") then POk([Pair(key, v)], after[1..])
                                else Fail(after, "',' or '}'"))
  {
    assert IsSym(ts[1..], ":");
  }

  lemma {:induction false} Pairs1RoundTrip(ps: seq<Pair>, rest: seq<Token>)
    requires CanonicalPairs(ps) && ps != []
    ensures ParsePairs1(RenderPairs(ps) + [Tok(Sym("}"))] + rest) == POk(ps, rest)
    decreases PairsSize(ps), 4
  {
    if |ps| == 1 {
      Pairs1Last(ps, rest);
    } else {
      Pairs1More(ps, rest);
    }
  }

  lemma {:induction false} Pairs1Last(ps: seq<Pair>, rest: seq<Token>)
    requires CanonicalPairs(ps) && |ps| == 1
    ensures ParsePairs1(RenderPairs(ps) + [Tok(Sym("}"))] + rest) == POk(ps, rest)
    decreases PairsSize(ps), 3
  {
    var key, v := ps[0].key, ps[0].value;
    var ts := RenderPairs(ps) + [Tok(Sym("}"))] + rest;
    var after := [Tok(Sym("}"))] + rest;
    assert RenderPairs(ps) == RenderPair(ps[0]);
    assert ts == [Tok(Ident(key)), Tok(Sym(":"))] + (Render(v) + after);
    assert ts[2..] == Render(v) + after;
    ExprRoundTrip(v, after, ASSIGN);
    PairHead(key, ts, v, after);
    assert after[1..] == rest;
    assert [ps[0]] == ps;
  }

  lemma {:induction false} Pairs1More(ps: seq<Pair>, rest: seq<Token>)
    requires CanonicalPairs(ps) && |ps| > 1
    ensures ParsePairs1(RenderPairs(ps) + [Tok(Sym("}"))] + rest) == POk(ps, rest)
    decreases PairsSize(ps), 3
  {
    var key, v := ps[0].key, ps[0].value;
    var ts := RenderPairs(ps) + [Tok(Sym("}"))] + rest;
    var tail := RenderPairs(ps[1..]) + [Tok(Sym("}"))] + rest;
    var after := [Tok(Sym(","))] + tail;
    assert RenderPairs(ps) == RenderPair(ps[0]) + [Tok(Sym(","))] + RenderPairs(ps[1..]);
    assert ts == [Tok(Ident(key)), Tok(Sym(":"))] + (Render(v) + after);
    assert ts[2..] == Render(v) + after;
    ExprRoundTrip(v, after, ASSIGN);
    PairHead(key, ts, v, after);
    assert after[1..] == tail;
    Pairs1RoundTrip(ps[1..], rest);
    assert [ps[0]] + ps[1..] == ps;
  }
}
