/** The converse of the round trips: whatever the expression and list parsers
    accept is exactly the rendering of the tree they return. Line-break flags
    are the only thing the parsers may ignore, so the statement compares the
    consumed tokens with the rendering after clearing those flags.

    Every list parser therefore consumes its items, the separators between
    them and the closing token and nothing else: a trailing `,` before the
    closing token is never accepted, and the rejection lemmas at the end say
    which error it draws. */
module ParseSoundness {
  import opened Wrappers
  import opened Precedence
  import opened Lexer
  import opened Syntax
  import opened Parser
  import opened Seqs
  import opened ExprProofs
  import opened StmtProofs

  /** The tokens with their line-break flags cleared. */
  function Erase(ts: seq<Token>): seq<Token> {
    seq(|ts|, i requires 0 <= i < |ts| => Tok(ts[i].kind))
  }

  /** `ts` is the tokens `toks` (up to line-break flags) followed by `rest`. */
  predicate Spells(ts: seq<Token>, toks: seq<Token>, rest: seq<Token>) {
    |rest| <= |ts| && ts[|ts| - |rest|..] == rest && Erase(ts[..|ts| - |rest|]) == toks
  }

  lemma SpellsThen(a: seq<Token>, x: seq<Token>, b: seq<Token>, y: seq<Token>, c: seq<Token>)
    requires Spells(a, x, b) && Spells(b, y, c)
    ensures Spells(a, x + y, c)
  {
    var k, k2 := |a| - |b|, |b| - |c|;
    assert b == a[k..];
    assert a[|a| - |c|..] == c by { assert a[|a| - |c|..] == a[k..][k2..]; }
    var e := Erase(a[..k + k2]);
    forall i | 0 <= i < |e|
      ensures e[i] == (x + y)[i]
    {
      if i < k {
        assert x[i] == Erase(a[..k])[i];
      } else {
        assert a[i] == b[i - k];
        assert y[i - k] == Erase(b[..k2])[i - k];
      }
    }
    assert e == x + y;
  }

  lemma SpellsSym(ts: seq<Token>, s: string)
    requires IsSym(ts, s)
    ensures Spells(ts, [Tok(Sym(s))], ts[1..])
  {
    assert ts[..1] == [ts[0]];
  }

  lemma SpellsFirst(ts: seq<Token>)
    requires |ts| > 0
    ensures Spells(ts, [Tok(ts[0].kind)], ts[1..])
  {
    assert ts[..1] == [ts[0]];
  }

  /** Three pieces in a row. */
  lemma SpellsThen3(a: seq<Token>, x: seq<Token>, b: seq<Token>, y: seq<Token>,
                    c: seq<Token>, z: seq<Token>, d: seq<Token>)
    requires Spells(a, x, b) && Spells(b, y, c) && Spells(c, z, d)
    ensures Spells(a, x + y + z, d)
  {
    SpellsThen(a, x, b, y, c);
    SpellsThen(a, x + y, c, z, d);
  }

  // ---------------------------------------------------------------- expressions

  /** A parsed expression is spelled by the tokens it consumed. */
  lemma {:induction false} ExprSound(ts: seq<Token>, m: nat)
    ensures var r := ParseExpr(ts, m);
            r.POk? ==> Spells(ts, Render(r.value), r.rest)
    decreases |ts|, 3
  {
    UnarySound(ts);
    match ParseUnary(ts)
    case PErr(_) =>
    case POk(lhs, rest) => TailSound(lhs, rest, m, ts);
  }

  /** Each operator and right operand the tail folds in is spelled in turn. */
  lemma {:induction false} TailSound(lhs: Expr, ts: seq<Token>, m: nat, ts0: seq<Token>)
    requires Spells(ts0, Render(lhs), ts)
    ensures var r := ParseTail(lhs, ts, m);
            r.POk? ==> Spells(ts0, Render(r.value), r.rest)
    decreases |ts|, 0
  {
    if BinAtLeast(ts, m) {
      var op := BinOpAt(ts).value;
      var r := ParseExpr(ts[1..], BinLevel(op) + 1);
      ExprSound(ts[1..], BinLevel(op) + 1);
      if r.POk? {
        TailSpelledStep(lhs, ts, m, ts0, op, r.value, r.rest);
        TailSound(Binary(op, lhs, r.value), r.rest, m, ts0);
      }
    }
  }

  /** One round of the tail: the operator and its right operand join the
      left operand, spelled in turn. */
  lemma TailSpelledStep(lhs: Expr, ts: seq<Token>, m: nat, ts0: seq<Token>, op: BinOp, rhs: Expr, rest: seq<Token>)
    requires Spells(ts0, Render(lhs), ts) && BinAtLeast(ts, m) && BinOpAt(ts) == Some(op)
    requires ParseExpr(ts[1..], BinLevel(op) + 1) == POk(rhs, rest) && Spells(ts[1..], Render(rhs), rest)
    ensures ParseTail(lhs, ts, m) == ParseTail(Binary(op, lhs, rhs), rest, m)
    ensures Spells(ts0, Render(Binary(op, lhs, rhs)), rest)
  {
    TailStep(lhs, ts, m, op, rhs, rest);
    BinarySpelled(ts0, lhs, ts, op, rhs, rest);
  }

  lemma BinarySpelled(ts0: seq<Token>, lhs: Expr, ts: seq<Token>, op: BinOp, rhs: Expr, rest: seq<Token>)
    requires Spells(ts0, Render(lhs), ts) && BinOpAt(ts) == Some(op)
    requires Spells(ts[1..], Render(rhs), rest)
    ensures Spells(ts0, Render(Binary(op, lhs, rhs)), rest)
  {
    SpellsSym(ts, BinText(op));
    SpellsThen3(ts0, Render(lhs), ts, [Tok(Sym(BinText(op)))], ts[1..], Render(rhs), rest);
  }

  lemma {:induction false} UnarySound(ts: seq<Token>)
    ensures var r := ParseUnary(ts);
            r.POk? ==> Spells(ts, Render(r.value), r.rest)
    decreases |ts|, 2
  {
    if IsSym(ts, "-") || IsSym(ts, "!") {
      var op := if IsSym(ts, "-") then Neg else Not;
      ExprSound(ts[1..], UnLevel(op) + 1);
      var r := ParseExpr(ts[1..], UnLevel(op) + 1);
      if r.POk? {
        assert ParseUnary(ts) == POk(Unary(op, r.value), r.rest);
        UnaryOpSpelled(ts, op, r.value, r.rest);
      }
    } else {
      PrimarySound(ts);
    }
  }

  lemma UnaryOpSpelled(ts: seq<Token>, op: UnOp, x: Expr, rest: seq<Token>)
    requires IsSym(ts, UnText(op)) && Spells(ts[1..], Render(x), rest)
    ensures Spells(ts, Render(Unary(op, x)), rest)
  {
    SpellsSym(ts, UnText(op));
    SpellsThen(ts, [Tok(Sym(UnText(op)))], ts[1..], Render(x), rest);
  }

  lemma {:induction false} PrimarySound(ts: seq<Token>)
    ensures var r := ParsePrimary(ts);
            r.POk? ==> Spells(ts, Render(r.value), r.rest)
    decreases |ts|, 1
  {
    if ts != [] {
      SpellsFirst(ts);
      match ts[0].kind
      case Ident(n) =>
        if n != "true" && n != "false" && n !in Keywords && IsSym(ts[1..], "(") {
          CallSound(n, ts);
        }
      case Number(_) =>
      case Str(_) =>
      case Cmd(_) =>
      case Sym(s) =>
        if s == "(" {
          ParenSound(ts);
        } else if s == "[" {
          ListSound(ts[1..], "]");
          var r := ParseCommaSep(ts[1..], "]");
          if r.POk? {
            assert ParsePrimary(ts) == POk(ArrayLit(r.value), r.rest);
            ArraySpelled(ts, r.value, r.rest);
          }
        } else if s == "{" {
          PairsSound(ts[1..]);
          var r := ParsePairs(ts[1..]);
          if r.POk? {
            assert ParsePrimary(ts) == POk(MapLit(r.value), r.rest);
            MapSpelled(ts, r.value, r.rest);
          }
        }
    }
  }

  lemma ArraySpelled(ts: seq<Token>, items: seq<Expr>, rest: seq<Token>)
    requires IsSym(ts, "[") && Spells(ts[1..], RenderList(items) + [Tok(Sym("]"))], rest)
    ensures Spells(ts, Render(ArrayLit(items)), rest)
  {
    SpellsSym(ts, "[");
    SpellsThen(ts, [Tok(Sym("["))], ts[1..], RenderList(items) + [Tok(Sym("]"))], rest);
    assert [Tok(Sym("["))] + (RenderList(items) + [Tok(Sym("]"))]) == Render(ArrayLit(items));
  }

  lemma MapSpelled(ts: seq<Token>, pairs: seq<Pair>, rest: seq<Token>)
    requires IsSym(ts, "{") && Spells(ts[1..], RenderPairs(pairs) + [Tok(Sym("}"))], rest)
    ensures Spells(ts, Render(MapLit(pairs)), rest)
  {
    SpellsSym(ts, "{");
    SpellsThen(ts, [Tok(Sym("{"))], ts[1..], RenderPairs(pairs) + [Tok(Sym("}"))], rest);
    assert [Tok(Sym("{"))] + (RenderPairs(pairs) + [Tok(Sym("}"))]) == Render(MapLit(pairs));
  }

  lemma {:induction false} CallSound(n: string, ts: seq<Token>)
    requires |ts| > 0 && ts[0].kind == Ident(n) && IsName(n) && n != "true" && n != "false"
    requires IsSym(ts[1..], "(")
    ensures var r := ParsePrimary(ts);
            r.POk? ==> Spells(ts, Render(r.value), r.rest)
    decreases |ts|, 0
  {
    ListSound(ts[2..], ")");
    var r := ParseCommaSep(ts[2..], ")");
    if r.POk? {
      assert ParsePrimary(ts) == POk(CallExpr(n, r.value), r.rest);
      CallSpelled(n, ts, r.value, r.rest);
    }
  }

  lemma CallSpelled(n: string, ts: seq<Token>, args: seq<Expr>, rest: seq<Token>)
    requires |ts| > 0 && ts[0].kind == Ident(n) && IsSym(ts[1..], "(")
    requires Spells(ts[2..], RenderList(args) + [Tok(Sym(")"))], rest)
    ensures Spells(ts, Render(CallExpr(n, args)), rest)
  {
    SpellsFirst(ts);
    SpellsSym(ts[1..], "(");
    assert ts[1..][1..] == ts[2..];
    SpellsThen3(ts, [Tok(Ident(n))], ts[1..], [Tok(Sym("("))], ts[2..],
                RenderList(args) + [Tok(Sym(")"))], rest);
    assert [Tok(Ident(n))] + [Tok(Sym("("))] + (RenderList(args) + [Tok(Sym(")"))])
        == Render(CallExpr(n, args));
  }

  lemma {:induction false} ParenSound(ts: seq<Token>)
    requires IsSym(ts, "(")
    ensures var r := ParsePrimary(ts);
            r.POk? ==> Spells(ts, Render(r.value), r.rest)
    decreases |ts|, 0
  {
    ExprSound(ts[1..], ASSIGN);
    var r := ParseExpr(ts[1..], ASSIGN);
    if r.POk? && IsSym(r.rest, ")") {
      assert ParsePrimary(ts) == POk(Paren(r.value), r.rest[1..]);
      ParenSpelled(ts, r.value, r.rest);
    }
  }

  lemma ParenSpelled(ts: seq<Token>, x: Expr, rest: seq<Token>)
    requires IsSym(ts, "(") && Spells(ts[1..], Render(x), rest) && IsSym(rest, ")")
    ensures Spells(ts, Render(Paren(x)), rest[1..])
  {
    SpellsSym(ts, "(");
    SpellsSym(rest, ")");
    SpellsThen3(ts, [Tok(Sym("("))], ts[1..], Render(x), rest, [Tok(Sym(")"))], rest[1..]);
  }

  // ---------------------------------------------------------------- lists

  /** A parsed `commaSep` list is spelled by its items, the commas between
      them and the closing token. */
  lemma {:induction false} ListSound(ts: seq<Token>, close: string)
    ensures var r := ParseCommaSep(ts, close);
            r.POk? ==> Spells(ts, RenderList(r.value) + [Tok(Sym(close))], r.rest)
    decreases |ts|, 5
  {
    if IsSym(ts, close) {
      SpellsSym(ts, close);
      assert RenderList([]) + [Tok(Sym(close))] == [Tok(Sym(close))];
    } else {
      Comma1Sound(ts, close);
    }
  }

  lemma {:induction false} Comma1Sound(ts: seq<Token>, close: string)
    ensures var r := ParseCommaSep1(ts, close);
            r.POk? ==> Spells(ts, RenderList(r.value) + [Tok(Sym(close))], r.rest)
    decreases |ts|, 4
  {
    ExprSound(ts, ASSIGN);
    match ParseExpr(ts, ASSIGN)
    case PErr(_) =>
    case POk(x, rest) =>
      if IsSym(rest, ",") {
        Comma1Sound(rest[1..], close);
        match ParseCommaSep1(rest[1..], close)
        case PErr(_) =>
        case POk(xs, rest') =>
          SpellsSym(rest, ",");
          SpellsThen3(ts, Render(x), rest, [Tok(Sym(","))], rest[1..],
                      RenderList(xs) + [Tok(Sym(close))], rest');
          ListCons(x, xs, close);
      } else if IsSym(rest, close) {
        SpellsSym(rest, close);
        SpellsThen(ts, Render(x), rest, [Tok(Sym(close))], rest[1..]);
        assert RenderList([x]) == Render(x);
      }
  }

  lemma ListCons(x: Expr, xs: seq<Expr>, close: string)
    requires xs != []
    ensures Render(x) + [Tok(Sym(","))] + (RenderList(xs) + [Tok(Sym(close))])
         == RenderList([x] + xs) + [Tok(Sym(close))]
  {
    assert ([x] + xs)[1..] == xs;
  }

  /** A parsed map body is spelled by its pairs, the commas between them and
      the closing `}`. */
  lemma {:induction false} PairsSound(ts: seq<Token>)
    ensures var r := ParsePairs(ts);
            r.POk? ==> Spells(ts, RenderPairs(r.value) + [Tok(Sym("}"))], r.rest)
    decreases |ts|, 5
  {
    if IsSym(ts, "}") {
      SpellsSym(ts, "}");
      assert RenderPairs([]) + [Tok(Sym("}"))] == [Tok(Sym("}"))];
    } else {
      Pairs1Sound(ts);
    }
  }

  lemma {:induction false} Pairs1Sound(ts: seq<Token>)
    ensures var r := ParsePairs1(ts);
            r.POk? ==> Spells(ts, RenderPairs(r.value) + [Tok(Sym("}"))], r.rest)
    decreases |ts|, 4
  {
    if |ts| > 0 && IsNameKind(ts[0].kind) && IsSym(ts[1..], ":") {
      ExprSound(ts[2..], ASSIGN);
      match ParseExpr(ts[2..], ASSIGN)
      case PErr(_) =>
      case POk(v, rest) =>
        var p := Pair(ts[0].kind.name, v);
        PairSpelled(ts, v, rest);
        if IsSym(rest, ",") {
          Pairs1Sound(rest[1..]);
          match ParsePairs1(rest[1..])
          case PErr(_) =>
          case POk(ps, rest') =>
            SpellsSym(rest, ",");
            SpellsThen3(ts, RenderPair(p), rest, [Tok(Sym(","))], rest[1..],
                        RenderPairs(ps) + [Tok(Sym("}"))], rest');
            PairsCons(p, ps);
        } else if IsSym(rest, "}") {
          SpellsSym(rest, "}");
          SpellsThen(ts, RenderPair(p), rest, [Tok(Sym("}"))], rest[1..]);
          assert RenderPairs([p]) == RenderPair(p);
        }
    }
  }

  /** Key, `:` and value spell one pair. */
  lemma PairSpelled(ts: seq<Token>, v: Expr, rest: seq<Token>)
    requires |ts| > 1 && ts[0].kind.Ident? && IsSym(ts[1..], ":")
    requires Spells(ts[2..], Render(v), rest)
    ensures Spells(ts, RenderPair(Pair(ts[0].kind.name, v)), rest)
  {
    SpellsFirst(ts);
    SpellsSym(ts[1..], ":");
    assert ts[1..][1..] == ts[2..];
    SpellsThen3(ts, [Tok(ts[0].kind)], ts[1..], [Tok(Sym(":"))], ts[2..], Render(v), rest);
  }

  lemma PairsCons(p: Pair, ps: seq<Pair>)
    requires ps != []
    ensures RenderPair(p) + [Tok(Sym(","))] + (RenderPairs(ps) + [Tok(Sym("}"))])
         == RenderPairs([p] + ps) + [Tok(Sym("}"))]
  {
    assert ([p] + ps)[1..] == ps;
  }

  /** A parsed parameter list is spelled by its parameters, the commas between
      them and the closing `)`. */
  lemma {:induction false} ParamsSound(ts: seq<Token>)
    ensures var r := ParseParams(ts);
            r.POk? ==> Spells(ts, RenderParams(r.value) + [Tok(Sym(")"))], r.rest)
  {
    if IsSym(ts, ")") {
      SpellsSym(ts, ")");
      assert RenderParams([]) + [Tok(Sym(")"))] == [Tok(Sym(")"))];
    } else {
      Params1Sound(ts);
    }
  }

  lemma {:induction false} Params1Sound(ts: seq<Token>)
    ensures var r := ParseParams1(ts);
            r.POk? ==> Spells(ts, RenderParams(r.value) + [Tok(Sym(")"))], r.rest)
    decreases |ts|
  {
    match ParseParam(ts)
    case PErr(_) =>
    case POk(p, rest) =>
      ParamSpelled(ts);
      if IsSym(rest, ",") {
        Params1Sound(rest[1..]);
        match ParseParams1(rest[1..])
        case PErr(_) =>
        case POk(ps, rest') =>
          SpellsSym(rest, ",");
          SpellsThen3(ts, RenderParam(p), rest, [Tok(Sym(","))], rest[1..],
                      RenderParams(ps) + [Tok(Sym(")"))], rest');
          ParamsCons(p, ps);
      } else if IsSym(rest, ")") {
        SpellsSym(rest, ")");
        SpellsThen(ts, RenderParam(p), rest, [Tok(Sym(")"))], rest[1..]);
        assert RenderParams([p]) == RenderParam(p);
      }
  }

  /** A parsed parameter is spelled by its three tokens. */
  lemma ParamSpelled(ts: seq<Token>)
    ensures var r := ParseParam(ts);
            r.POk? ==> Spells(ts, RenderParam(r.value), r.rest)
  {
    if ParseParam(ts).POk? {
      SpellsFirst(ts);
      SpellsFirst(ts[1..]);
      SpellsFirst(ts[2..]);
      assert ts[1..][1..] == ts[2..] && ts[2..][1..] == ts[3..];
      SpellsThen3(ts, [Tok(ts[0].kind)], ts[1..], [Tok(ts[1].kind)], ts[2..], [Tok(ts[2].kind)], ts[3..]);
    }
  }

  lemma ParamsCons(p: Param, ps: seq<Param>)
    requires ps != []
    ensures RenderParam(p) + [Tok(Sym(","))] + (RenderParams(ps) + [Tok(Sym(")"))])
         == RenderParams([p] + ps) + [Tok(Sym(")"))]
  {
    assert ([p] + ps)[1..] == ps;
  }

  // ---------------------------------------------------------------- trailing commas

  /** A `,`, `)`, `]` or `}` cannot begin an expression. */
  lemma NoExpressionAt(s: string, rest: seq<Token>, m: nat)
    requires s in {",", ")", "]", "}"}
    ensures ParseExpr([Tok(Sym(s))] + rest, m) == PErr(UnexpectedToken("expression", Sym(s), 1 + |rest|))
  {
    var ts := [Tok(Sym(s))] + rest;
    assert ParsePrimary(ts) == PErr(UnexpectedToken("expression", Sym(s), |ts|));
  }

  /** An item followed by `,` and a remainder that fails fails the same way. */
  lemma CommaThenError(x: Expr, tail: seq<Token>, close: string, e: ParseError)
    requires Canonical(x) && ParseCommaSep1(tail, close) == PErr(e)
    ensures ParseCommaSep1(Render(x) + ([Tok(Sym(","))] + tail), close) == PErr(e)
  {
    var after := [Tok(Sym(","))] + tail;
    assert BinOpNamed(",") == None;
    ExprRoundTrip(x, after, ASSIGN);
    DropPrefix([Tok(Sym(","))], tail);
  }

  /** Several items, `,` and the closing token split into the first item, a `,` and what follows it. */
  lemma ListCommaSplit(es: seq<Expr>, close: string, rest: seq<Token>)
    requires |es| > 1
    ensures RenderList(es) + [Tok(Sym(",")), Tok(Sym(close))] + rest
         == Render(es[0]) + ([Tok(Sym(","))] + (RenderList(es[1..]) + [Tok(Sym(",")), Tok(Sym(close))] + rest))
  {
    var a, b, c := Render(es[0]), RenderList(es[1..]), [Tok(Sym(",")), Tok(Sym(close))];
    assert RenderList(es) == a + [Tok(Sym(","))] + b;
    Assoc5(a, [Tok(Sym(","))], b, c, rest);
  }

  /** `commaSep1` rejects a `,` directly before the closing token; the error
      names the closing token where an expression was expected. */
  lemma {:induction false} TrailingCommaRejected(es: seq<Expr>, close: string, rest: seq<Token>)
    requires CanonicalList(es) && es != [] && close in {")", "]"}
    ensures ParseCommaSep1(RenderList(es) + [Tok(Sym(",")), Tok(Sym(close))] + rest, close)
         == PErr(UnexpectedToken("expression", Sym(close), 1 + |rest|))
    decreases |es|
  {
    var e := UnexpectedToken("expression", Sym(close), 1 + |rest|);
    if |es| == 1 {
      var tail := [Tok(Sym(close))] + rest;
      assert RenderList(es) + [Tok(Sym(",")), Tok(Sym(close))] + rest == Render(es[0]) + ([Tok(Sym(","))] + tail);
      NoExpressionAt(close, rest, ASSIGN);
      CommaThenError(es[0], tail, close, e);
    } else {
      var tail := RenderList(es[1..]) + [Tok(Sym(",")), Tok(Sym(close))] + rest;
      ListCommaSplit(es, close, rest);
      TrailingCommaRejected(es[1..], close, rest);
      CommaThenError(es[0], tail, close, e);
    }
  }

  /** `commaSep` rejects a lone `,` with no item before it. */
  lemma LoneCommaRejected(ts: seq<Token>, close: string, w: seq<Token>)
    requires |ts| > 0 && ts[0] == Tok(Sym(",")) && ts[1..] == w && close in {")", "]"}
    ensures ParseCommaSep(ts, close) == PErr(UnexpectedToken("expression", Sym(","), 1 + |w|))
  {
    assert ts == [Tok(Sym(","))] + w;
    NoExpressionAt(",", w, ASSIGN);
    ListOpensWith(ts, close, Sym(","));
  }

  /** `commaSep` rejects a trailing `,` after one or more items. */
  lemma ItemsThenTrailingComma(es: seq<Expr>, close: string, rest: seq<Token>)
    requires CanonicalList(es) && es != [] && close in {")", "]"}
    ensures ParseCommaSep(RenderList(es) + [Tok(Sym(",")), Tok(Sym(close))] + rest, close)
         == PErr(UnexpectedToken("expression", Sym(close), 1 + |rest|))
  {
    var ts := RenderList(es) + [Tok(Sym(",")), Tok(Sym(close))] + rest;
    assert ts[0] == Render(es[0])[0] by {
      ListStart(es);
      Assoc(RenderList(es), [Tok(Sym(",")), Tok(Sym(close))], rest);
      FirstOf(RenderList(es), [Tok(Sym(",")), Tok(Sym(close))] + rest);
    }
    RenderStart(es[0]);
    ListOpensWith(ts, close, ts[0].kind);
    TrailingCommaRejected(es, close, rest);
  }

  /** A list of items starts with the first item. */
  lemma ListStart(es: seq<Expr>)
    requires CanonicalList(es) && es != []
    ensures RenderList(es) != [] && RenderList(es)[0] == Render(es[0])[0]
  {
    RenderStart(es[0]);
    if |es| > 1 {
      FirstOf(Render(es[0]), [Tok(Sym(","))] + RenderList(es[1..]));
      assert RenderList(es) == Render(es[0]) + ([Tok(Sym(","))] + RenderList(es[1..]));
    }
  }

  /** A list that does not open with its closing token is a `commaSep1`. */
  lemma ListOpensWith(ts: seq<Token>, close: string, k: Kind)
    requires |ts| > 0 && ts[0].kind == k && k != Sym(close)
    ensures ParseCommaSep(ts, close) == ParseCommaSep1(ts, close)
  {
  }

  /** A pair followed by `,` and a remainder that fails fails the same way. */
  lemma PairCommaThenError(p: Pair, tail: seq<Token>, e: ParseError)
    requires IsName(p.key) && Canonical(p.value) && ParsePairs1(tail) == PErr(e)
    ensures ParsePairs1(RenderPair(p) + ([Tok(Sym(","))] + tail)) == PErr(e)
  {
    var after := [Tok(Sym(","))] + tail;
    var ts := RenderPair(p) + after;
    assert ts == [Tok(Ident(p.key)), Tok(Sym(":"))] + (Render(p.value) + after);
    DropPrefix([Tok(Ident(p.key)), Tok(Sym(":"))], Render(p.value) + after);
    assert BinOpNamed(",") == None;
    ExprRoundTrip(p.value, after, ASSIGN);
    DropPrefix([Tok(Sym(","))], tail);
    assert IsSym(ts[1..], ":");
  }

  /** Several pairs, `,` and `}` split into the first pair, a `,` and what follows it. */
  lemma PairsCommaSplit(ps: seq<Pair>, rest: seq<Token>)
    requires |ps| > 1
    ensures RenderPairs(ps) + [Tok(Sym(",")), Tok(Sym("}"))] + rest
         == RenderPair(ps[0]) + ([Tok(Sym(","))] + (RenderPairs(ps[1..]) + [Tok(Sym(",")), Tok(Sym("}"))] + rest))
  {
    var a, b, c := RenderPair(ps[0]), RenderPairs(ps[1..]), [Tok(Sym(",")), Tok(Sym("}"))];
    assert RenderPairs(ps) == a + [Tok(Sym(","))] + b;
    Assoc5(a, [Tok(Sym(","))], b, c, rest);
  }

  /** A map body rejects a `,` directly before `}`; the error names the `}`
      where a key was expected. */
  lemma {:induction false} TrailingPairCommaRejected(ps: seq<Pair>, rest: seq<Token>)
    requires CanonicalPairs(ps) && ps != []
    ensures ParsePairs1(RenderPairs(ps) + [Tok(Sym(",")), Tok(Sym("}"))] + rest)
         == PErr(UnexpectedToken("map key", Sym("}"), 1 + |rest|))
    decreases |ps|
  {
    var e := UnexpectedToken("map key", Sym("}"), 1 + |rest|);
    if |ps| == 1 {
      var tail := [Tok(Sym("}"))] + rest;
      assert RenderPairs(ps) + [Tok(Sym(",")), Tok(Sym("}"))] + rest == RenderPair(ps[0]) + ([Tok(Sym(","))] + tail);
      PairCommaThenError(ps[0], tail, e);
    } else {
      var tail := RenderPairs(ps[1..]) + [Tok(Sym(",")), Tok(Sym("}"))] + rest;
      PairsCommaSplit(ps, rest);
      TrailingPairCommaRejected(ps[1..], rest);
      PairCommaThenError(ps[0], tail, e);
    }
  }

  /** `{ , }` is rejected at its comma. */
  lemma LonePairCommaRejected(ts: seq<Token>, w: seq<Token>)
    requires ts == [Tok(Sym(","))] + w
    ensures ParsePairs(ts) == PErr(UnexpectedToken("map key", Sym(","), 1 + |w|))
  {
    PairsOpensWith(ts, Sym(","));
  }

  lemma PairsThenTrailingComma(ps: seq<Pair>, rest: seq<Token>)
    requires CanonicalPairs(ps) && ps != []
    ensures ParsePairs(RenderPairs(ps) + [Tok(Sym(",")), Tok(Sym("}"))] + rest)
         == PErr(UnexpectedToken("map key", Sym("}"), 1 + |rest|))
  {
    var ts := RenderPairs(ps) + [Tok(Sym(",")), Tok(Sym("}"))] + rest;
    FirstOf(RenderPairs(ps), [Tok(Sym(",")), Tok(Sym("}"))] + rest);
    Assoc(RenderPairs(ps), [Tok(Sym(",")), Tok(Sym("}"))], rest);
    TrailingPairCommaRejected(ps, rest);
    PairsOpensWith(ts, ts[0].kind);
  }

  /** A map body that does not open with `}` is a `commaSep1`. */
  lemma PairsOpensWith(ts: seq<Token>, k: Kind)
    requires |ts| > 0 && ts[0].kind == k && k != Sym("}")
    ensures ParsePairs(ts) == ParsePairs1(ts)
  {
  }

  /** A parameter followed by `,` and a remainder that fails fails the same way. */
  lemma ParamCommaThenError(ts: seq<Token>, p: Param, tail: seq<Token>, e: ParseError)
    requires ParseParam(ts) == POk(p, [Tok(Sym(","))] + tail)
    requires ParseParams1(tail) == PErr(e)
    ensures ParseParams1(ts) == PErr(e)
  {
    DropPrefix([Tok(Sym(","))], tail);
  }

  /** A parameter list rejects a `,` directly before `)`; the error names the
      `)` where a parameter name was expected. */
  lemma {:induction false} TrailingParamCommaRejected(ps: seq<Param>, rest: seq<Token>)
    requires CanonicalParams(ps) && ps != []
    ensures ParseParams1(RenderParams(ps) + [Tok(Sym(",")), Tok(Sym(")"))] + rest)
         == PErr(UnexpectedToken("parameter name", Sym(")"), 1 + |rest|))
    decreases |ps|
  {
    var p := RenderParam(ps[0]);
    var ts := RenderParams(ps) + [Tok(Sym(",")), Tok(Sym(")"))] + rest;
    var tail := if |ps| == 1 then [Tok(Sym(")"))] + rest
                else RenderParams(ps[1..]) + [Tok(Sym(",")), Tok(Sym(")"))] + rest;
    if |ps| == 1 {
      assert RenderParams(ps) == p;
      assert ts == p + ([Tok(Sym(","))] + tail);
    } else {
      assert RenderParams(ps) == p + [Tok(Sym(","))] + RenderParams(ps[1..]);
      Assoc5(p, [Tok(Sym(","))], RenderParams(ps[1..]), [Tok(Sym(",")), Tok(Sym(")"))], rest);
      TrailingParamCommaRejected(ps[1..], rest);
    }
    ParamRead(ps[0], [Tok(Sym(","))] + tail);
    ParamCommaThenError(ts, ps[0], tail, UnexpectedToken("parameter name", Sym(")"), 1 + |rest|));
  }

  /** `f(, )` and a trailing `,` in a parameter list are both rejected. */
  lemma TrailingParamsCommaRejected(ps: seq<Param>, rest: seq<Token>)
    requires CanonicalParams(ps)
    ensures ParseParams(RenderParams(ps) + [Tok(Sym(",")), Tok(Sym(")"))] + rest)
         == if ps == [] then PErr(UnexpectedToken("parameter name", Sym(","), 2 + |rest|))
            else PErr(UnexpectedToken("parameter name", Sym(")"), 1 + |rest|))
  {
    if ps == [] {
      assert RenderParams(ps) + [Tok(Sym(",")), Tok(Sym(")"))] + rest == [Tok(Sym(",")), Tok(Sym(")"))] + rest;
    } else {
      FirstOf(RenderParams(ps), [Tok(Sym(",")), Tok(Sym(")"))] + rest);
      Assoc(RenderParams(ps), [Tok(Sym(",")), Tok(Sym(")"))], rest);
      TrailingParamCommaRejected(ps, rest);
    }
  }
}
