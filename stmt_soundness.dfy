/** The converse of the statement round trips: whatever the statement, block
    and definition parsers accept is the spelling of the tree they return,
    read from left to right. Two freedoms remain, the line-break flags and
    the separator after an assignment, a call or a `return`, which is a `;`
    or else nothing before a token on a new line. A block therefore accepts
    nothing but statements and its closing `}`, and a module nothing but its
    function definitions.

    The reading is defined on the tree, independently of the parser: each
    `Skip` function says where the spelling of a piece of tree ends when it
    is read from where `at` stands, or `None` when the tokens there do not
    spell it. */
module StmtSoundness {
  import opened Wrappers
  import opened Precedence
  import opened Lexer
  import opened Syntax
  import opened Parser
  import opened StmtProofs
  import opened ParseSoundness

  // ---------------------------------------------------------------- reading a tree

  /** Where a reading stands after `toks` (line-break flags aside), from
      where `at` stands; `None` once the reading has failed. */
  function After(at: Option<seq<Token>>, toks: seq<Token>): (r: Option<seq<Token>>)
    ensures r.Some? ==> at.Some? && Spells(at.value, toks, r.value)
  {
    match at
    case None => None
    case Some(ts) =>
      if |toks| <= |ts| && Erase(ts[..|toks|]) == toks then Some(ts[|toks|..]) else None
  }

  /** The separator after an assignment, a call or a `return`: a `;`, which
      is read, or a token on a new line, which is left for the next statement. */
  function Closed(at: Option<seq<Token>>): (r: Option<seq<Token>>)
    ensures r.Some? ==> at.Some? && (Spells(at.value, [Tok(Sym(";"))], r.value)
                                     || (r == at && |r.value| > 0 && r.value[0].nl))
  {
    match at
    case None => None
    case Some(ts) =>
      if IsSym(ts, ";") then Some(ts[1..])
      else if |ts| > 0 && ts[0].nl then at
      else None
  }

  /** Reads nothing, but fails unless the next token is on the current line. */
  function SameLine(at: Option<seq<Token>>): Option<seq<Token>> {
    match at
    case None => None
    case Some(ts) => if |ts| > 0 && !ts[0].nl then at else None
  }

  function SkipStmt(at: Option<seq<Token>>, s: Stmt): Option<seq<Token>>
    decreases StmtSize(s), 4
  {
    match s
    case Command(t) => After(at, [Tok(Cmd(t))])
    case If(first, elifs, other) =>
      SkipElse(SkipElseIfs(SkipArm(After(at, [Tok(Ident("if"))]), first), elifs), other)
    case For(x, it, body) =>
      SkipArm(After(at, [Tok(Ident("for")), Tok(Ident(x)), Tok(Ident("in"))]), Arm(it, body))
    case While(c, body) => SkipArm(After(at, [Tok(Ident("while"))]), Arm(c, body))
    case Repeat(c, body) => SkipArm(After(at, [Tok(Ident("repeat"))]), Arm(c, body))
    case Case(x, entries) =>
      var open := [Tok(Ident("case"))] + Render(x) + [Tok(Sym("{"))];
      After(SkipEntries(After(at, open), entries), [Tok(Sym("}"))])
    case Assign(x, v) => Closed(After(at, [Tok(Ident(x)), Tok(Sym("="))] + Render(v)))
    case CallStmt(f, args) =>
      Closed(After(at, [Tok(Ident(f)), Tok(Sym("("))] + RenderList(args) + [Tok(Sym(")"))]))
    case Return(None) => Closed(After(at, [Tok(Ident("return"))]))
    case Return(Some(v)) => Closed(After(SameLine(After(at, [Tok(Ident("return"))])), Render(v)))
  }

  /** The statements in order, without the closing `}`. */
  function SkipStmts(at: Option<seq<Token>>, ss: seq<Stmt>): Option<seq<Token>>
    decreases StmtsSize(ss), 0
  {
    if ss == [] then at else SkipStmts(SkipStmt(at, ss[0]), ss[1..])
  }

  function SkipBlock(at: Option<seq<Token>>, b: Block): Option<seq<Token>>
    decreases BlockSize(b), 1
  {
    After(SkipStmts(After(at, [Tok(Sym("{"))]), b.stmts), [Tok(Sym("}"))])
  }

  function SkipArm(at: Option<seq<Token>>, a: Arm): Option<seq<Token>>
    decreases ArmSize(a), 2
  {
    SkipBlock(After(at, Render(a.cond)), a.body)
  }

  /** `else if` arms, each introduced by both words. */
  function SkipElseIfs(at: Option<seq<Token>>, arms: seq<Arm>): Option<seq<Token>>
    decreases ArmsSize(arms), 3
  {
    if arms == [] then at
    else SkipElseIfs(SkipArm(After(at, [Tok(Ident("else")), Tok(Ident("if"))]), arms[0]), arms[1..])
  }

  function SkipElse(at: Option<seq<Token>>, other: Option<Arm>): Option<seq<Token>>
    decreases if other.Some? then ArmSize(other.value) else 0, 3
  {
    match other
    case None => at
    case Some(a) => SkipArm(After(at, [Tok(Ident("else"))]), a)
  }

  /** The entries of a `case` in order, without the closing `}`. */
  function SkipEntries(at: Option<seq<Token>>, arms: seq<Arm>): Option<seq<Token>>
    decreases ArmsSize(arms), 3
  {
    if arms == [] then at else SkipEntries(SkipArm(at, arms[0]), arms[1..])
  }

  function SkipDef(at: Option<seq<Token>>, d: FunctionDef): Option<seq<Token>> {
    var head := [Tok(Ident(d.name)), Tok(Sym("("))] + RenderParams(d.params) + [Tok(Sym(")"))];
    var ret := match d.retType case None => [] case Some(t) => [Tok(Sym(":")), Tok(Ident(t))];
    SkipBlock(After(After(at, head), ret), d.body)
  }

  function SkipDefs(at: Option<seq<Token>>, ds: seq<FunctionDef>): Option<seq<Token>>
    decreases |ds|
  {
    if ds == [] then at else SkipDefs(SkipDef(at, ds[0]), ds[1..])
  }

  /** `After` reads exactly what `Spells` describes. */
  lemma AfterSpells(ts: seq<Token>, toks: seq<Token>, rest: seq<Token>)
    requires Spells(ts, toks, rest)
    ensures After(Some(ts), toks) == Some(rest)
  {
    assert |Erase(ts[..|ts| - |rest|])| == |ts| - |rest|;
  }

  /** Reading the first token of `ts`, which has kind `k`. */
  lemma AfterFirst(ts: seq<Token>, k: Kind)
    requires |ts| > 0 && ts[0].kind == k
    ensures After(Some(ts), [Tok(k)]) == Some(ts[1..])
  {
    SpellsFirst(ts);
    AfterSpells(ts, [Tok(k)], ts[1..]);
  }

  /** Reading the first two tokens of `ts`, of kinds `k` and `k2`. */
  lemma AfterTwo(ts: seq<Token>, k: Kind, k2: Kind)
    requires |ts| > 1 && ts[0].kind == k && ts[1].kind == k2
    ensures After(Some(ts), [Tok(k), Tok(k2)]) == Some(ts[2..])
  {
    SpellsFirst(ts);
    SpellsFirst(ts[1..]);
    assert ts[1..][1..] == ts[2..];
    SpellsThen(ts, [Tok(k)], ts[1..], [Tok(k2)], ts[2..]);
    AfterSpells(ts, [Tok(k), Tok(k2)], ts[2..]);
  }

  /** The separator the parser reads is the one `Closed` reads. */
  lemma SeparatorClosed(s: Stmt, ts: seq<Token>)
    ensures var r := Separated(s, ts);
            r.POk? ==> r.value == s && Closed(Some(ts)) == Some(r.rest)
  {}

  // ---------------------------------------------------------------- statements

  /** Statements up to the closing `}`: the parser reads the spelling of the
      statements it returns, then the `}`, and nothing else. */
  lemma {:induction false} StmtsSound(ts: seq<Token>)
    ensures var r := ParseStmts(ts);
            r.POk? ==> After(SkipStmts(Some(ts), r.value), [Tok(Sym("}"))]) == Some(r.rest)
    decreases |ts|, 2
  {
    if IsSym(ts, "}") {
      AfterFirst(ts, Sym("}"));
    } else if ts != [] {
      StmtSound(ts);
      match ParseStmt(ts)
      case PErr(_) =>
      case POk(s, rest) =>
        StmtsSound(rest);
        match ParseStmts(rest)
        case PErr(_) =>
        case POk(ss, _) =>
          assert ([s] + ss)[0] == s && ([s] + ss)[1..] == ss;
    }
  }

  /** One statement: the parser reads exactly its spelling. */
  lemma {:induction false} StmtSound(ts: seq<Token>)
    ensures var r := ParseStmt(ts);
            r.POk? ==> SkipStmt(Some(ts), r.value) == Some(r.rest)
    decreases |ts|, 1
  {
    if ts != [] {
      match ts[0].kind
      case Cmd(t) => AfterFirst(ts, Cmd(t));
      case Ident(n) =>
        if n == "if" {
          IfSound(ts);
        } else if n == "for" {
          ForSound(ts);
        } else if n == "while" || n == "repeat" {
          LoopSound(ts, n);
        } else if n == "case" {
          CaseSound(ts);
        } else if n == "return" {
          ReturnSound(ts);
        } else if n !in Keywords {
          NamedSound(ts, n);
        }
      case _ =>
    }
  }

  lemma {:induction false} IfSound(ts: seq<Token>)
    requires |ts| > 0 && ts[0].kind == Ident("if")
    ensures var r := ParseIf(ts[1..]);
            r.POk? ==> SkipStmt(Some(ts), r.value) == Some(r.rest)
    decreases |ts|, 0
  {
    AfterFirst(ts, Ident("if"));
    ArmSound(ts[1..]);
    match ParseArm(ts[1..])
    case PErr(_) =>
    case POk(_, rest) => ElseArmsSound(rest);
  }

  lemma {:induction false} ForSound(ts: seq<Token>)
    requires |ts| > 0 && ts[0].kind == Ident("for")
    ensures var r := ParseFor(ts[1..]);
            r.POk? ==> SkipStmt(Some(ts), r.value) == Some(r.rest)
    decreases |ts|, 0
  {
    var u := ts[1..];
    if |u| > 0 && IsNameKind(u[0].kind) && IsWord(u[1..], "in") {
      ForHead(ts);
      ArmSound(u[2..]);
    }
  }

  /** `for x in` is read up to the arm. */
  lemma ForHead(ts: seq<Token>)
    requires |ts| > 2 && ts[0].kind == Ident("for") && ts[1].kind.Ident? && ts[2].kind == Ident("in")
    ensures After(Some(ts), [Tok(Ident("for")), Tok(ts[1].kind), Tok(Ident("in"))]) == Some(ts[3..])
  {
    AfterTwo(ts, Ident("for"), ts[1].kind);
    SpellsFirst(ts[2..]);
    assert ts[2..][1..] == ts[3..];
    SpellsThen(ts, [Tok(Ident("for")), Tok(ts[1].kind)], ts[2..], [Tok(Ident("in"))], ts[3..]);
    AfterSpells(ts, [Tok(Ident("for")), Tok(ts[1].kind), Tok(Ident("in"))], ts[3..]);
  }

  /** `while` and `repeat`: the keyword, then an arm. */
  lemma {:induction false} LoopSound(ts: seq<Token>, w: string)
    requires |ts| > 0 && ts[0].kind == Ident(w) && (w == "while" || w == "repeat")
    ensures var r := if w == "while" then ParseWhile(ts[1..]) else ParseRepeat(ts[1..]);
            r.POk? ==> SkipStmt(Some(ts), r.value) == Some(r.rest)
    decreases |ts|, 0
  {
    AfterFirst(ts, Ident(w));
    ArmSound(ts[1..]);
  }

  lemma {:induction false} CaseSound(ts: seq<Token>)
    requires |ts| > 0 && ts[0].kind == Ident("case")
    ensures var r := ParseCase(ts[1..]);
            r.POk? ==> SkipStmt(Some(ts), r.value) == Some(r.rest)
    decreases |ts|, 0
  {
    var u := ts[1..];
    ExprSound(u, ASSIGN);
    match ParseExpr(u, ASSIGN)
    case PErr(_) =>
    case POk(x, mid) =>
      if IsSym(mid, "{") {
        CaseHead(ts, x, mid);
        EntriesSound(mid[1..]);
      }
  }

  /** `case`, the scrutinee and `{` are read up to the entries. */
  lemma CaseHead(ts: seq<Token>, x: Expr, mid: seq<Token>)
    requires |ts| > 0 && ts[0].kind == Ident("case")
    requires Spells(ts[1..], Render(x), mid) && IsSym(mid, "{")
    ensures After(Some(ts), [Tok(Ident("case"))] + Render(x) + [Tok(Sym("{"))]) == Some(mid[1..])
  {
    SpellsFirst(ts);
    SpellsSym(mid, "{");
    SpellsThen3(ts, [Tok(Ident("case"))], ts[1..], Render(x), mid, [Tok(Sym("{"))], mid[1..]);
    AfterSpells(ts, [Tok(Ident("case"))] + Render(x) + [Tok(Sym("{"))], mid[1..]);
  }

  /** `return`: a value only when one starts on the same line, then the separator. */
  lemma ReturnSound(ts: seq<Token>)
    requires |ts| > 0 && ts[0].kind == Ident("return")
    ensures var r := ParseReturn(ts[1..]);
            r.POk? ==> SkipStmt(Some(ts), r.value) == Some(r.rest)
  {
    var u := ts[1..];
    AfterFirst(ts, Ident("return"));
    if u == [] || IsSym(u, ";") || u[0].nl {
      SeparatorClosed(Return(None), u);
    } else {
      ExprSound(u, ASSIGN);
      match ParseExpr(u, ASSIGN)
      case PErr(_) =>
      case POk(v, mid) =>
        AfterSpells(u, Render(v), mid);
        SeparatorClosed(Return(Some(v)), mid);
    }
  }

  /** An assignment or a call statement, after its name. */
  lemma NamedSound(ts: seq<Token>, n: string)
    requires |ts| > 0 && ts[0].kind == Ident(n) && n !in Keywords
    ensures var r := ParseNamed(n, ts[1..]);
            r.POk? ==> SkipStmt(Some(ts), r.value) == Some(r.rest)
  {
    if IsSym(ts[1..], "=") {
      AssignSound(ts, n);
    } else if IsSym(ts[1..], "(") {
      CallStmtSound(ts, n);
    }
  }

  lemma AssignSound(ts: seq<Token>, n: string)
    requires |ts| > 1 && ts[0].kind == Ident(n) && n !in Keywords && ts[1].kind == Sym("=")
    ensures var r := ParseNamed(n, ts[1..]);
            r.POk? ==> SkipStmt(Some(ts), r.value) == Some(r.rest)
  {
    assert ts[1..][1..] == ts[2..];
    ExprSound(ts[2..], ASSIGN);
    match ParseExpr(ts[2..], ASSIGN)
    case PErr(_) =>
    case POk(v, mid) =>
      NamedHead(ts, n, "=", Render(v), mid);
      SeparatorClosed(Assign(n, v), mid);
  }

  lemma CallStmtSound(ts: seq<Token>, n: string)
    requires |ts| > 1 && ts[0].kind == Ident(n) && n !in Keywords && ts[1].kind == Sym("(")
    ensures var r := ParseNamed(n, ts[1..]);
            r.POk? ==> SkipStmt(Some(ts), r.value) == Some(r.rest)
  {
    assert ts[1..][1..] == ts[2..];
    ListSound(ts[2..], ")");
    match ParseCommaSep(ts[2..], ")")
    case PErr(_) =>
    case POk(args, mid) =>
      NamedHead(ts, n, "(", RenderList(args) + [Tok(Sym(")"))], mid);
      assert [Tok(Ident(n)), Tok(Sym("("))] + (RenderList(args) + [Tok(Sym(")"))])
          == [Tok(Ident(n)), Tok(Sym("("))] + RenderList(args) + [Tok(Sym(")"))];
      SeparatorClosed(CallStmt(n, args), mid);
  }

  /** A name, a symbol and what the parser read after them. */
  lemma NamedHead(ts: seq<Token>, n: string, s: string, body: seq<Token>, mid: seq<Token>)
    requires |ts| > 1 && ts[0].kind == Ident(n) && ts[1].kind == Sym(s)
    requires Spells(ts[2..], body, mid)
    ensures After(Some(ts), [Tok(Ident(n)), Tok(Sym(s))] + body) == Some(mid)
  {
    AfterTwo(ts, Ident(n), Sym(s));
    SpellsThen(ts, [Tok(Ident(n)), Tok(Sym(s))], ts[2..], body, mid);
    AfterSpells(ts, [Tok(Ident(n)), Tok(Sym(s))] + body, mid);
  }

  // ---------------------------------------------------------------- blocks and arms

  lemma {:induction false} BlockSound(ts: seq<Token>)
    ensures var r := ParseBlock(ts);
            r.POk? ==> SkipBlock(Some(ts), r.value) == Some(r.rest)
    decreases |ts|, 0
  {
    if IsSym(ts, "{") {
      AfterFirst(ts, Sym("{"));
      StmtsSound(ts[1..]);
    }
  }

  lemma {:induction false} ArmSound(ts: seq<Token>)
    ensures var r := ParseArm(ts);
            r.POk? ==> SkipArm(Some(ts), r.value) == Some(r.rest)
    decreases |ts|, 0
  {
    ExprSound(ts, ASSIGN);
    match ParseExpr(ts, ASSIGN)
    case PErr(_) =>
    case POk(c, mid) =>
      AfterSpells(ts, Render(c), mid);
      BlockSound(mid);
  }

  /** The arms after the first block of an `if`. */
  lemma {:induction false} ElseArmsSound(ts: seq<Token>)
    ensures var r := ParseElseArms(ts);
            r.POk? ==> SkipElse(SkipElseIfs(Some(ts), r.value.0), r.value.1) == Some(r.rest)
    decreases |ts|, 0
  {
    if IsWord(ts, "else") {
      if IsWord(ts[1..], "if") {
        AfterTwo(ts, Ident("else"), Ident("if"));
        ArmSound(ts[2..]);
        match ParseArm(ts[2..])
        case PErr(_) =>
        case POk(arm, rest) =>
          ElseArmsSound(rest);
          match ParseElseArms(rest)
          case PErr(_) =>
          case POk(more, _) =>
            assert ([arm] + more.0)[0] == arm && ([arm] + more.0)[1..] == more.0;
      } else {
        AfterFirst(ts, Ident("else"));
        ArmSound(ts[1..]);
      }
    }
  }

  /** The entries of a `case` up to the closing `}`. */
  lemma {:induction false} EntriesSound(ts: seq<Token>)
    ensures var r := ParseEntries(ts);
            r.POk? ==> After(SkipEntries(Some(ts), r.value), [Tok(Sym("}"))]) == Some(r.rest)
    decreases |ts|, 1
  {
    if IsSym(ts, "}") {
      AfterFirst(ts, Sym("}"));
    } else if ts != [] {
      ArmSound(ts);
      match ParseArm(ts)
      case PErr(_) =>
      case POk(arm, rest) =>
        EntriesSound(rest);
        match ParseEntries(rest)
        case PErr(_) =>
        case POk(arms, _) =>
          assert ([arm] + arms)[0] == arm && ([arm] + arms)[1..] == arms;
    }
  }

  // ---------------------------------------------------------------- definitions

  lemma DefSound(ts: seq<Token>)
    ensures var r := ParseDef(ts);
            r.POk? ==> SkipDef(Some(ts), r.value) == Some(r.rest)
  {
    if |ts| > 0 && IsNameKind(ts[0].kind) && IsSym(ts[1..], "(") {
      ParamsSound(ts[2..]);
      match ParseParams(ts[2..])
      case PErr(_) =>
      case POk(ps, mid) =>
        NamedHead(ts, ts[0].kind.name, "(", RenderParams(ps) + [Tok(Sym(")"))], mid);
        assert [Tok(Ident(ts[0].kind.name)), Tok(Sym("("))] + (RenderParams(ps) + [Tok(Sym(")"))])
            == [Tok(Ident(ts[0].kind.name)), Tok(Sym("("))] + RenderParams(ps) + [Tok(Sym(")"))];
        if IsSym(mid, ":") {
          if |mid| > 1 && IsNameKind(mid[1].kind) {
            AfterTwo(mid, Sym(":"), mid[1].kind);
            BlockSound(mid[2..]);
          }
        } else {
          assert After(Some(mid), []) == Some(mid) by { assert mid[..0] == []; }
          BlockSound(mid);
        }
    }
  }

  lemma {:induction false} DefsSound(ts: seq<Token>)
    ensures var r := ParseDefs(ts);
            r.POk? ==> SkipDefs(Some(ts), r.value) == Some([])
    decreases |ts|
  {
    if ts != [] {
      DefSound(ts);
      match ParseDef(ts)
      case PErr(_) =>
      case POk(d, rest) =>
        DefsSound(rest);
        match ParseDefs(rest)
        case PErr(_) =>
        case POk(ds, _) =>
          assert ([d] + ds)[0] == d && ([d] + ds)[1..] == ds;
    }
  }

  /** A module the parser accepts is the spelling of its definitions, one
      after the other, up to the end of the input. */
  lemma ModuleSound(ts: seq<Token>)
    ensures var r := ParseTokens(ts);
            r.Parsed? ==> SkipDefs(Some(ts), r.tree.defs) == Some([])
  {
    DefsSound(ts);
  }

  // ---------------------------------------------------------------- rejections

  /** Only commands and the words that begin statements start a statement:
      any other token, such as a stray `;`, is reported where it stands. */
  lemma NoStatementAt(k: Kind, nl: bool, rest: seq<Token>)
    requires !k.Cmd? && (k.Ident? ==> k.name in {"else", "in", "true", "false"})
    ensures ParseStmt([Token(k, nl)] + rest) == PErr(UnexpectedToken("statement", k, 1 + |rest|))
  {
    var ts := [Token(k, nl)] + rest;
    assert ts[0].kind == k && |ts| == 1 + |rest|;
    if k.Ident? {
      assert k.name in Keywords;
    }
  }

  /** Inside a block, such a token is an error too, not something to skip. */
  lemma StrayTokenInBlock(k: Kind, nl: bool, rest: seq<Token>)
    requires !k.Cmd? && (k.Ident? ==> k.name in {"else", "in", "true", "false"}) && k != Sym("}")
    ensures ParseStmts([Token(k, nl)] + rest) == PErr(UnexpectedToken("statement", k, 1 + |rest|))
  {
    NoStatementAt(k, nl, rest);
  }
}
