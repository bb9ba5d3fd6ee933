/** The abstract syntax of Spade (module, function definitions, typed
    parameters, blocks, statements, expressions), together with two
    specification aids: Render, which spells a tree back as the tokens it was
    written with, and Canonical, which says that a tree respects the operator
    levels and associativity (so that its rendering reads back as the same
    tree). */
module Syntax {
  import opened Wrappers
  import opened Precedence
  import opened Lexer

  // ---------------------------------------------------------------- the tree

  datatype Expr =
    | Id(name: string)
    | BoolLit(b: bool)
    | Num(digits: string)
    | StrLit(body: string)
    | ArrayLit(items: seq<Expr>)
    | MapLit(pairs: seq<Pair>)
    | CallExpr(callee: string, args: seq<Expr>)
    | Unary(uop: UnOp, operand: Expr)
    | Binary(op: BinOp, left: Expr, right: Expr)
    | Paren(inner: Expr)

  datatype Pair = Pair(key: string, value: Expr)

  /** A condition (or case value, or else_condition) followed by a block. */
  datatype Arm = Arm(cond: Expr, body: Block)

  datatype Block = Block(stmts: seq<Stmt>)

  datatype Stmt =
    | Command(text: string)
    | If(first: Arm, elseIfs: seq<Arm>, elseArm: Option<Arm>)
    | For(name: string, iterable: Expr, body: Block)
    | While(cond: Expr, body: Block)
    | Repeat(count: Expr, body: Block)
    | Case(scrutinee: Expr, entries: seq<Arm>)
    | Assign(target: string, value: Expr)
    | CallStmt(callee: string, args: seq<Expr>)
    | Return(result: Option<Expr>)

  datatype Param = Param(name: string, typ: string)

  datatype FunctionDef = FunctionDef(name: string, params: seq<Param>, retType: Option<string>, body: Block)

  datatype Module = Module(defs: seq<FunctionDef>)

  /** Words that the identifier rule matches but that are keywords. */
  const Keywords: set<string> :=
    {"if", "else", "for", "in", "while", "repeat", "case", "return", "true", "false"}

  /** An identifier token that is usable as a name. */
  predicate IsNameKind(k: Kind) {
    k.Ident? && k.name !in Keywords
  }

  // ---------------------------------------------------------------- sizes

  function Size(e: Expr): (n: nat)
    ensures n >= 1
  {
    match e
    case Id(_) => 1
    case BoolLit(_) => 1
    case Num(_) => 1
    case StrLit(_) => 1
    case ArrayLit(items) => 1 + ListSize(items)
    case MapLit(pairs) => 1 + PairsSize(pairs)
    case CallExpr(_, args) => 1 + ListSize(args)
    case Unary(_, x) => 1 + Size(x)
    case Binary(_, l, r) => 1 + Size(l) + Size(r)
    case Paren(x) => 1 + Size(x)
  }

  function ListSize(es: seq<Expr>): nat {
    if es == [] then 0 else Size(es[0]) + ListSize(es[1..])
  }

  function PairsSize(ps: seq<Pair>): nat {
    if ps == [] then 0 else 1 + Size(ps[0].value) + PairsSize(ps[1..])
  }

  // ---------------------------------------------------------------- rendering

  function Tok(k: Kind): Token { Token(k, false) }

  function Render(e: Expr): (ts: seq<Token>)
    ensures |ts| > 0
  {
    match e
    case Id(n) => [Tok(Ident(n))]
    case BoolLit(b) => [Tok(Ident(if b then "true" else "false"))]
    case Num(d) => [Tok(Number(d))]
    case StrLit(b) => [Tok(Str(b))]
    case ArrayLit(items) => [Tok(Sym("["))] + RenderList(items) + [Tok(Sym("]"))]
    case MapLit(pairs) => [Tok(Sym("{"))] + RenderPairs(pairs) + [Tok(Sym("}"))]
    case CallExpr(f, args) => [Tok(Ident(f)), Tok(Sym("("))] + RenderList(args) + [Tok(Sym(")"))]
    case Unary(op, x) => [Tok(Sym(UnText(op)))] + Render(x)
    case Binary(op, l, r) => Render(l) + [Tok(Sym(BinText(op)))] + Render(r)
    case Paren(x) => [Tok(Sym("("))] + Render(x) + [Tok(Sym(")"))]
  }

  /** `commaSep`: the items separated by `,`, no trailing comma. */
  function RenderList(es: seq<Expr>): seq<Token> {
    if es == [] then []
    else if |es| == 1 then Render(es[0])
    else Render(es[0]) + [Tok(Sym(","))] + RenderList(es[1..])
  }

  function RenderPair(p: Pair): seq<Token> {
    [Tok(Ident(p.key)), Tok(Sym(":"))] + Render(p.value)
  }

  function RenderPairs(ps: seq<Pair>): seq<Token> {
    if ps == [] then []
    else if |ps| == 1 then RenderPair(ps[0])
    else RenderPair(ps[0]) + [Tok(Sym(","))] + RenderPairs(ps[1..])
  }

  function RenderBlock(b: Block): seq<Token> {
    [Tok(Sym("{"))] + RenderStmts(b.stmts) + [Tok(Sym("}"))]
  }

  function RenderStmts(ss: seq<Stmt>): seq<Token> {
    if ss == [] then [] else RenderStmt(ss[0]) + RenderStmts(ss[1..])
  }

  function RenderArm(a: Arm): seq<Token> {
    Render(a.cond) + RenderBlock(a.body)
  }

  function RenderElseIfs(arms: seq<Arm>): seq<Token> {
    if arms == [] then [] else [Tok(Ident("else")), Tok(Ident("if"))] + RenderArm(arms[0]) + RenderElseIfs(arms[1..])
  }

  function RenderElse(a: Option<Arm>): seq<Token> {
    match a
    case None => []
    case Some(arm) => [Tok(Ident("else"))] + RenderArm(arm)
  }

  function RenderEntries(arms: seq<Arm>): seq<Token> {
    if arms == [] then [] else RenderArm(arms[0]) + RenderEntries(arms[1..])
  }

  /** A statement; assignments, calls and returns are closed by `;`. */
  function RenderStmt(s: Stmt): (ts: seq<Token>)
    ensures |ts| > 0
  {
    match s
    case Command(t) => [Tok(Cmd(t))]
    case If(first, elifs, other) =>
      [Tok(Ident("if"))] + RenderArm(first) + RenderElseIfs(elifs) + RenderElse(other)
    case For(x, it, body) => [Tok(Ident("for")), Tok(Ident(x)), Tok(Ident("in"))] + Render(it) + RenderBlock(body)
    case While(c, body) => [Tok(Ident("while"))] + Render(c) + RenderBlock(body)
    case Repeat(c, body) => [Tok(Ident("repeat"))] + Render(c) + RenderBlock(body)
    case Case(x, entries) => [Tok(Ident("case"))] + Render(x) + [Tok(Sym("{"))] + RenderEntries(entries) + [Tok(Sym("}"))]
    case Assign(x, v) => [Tok(Ident(x)), Tok(Sym("="))] + Render(v) + [Tok(Sym(";"))]
    case CallStmt(f, args) => [Tok(Ident(f)), Tok(Sym("("))] + RenderList(args) + [Tok(Sym(")")), Tok(Sym(";"))]
    case Return(None) => [Tok(Ident("return")), Tok(Sym(";"))]
    case Return(Some(v)) => [Tok(Ident("return"))] + Render(v) + [Tok(Sym(";"))]
  }

  function RenderParam(p: Param): seq<Token> {
    [Tok(Ident(p.name)), Tok(Sym(":")), Tok(Ident(p.typ))]
  }

  function RenderParams(ps: seq<Param>): seq<Token> {
    if ps == [] then []
    else if |ps| == 1 then RenderParam(ps[0])
    else RenderParam(ps[0]) + [Tok(Sym(","))] + RenderParams(ps[1..])
  }

  function RenderDef(d: FunctionDef): seq<Token> {
    [Tok(Ident(d.name)), Tok(Sym("("))] + RenderParams(d.params) + [Tok(Sym(")"))]
    + (match d.retType case None => [] case Some(t) => [Tok(Sym(":")), Tok(Ident(t))])
    + RenderBlock(d.body)
  }

  function RenderDefs(ds: seq<FunctionDef>): seq<Token> {
    if ds == [] then [] else RenderDef(ds[0]) + RenderDefs(ds[1..])
  }

  // ---------------------------------------------------------------- canonical trees

  predicate IsName(n: string) { n !in Keywords }

  /** The operator at the root of `e`, if it is a binary expression, binds at least at level `m`. */
  predicate AtLeast(e: Expr, m: nat) {
    e.Binary? ==> BinLevel(e.op) >= m
  }

  /** A tree the parser can produce: names are not keywords, and every
      binary node's children respect the levels and left associativity: the left
      child binds at least as tightly, the right child strictly more tightly,
      and a unary operand binds more tightly than the unary operator. */
  predicate Canonical(e: Expr) {
    match e
    case Id(n) => IsName(n)
    case BoolLit(_) => true
    case Num(_) => true
    case StrLit(_) => true
    case ArrayLit(items) => CanonicalList(items)
    case MapLit(pairs) => CanonicalPairs(pairs)
    case CallExpr(f, args) => IsName(f) && CanonicalList(args)
    case Unary(op, x) => Canonical(x) && AtLeast(x, UnLevel(op) + 1)
    case Binary(op, l, r) =>
      Canonical(l) && AtLeast(l, BinLevel(op)) && Canonical(r) && AtLeast(r, BinLevel(op) + 1)
    case Paren(x) => Canonical(x)
  }

  predicate CanonicalList(es: seq<Expr>) {
    es == [] || (Canonical(es[0]) && CanonicalList(es[1..]))
  }

  predicate CanonicalPairs(ps: seq<Pair>) {
    ps == [] || (IsName(ps[0].key) && Canonical(ps[0].value) && CanonicalPairs(ps[1..]))
  }

  predicate CanonicalBlock(b: Block) {
    CanonicalStmts(b.stmts)
  }

  predicate CanonicalStmts(ss: seq<Stmt>) {
    ss == [] || (CanonicalStmt(ss[0]) && CanonicalStmts(ss[1..]))
  }

  predicate CanonicalArm(a: Arm) {
    Canonical(a.cond) && CanonicalBlock(a.body)
  }

  predicate CanonicalArms(arms: seq<Arm>) {
    arms == [] || (CanonicalArm(arms[0]) && CanonicalArms(arms[1..]))
  }

  predicate CanonicalStmt(s: Stmt) {
    match s
    case Command(_) => true
    case If(first, elifs, other) =>
      CanonicalArm(first) && CanonicalArms(elifs) && (other.Some? ==> CanonicalArm(other.value))
    case For(x, it, body) => IsName(x) && Canonical(it) && CanonicalBlock(body)
    case While(c, body) => Canonical(c) && CanonicalBlock(body)
    case Repeat(c, body) => Canonical(c) && CanonicalBlock(body)
    case Case(x, entries) => Canonical(x) && CanonicalArms(entries)
    case Assign(x, v) => IsName(x) && Canonical(v)
    case CallStmt(f, args) => IsName(f) && CanonicalList(args)
    case Return(v) => v.Some? ==> Canonical(v.value)
  }

  predicate CanonicalParams(ps: seq<Param>) {
    ps == [] || (IsName(ps[0].name) && IsName(ps[0].typ) && CanonicalParams(ps[1..]))
  }

  predicate CanonicalDef(d: FunctionDef) {
    IsName(d.name) && CanonicalParams(d.params)
    && (d.retType.Some? ==> IsName(d.retType.value)) && CanonicalBlock(d.body)
  }

  predicate CanonicalDefs(ds: seq<FunctionDef>) {
    ds == [] || (CanonicalDef(ds[0]) && CanonicalDefs(ds[1..]))
  }
}
