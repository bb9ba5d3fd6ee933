/** A recursive-descent parser for the Spade grammar over the token stream.
    Expressions use precedence climbing driven by the operator table; every
    list written with `commaSep` is parsed as zero or more items separated by
    `,` with no trailing comma.

    Each parser takes the remaining tokens and, on success, returns the value
    and the tokens after it. An error records the expected construct and how
    many tokens were left; ParseTokens turns that into a token index. */
module Parser {
  import opened Wrappers
  import opened Precedence
  import opened Lexer
  import opened Syntax

  datatype ParseError =
    | UnexpectedToken(expected: string, found: Kind, left: nat)
    | UnexpectedEnd(expected: string)

  datatype PResult<+T> = POk(value: T, rest: seq<Token>) | PErr(error: ParseError)

  predicate IsSym(ts: seq<Token>, s: string) {
    |ts| > 0 && ts[0].kind == Sym(s)
  }

  predicate IsWord(ts: seq<Token>, w: string) {
    |ts| > 0 && ts[0].kind == Ident(w)
  }

  /** The binary operator the next token spells, if any. */
  function BinOpAt(ts: seq<Token>): Option<BinOp> {
    if |ts| > 0 && ts[0].kind.Sym? then BinOpNamed(ts[0].kind.text) else None
  }

  /** The next token is a binary operator of level `m` or above. */
  predicate BinAtLeast(ts: seq<Token>, m: nat) {
    BinOpAt(ts).Some? && BinLevel(BinOpAt(ts).value) >= m
  }

  function Fail<X>(ts: seq<Token>, what: string): (r: PResult<X>)
    ensures r.PErr?
  {
    if ts == [] then PErr(UnexpectedEnd(what)) else PErr(UnexpectedToken(what, ts[0].kind, |ts|))
  }

  // ---------------------------------------------------------------- expressions

  /** An expression whose top-level binary operators all have level `m` or above. */
  function ParseExpr(ts: seq<Token>, m: nat): (r: PResult<Expr>)
    decreases |ts|, 3
    ensures r.POk? ==> |r.rest| < |ts|
    ensures r.POk? ==> Canonical(r.value) && AtLeast(r.value, m)
    ensures r.POk? ==> !BinAtLeast(r.rest, m)
  {
    match ParseUnary(ts)
    case PErr(e) => PErr(e)
    case POk(lhs, rest) => ParseTail(lhs, rest, m)
  }

  /** Precedence climbing: while the next token is a binary operator of level
      `m` or above, parse its right operand one level higher (so the operator
      is left-associative) and fold. */
  function ParseTail(lhs: Expr, ts: seq<Token>, m: nat): (r: PResult<Expr>)
    decreases |ts|, 0
    ensures r.POk? ==> |r.rest| <= |ts| && !BinAtLeast(r.rest, m)
    ensures r.POk? && Canonical(lhs) && AtLeast(lhs, m)
              && (lhs.Binary? ==> !BinAtLeast(ts, BinLevel(lhs.op) + 1))
            ==> Canonical(r.value) && AtLeast(r.value, m)
  {
    if BinAtLeast(ts, m) then
      var op := BinOpAt(ts).value;
      match ParseExpr(ts[1..], BinLevel(op) + 1)
      case PErr(e) => PErr(e)
      case POk(rhs, rest) => ParseTail(Binary(op, lhs, rhs), rest, m)
    else POk(lhs, ts)
  }

  /** A unary operator applies to an operand that binds more tightly than it. */
  function ParseUnary(ts: seq<Token>): (r: PResult<Expr>)
    decreases |ts|, 2
    ensures r.POk? ==> |r.rest| < |ts| && Canonical(r.value) && !r.value.Binary?
  {
    if IsSym(ts, "-") || IsSym(ts, "!") then
      var op := if IsSym(ts, "-") then Neg else Not;
      match ParseExpr(ts[1..], UnLevel(op) + 1)
      case PErr(e) => PErr(e)
      case POk(x, rest) => POk(Unary(op, x), rest)
    else ParsePrimary(ts)
  }

  function ParsePrimary(ts: seq<Token>): (r: PResult<Expr>)
    decreases |ts|, 1
    ensures r.POk? ==> |r.rest| < |ts| && Canonical(r.value) && !r.value.Binary?
  {
    if ts == [] then PErr(UnexpectedEnd("expression"))
    else match ts[0].kind
      case Ident(n) =>
        if n == "true" then POk(BoolLit(true), ts[1..])
        else if n == "false" then POk(BoolLit(false), ts[1..])
        else if n in Keywords then Fail(ts, "expression")
        else if IsSym(ts[1..], "(") then
          match ParseCommaSep(ts[2..], ")")
          case PErr(e) => PErr(e)
          case POk(args, rest) => POk(CallExpr(n, args), rest)
        else POk(Id(n), ts[1..])
      case Number(d) => POk(Num(d), ts[1..])
      case Str(b) => POk(StrLit(b), ts[1..])
      case Cmd(_) => Fail(ts, "expression")
      case Sym(s) =>
        if s == "(" then
          match ParseExpr(ts[1..], ASSIGN)
          case PErr(e) => PErr(e)
          case POk(x, rest) =>
            if IsSym(rest, ")") then POk(Paren(x), rest[1..]) else Fail(rest, "')'")
        else if s == "[" then
          match ParseCommaSep(ts[1..], "]")
          case PErr(e) => PErr(e)
          case POk(items, rest) => POk(ArrayLit(items), rest)
        else if s == "{" then
          match ParsePairs(ts[1..])
          case PErr(e) => PErr(e)
          case POk(pairs, rest) => POk(MapLit(pairs), rest)
        else Fail(ts, "expression")
  }

  /** `commaSep(expression)` followed by the closing token `close`. */
  function ParseCommaSep(ts: seq<Token>, close: string): (r: PResult<seq<Expr>>)
    decreases |ts|, 5
    ensures r.POk? ==> |r.rest| < |ts| && CanonicalList(r.value)
  {
    if IsSym(ts, close) then POk([], ts[1..]) else ParseCommaSep1(ts, close)
  }

  /** `commaSep1(expression)` followed by the closing token `close`. */
  function ParseCommaSep1(ts: seq<Token>, close: string): (r: PResult<seq<Expr>>)
    decreases |ts|, 4
    ensures r.POk? ==> |r.rest| < |ts| && CanonicalList(r.value) && r.value != []
  {
    match ParseExpr(ts, ASSIGN)
    case PErr(e) => PErr(e)
    case POk(x, rest) =>
      if IsSym(rest, ",") then
        match ParseCommaSep1(rest[1..], close)
        case PErr(e) => PErr(e)
        case POk(xs, rest') => POk([x] + xs, rest')
      else if IsSym(rest, close) then POk([x], rest[1..])
      else Fail(rest, "',' or '" + close + "'")
  }

  /** `commaSep(pair)` followed by `}`. */
  function ParsePairs(ts: seq<Token>): (r: PResult<seq<Pair>>)
    decreases |ts|, 5
    ensures r.POk? ==> |r.rest| < |ts| && CanonicalPairs(r.value)
  {
    if IsSym(ts, "}") then POk([], ts[1..]) else ParsePairs1(ts)
  }

  /** `commaSep1(pair)` followed by `}`; a pair is `identifier ':' expression`. */
  function ParsePairs1(ts: seq<Token>): (r: PResult<seq<Pair>>)
    decreases |ts|, 4
    ensures r.POk? ==> |r.rest| < |ts| && CanonicalPairs(r.value) && r.value != []
  {
    if !(|ts| > 0 && IsNameKind(ts[0].kind)) then Fail(ts, "map key")
    else if !IsSym(ts[1..], ":") then Fail(ts[1..], "':'")
    else match ParseExpr(ts[2..], ASSIGN)
      case PErr(e) => PErr(e)
      case POk(v, rest) =>
        var p := Pair(ts[0].kind.name, v);
        if IsSym(rest, ",") then
          match ParsePairs1(rest[1..])
          case PErr(e) => PErr(e)
          case POk(ps, rest') => POk([p] + ps, rest')
        else if IsSym(rest, "}") then POk([p], rest[1..])
        else Fail(rest, "',' or '}'")
  }

  // ---------------------------------------------------------------- statements

  /** `_linesep`: a `;`, which is consumed, or a newline before the next token. */
  function Separator(ts: seq<Token>): (r: PResult<()>)
    ensures r.POk? ==> |r.rest| <= |ts|
    ensures r.POk? <==> IsSym(ts, ";") || (|ts| > 0 && ts[0].nl)
  {
    if IsSym(ts, ";") then POk((), ts[1..])
    else if |ts| > 0 && ts[0].nl then POk((), ts)
    else Fail(ts, "';' or newline")
  }

  /** A simple statement `s` followed by its separator. */
  function Separated(s: Stmt, ts: seq<Token>): (r: PResult<Stmt>)
    ensures r.POk? ==> |r.rest| <= |ts| && r.value == s
  {
    match Separator(ts)
    case PErr(e) => PErr(e)
    case POk(_, rest) => POk(s, rest)
  }

  /** `'{' statement* '}'` */
  function ParseBlock(ts: seq<Token>): (r: PResult<Block>)
    decreases |ts|, 2
    ensures r.POk? ==> |r.rest| < |ts| && CanonicalBlock(r.value)
  {
    if !IsSym(ts, "{") then Fail(ts, "'{'")
    else match ParseStmts(ts[1..])
      case PErr(e) => PErr(e)
      case POk(ss, rest) => POk(Block(ss), rest)
  }

  /** Statements up to and including the closing `}`. */
  function ParseStmts(ts: seq<Token>): (r: PResult<seq<Stmt>>)
    decreases |ts|, 1
    ensures r.POk? ==> |r.rest| < |ts| && CanonicalStmts(r.value)
  {
    if ts == [] then PErr(UnexpectedEnd("'}'"))
    else if IsSym(ts, "}") then POk([], ts[1..])
    else match ParseStmt(ts)
      case PErr(e) => PErr(e)
      case POk(s, rest) =>
        match ParseStmts(rest)
        case PErr(e) => PErr(e)
        case POk(ss, rest') => POk([s] + ss, rest')
  }

  /** An expression followed by a block. */
  function ParseArm(ts: seq<Token>): (r: PResult<Arm>)
    decreases |ts|, 3
    ensures r.POk? ==> |r.rest| < |ts| && CanonicalArm(r.value)
  {
    match ParseExpr(ts, ASSIGN)
    case PErr(e) => PErr(e)
    case POk(c, rest) =>
      match ParseBlock(rest)
      case PErr(e) => PErr(e)
      case POk(b, rest') => POk(Arm(c, b), rest')
  }

  /** The arms after the first block of an `if`: any number of
      `else if condition block`, then at most one `else else_condition block`. */
  function ParseElseArms(ts: seq<Token>): (r: PResult<(seq<Arm>, Option<Arm>)>)
    decreases |ts|, 4
    ensures r.POk? ==> |r.rest| <= |ts| && CanonicalArms(r.value.0)
    ensures r.POk? && r.value.1.Some? ==> CanonicalArm(r.value.1.value)
  {
    if !IsWord(ts, "else") then POk(([], None), ts)
    else if IsWord(ts[1..], "if") then
      match ParseArm(ts[2..])
      case PErr(e) => PErr(e)
      case POk(arm, rest) =>
        match ParseElseArms(rest)
        case PErr(e) => PErr(e)
        case POk(more, rest') => POk(([arm] + more.0, more.1), rest')
    else
      match ParseArm(ts[1..])
      case PErr(e) => PErr(e)
      case POk(arm, rest) => POk(([], Some(arm)), rest)
  }

  /** `case_entry*` up to and including the closing `}` of a `case_body`. */
  function ParseEntries(ts: seq<Token>): (r: PResult<seq<Arm>>)
    decreases |ts|, 4
    ensures r.POk? ==> |r.rest| < |ts| && CanonicalArms(r.value)
  {
    if ts == [] then PErr(UnexpectedEnd("'}'"))
    else if IsSym(ts, "}") then POk([], ts[1..])
    else match ParseArm(ts)
      case PErr(e) => PErr(e)
      case POk(arm, rest) =>
        match ParseEntries(rest)
        case PErr(e) => PErr(e)
        case POk(arms, rest') => POk([arm] + arms, rest')
  }

  /** One statement, chosen by its first token. Only here may a command appear. */
  function ParseStmt(ts: seq<Token>): (r: PResult<Stmt>)
    decreases |ts|, 0
    ensures r.POk? ==> |r.rest| < |ts| && CanonicalStmt(r.value)
  {
    if ts == [] then PErr(UnexpectedEnd("statement"))
    else match ts[0].kind
      case Cmd(t) => POk(Command(t), ts[1..])
      case Ident(n) =>
        if n == "if" then ParseIf(ts[1..])
        else if n == "for" then ParseFor(ts[1..])
        else if n == "while" then ParseWhile(ts[1..])
        else if n == "repeat" then ParseRepeat(ts[1..])
        else if n == "case" then ParseCase(ts[1..])
        else if n == "return" then ParseReturn(ts[1..])
        else if n in Keywords then Fail(ts, "statement")
        else ParseNamed(n, ts[1..])
      case _ => Fail(ts, "statement")
  }

  /** `if_statement` after `if`: the first arm, then the else arms. */
  function ParseIf(ts: seq<Token>): (r: PResult<Stmt>)
    decreases |ts|, 5
    ensures r.POk? ==> |r.rest| < |ts| && r.value.If? && CanonicalStmt(r.value)
  {
    match ParseArm(ts)
    case PErr(e) => PErr(e)
    case POk(first, rest) =>
      match ParseElseArms(rest)
      case PErr(e) => PErr(e)
      case POk(arms, rest') => POk(If(first, arms.0, arms.1), rest')
  }

  /** `for_statement` after `for`: `identifier 'in' expression block`. */
  function ParseFor(ts: seq<Token>): (r: PResult<Stmt>)
    decreases |ts|, 5
    ensures r.POk? ==> |r.rest| < |ts| && r.value.For? && CanonicalStmt(r.value)
  {
    if !(|ts| > 0 && IsNameKind(ts[0].kind)) then Fail(ts, "loop variable")
    else if !IsWord(ts[1..], "in") then Fail(ts[1..], "'in'")
    else match ParseArm(ts[2..])
      case PErr(e) => PErr(e)
      case POk(arm, rest) => POk(For(ts[0].kind.name, arm.cond, arm.body), rest)
  }

  /** `while_statement` after `while`. */
  function ParseWhile(ts: seq<Token>): (r: PResult<Stmt>)
    decreases |ts|, 5
    ensures r.POk? ==> |r.rest| < |ts| && r.value.While? && CanonicalStmt(r.value)
  {
    match ParseArm(ts)
    case PErr(e) => PErr(e)
    case POk(arm, rest) => POk(While(arm.cond, arm.body), rest)
  }

  /** `repeat_statement` after `repeat`. */
  function ParseRepeat(ts: seq<Token>): (r: PResult<Stmt>)
    decreases |ts|, 5
    ensures r.POk? ==> |r.rest| < |ts| && r.value.Repeat? && CanonicalStmt(r.value)
  {
    match ParseArm(ts)
    case PErr(e) => PErr(e)
    case POk(arm, rest) => POk(Repeat(arm.cond, arm.body), rest)
  }

  /** `case_statement` after `case`: the scrutinee, then `case_body`. */
  function ParseCase(ts: seq<Token>): (r: PResult<Stmt>)
    decreases |ts|, 5
    ensures r.POk? ==> |r.rest| < |ts| && r.value.Case? && CanonicalStmt(r.value)
  {
    match ParseExpr(ts, ASSIGN)
    case PErr(e) => PErr(e)
    case POk(x, rest) =>
      if !IsSym(rest, "{") then Fail(rest, "'{'")
      else match ParseEntries(rest[1..])
        case PErr(e) => PErr(e)
        case POk(entries, rest') => POk(Case(x, entries), rest')
  }

  /** `return_statement` after `return`: an expression only when one follows on
      the same line; then the separator. */
  function ParseReturn(ts: seq<Token>): (r: PResult<Stmt>)
    ensures r.POk? ==> |r.rest| <= |ts| && r.value.Return? && CanonicalStmt(r.value)
    ensures r.POk? && r.value.result.Some? ==> ts != [] && !ts[0].nl && !IsSym(ts, ";")
  {
    if ts == [] || IsSym(ts, ";") || ts[0].nl then Separated(Return(None), ts)
    else match ParseExpr(ts, ASSIGN)
      case PErr(e) => PErr(e)
      case POk(v, rest) => Separated(Return(Some(v)), rest)
  }

  /** A statement that starts with the name `n`: an assignment or a call,
      each followed by its separator. */
  function ParseNamed(n: string, ts: seq<Token>): (r: PResult<Stmt>)
    requires n !in Keywords
    ensures r.POk? ==> |r.rest| < |ts| && CanonicalStmt(r.value)
    ensures r.POk? ==> (r.value.Assign? && r.value.target == n && IsSym(ts, "="))
                       || (r.value.CallStmt? && r.value.callee == n && IsSym(ts, "("))
  {
    if IsSym(ts, "=") then
      match ParseExpr(ts[1..], ASSIGN)
      case PErr(e) => PErr(e)
      case POk(v, rest) => Separated(Assign(n, v), rest)
    else if IsSym(ts, "(") then
      match ParseCommaSep(ts[1..], ")")
      case PErr(e) => PErr(e)
      case POk(args, rest) => Separated(CallStmt(n, args), rest)
    else Fail(ts, "'=' or '('")
  }

  // ---------------------------------------------------------------- definitions

  /** `typedParameter`: `identifier ':' identifier` */
  function ParseParam(ts: seq<Token>): (r: PResult<Param>)
    ensures r.POk? ==> |r.rest| < |ts| && IsName(r.value.name) && IsName(r.value.typ)
  {
    if !(|ts| > 0 && IsNameKind(ts[0].kind)) then Fail(ts, "parameter name")
    else if !IsSym(ts[1..], ":") then Fail(ts[1..], "':'")
    else if !(|ts| > 2 && IsNameKind(ts[2].kind)) then Fail(ts[2..], "parameter type")
    else POk(Param(ts[0].kind.name, ts[2].kind.name), ts[3..])
  }

  /** `commaSep(typedParameter)` followed by `)`. */
  function ParseParams(ts: seq<Token>): (r: PResult<seq<Param>>)
    ensures r.POk? ==> |r.rest| < |ts| && CanonicalParams(r.value)
  {
    if IsSym(ts, ")") then POk([], ts[1..]) else ParseParams1(ts)
  }

  /** `commaSep1(typedParameter)` followed by `)`. */
  function ParseParams1(ts: seq<Token>): (r: PResult<seq<Param>>)
    decreases |ts|
    ensures r.POk? ==> |r.rest| < |ts| && CanonicalParams(r.value)
  {
    match ParseParam(ts)
    case PErr(e) => PErr(e)
    case POk(p, rest) =>
      if IsSym(rest, ",") then
        match ParseParams1(rest[1..])
        case PErr(e) => PErr(e)
        case POk(ps, rest') => POk([p] + ps, rest')
      else if IsSym(rest, ")") then POk([p], rest[1..])
      else Fail(rest, "',' or ')'")
  }

  /** `function_definition`: name, typed parameters, optional `':' identifier`, block. */
  function ParseDef(ts: seq<Token>): (r: PResult<FunctionDef>)
    ensures r.POk? ==> |r.rest| < |ts| && CanonicalDef(r.value)
  {
    if !(|ts| > 0 && IsNameKind(ts[0].kind)) then Fail(ts, "function name")
    else if !IsSym(ts[1..], "(") then Fail(ts[1..], "'('")
    else match ParseParams(ts[2..])
      case PErr(e) => PErr(e)
      case POk(ps, rest) =>
        if IsSym(rest, ":") then
          if !(|rest| > 1 && IsNameKind(rest[1].kind)) then Fail(rest[1..], "return type")
          else match ParseBlock(rest[2..])
            case PErr(e) => PErr(e)
            case POk(b, rest') => POk(FunctionDef(ts[0].kind.name, ps, Some(rest[1].kind.name), b), rest')
        else match ParseBlock(rest)
          case PErr(e) => PErr(e)
          case POk(b, rest') => POk(FunctionDef(ts[0].kind.name, ps, None, b), rest')
  }

  /** `module`: function definitions up to the end of the input. */
  function ParseDefs(ts: seq<Token>): (r: PResult<seq<FunctionDef>>)
    decreases |ts|
    ensures r.POk? ==> r.rest == [] && CanonicalDefs(r.value)
  {
    if ts == [] then POk([], [])
    else match ParseDef(ts)
      case PErr(e) => PErr(e)
      case POk(d, rest) =>
        match ParseDefs(rest)
        case PErr(e) => PErr(e)
        case POk(ds, rest') => POk([d] + ds, rest')
  }

  datatype Diagnostic =
    | LexDiagnostic(lexError: LexError, offset: nat)
    | ParseDiagnostic(parseError: ParseError, index: nat)

  datatype Outcome = Parsed(tree: Module) | Failed(diagnostic: Diagnostic)

  /** Parses a whole token stream; an error carries the index of the offending token. */
  function ParseTokens(ts: seq<Token>): (r: Outcome)
    ensures r.Parsed? ==> CanonicalDefs(r.tree.defs)
    ensures r.Failed? ==> r.diagnostic.ParseDiagnostic? && r.diagnostic.index <= |ts|
  {
    match ParseDefs(ts)
    case POk(ds, _) => Parsed(Module(ds))
    case PErr(e) =>
      var index := match e case UnexpectedToken(_, _, left) => |ts| - left case UnexpectedEnd(_) => |ts|;
      Failed(ParseDiagnostic(e, if index >= 0 then index else 0))
  }

  /** The whole front end: tokenize, then parse. */
  function Parse(src: string): (r: Outcome)
    ensures r.Parsed? ==> CanonicalDefs(r.tree.defs)
    ensures r.Failed? && r.diagnostic.LexDiagnostic? ==> r.diagnostic.offset < |src|
    ensures r.Failed? && r.diagnostic.LexDiagnostic? && r.diagnostic.lexError.UnexpectedCharacter?
            ==> src[r.diagnostic.offset] == r.diagnostic.lexError.c && StartsNoToken(r.diagnostic.lexError.c)
    ensures r.Failed? && r.diagnostic.LexDiagnostic? && r.diagnostic.lexError.UnterminatedString?
            ==> src[r.diagnostic.offset] == '\''
  {
    match Tokenize(src)
    case TokenizeError(at) => Failed(LexDiagnostic(at.error, at.offset))
    case Tokenized(ts) => ParseTokens(ts)
  }
}
