/** The operator table of the Spade grammar: the PREC levels and the
    lexeme/level pairs attached to the unary and binary operators. */
module Precedence {
  import opened Wrappers

  // The PREC constants.
  const ASSIGN: nat := 0
  const OR: nat := 2
  const AND: nat := 3
  const PLUS: nat := 4
  const RELATIONAL: nat := 5
  const TIMES: nat := 6
  const NOT: nat := 7
  const NEG: nat := 9
  const CALL: nat := 10

  datatype UnOp = Neg | Not

  datatype BinOp = And | Or | Add | Sub | Gt | Ge | Eq | Ne | Lt | Le | Mul | Div | Mod

  function UnText(op: UnOp): string {
    match op
    case Neg => "-"
    case Not => "!"
  }

  function BinText(op: BinOp): string {
    match op
    case And => "&"
    case Or => "|"
    case Add => "+"
    case Sub => "-"
    case Gt => ">"
    case Ge => ">="
    case Eq => "=="
    case Ne => "!="
    case Lt => "<"
    case Le => "<="
    case Mul => "*"
    case Div => "/"
    case Mod => "%"
  }

  /** The binding level of a unary operator. */
  function UnLevel(op: UnOp): (l: nat)
    ensures l == NEG <==> op == Neg
    ensures l == NOT <==> op == Not
  {
    match op
    case Neg => NEG
    case Not => NOT
  }

  /** The binding level of a binary operator. */
  function BinLevel(op: BinOp): (l: nat)
    ensures OR <= l <= TIMES
    ensures l == OR <==> op == Or
    ensures l == AND <==> op == And
    ensures l == PLUS <==> op in {Add, Sub}
    ensures l == RELATIONAL <==> op in {Gt, Ge, Eq, Ne, Lt, Le}
    ensures l == TIMES <==> op in {Mul, Div, Mod}
  {
    match op
    case And => AND
    case Or => OR
    case Add | Sub => PLUS
    case Gt | Ge | Eq | Ne | Lt | Le => RELATIONAL
    case Mul | Div | Mod => TIMES
  }

  /** The binary operator spelled `s`, if any: the inverse of BinText. */
  function BinOpNamed(s: string): (r: Option<BinOp>)
    ensures r.Some? ==> BinText(r.value) == s
    ensures forall op: BinOp :: BinText(op) == s ==> r == Some(op)
  {
    if s == "&" then Some(And)
    else if s == "|" then Some(Or)
    else if s == "+" then Some(Add)
    else if s == "-" then Some(Sub)
    else if s == ">" then Some(Gt)
    else if s == ">=" then Some(Ge)
    else if s == "==" then Some(Eq)
    else if s == "!=" then Some(Ne)
    else if s == "<" then Some(Lt)
    else if s == "<=" then Some(Le)
    else if s == "*" then Some(Mul)
    else if s == "/" then Some(Div)
    else if s == "%" then Some(Mod)
    else None
  }

  /** The levels are strictly ordered OR < AND < PLUS < RELATIONAL < TIMES < NOT < NEG < CALL,
      and assignment sits below all of them. */
  lemma LevelsOrdered()
    ensures ASSIGN < OR < AND < PLUS < RELATIONAL < TIMES < NOT < NEG < CALL
  {}

  /** Both unary operators bind tighter than every binary operator. */
  lemma UnaryAboveBinary(u: UnOp, b: BinOp)
    ensures BinLevel(b) < UnLevel(u) < CALL
  {}
}
