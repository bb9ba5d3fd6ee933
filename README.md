# Spade front end in Dafny

This project models the tree-sitter grammar of Spade, a small statement-oriented
scripting language whose programs are function definitions holding blocks of
statements: raw `/command` lines, `if`/`else if`/`else`, `for … in`, `while`,
`repeat`, `case`, assignments, calls and `return`. The grammar is one
declarative file, `grammar.js`. The model states what that grammar means as
three layers of pure functions:

- **Lexer** (`lexer.dfy`, module `Lexer`). It turns characters into tokens.
  The extras (ASCII whitespace, U+FEFF, U+2060, U+200B and `--` line comments)
  are skipped. Identifiers, digit-only numbers, single-quoted strings with
  backslash escapes, commands, operators and punctuation are recognised by
  maximal munch, and `>=`, `==`, `!=`, `<=` are matched before their
  one-character prefixes.
- **Operator table** (`precedence.dfy`, module `Precedence`). It holds the
  `PREC` constants and the level of every unary and binary operator.
- **Parser** (`syntax.dfy` and `parser.dfy`, modules `Syntax` and `Parser`).
  It is a recursive-descent parser over the tokens, with one function per
  grammar rule. Expressions use precedence climbing driven by the table, and
  every `commaSep` list is zero or more items separated by `,`.

Two specification aids sit beside the parser in `Syntax`:

- `Render` spells a tree as tokens.
- `Canonical` says a tree respects the operator levels and left associativity
  (left child at the operator's level or above, right child strictly above).

The main theorems are round trips: parsing the rendering of a canonical tree
gives that tree back, at every level from expressions up to whole modules
(`expr_proofs.dfy`, `stmt_proofs.dfy`). The parser also produces only
canonical trees, by the `ensures` of every parse function. Together these fix
operator grouping, associativity, list order and arm structure. What may follow
an assignment, a call statement or a `return` is stated once for each of the
three: a `;`, which is consumed, or a token on a new line, which is kept, and
nothing else.
The converse direction holds too: whatever the expression and list parsers
accept is exactly the rendering of the tree they return, up to line-break
flags, so a trailing `,` is never accepted (`parse_soundness.dfy`). The same
holds for statements, blocks and whole modules, where the `;` after an
assignment, a call or a `return` may also be a line break
(`stmt_soundness.dfy`). That reading is defined on the tree alone, so a block
accepts nothing but statements and its closing `}`: a stray `;` is an error.

For the lexer, writing any lexable token stream out with a blank before each
token and lexing it again gives the same stream (`lexer_proofs.dfy`).
Conversely, every stream the lexer produces is lexable, and the text it came
from is the tokens' spellings separated by blanks and comments only
(`lexer_soundness.dfy`). A lexical error is always reported at the character
that caused it. `front_end.dfy` puts the two layers together on source text,
and `examples.dfy` works through concrete instances.

## Choices the grammar leaves open

- **Newline.** Newline is an extra (grammar.js:17) and also the statement
  separator `_linesep` (grammar.js:64). The lexer records, per token, whether a
  newline was skipped before it (`Token.nl`). The parser looks at that flag in
  two places only:
  - after an assignment, call or `return`, the separator is a `;` (consumed)
    or a next token on a new line (not consumed);
  - `return` takes an expression only if one starts on the same line.

  Expressions otherwise continue across line breaks: what an expression
  parser consumes is the rendering of its result whatever the flags are
  (`ParseSoundness.ExprSound`).
- **`/`.** A `/` opens a command only where a statement can start: at the
  start of the input, after a newline, or after `{`, `}` or `;`. It must also
  have at least one more character on its line. Everywhere else `/` is the
  division operator.
- **`{`.** A `{` in expression position opens a map literal. After the
  condition of `if`, `for`, `while`, `repeat` or a case entry, and after a
  parameter list, it opens a block.
- **Trailing `else`.** It is modelled as written in grammar.js:125: `else`,
  an expression, then a block. So `if c {} else {}` is rejected
  (`Examples.ElseNeedsCondition`), while `if c {} else true {}` is accepted.

## Where the table and the usual reading differ

The table gives `+`/`-` level 4 (PLUS) and the relational operators level 5
(RELATIONAL), so relational operators bind tighter than addition. The model
follows the code. Hence `a + b > c * d` groups as `a + (b > (c * d))`
(`Examples.RelationalBetweenPlusAndTimes`), not as `(a + b) > (c * d)`, which
a reader used to C-like languages would expect. `1 + 2 * 3`, `a - b - c`,
`-a * b` and `!a & b` group as usual.

## Model

| member | source | states |
|---|---|---|
| Precedence.UnLevel | grammar.js:71-79 | `-` binds at NEG (9) and `!` at NOT (7), and each level belongs to exactly that operator |
| Precedence.BinLevel | grammar.js:81-101 | the bar operator is at OR, `&` at AND, `+ -` at PLUS, the six comparisons at RELATIONAL and `* / %` at TIMES, each in both directions; every binary level lies between OR and TIMES |
| Precedence.BinOpNamed | grammar.js:81-101 | recognises a binary operator from its spelling: whenever it answers, the answer is spelled as the text, and any text that spells an operator is recognised |
| Precedence.LevelsOrdered | grammar.js:1-11 | the levels are strictly ordered ASSIGN < OR < AND < PLUS < RELATIONAL < TIMES < NOT < NEG < CALL |
| Precedence.UnaryAboveBinary | grammar.js:71-79 | both unary operators bind tighter than every binary operator and below CALL |
| Lexer.IdentLen | grammar.js:208 | the identifier run is maximal: every character in it is an identifier character and the next one is not |
| Lexer.DigitLen | grammar.js:217 | the digit run is maximal |
| Lexer.LineLen | grammar.js:219 | the run stops exactly at the first newline and contains none |
| Lexer.StringLen | grammar.js:212-216 | when a closing quote is found, it is a `'` and everything before it is a well-formed escaped body |
| Lexer.Scan | grammar.js:208-219 | a scanned token is well formed and spells exactly the characters consumed; an error is located at the token's first character, which is either a character that begins no token or an opening quote whose body never closes |
| Lexer.LexFrom | grammar.js:15-18 | every token produced is well formed (identifier, digits, escaped string body, one-line command, operator); an error lies inside the remaining input |
| Lexer.Tokenize | grammar.js:15-18 | every token is well formed; an error's offset lies inside the source and points at the character that begins no token or at the quote of the unclosed string |
| Lexer.LexErrorLocated | grammar.js:208-219 | every lexical error is reported at the character that caused it: one that is no extra and begins no token, or an opening quote whose body reaches a bare newline or the end of the input |
| LexerProofs.BlanksSkipped | grammar.js:17 | a run of blanks before the input changes nothing but the newline flag and the command state |
| LexerProofs.CommentSkipped | grammar.js:219 | a `--` comment up to the line end leaves the tokens and the state as if it were absent |
| LexerProofs.StringLenOf | grammar.js:212-216 | a string body ends at the first unescaped quote |
| LexerProofs.StringUnterminated | grammar.js:212-216 | a string body that meets the end of the input or a bare newline is not closed |
| LexerProofs.ScanSpelling | grammar.js:208-219 | each token rule reads back exactly its own spelling when a blank (or, after a command, a line end) follows |
| LexerProofs.ScanSymbol2 | grammar.js:88-92 | `>=`, `==`, `!=`, `<=` are one token each, never their one-character prefix |
| LexerProofs.LexUnlex | grammar.js:15-18 | a lexable token stream written out with one blank before each token lexes back as the same tokens, newline flags included |
| LexerProofs.TokenizeUnlex | grammar.js:15-18 | the same at the top level, starting where a command may begin |
| LexerProofs.LexUnlexThen | grammar.js:15-18 | after a lexable stream and a line end, the lexer reads back exactly that stream and then goes on with the rest of the text |
| LexerProofs.ErrorAfterUnlex | grammar.js:15-18 | an error in the text after such a stream is the error of the whole text, at its offset there |
| LexerProofs.UnexpectedCharacterFails | grammar.js:208-219 | a character that is no extra and begins no token is rejected where it stands |
| LexerProofs.UnexpectedCharacterLocated | grammar.js:208-219 | in a whole text, such a character after any lexable text is reported at its own offset |
| LexerProofs.LexedIsLexable | grammar.js:66-69 | the lexer produces only lexable streams: a command only where a statement may start, and a line end after each command; with LexUnlex, the lexed streams are exactly the lexable ones |
| LexerProofs.PlainLexable | grammar.js:15-18 | a stream without commands and without `/` is lexable from any state |
| LexerProofs.CommandLexed | grammar.js:66-69 | at a statement start, `/` and the rest of its line are one command whose payload drops the `/` and the line end |
| LexerProofs.SlashIsOperator | grammar.js:94 | elsewhere `/` is the division operator |
| LexerProofs.EscapeSound | grammar.js:214 | escaping any text gives a well-formed body that denotes that text |
| LexerProofs.StringLiteralLexed | grammar.js:212-216 | any text, escaped and quoted, lexes as one string token |
| LexerProofs.UnterminatedStringFails | grammar.js:212-216 | an unclosed string is an error located at its opening quote |
| LexerProofs.UnterminatedStringLocated | grammar.js:212-216 | in a whole text, a string left open at its line end after any lexable text is reported at its opening quote |
| LexerSoundness.LexSpelled | grammar.js:15-18 | whatever lexes is its tokens' spellings separated by blanks and `--` comments only (a comment ends at a line end unless the input ends), and a token's newline flag is set exactly when a line end precedes it |
| LexerSoundness.TokenizeSpelled | grammar.js:15-18 | the same for a whole source text |
| Parser.ParseExpr | grammar.js:81-101 | the result respects the levels and is made of operators of level `m` or above, and no operator of level `m` or above is left next |
| Parser.ParseTail | grammar.js:96-100 | folding binary operators keeps the result canonical and stops only before an operator below `m` |
| Parser.ParseUnary | grammar.js:71-79 | a unary operand binds tighter than the operator, and the result is never a bare binary node |
| Parser.ParsePrimary | grammar.js:50-62 | an operand is canonical and not binary; keywords and commands are not expressions |
| Parser.ParseCommaSep | grammar.js:223-225 | a `commaSep` list of canonical expressions, up to and including the closing token (that nothing else, no trailing comma in particular, is consumed is ParseSoundness.ListSound) |
| Parser.ParseCommaSep1 | grammar.js:227-229 | the same with at least one item |
| Parser.ParsePairs | grammar.js:196-206 | map pairs with name keys and canonical values, up to and including `}` (see ParseSoundness.PairsSound for the converse) |
| Parser.ParsePairs1 | grammar.js:202-206 | the same with at least one pair |
| Parser.Separator | grammar.js:64 | succeeds exactly when a `;` or a token on a new line comes next |
| Parser.Separated | grammar.js:43-47 | a simple statement is kept unchanged when its separator is found |
| Parser.ParseBlock | grammar.js:34 | a block of canonical statements |
| Parser.ParseStmts | grammar.js:34 | the statements of a block, up to and including `}` |
| Parser.ParseArm | grammar.js:160-163 | a canonical condition and block |
| Parser.ParseElseArms | grammar.js:119-125 | any number of `else if` arms and at most one trailing arm, all canonical |
| Parser.ParseEntries | grammar.js:154-158 | zero or more case entries, up to and including `}` |
| Parser.ParseStmt | grammar.js:36-48 | a canonical statement, chosen by its first token |
| Parser.ParseIf | grammar.js:115-126 | an `if` statement |
| Parser.ParseFor | grammar.js:128-134 | a `for` statement with a name as loop variable |
| Parser.ParseWhile | grammar.js:136-140 | a `while` statement |
| Parser.ParseRepeat | grammar.js:142-146 | a `repeat` statement |
| Parser.ParseCase | grammar.js:148-152 | a `case` statement |
| Parser.ParseReturn | grammar.js:165 | a `return`, with a value only when one starts on the same line and is not `;` |
| Parser.ParseNamed | grammar.js:109-113 | an assignment to the name after `=`, or a call of the name after `(` |
| Parser.ParseParam | grammar.js:184-188 | a typed parameter whose name and type are names |
| Parser.ParseParams | grammar.js:178-182 | typed parameters, up to and including `)` (see ParseSoundness.ParamsSound for the converse) |
| Parser.ParseParams1 | grammar.js:178-182 | at least one typed parameter, up to and including `)` |
| Parser.ParseDef | grammar.js:27-32 | a canonical function definition |
| Parser.ParseDefs | grammar.js:21 | definitions up to the end of the input |
| Parser.ParseTokens | grammar.js:21 | a parsed module is canonical; a failure points at a token index inside the stream |
| Parser.Parse | grammar.js:13-21 | a parsed module is canonical; a lexical failure points inside the source, at the offending character or at an opening quote |
| FrontEnd.TextRoundTrip | grammar.js:13-34 | the text of a canonical, lexable module (one blank before each token) parses back as that module |
| FrontEnd.UnexpectedCharacterReported | grammar.js:15-18 | a character that begins no token, on a line after lexable text, makes the whole parse fail with a lexical error at its offset |
| FrontEnd.UnterminatedStringReported | grammar.js:212-216 | a string left open at a line end or at the end of the input makes the parse fail at its opening quote |
| ExprProofs.RenderStart | grammar.js:50-62 | an expression starts with a name, `true`, `false`, a literal, `(`, `[`, `{`, `-` or `!` |
| ExprProofs.UnaryRoundTrip | grammar.js:71-79 | a non-binary canonical operand reads back as itself |
| ExprProofs.NegatedRoundTrip | grammar.js:71-79 | `-x` and `!x` read back with the operand taken one level above the operator |
| ExprProofs.ParenRoundTrip | grammar.js:103-107 | a parenthesised expression reads back as itself, keeping the parentheses |
| ExprProofs.ArrayRoundTrip | grammar.js:190-194 | an array literal keeps its items in order |
| ExprProofs.CallExprRoundTrip | grammar.js:167-176 | a call keeps its callee and its arguments in order |
| ExprProofs.MapRoundTrip | grammar.js:196-200 | a map literal keeps its pairs in order |
| ExprProofs.TailRoundTrip | grammar.js:96-100 | the operators of a left spine are folded in order, each right operand one level above its operator |
| ExprProofs.ExprRoundTrip | grammar.js:81-101 | a canonical expression followed by a token that cannot extend it reads back as itself, leaving exactly that token |
| ExprProofs.ListRoundTrip | grammar.js:223-225 | `x1, …, xn` followed by `)` or `]` reads back as exactly `[x1, …, xn]`, in order, for every n ≥ 0 |
| ExprProofs.Comma1RoundTrip | grammar.js:227-229 | the same for n ≥ 1 |
| ExprProofs.Comma1Last | grammar.js:227-229 | a single item followed by the closing token |
| ExprProofs.Comma1More | grammar.js:227-229 | an item, `,` and at least one more item |
| ExprProofs.PairsRoundTrip | grammar.js:196-206 | map pairs followed by `}` read back in order |
| ExprProofs.Pairs1RoundTrip | grammar.js:202-206 | the same with at least one pair |
| ExprProofs.Pairs1Last | grammar.js:202-206 | a single pair followed by `}` |
| ExprProofs.Pairs1More | grammar.js:202-206 | a pair, `,` and at least one more pair |
| StmtProofs.StmtStart | grammar.js:36-48 | a statement starts with a command or a word other than `else` |
| StmtProofs.BlockRoundTrip | grammar.js:34 | a block reads back as itself |
| StmtProofs.StmtsRoundTrip | grammar.js:34 | the statements of a block read back in order, one for each statement |
| StmtProofs.ArmRoundTrip | grammar.js:160-163 | a condition and its block read back as themselves |
| StmtProofs.ElseRoundTrip | grammar.js:119-125 | the `else if` arms and the optional trailing arm read back exactly |
| StmtProofs.ElseIfsRoundTrip | grammar.js:119-124 | a non-empty list of `else if` arms reads back in order, followed by the trailing arm |
| StmtProofs.TrailingElseRoundTrip | grammar.js:125 | a trailing `else` arm reads back alone: its condition never starts with `if` |
| StmtProofs.EntriesRoundTrip | grammar.js:154-158 | case entries, none included, read back in order |
| StmtProofs.EntryRoundTrip | grammar.js:154-163 | a non-empty list of case entries reads back in order |
| StmtProofs.StmtRoundTrip | grammar.js:36-48 | every statement form reads back as itself; compound statements need no separator |
| StmtProofs.IfRoundTrip | grammar.js:115-126 | an `if` keeps its first arm, all its `else if` arms and its trailing arm |
| StmtProofs.ForRoundTrip | grammar.js:128-134 | a `for` reads back as itself |
| StmtProofs.WhileRoundTrip | grammar.js:136-140 | a `while` reads back as itself |
| StmtProofs.RepeatRoundTrip | grammar.js:142-146 | a `repeat` reads back as itself |
| StmtProofs.CaseRoundTrip | grammar.js:148-158 | a `case` keeps its scrutinee and its entries |
| StmtProofs.CommandRoundTrip | grammar.js:66-69 | a command is a whole statement with no separator |
| StmtProofs.AssignCloses | grammar.js:64 | an assignment is closed by a `;` (consumed) or a token on a new line (kept), and rejected otherwise |
| StmtProofs.CallCloses | grammar.js:43-47 | a call statement is closed by a `;` (consumed) or a token on a new line (kept), and rejected otherwise |
| StmtProofs.ReturnCloses | grammar.js:43-47 | a `return` with a value on the same line is closed by a `;` (consumed) or a token on a new line (kept), and rejected otherwise |
| StmtProofs.AssignRoundTrip | grammar.js:109-113 | an assignment followed by `;` reads back as itself |
| StmtProofs.CallRoundTrip | grammar.js:167-176 | a call statement keeps its callee and its arguments in order |
| StmtProofs.ReturnRoundTrip | grammar.js:165 | `return;` and `return e;` read back as themselves |
| StmtProofs.ReturnAtLineEnd | grammar.js:165 | a `return` at the end of its line returns nothing and leaves the next line alone |
| StmtProofs.CommandNotExpression | grammar.js:50-62 | a command token never starts an expression |
| StmtProofs.MissingCloseFails | grammar.js:34 | a block whose `}` is missing is rejected at the end of the input |
| StmtProofs.ParamsRoundTrip | grammar.js:178-188 | typed parameters read back in order, none included |
| StmtProofs.Params1RoundTrip | grammar.js:178-188 | the same with at least one parameter |
| StmtProofs.ParamRead | grammar.js:184-188 | `name : type` reads back as that parameter |
| StmtProofs.DefRoundTrip | grammar.js:27-32 | a function definition keeps its name, parameters, optional return type and body |
| StmtProofs.DefsRoundTrip | grammar.js:21 | definitions in front of more input read back in order, and an error after them is passed on unchanged |
| StmtProofs.ModuleRoundTrip | grammar.js:21 | the tokens of a canonical module parse back as that module |
| StmtProofs.StrayCloseFails | grammar.js:21 | a stray `}` after the definitions is rejected, with the diagnostic pointing at it |
| ParseSoundness.ExprSound | grammar.js:81-101 | a parsed expression consumed exactly the tokens of its rendering (line-break flags aside) and nothing more |
| ParseSoundness.TailSound | grammar.js:96-100 | each operator and right operand folded in is spelled in turn after the left operand |
| ParseSoundness.UnarySound | grammar.js:71-79 | a parsed unary expression is spelled by its operator and its operand |
| ParseSoundness.PrimarySound | grammar.js:50-62 | a parsed operand is spelled by its own tokens |
| ParseSoundness.CallSound | grammar.js:167-176 | a parsed call is spelled by its callee, `(`, its arguments and `)` |
| ParseSoundness.ParenSound | grammar.js:103-107 | a parsed parenthesised expression is spelled by `(`, the inner expression and `)` |
| ParseSoundness.ListSound | grammar.js:223-225 | a parsed `commaSep` list consumed its items, the commas between them and the closing token, and nothing else |
| ParseSoundness.Comma1Sound | grammar.js:227-229 | the same for a non-empty list |
| ParseSoundness.PairsSound | grammar.js:196-206 | a parsed map body consumed its pairs, the commas between them and `}` |
| ParseSoundness.Pairs1Sound | grammar.js:202-206 | the same for a non-empty map body |
| ParseSoundness.ParamSpelled | grammar.js:184-188 | a parsed parameter consumed `name : type` |
| ParseSoundness.ParamsSound | grammar.js:178-182 | a parsed parameter list consumed its parameters, the commas between them and `)` |
| ParseSoundness.Params1Sound | grammar.js:178-182 | the same for a non-empty parameter list |
| ParseSoundness.NoExpressionAt | grammar.js:50-62 | `,`, `)`, `]` and `}` cannot begin an expression |
| ParseSoundness.TrailingCommaRejected | grammar.js:227-229 | items followed by `,` and the closing token are rejected at the closing token |
| ParseSoundness.LoneCommaRejected | grammar.js:223-225 | a list that opens with `,` is rejected at that comma |
| ParseSoundness.ItemsThenTrailingComma | grammar.js:223-225 | a `commaSep` list with a trailing `,` is rejected at the closing token |
| ParseSoundness.TrailingPairCommaRejected | grammar.js:202-206 | pairs followed by `,` and `}` are rejected at the `}`, where a key was expected |
| ParseSoundness.LonePairCommaRejected | grammar.js:196-200 | a map body that opens with `,` is rejected at that comma |
| ParseSoundness.PairsThenTrailingComma | grammar.js:196-200 | a non-empty map body with a trailing `,` is rejected at the `}` |
| ParseSoundness.TrailingParamCommaRejected | grammar.js:178-182 | parameters followed by `,` and `)` are rejected at the `)`, where a parameter name was expected |
| ParseSoundness.TrailingParamsCommaRejected | grammar.js:178-182 | a parameter list with a trailing `,`, or with a lone `,`, is rejected |
| StmtSoundness.SeparatorClosed | grammar.js:64 | the separator the parser reads is a `;`, which it consumes, or a token on a new line, which it keeps |
| StmtSoundness.StmtsSound | grammar.js:34 | a parsed block body was read as its statements in order, each by its own spelling, then the `}`, and nothing else |
| StmtSoundness.StmtSound | grammar.js:36-48 | a parsed statement consumed exactly its spelling, with a separator after an assignment, a call or a `return` and none after the other statements |
| StmtSoundness.IfSound | grammar.js:115-126 | a parsed `if` consumed `if`, its first arm, its `else if` arms and its optional trailing arm |
| StmtSoundness.ForSound | grammar.js:128-134 | a parsed `for` consumed `for`, the loop variable, `in`, the iterable and the body |
| StmtSoundness.LoopSound | grammar.js:136-146 | a parsed `while` or `repeat` consumed its keyword, its expression and its body |
| StmtSoundness.CaseSound | grammar.js:148-158 | a parsed `case` consumed `case`, the scrutinee, `{`, its entries and `}` |
| StmtSoundness.ReturnSound | grammar.js:165 | a parsed `return` consumed the keyword, a value only when one starts on the same line, and the separator |
| StmtSoundness.NamedSound | grammar.js:43-47 | a parsed assignment or call statement consumed its spelling and then the separator |
| StmtSoundness.AssignSound | grammar.js:109-113 | a parsed assignment consumed the name, `=`, the value and the separator |
| StmtSoundness.CallStmtSound | grammar.js:167-176 | a parsed call statement consumed the callee, `(`, the arguments, `)` and the separator |
| StmtSoundness.BlockSound | grammar.js:34 | a parsed block consumed `{`, its statements and `}` |
| StmtSoundness.ArmSound | grammar.js:115-118 | a parsed arm consumed its condition and then its block |
| StmtSoundness.ElseArmsSound | grammar.js:119-125 | the arms after an `if` consumed `else if` and an arm for each else-if arm, then `else` and an arm for the trailing one |
| StmtSoundness.EntriesSound | grammar.js:154-163 | the entries of a parsed `case` consumed one arm each, then the `}` |
| StmtSoundness.DefSound | grammar.js:27-32 | a parsed definition consumed its name, `(`, its parameters, `)`, its optional `: type` and its body |
| StmtSoundness.DefsSound | grammar.js:21 | parsed definitions consumed their spellings one after the other up to the end of the input |
| StmtSoundness.ModuleSound | grammar.js:21 | an accepted token stream is the spelling of the module's definitions and nothing else |
| StmtSoundness.NoStatementAt | grammar.js:36-48 | a token that is not a command and not a word that can begin a statement, such as `;`, is reported where it stands |
| StmtSoundness.StrayTokenInBlock | grammar.js:34-48 | inside a block such a token is an error, so `{ ; }` is rejected |
| Examples.TimesAbovePlus | grammar.js:4-7 | `1 + 2 * 3` groups as `1 + (2 * 3)` |
| Examples.MinusIsLeftAssociative | grammar.js:96 | `a - b - c` groups as `(a - b) - c` |
| Examples.RelationalBetweenPlusAndTimes | grammar.js:4-7 | `a + b > c * d` groups as `a + (b > (c * d))` under the table as written |
| Examples.NegationAboveTimes | grammar.js:73 | `-a * b` groups as `(-a) * b` |
| Examples.NotAboveAnd | grammar.js:74 | `!a & b` groups as `(!a) & b` |
| Examples.MapLiteralIsNoBlock | grammar.js:57 | `{}` where an arm begins is read as an empty map literal condition, and then the block is missing |
| Examples.ElseNeedsCondition | grammar.js:125 | `if c {} else {}` is rejected because the trailing arm needs a condition |
| Examples.ElseWithCondition | grammar.js:125 | `if c {} else true {}` has an empty `else if` list and a trailing arm |
| Examples.EmptyCase | grammar.js:154-158 | `case x {}` has no entries |
| Examples.ProgramFromText | grammar.js:21-34 | the text `main ( ) { x = 1 + 2 * 3 ; }` parses as one definition assigning `1 + (2 * 3)` to `x` |

## Left out

- The tree-sitter runtime is not modelled: `grammar()`, the combinators, the generated LR tables, incremental reparsing, the `word` mechanism (grammar.js:19) and node and field names. The parser states their meaning directly.
- Unicode classes are not modelled. `\s` is taken as ASCII whitespace (space, tab, newline, carriage return, vertical tab, form feed) plus the three listed code points.
- Error recovery and partial trees are not modelled. A failure reports the first error only: a lexical error with its character offset, or a parse error with the expected construct and a token index. There are no line and column spans.
- Semantics is not modelled: no evaluation of commands, `case` matching or types. No check rejects duplicate map keys or repeated parameter names.
- File and host I/O are left out. The source text is a parameter.
- Lexer.LexFrom: a command's payload is the rest of the line after `/`, blanks included. Tree-sitter would skip extras between `/` and the `.+` pattern.
- Lexer.LexFrom: the command heuristic inspects only the previous token. So a `/` right after the `}` of a map literal on the same line lexes as a command, and a `/` at the start of a line never continues an expression.
- LexerProofs.LexUnlex: the lexer round trip covers streams written with one blank before each token. Arbitrary extras are covered separately by `BlanksSkipped` and `CommentSkipped`.
- Reserved words: the model reserves `if else for in while repeat case return true false` everywhere, so `x = {in: 1}`, `f(case: int) {}` and `in = 1;` are rejected. In the grammar, `word: $ => $.identifier` (grammar.js:19) makes tree-sitter read such a word as a keyword only where the parse state expects that keyword, and as an identifier elsewhere. That context-dependent lexing belongs to the tree-sitter runtime and is not modelled.
- FrontEnd.TextRoundTrip: the text round trip covers modules whose tokens are lexable, which excludes commands, because the rendering puts no line end after a command. Commands are covered at the token level by `StmtProofs.CommandRoundTrip` and at the character level by `LexerProofs.CommandLexed`.
- The grouping `(a + b) > (c * d)` is not proved, because the table as written gives `a + (b > (c * d))`; see above.
