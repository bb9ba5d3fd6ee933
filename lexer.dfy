/** The lexical layer of the Spade grammar: the extras that are skipped between
    tokens (whitespace, three invisible code points, `--` line comments) and the
    token rules (identifier, number, string, command, operators and punctuation).

    The lexer works on the remaining suffix of the source. An error records how
    many characters were left when it was found, which does not depend on what
    came before; Tokenize turns that into an offset. */
module Lexer {
  import opened Wrappers

  datatype Kind =
    | Ident(name: string)     // identifiers and keywords alike
    | Number(digits: string)
    | Str(body: string)       // the text between the quotes, escapes kept as written
    | Cmd(text: string)       // the rest of a line after a statement-initial `/`
    | Sym(text: string)       // operators and punctuation

  /** `nl` says that the extras skipped before this token held a newline. */
  datatype Token = Token(kind: Kind, nl: bool)

  datatype LexError =
    | UnterminatedString(left: nat)
    | UnexpectedCharacter(left: nat, c: char)

  datatype LexResult = Tokens(tokens: seq<Token>) | LexFailure(error: LexError)

  datatype ScanResult = Scanned(kind: Kind, len: nat) | ScanError(error: LexError)

  /** How many characters were left when the error was found. */
  function Left(e: LexError): nat {
    match e
    case UnterminatedString(l) => l
    case UnexpectedCharacter(l, _) => l
  }

  // ---------------------------------------------------------------- characters

  /** The `[\s\n\U{FEFF}\U{2060}\U{200B}]` extra, with `\s` restricted to ASCII whitespace. */
  predicate IsBlank(c: char) {
    c == ' ' || c == '\t' || c == '\n' || c == '\r' || c == '\U{000B}' || c == '\U{000C}'
    || c == '\U{FEFF}' || c == '\U{2060}' || c == '\U{200B}'
  }

  predicate IsLetter(c: char) { 'a' <= c <= 'z' || 'A' <= c <= 'Z' }

  predicate IsDigit(c: char) { '0' <= c <= '9' }

  predicate IsIdentStart(c: char) { IsLetter(c) || c == '_' }

  predicate IsIdentChar(c: char) { IsIdentStart(c) || IsDigit(c) }

  predicate IsCommentStart(s: string) { |s| >= 2 && s[0] == '-' && s[1] == '-' }

  const TwoCharSymbols: set<string> := {">=", "==", "!=", "<="}

  const OneCharSymbols: string := "(){}[],:;=+-*/%&|!<>"

  predicate IsSymbol(s: string) {
    s in TwoCharSymbols || (|s| == 1 && s[0] in OneCharSymbols)
  }

  /** A character that is no extra and begins no token: neither a blank, a
      quote, an identifier or digit character, nor the first character of an
      operator or punctuation (every two-character operator begins with a
      one-character one, and so does `--`). */
  predicate StartsNoToken(c: char) {
    !IsBlank(c) && c != '\'' && !IsIdentChar(c) && c !in OneCharSymbols
  }

  // ---------------------------------------------------------------- token shapes

  /** `[a-zA-Z_][a-zA-Z_0-9]*` */
  predicate IsIdentifier(s: string) {
    |s| > 0 && IsIdentStart(s[0]) && forall i :: 0 <= i < |s| ==> IsIdentChar(s[i])
  }

  /** `\d+` */
  predicate IsDigits(s: string) {
    |s| > 0 && forall i :: 0 <= i < |s| ==> IsDigit(s[i])
  }

  /** A string body: every piece is a character other than `\`, `'` and newline,
      or a `\` followed by any one character (newline included). */
  predicate Escaped(b: string)
    decreases |b|
  {
    b == []
    || (b[0] == '\\' && |b| >= 2 && Escaped(b[2..]))
    || (b[0] != '\\' && b[0] != '\'' && b[0] != '\n' && Escaped(b[1..]))
  }

  /** `.+` with `.` matching anything but a newline. */
  predicate IsLine(s: string) {
    |s| > 0 && '\n' !in s
  }

  predicate WellFormed(k: Kind) {
    match k
    case Ident(n) => IsIdentifier(n)
    case Number(d) => IsDigits(d)
    case Str(b) => Escaped(b)
    case Cmd(t) => IsLine(t)
    case Sym(x) => IsSymbol(x)
  }

  /** The source text a token kind stands for. */
  function Spelling(k: Kind): string {
    match k
    case Ident(n) => n
    case Number(d) => d
    case Str(b) => "'" + b + "'"
    case Cmd(t) => "/" + t
    case Sym(x) => x
  }

  // ---------------------------------------------------------------- scanners

  /** Length of the longest prefix of identifier characters. */
  function IdentLen(s: string): (n: nat)
    ensures n <= |s|
    ensures forall i :: 0 <= i < n ==> IsIdentChar(s[i])
    ensures n < |s| ==> !IsIdentChar(s[n])
  {
    if s == [] || !IsIdentChar(s[0]) then 0 else 1 + IdentLen(s[1..])
  }

  /** Length of the longest prefix of decimal digits. */
  function DigitLen(s: string): (n: nat)
    ensures n <= |s|
    ensures forall i :: 0 <= i < n ==> IsDigit(s[i])
    ensures n < |s| ==> !IsDigit(s[n])
  {
    if s == [] || !IsDigit(s[0]) then 0 else 1 + DigitLen(s[1..])
  }

  /** Length of the prefix up to (and excluding) the first newline. */
  function LineLen(s: string): (n: nat)
    ensures n <= |s|
    ensures '\n' !in s[..n]
    ensures n < |s| ==> s[n] == '\n'
  {
    if s == [] || s[0] == '\n' then 0 else 1 + LineLen(s[1..])
  }

  /** Where the closing quote of a string body is: `s` is what follows the
      opening quote. None when the input ends or a bare newline comes first. */
  function StringLen(s: string): (r: Option<nat>)
    decreases |s|
    ensures r.Some? ==> r.value < |s| && s[r.value] == '\'' && Escaped(s[..r.value])
  {
    if s == [] || s[0] == '\n' then None
    else if s[0] == '\'' then Some(0)
    else if s[0] == '\\' then
      if |s| < 2 then None
      else match StringLen(s[2..])
        case None => None
        case Some(n) =>
          assert s[..n + 2] == s[..2] + s[2..][..n];
          Some(n + 2)
    else match StringLen(s[1..])
      case None => None
      case Some(n) =>
        assert s[..n + 1] == [s[0]] + s[1..][..n];
        Some(n + 1)
  }

  /** May a `/` open a command here: at the start of the input, after a newline,
      or after a token that can end a statement or open a block. */
  predicate OpensStatement(k: Kind) {
    k == Sym("{") || k == Sym("}") || k == Sym(";")
  }

  /** One token at the start of `s`, which begins with neither an extra nor a comment. */
  function Scan(s: string, cmdOk: bool): (r: ScanResult)
    requires s != [] && !IsBlank(s[0]) && !IsCommentStart(s)
    ensures r.Scanned? ==> 0 < r.len <= |s| && WellFormed(r.kind) && Spelling(r.kind) == s[..r.len]
    ensures r.ScanError? ==> Left(r.error) == |s|
    ensures r.ScanError? && r.error.UnexpectedCharacter? ==> r.error.c == s[0] && StartsNoToken(s[0])
    ensures r.ScanError? && r.error.UnterminatedString? ==> s[0] == '\'' && StringLen(s[1..]).None?
  {
    var c := s[0];
    if c == '/' && cmdOk && LineLen(s[1..]) > 0 then
      var n := LineLen(s[1..]);
      assert s[..n + 1] == "/" + s[1..][..n];
      Scanned(Cmd(s[1..][..n]), n + 1)
    else if c == '\'' then
      match StringLen(s[1..])
      case None => ScanError(UnterminatedString(|s|))
      case Some(n) =>
        assert s[..n + 2] == "'" + s[1..][..n] + "'";
        Scanned(Str(s[1..][..n]), n + 2)
    else if IsDigit(c) then
      var n := DigitLen(s);
      Scanned(Number(s[..n]), n)
    else if IsIdentStart(c) then
      var n := IdentLen(s);
      Scanned(Ident(s[..n]), n)
    else if |s| >= 2 && s[..2] in TwoCharSymbols then
      Scanned(Sym(s[..2]), 2)
    else if c in OneCharSymbols then
      assert s[..1] == [c];
      Scanned(Sym([c]), 1)
    else
      ScanError(UnexpectedCharacter(|s|, c))
  }

  // ---------------------------------------------------------------- the lexer

  /** Tokenizes the remaining input `s`. `nl`: a newline was skipped since the
      last token; `cmdOk`: a `/` here opens a command. */
  function LexFrom(s: string, nl: bool, cmdOk: bool): (r: LexResult)
    decreases |s|
    ensures r.Tokens? ==> forall i :: 0 <= i < |r.tokens| ==> WellFormed(r.tokens[i].kind)
    ensures r.LexFailure? ==> 0 < Left(r.error) <= |s|
  {
    if s == [] then Tokens([])
    else if IsBlank(s[0]) then LexFrom(s[1..], nl || s[0] == '\n', cmdOk || s[0] == '\n')
    else if IsCommentStart(s) then LexFrom(s[LineLen(s)..], nl, cmdOk)
    else match Scan(s, cmdOk)
      case ScanError(e) => LexFailure(e)
      case Scanned(k, n) =>
        match LexFrom(s[n..], false, OpensStatement(k))
        case LexFailure(e) => LexFailure(e)
        case Tokens(ts) => Tokens([Token(k, nl)] + ts)
  }

  /** The error `e` is reported at the character of `s` that caused it: a
      character that begins no token, or an opening quote whose string is
      never closed. */
  predicate ErrorAt(s: string, e: LexError) {
    0 < Left(e) <= |s|
    && var at := |s| - Left(e);
       (e.UnexpectedCharacter? ==> s[at] == e.c && StartsNoToken(e.c))
       && (e.UnterminatedString? ==> s[at] == '\'' && StringLen(s[at + 1..]).None?)
  }

  /** Every lexical error is reported where it arises. */
  lemma {:induction false} LexErrorLocated(s: string, nl: bool, cmdOk: bool)
    decreases |s|
    ensures var r := LexFrom(s, nl, cmdOk);
            r.LexFailure? ==> ErrorAt(s, r.error)
  {
    if s == [] {
    } else if IsBlank(s[0]) {
      var nl', cmdOk' := nl || s[0] == '\n', cmdOk || s[0] == '\n';
      LexErrorLocated(s[1..], nl', cmdOk');
      if LexFrom(s[1..], nl', cmdOk').LexFailure? {
        ErrorInSuffix(s, 1, LexFrom(s[1..], nl', cmdOk').error);
      }
    } else if IsCommentStart(s) {
      LexErrorLocated(s[LineLen(s)..], nl, cmdOk);
      if LexFrom(s[LineLen(s)..], nl, cmdOk).LexFailure? {
        ErrorInSuffix(s, LineLen(s), LexFrom(s[LineLen(s)..], nl, cmdOk).error);
      }
    } else {
      match Scan(s, cmdOk)
      case ScanError(_) =>
      case Scanned(k, n) =>
        LexErrorLocated(s[n..], false, OpensStatement(k));
        if LexFrom(s[n..], false, OpensStatement(k)).LexFailure? {
          ErrorInSuffix(s, n, LexFrom(s[n..], false, OpensStatement(k)).error);
        }
    }
  }

  /** An error located in a suffix of `s` is located at the same character of `s`. */
  lemma ErrorInSuffix(s: string, k: nat, e: LexError)
    requires k <= |s| && ErrorAt(s[k..], e)
    ensures ErrorAt(s, e)
  {
    var l := Left(e);
    assert s[k..][|s| - k - l] == s[|s| - l];
    assert s[k..][|s| - k - l + 1..] == s[|s| - l + 1..];
  }

  datatype Located = Located(error: LexError, offset: nat)

  datatype TokenizeResult = Tokenized(tokens: seq<Token>) | TokenizeError(at: Located)

  /** Tokenizes a whole source text; an error carries the offset of the
      character where it was found. */
  function Tokenize(src: string): (r: TokenizeResult)
    ensures r.Tokenized? ==> forall i :: 0 <= i < |r.tokens| ==> WellFormed(r.tokens[i].kind)
    ensures r.TokenizeError? ==> r.at.offset < |src|
    ensures r.TokenizeError? && r.at.error.UnexpectedCharacter?
            ==> src[r.at.offset] == r.at.error.c && StartsNoToken(r.at.error.c)
    ensures r.TokenizeError? && r.at.error.UnterminatedString?
            ==> src[r.at.offset] == '\'' && StringLen(src[r.at.offset + 1..]).None?
  {
    LexErrorLocated(src, false, true);
    match LexFrom(src, false, true)
    case Tokens(ts) => Tokenized(ts)
    case LexFailure(e) => TokenizeError(Located(e, |src| - Left(e)))
  }

  /** The content a string body denotes: each `\x` stands for `x`. */
  function Unescape(b: string): (r: string)
    requires Escaped(b)
    ensures |r| <= |b|
    decreases |b|
  {
    if b == [] then []
    else if b[0] == '\\' then [b[1]] + Unescape(b[2..])
    else [b[0]] + Unescape(b[1..])
  }

  /** The body that denotes `s`: a `\` before each backslash, quote and newline. */
  function Escape(s: string): (b: string)
    ensures |b| >= |s|
  {
    if s == [] then []
    else if s[0] == '\\' || s[0] == '\'' || s[0] == '\n' then ['\\', s[0]] + Escape(s[1..])
    else [s[0]] + Escape(s[1..])
  }
}
