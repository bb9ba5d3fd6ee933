/** Properties of the lexical layer: the extras are transparent, each token
    rule reads back exactly the text it stands for (with maximal munch), and
    a token stream written out with one blank before each token lexes back
    as that stream. */
module LexerProofs {
  import opened Wrappers
  import opened Lexer

  // ---------------------------------------------------------------- extras

  predicate AllBlank(w: string) {
    forall i :: 0 <= i < |w| ==> IsBlank(w[i])
  }

  /** Whitespace and the three invisible code points are skipped; a newline
      among them is remembered, and opens a possible command. */
  lemma {:induction false} BlanksSkipped(w: string, s: string, nl: bool, cmdOk: bool)
    requires AllBlank(w)
    ensures LexFrom(w + s, nl, cmdOk) == LexFrom(s, nl || '\n' in w, cmdOk || '\n' in w)
    decreases |w|
  {
    if w != [] {
      var t := w + s;
      assert t[0] == w[0] && t[1..] == w[1..] + s;
      BlanksSkipped(w[1..], s, nl || w[0] == '\n', cmdOk || w[0] == '\n');
      assert ('\n' in w) == (w[0] == '\n' || '\n' in w[1..]) by {
        assert w == [w[0]] + w[1..];
      }
    } else {
      assert w + s == s;
    }
  }

  /** A `--` comment runs to the end of its line and is skipped like a blank:
      it neither adds tokens nor forgets the line end after it. */
  lemma CommentSkipped(text: string, s: string, nl: bool, cmdOk: bool)
    requires '\n' !in text
    requires s == [] || s[0] == '\n'
    ensures LexFrom("--" + text + s, nl, cmdOk) == LexFrom(s, nl, cmdOk)
  {
    var c := "--" + text;
    assert '\n' !in c by {
      forall i | 0 <= i < |c| ensures c[i] != '\n' {
        if i >= 2 { assert c[i] == text[i - 2]; }
      }
    }
    LineLenOf(c, s);
    var t := "--" + text + s;
    assert t == c + s;
    assert t[|c|..] == s;
  }

  // ---------------------------------------------------------------- scanners

  lemma {:induction false} IdentLenOf(n: string, rest: string)
    requires forall i :: 0 <= i < |n| ==> IsIdentChar(n[i])
    requires rest == [] || !IsIdentChar(rest[0])
    ensures IdentLen(n + rest) == |n|
  {
    if n == [] {
      assert n + rest == rest;
    } else {
      assert (n + rest)[1..] == n[1..] + rest;
      IdentLenOf(n[1..], rest);
    }
  }

  lemma {:induction false} DigitLenOf(d: string, rest: string)
    requires forall i :: 0 <= i < |d| ==> IsDigit(d[i])
    requires rest == [] || !IsDigit(rest[0])
    ensures DigitLen(d + rest) == |d|
  {
    if d == [] {
      assert d + rest == rest;
    } else {
      assert (d + rest)[1..] == d[1..] + rest;
      DigitLenOf(d[1..], rest);
    }
  }

  lemma {:induction false} LineLenOf(t: string, rest: string)
    requires '\n' !in t
    requires rest == [] || rest[0] == '\n'
    ensures LineLen(t + rest) == |t|
  {
    if t == [] {
      assert t + rest == rest;
    } else {
      assert (t + rest)[1..] == t[1..] + rest;
      LineLenOf(t[1..], rest);
    }
  }

  /** The closing quote of a string is the first unescaped `'`. */
  lemma {:induction false} StringLenOf(b: string, rest: string)
    requires Escaped(b)
    ensures StringLen(b + "'" + rest) == Some(|b|)
    decreases |b|
  {
    var s := b + "'" + rest;
    if b == [] {
      assert s[0] == '\'';
    } else if b[0] == '\\' {
      assert s[0] == '\\' && s[2..] == b[2..] + "'" + rest;
      StringLenOf(b[2..], rest);
    } else {
      assert s[0] == b[0] && s[1..] == b[1..] + "'" + rest;
      StringLenOf(b[1..], rest);
    }
  }

  /** A string that reaches the end of the input, or a bare newline, is not closed. */
  lemma {:induction false} StringUnterminated(b: string, rest: string)
    requires Escaped(b) && (rest == [] || rest[0] == '\n')
    ensures StringLen(b + rest) == None
    decreases |b|
  {
    var s := b + rest;
    if b == [] {
      assert s == rest;
    } else if b[0] == '\\' {
      assert s[0] == '\\' && s[2..] == b[2..] + rest;
      StringUnterminated(b[2..], rest);
    } else {
      assert s[0] == b[0] && s[1..] == b[1..] + rest;
      StringUnterminated(b[1..], rest);
    }
  }

  // ---------------------------------------------------------------- one token

  /** What may follow the spelling of `k` without being read into it: the end
      of the input or a blank; after a command (and after a `/` where a
      command may start), only the end of the input or a newline. */
  predicate Delimits(k: Kind, cmdOk: bool, rest: string) {
    (rest == [] || IsBlank(rest[0]))
    && ((k.Cmd? || (k == Sym("/") && cmdOk)) ==> rest == [] || rest[0] == '\n')
  }

  /** The text scanned for `k` starts a token: it is not an extra. */
  predicate Scannable(s: string) {
    s != [] && !IsBlank(s[0]) && !IsCommentStart(s)
  }

  /** Each token rule reads back exactly its own spelling. */
  lemma ScanSpelling(k: Kind, cmdOk: bool, rest: string)
    requires WellFormed(k) && (k.Cmd? ==> cmdOk) && Delimits(k, cmdOk, rest)
    ensures Scannable(Spelling(k) + rest)
    ensures Scan(Spelling(k) + rest, cmdOk) == Scanned(k, |Spelling(k)|)
  {
    match k
    case Ident(n) => ScanIdent(n, cmdOk, rest);
    case Number(d) => ScanNumber(d, cmdOk, rest);
    case Str(b) =>
      StringLenOf(b, rest);
      ScanString(b, cmdOk, rest);
      assert Spelling(k) + rest == "'" + b + "'" + rest;
    case Cmd(t) =>
      ScanCommand(t, rest);
      assert Spelling(k) + rest == "/" + t + rest;
    case Sym(x) =>
      if x in TwoCharSymbols {
        ScanSymbol2(x, cmdOk, rest);
      } else {
        assert x == [x[0]];
        ScanSymbol1(x[0], cmdOk, rest);
      }
  }

  lemma ScanIdent(n: string, cmdOk: bool, rest: string)
    requires IsIdentifier(n) && (rest == [] || IsBlank(rest[0]))
    ensures Scannable(n + rest) && Scan(n + rest, cmdOk) == Scanned(Ident(n), |n|)
  {
    var s := n + rest;
    assert s[0] == n[0];
    IdentLenOf(n, rest);
    assert s[..|n|] == n;
  }

  lemma ScanNumber(d: string, cmdOk: bool, rest: string)
    requires IsDigits(d) && (rest == [] || IsBlank(rest[0]))
    ensures Scannable(d + rest) && Scan(d + rest, cmdOk) == Scanned(Number(d), |d|)
  {
    var s := d + rest;
    assert s[0] == d[0];
    DigitLenOf(d, rest);
    assert s[..|d|] == d;
  }

  lemma ScanString(b: string, cmdOk: bool, rest: string)
    requires StringLen(b + "'" + rest) == Some(|b|)
    ensures var s := "'" + b + "'" + rest;
            Scannable(s) && Scan(s, cmdOk) == Scanned(Str(b), |b| + 2)
  {
    var s := "'" + b + "'" + rest;
    assert s == ['\''] + (b + ['\''] + rest);
    assert s[1..] == b + "'" + rest;
    assert s[1..][..|b|] == b;
  }

  lemma ScanCommand(t: string, rest: string)
    requires IsLine(t) && (rest == [] || rest[0] == '\n')
    ensures var s := "/" + t + rest;
            Scannable(s) && Scan(s, true) == Scanned(Cmd(t), |t| + 1)
  {
    var s := "/" + t + rest;
    assert s[0] == '/' && s[1..] == t + rest;
    LineLenOf(t, rest);
    assert s[1..][..|t|] == t;
  }

  lemma ScanSymbol2(x: string, cmdOk: bool, rest: string)
    requires x in TwoCharSymbols
    ensures Scannable(x + rest) && Scan(x + rest, cmdOk) == Scanned(Sym(x), 2)
  {
    var s := x + rest;
    assert s[..2] == x;
    assert s[0] == x[0] && x[0] in ">=!<";
  }

  /** A punctuation character starts no other token. */
  lemma PunctuationOnly(c: char)
    requires c in OneCharSymbols
    ensures !IsBlank(c) && !IsDigit(c) && !IsIdentStart(c) && c != '\''
  {
    var i :| 0 <= i < |OneCharSymbols| && OneCharSymbols[i] == c;
  }

  lemma ScanSymbol1(c: char, cmdOk: bool, rest: string)
    requires c in OneCharSymbols && (rest == [] || IsBlank(rest[0]))
    requires c == '/' && cmdOk ==> rest == [] || rest[0] == '\n'
    ensures Scannable([c] + rest) && Scan([c] + rest, cmdOk) == Scanned(Sym([c]), 1)
  {
    var s := [c] + rest;
    PunctuationOnly(c);
    assert s[0] == c && s[1..] == rest;
    if rest != [] {
      assert s[..2] == [c, rest[0]];
      assert s[..2] !in TwoCharSymbols by {
        assert s[..2][1] == rest[0];
      }
    }
    assert s[..1] == [c];
    if c == '/' && cmdOk {
      LineLenOf([], rest);
      assert [] + rest == rest;
    }
  }

  // ---------------------------------------------------------------- token streams

  /** The text of a token stream: each token preceded by a newline when its
      `nl` flag is set and by a space otherwise. */
  function Unlex(ts: seq<Token>): (s: string)
    ensures |s| >= |ts|
  {
    if ts == [] then [] else Sep(ts[0]) + Spelling(ts[0].kind) + Unlex(ts[1..])
  }

  /** A stream the lexer can produce from the state `cmdOk`: every token is
      well formed, a command appears only where a statement may start, and a
      command (or a `/` where one could start) is followed by a line end. */
  predicate Lexable(ts: seq<Token>, cmdOk: bool) {
    ts == []
    || (var t := ts[0];
        var here := cmdOk || t.nl;
        WellFormed(t.kind)
        && (t.kind.Cmd? ==> here)
        && ((t.kind.Cmd? || (t.kind == Sym("/") && here)) ==> |ts| == 1 || ts[1].nl)
        && Lexable(ts[1..], OpensStatement(t.kind)))
  }

  /** A stream without commands and without `/` is lexable from any state. */
  lemma {:induction false} PlainLexable(ts: seq<Token>, cmdOk: bool)
    requires forall i :: 0 <= i < |ts| ==> WellFormed(ts[i].kind) && !ts[i].kind.Cmd? && ts[i].kind != Sym("/")
    ensures Lexable(ts, cmdOk)
  {
    if ts != [] {
      PlainLexable(ts[1..], OpensStatement(ts[0].kind));
    }
  }

  /** The blank written before a token. */
  function Sep(t: Token): string {
    if t.nl then "\n" else " "
  }

  /** One token, written out after its blank, is read back with its flag and
      leaves the lexer in the state that token leads to. */
  lemma LexOne(t: Token, tail: string, cmdOk: bool)
    requires WellFormed(t.kind) && (t.kind.Cmd? ==> cmdOk || t.nl) && Delimits(t.kind, cmdOk || t.nl, tail)
    ensures LexFrom(Sep(t) + Spelling(t.kind) + tail, false, cmdOk)
            == Prefixed([t], LexFrom(tail, false, OpensStatement(t.kind)))
  {
    var sp := Spelling(t.kind);
    var c := if t.nl then '\n' else ' ';
    assert Sep(t) + sp + tail == [c] + (sp + tail);
    BlankFirst(c, sp + tail, false, cmdOk);
    ScanSpelling(t.kind, cmdOk || t.nl, tail);
    LexScanned(sp + tail, t.nl, cmdOk || t.nl);
    assert (sp + tail)[|sp|..] == tail;
  }

  /** A leading blank is skipped, and a line end is remembered. */
  lemma BlankFirst(c: char, s: string, nl: bool, cmdOk: bool)
    requires IsBlank(c)
    ensures LexFrom([c] + s, nl, cmdOk) == LexFrom(s, nl || c == '\n', cmdOk || c == '\n')
  {
    assert ([c] + s)[1..] == s;
  }

  /** A scanned token is put in front of what the lexer reads after it. */
  lemma LexScanned(s: string, nl: bool, cmdOk: bool)
    requires Scannable(s) && Scan(s, cmdOk).Scanned?
    ensures var k, n := Scan(s, cmdOk).kind, Scan(s, cmdOk).len;
            LexFrom(s, nl, cmdOk) == Prefixed([Token(k, nl)], LexFrom(s[n..], false, OpensStatement(k)))
  {
  }

  /** The lexer loses nothing but the extras: writing a lexable stream out
      and lexing it again gives back the same tokens, newline flags included. */
  lemma {:induction false} LexUnlex(ts: seq<Token>, cmdOk: bool)
    requires Lexable(ts, cmdOk)
    ensures LexFrom(Unlex(ts), false, cmdOk) == Tokens(ts)
  {
    if ts != [] {
      var t := ts[0];
      var tail := Unlex(ts[1..]);
      assert Unlex(ts) == Sep(t) + Spelling(t.kind) + tail;
      assert Delimits(t.kind, cmdOk || t.nl, tail) by {
        if ts[1..] != [] {
          assert tail[0] == Sep(ts[1])[0];
        }
      }
      LexOne(t, tail, cmdOk);
      LexUnlex(ts[1..], OpensStatement(t.kind));
      assert [t] + ts[1..] == ts;
      assert Prefixed([t], Tokens(ts[1..])) == Tokens(ts);
    }
  }

  /** At the top level a lexable stream tokenizes back as itself. */
  lemma TokenizeUnlex(ts: seq<Token>)
    requires Lexable(ts, true)
    ensures Tokenize(Unlex(ts)) == Tokenized(ts)
  {
    LexUnlex(ts, true);
  }

  /** The tokens `ts` put in front of whatever `r` lexed. */
  function Prefixed(ts: seq<Token>, r: LexResult): LexResult {
    match r
    case LexFailure(e) => LexFailure(e)
    case Tokens(us) => Tokens(ts + us)
  }

  lemma PrefixedTwice(t: Token, ts: seq<Token>, r: LexResult)
    ensures Prefixed([t], Prefixed(ts, r)) == Prefixed([t] + ts, r)
  {
    match r
    case LexFailure(_) =>
    case Tokens(us) => assert [t] + (ts + us) == [t] + ts + us;
  }

  /** The same with more text after a line end: the lexer reads the stream's
      tokens and then goes on with the rest of the text, at a line start. */
  lemma {:induction false} LexUnlexThen(ts: seq<Token>, cmdOk: bool, tail: string)
    requires Lexable(ts, cmdOk)
    ensures LexFrom(Unlex(ts) + "\n" + tail, false, cmdOk) == Prefixed(ts, LexFrom(tail, true, true))
  {
    if ts == [] {
      assert Unlex(ts) + "\n" + tail == ['\n'] + tail;
      BlankFirst('\n', tail, false, cmdOk);
      match LexFrom(tail, true, true)
      case LexFailure(_) =>
      case Tokens(us) => assert ts + us == us;
    } else {
      UnlexStep(ts, cmdOk, tail);
      LexUnlexThen(ts[1..], OpensStatement(ts[0].kind), tail);
      PrefixedTwice(ts[0], ts[1..], LexFrom(tail, true, true));
      assert [ts[0]] + ts[1..] == ts;
    }
  }

  /** The first token of a lexable stream, written out before a line end and
      more text, is read back first. */
  lemma UnlexStep(ts: seq<Token>, cmdOk: bool, tail: string)
    requires Lexable(ts, cmdOk) && ts != []
    ensures LexFrom(Unlex(ts) + "\n" + tail, false, cmdOk)
            == Prefixed([ts[0]], LexFrom(Unlex(ts[1..]) + "\n" + tail, false, OpensStatement(ts[0].kind)))
  {
    UnlexSplit(ts, cmdOk, tail);
    LexOne(ts[0], Unlex(ts[1..]) + "\n" + tail, cmdOk);
  }

  /** The text of a lexable stream and a line end: the first token's blank
      and spelling, then text that delimits it. */
  lemma UnlexSplit(ts: seq<Token>, cmdOk: bool, tail: string)
    requires Lexable(ts, cmdOk) && ts != []
    ensures Unlex(ts) + "\n" + tail == Sep(ts[0]) + Spelling(ts[0].kind) + (Unlex(ts[1..]) + "\n" + tail)
    ensures Delimits(ts[0].kind, cmdOk || ts[0].nl, Unlex(ts[1..]) + "\n" + tail)
  {
    var t, u := ts[0], ts[1..];
    var after := Unlex(u) + "\n" + tail;
    assert Unlex(ts) == Sep(t) + Spelling(t.kind) + Unlex(u);
    if u == [] {
      assert after[0] == '\n';
    } else {
      assert Unlex(u) == Sep(u[0]) + (Spelling(u[0].kind) + Unlex(u[1..]));
      assert after[0] == Sep(u[0])[0];
      assert u[0] == ts[1];
    }
  }

  /** An error in the text after the stream is the error of the whole text. */
  lemma ErrorAfterUnlex(ts: seq<Token>, tail: string, e: LexError)
    requires Lexable(ts, true) && LexFrom(tail, true, true) == LexFailure(e)
    ensures Tokenize(Unlex(ts) + "\n" + tail)
            == TokenizeError(Located(e, |Unlex(ts)| + 1 + |tail| - Left(e)))
  {
    LexUnlexFails(ts, tail, e);
  }

  /** An error in the text after the stream is the lexer's error on the whole text. */
  lemma LexUnlexFails(ts: seq<Token>, tail: string, e: LexError)
    requires Lexable(ts, true) && LexFrom(tail, true, true) == LexFailure(e)
    ensures LexFrom(Unlex(ts) + "\n" + tail, false, true) == LexFailure(e)
  {
    LexUnlexThen(ts, true, tail);
  }

  // ---------------------------------------------------------------- lexical errors

  /** A character that is neither an extra nor the start of any token is
      rejected where it stands. */
  lemma UnexpectedCharacterFails(c: char, s: string, nl: bool, cmdOk: bool)
    requires StartsNoToken(c)
    ensures LexFrom([c] + s, nl, cmdOk) == LexFailure(UnexpectedCharacter(1 + |s|, c))
  {
    var t := [c] + s;
    assert t[0] == c;
    if |t| >= 2 {
      assert t[..2][0] == c;
      assert t[..2] !in TwoCharSymbols;
    }
  }

  /** In a whole text, such a character on a line after any lexable tokens is
      reported at its own offset. */
  lemma UnexpectedCharacterLocated(ts: seq<Token>, c: char, s: string)
    requires Lexable(ts, true) && StartsNoToken(c)
    ensures Tokenize(Unlex(ts) + "\n" + ([c] + s))
            == TokenizeError(Located(UnexpectedCharacter(1 + |s|, c), |Unlex(ts)| + 1))
  {
    var tail := [c] + s;
    var e := UnexpectedCharacter(1 + |s|, c);
    assert LexFrom(tail, true, true) == LexFailure(e) by {
      UnexpectedCharacterFails(c, s, true, true);
    }
    assert Left(e) == |tail|;
    ErrorAfterUnlex(ts, tail, e);
  }

  /** A string left open at the end of its line, or of the input, on a line
      after lexable text, is reported at its opening quote. */
  lemma UnterminatedStringLocated(ts: seq<Token>, b: string, rest: string)
    requires Lexable(ts, true) && Escaped(b) && (rest == [] || rest[0] == '\n')
    ensures Tokenize(Unlex(ts) + "\n" + ("'" + b + rest))
            == TokenizeError(Located(UnterminatedString(1 + |b| + |rest|), |Unlex(ts)| + 1))
  {
    var tail := "'" + b + rest;
    var e := UnterminatedString(1 + |b| + |rest|);
    assert LexFrom(tail, true, true) == LexFailure(e) by {
      UnterminatedStringFails(b, rest, true, true);
    }
    assert Left(e) == |tail|;
    ErrorAfterUnlex(ts, tail, e);
  }

  // ---------------------------------------------------------------- what the lexer produces

  /** The first token read after a newline carries the newline flag. */
  lemma {:induction false} FlagAfterNewline(s: string, cmdOk: bool)
    ensures var r := LexFrom(s, true, cmdOk);
            r.Tokens? && r.tokens != [] ==> r.tokens[0].nl
    decreases |s|
  {
    if s != [] {
      if IsBlank(s[0]) {
        FlagAfterNewline(s[1..], cmdOk || s[0] == '\n');
      } else if IsCommentStart(s) {
        FlagAfterNewline(s[LineLen(s)..], cmdOk);
      }
    }
  }

  /** The first token of a text that starts with a newline, or of a text with
      no tokens at all, meets the line-end demand of Lexable. */
  lemma RestAtLineEnd(s: string, cmdOk: bool)
    requires s == [] || s[0] == '\n'
    ensures var r := LexFrom(s, false, cmdOk);
            r.Tokens? && r.tokens != [] ==> r.tokens[0].nl
  {
    if s != [] {
      FlagAfterNewline(s[1..], true);
    }
  }

  /** The lexer produces only lexable streams: commands appear only where a
      statement may start, and each is followed by a line end. Together with
      LexUnlex, the streams the lexer produces are exactly the lexable ones. */
  lemma {:induction false} LexedIsLexable(s: string, nl: bool, cmdOk: bool)
    requires nl ==> cmdOk
    ensures var r := LexFrom(s, nl, cmdOk);
            r.Tokens? ==> Lexable(r.tokens, cmdOk)
    decreases |s|
  {
    if s == [] {
    } else if IsBlank(s[0]) {
      LexedIsLexable(s[1..], nl || s[0] == '\n', cmdOk || s[0] == '\n');
      BlankKeepsLexable(s, nl, cmdOk);
    } else if IsCommentStart(s) {
      LexedIsLexable(s[LineLen(s)..], nl, cmdOk);
    } else if Scan(s, cmdOk).Scanned? {
      var k, n := Scan(s, cmdOk).kind, Scan(s, cmdOk).len;
      LexedIsLexable(s[n..], false, OpensStatement(k));
      TokenKeepsLexable(s, nl, cmdOk);
    }
  }

  /** A blank in front keeps the stream lexable: a line end only sets the
      flag of the next token, which is what lets a command follow. */
  lemma BlankKeepsLexable(s: string, nl: bool, cmdOk: bool)
    requires s != [] && IsBlank(s[0])
    requires var r := LexFrom(s[1..], nl || s[0] == '\n', cmdOk || s[0] == '\n');
             r.Tokens? ==> Lexable(r.tokens, cmdOk || s[0] == '\n')
    ensures var r := LexFrom(s, nl, cmdOk);
            r.Tokens? ==> Lexable(r.tokens, cmdOk)
  {
    var r := LexFrom(s[1..], nl || s[0] == '\n', cmdOk || s[0] == '\n');
    assert LexFrom(s, nl, cmdOk) == r;
    if r.Tokens? && r.tokens != [] && s[0] == '\n' {
      FlagAfterNewline(s[1..], true);
      LexableFlagged(r.tokens, true, cmdOk);
    }
  }

  /** A stream whose first token is on a new line is lexable from any state or from none. */
  lemma LexableFlagged(ts: seq<Token>, a: bool, b: bool)
    requires ts != [] && ts[0].nl && Lexable(ts, a)
    ensures Lexable(ts, b)
  {
  }

  /** A scanned token in front keeps the stream lexable. */
  lemma TokenKeepsLexable(s: string, nl: bool, cmdOk: bool)
    requires s != [] && !IsBlank(s[0]) && !IsCommentStart(s) && Scan(s, cmdOk).Scanned?
    requires nl ==> cmdOk
    requires var r := LexFrom(s[Scan(s, cmdOk).len..], false, OpensStatement(Scan(s, cmdOk).kind));
             r.Tokens? ==> Lexable(r.tokens, OpensStatement(Scan(s, cmdOk).kind))
    ensures var r := LexFrom(s, nl, cmdOk);
            r.Tokens? ==> Lexable(r.tokens, cmdOk)
  {
    var k, n := Scan(s, cmdOk).kind, Scan(s, cmdOk).len;
    if k.Cmd? || (k == Sym("/") && cmdOk) {
      assert s[n..] == s[1..][n - 1..];
      RestAtLineEnd(s[n..], OpensStatement(k));
    }
  }

  // ---------------------------------------------------------------- commands

  /** At the start of a statement, `/` and the rest of the line form one
      command whose payload drops the `/` and the line end. */
  lemma CommandLexed(p: string, s: string, nl: bool)
    requires IsLine(p) && (s == [] || s[0] == '\n')
    ensures LexFrom("/" + p + s, nl, true)
            == match LexFrom(s, false, false)
               case LexFailure(e) => LexFailure(e)
               case Tokens(ts) => Tokens([Token(Cmd(p), nl)] + ts)
  {
    ScanSpelling(Cmd(p), true, s);
    assert ("/" + p + s)[|p| + 1..] == s;
  }

  /** Elsewhere `/` is the division operator. */
  lemma SlashIsOperator(s: string, nl: bool)
    ensures LexFrom("/" + s, nl, false)
            == match LexFrom(s, false, false)
               case LexFailure(e) => LexFailure(e)
               case Tokens(ts) => Tokens([Token(Sym("/"), nl)] + ts)
  {
    var t := "/" + s;
    assert t[0] == '/' && !IsBlank(t[0]) && !IsCommentStart(t);
    if |t| >= 2 {
      assert t[..2] == ['/', s[0]];
    }
    assert t[..1] == "/";
    assert t[1..] == s;
  }

  // ---------------------------------------------------------------- strings

  /** Escaping produces a valid string body, which denotes the original text. */
  lemma {:induction false} EscapeSound(s: string)
    ensures Escaped(Escape(s)) && Unescape(Escape(s)) == s
  {
    if s != [] {
      EscapeSound(s[1..]);
      var e := Escape(s);
      if s[0] == '\\' || s[0] == '\'' || s[0] == '\n' {
        assert e == ['\\', s[0]] + Escape(s[1..]);
        assert e[2..] == Escape(s[1..]);
      } else {
        assert e == [s[0]] + Escape(s[1..]);
        assert e[1..] == Escape(s[1..]);
      }
      assert s == [s[0]] + s[1..];
    }
  }

  /** Any text can be written as a string literal that lexes back as one token. */
  lemma StringLiteralLexed(s: string, rest: string, nl: bool, cmdOk: bool)
    requires rest == [] || IsBlank(rest[0])
    ensures var lit := "'" + Escape(s) + "'";
            LexFrom(lit + rest, nl, cmdOk)
            == match LexFrom(rest, false, false)
               case LexFailure(e) => LexFailure(e)
               case Tokens(ts) => Tokens([Token(Str(Escape(s)), nl)] + ts)
  {
    EscapeSound(s);
    ScanSpelling(Str(Escape(s)), cmdOk, rest);
    var lit := "'" + Escape(s) + "'";
    assert (lit + rest)[|lit|..] == rest;
  }

  /** A string left open at the end of a line or of the input is an error
      located at its opening quote. */
  lemma UnterminatedStringFails(b: string, rest: string, nl: bool, cmdOk: bool)
    requires Escaped(b) && (rest == [] || rest[0] == '\n')
    ensures LexFrom("'" + b + rest, nl, cmdOk) == LexFailure(UnterminatedString(1 + |b| + |rest|))
  {
    var s := "'" + b + rest;
    assert s[0] == '\'' && s[1..] == b + rest;
    StringUnterminated(b, rest);
  }
}
