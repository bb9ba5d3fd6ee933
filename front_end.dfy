/** The whole front end on source text: what tokenizing and then parsing a
    text gives, for the text of a canonical module and for texts with a
    lexical error in them. */
module FrontEnd {
  import opened Lexer
  import opened LexerProofs
  import opened Syntax
  import opened Parser
  import opened StmtProofs

  /** The text of a canonical module, one blank before each token, parses
      back as that module. The tokens must be lexable, which rules out
      commands (a rendered command is not followed by a line end). */
  lemma TextRoundTrip(ds: seq<FunctionDef>)
    requires CanonicalDefs(ds) && Lexable(RenderDefs(ds), true)
    ensures Parse(Unlex(RenderDefs(ds))) == Parsed(Module(ds))
  {
    TokenizeUnlex(RenderDefs(ds));
    ModuleRoundTrip(ds);
  }

  /** A character that begins no token, on a line after any lexable text, is
      reported as a lexical error at its own offset, whatever follows it. */
  lemma UnexpectedCharacterReported(ts: seq<Token>, c: char, s: string)
    requires Lexable(ts, true) && StartsNoToken(c)
    ensures Parse(Unlex(ts) + "\n" + ([c] + s))
            == Failed(LexDiagnostic(UnexpectedCharacter(1 + |s|, c), |Unlex(ts)| + 1))
  {
    UnexpectedCharacterLocated(ts, c, s);
  }

  /** A string left open at the end of its line, or of the input, is reported
      as a lexical error at its opening quote. */
  lemma UnterminatedStringReported(ts: seq<Token>, b: string, rest: string)
    requires Lexable(ts, true) && Escaped(b) && (rest == [] || rest[0] == '\n')
    ensures Parse(Unlex(ts) + "\n" + ("'" + b + rest))
            == Failed(LexDiagnostic(UnterminatedString(1 + |b| + |rest|), |Unlex(ts)| + 1))
  {
    UnterminatedStringLocated(ts, b, rest);
  }
}
