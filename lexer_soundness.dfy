/** The converse of the lexer round trip: whatever the lexer accepts is the
    spellings of the tokens it returns, with nothing but extras (blanks and
    `--` comments) around them, and each token's newline flag says whether
    the extras before it hold a line end. */
module LexerSoundness {
  import opened Lexer
  import opened Seqs

  /** Text the lexer skips before a token: blanks and `--` comments. A
      comment runs to a line end inside the gap; only in the last gap, before
      the end of the input, may it run to the end. */
  predicate Extras(g: string, last: bool)
    decreases |g|
  {
    g == []
    || (IsBlank(g[0]) && Extras(g[1..], last))
    || (!IsBlank(g[0]) && IsCommentStart(g) && (LineLen(g) < |g| || last) && Extras(g[LineLen(g)..], last))
  }

  /** The gaps and the token spellings, taken in turn: gap, token, gap, …, gap. */
  function Weave(gaps: seq<string>, ts: seq<Token>): string
    requires |gaps| == |ts| + 1
    decreases |ts|
  {
    if ts == [] then gaps[0] else gaps[0] + Spelling(ts[0].kind) + Weave(gaps[1..], ts[1..])
  }

  /** `s` is the tokens `ts` separated by the extras `gaps`, and a token is
      flagged exactly when a line end precedes it in its gap (or, for the first
      token, when the lexer started after a line end). */
  predicate Woven(s: string, gaps: seq<string>, ts: seq<Token>, nl: bool) {
    |gaps| == |ts| + 1
    && (forall i :: 0 <= i < |gaps| ==> Extras(gaps[i], i == |ts|))
    && (forall i :: 0 <= i < |ts| ==> ts[i].nl == ((i == 0 && nl) || '\n' in gaps[i]))
    && Weave(gaps, ts) == s
  }

  // ---------------------------------------------------------------- helpers

  lemma WeaveFront(x: string, gaps: seq<string>, ts: seq<Token>)
    requires |gaps| == |ts| + 1
    ensures Weave([x + gaps[0]] + gaps[1..], ts) == x + Weave(gaps, ts)
  {
    var g := [x + gaps[0]] + gaps[1..];
    assert g[0] == x + gaps[0];
    if ts != [] {
      var sp, w := Spelling(ts[0].kind), Weave(gaps[1..], ts[1..]);
      assert g[1..] == gaps[1..];
      assert Weave(g, ts) == x + gaps[0] + sp + w;
      assert Weave(gaps, ts) == gaps[0] + sp + w;
      Assoc4(x, gaps[0], sp, w);
    }
  }

  /** A weave starts with its first gap. */
  lemma WeavePrefix(gaps: seq<string>, ts: seq<Token>)
    requires |gaps| == |ts| + 1
    ensures |gaps[0]| <= |Weave(gaps, ts)| && Weave(gaps, ts)[..|gaps[0]|] == gaps[0]
  {
  }

  /** The line length of a prefix is the line length of the whole, cut at the prefix. */
  lemma {:induction false} LineLenPrefix(p: string, s: string)
    requires |p| <= |s| && s[..|p|] == p
    ensures LineLen(p) == if LineLen(s) <= |p| then LineLen(s) else |p|
  {
    if p != [] {
      assert s[0] == p[0];
      LineLenPrefix(p[1..], s[1..]);
    }
  }

  /** A well-formed token is spelled with at least one character, and not with a line end first. */
  lemma SpellingStart(k: Kind)
    requires WellFormed(k)
    ensures |Spelling(k)| > 0 && Spelling(k)[0] != '\n'
  {
    match k
    case Sym(x) =>
      if x !in TwoCharSymbols {
        var i :| 0 <= i < |OneCharSymbols| && OneCharSymbols[i] == x[0];
      }
    case _ =>
  }

  /** What a blank adds in front of a weave. */
  lemma WovenBlank(s: string, nl: bool, gaps': seq<string>, ts: seq<Token>) returns (gaps: seq<string>)
    requires s != [] && IsBlank(s[0]) && Woven(s[1..], gaps', ts, nl || s[0] == '\n')
    ensures Woven(s, gaps, ts, nl)
  {
    var x := [s[0]];
    assert Extras(x + gaps'[0], 0 == |ts|) by {
      assert (x + gaps'[0])[1..] == gaps'[0];
    }
    assert s == x + s[1..];
    gaps := ExtendFirstGap(x, s[1..], gaps', ts, nl, nl || s[0] == '\n');
  }

  /** A comment's line is at least its `--`. */
  lemma CommentLineLen(s: string)
    requires IsCommentStart(s)
    ensures LineLen(s) >= 2
  {
    assert LineLen(s) == 1 + LineLen(s[1..]);
    assert s[1..][0] == s[1];
  }

  /** A line without a line end, followed by a line end or by nothing, has its own length. */
  lemma {:induction false} LineLenAppend(x: string, g: string)
    requires '\n' !in x && (g == [] || g[0] == '\n')
    ensures LineLen(x + g) == |x|
  {
    if x == [] {
      assert x + g == g;
    } else {
      assert (x + g)[1..] == x[1..] + g;
      LineLenAppend(x[1..], g);
    }
  }

  /** A comment in front of extras that start a new line (or end the input) is extras. */
  lemma CommentGap(x: string, g: string, last: bool)
    requires IsCommentStart(x) && '\n' !in x
    requires (g == [] ==> last) && (g != [] ==> g[0] == '\n') && Extras(g, last)
    ensures Extras(x + g, last)
  {
    LineLenAppend(x, g);
    assert (x + g)[..2] == x[..2];
    assert (x + g)[|x|..] == g;
  }

  /** A weave whose first gap is empty starts with a token, so not with a line end. */
  lemma WeaveHead(gaps: seq<string>, ts: seq<Token>)
    requires |gaps| == |ts| + 1 && ts != [] && gaps[0] == [] && WellFormed(ts[0].kind)
    ensures |Weave(gaps, ts)| > 0 && Weave(gaps, ts)[0] != '\n'
  {
    var sp, w := Spelling(ts[0].kind), Weave(gaps[1..], ts[1..]);
    SpellingStart(ts[0].kind);
    assert Weave(gaps, ts) == gaps[0] + sp + w;
    assert gaps[0] + sp + w == sp + w;
    assert (sp + w)[0] == sp[0];
  }

  /** After a comment's line comes a line end, unless the input ends there
      with no token left. */
  lemma AfterComment(s: string, gaps: seq<string>, ts: seq<Token>)
    requires forall i :: 0 <= i < |ts| ==> WellFormed(ts[i].kind)
    requires |gaps| == |ts| + 1 && Weave(gaps, ts) == s[LineLen(s)..]
    ensures gaps[0] == [] ==> ts == []
    ensures gaps[0] != [] ==> gaps[0][0] == '\n'
  {
    var n, g := LineLen(s), gaps[0];
    WeavePrefix(gaps, ts);
    if g != [] {
      assert s[n..][0] == g[0];
    }
    if g == [] && ts != [] {
      WeaveHead(gaps, ts);
      assert false;
    }
  }

  /** Extras `x` put in front of a weave join its first gap. */
  lemma ExtendFirstGap(x: string, rest: string, gaps': seq<string>, ts: seq<Token>, nl: bool, nl': bool)
    returns (gaps: seq<string>)
    requires Woven(rest, gaps', ts, nl') && Extras(x + gaps'[0], 0 == |ts|)
    requires nl' == (nl || '\n' in x)
    ensures Woven(x + rest, gaps, ts, nl)
  {
    gaps := [x + gaps'[0]] + gaps'[1..];
    assert forall i :: 1 <= i < |gaps| ==> gaps[i] == gaps'[i];
    assert '\n' in gaps[0] <==> '\n' in x || '\n' in gaps'[0];
    WeaveFront(x, gaps', ts);
  }

  /** What a comment adds in front of a weave. */
  lemma WovenComment(s: string, nl: bool, gaps': seq<string>, ts: seq<Token>) returns (gaps: seq<string>)
    requires s != [] && !IsBlank(s[0]) && IsCommentStart(s)
    requires forall i :: 0 <= i < |ts| ==> WellFormed(ts[i].kind)
    requires Woven(s[LineLen(s)..], gaps', ts, nl)
    ensures Woven(s, gaps, ts, nl)
  {
    var n := LineLen(s);
    var x, g := s[..n], gaps'[0];
    assert IsCommentStart(x) by {
      CommentLineLen(s);
    }
    assert Extras(x + g, 0 == |ts|) by {
      AfterComment(s, gaps', ts);
      CommentGap(x, g, 0 == |ts|);
    }
    assert s == x + s[n..];
    gaps := ExtendFirstGap(x, s[n..], gaps', ts, nl, nl);
  }

  /** What a token adds in front of a weave. */
  lemma WovenToken(s: string, nl: bool, k: Kind, n: nat, gaps': seq<string>, ts': seq<Token>)
    returns (gaps: seq<string>)
    requires n <= |s| && Spelling(k) == s[..n] && Woven(s[n..], gaps', ts', false)
    ensures Woven(s, gaps, [Token(k, nl)] + ts', nl)
  {
    var ts := [Token(k, nl)] + ts';
    gaps := [[]] + gaps';
    assert gaps[1..] == gaps' && ts[1..] == ts';
    assert forall i :: 1 <= i < |gaps| ==> gaps[i] == gaps'[i - 1];
    assert forall i :: 1 <= i < |ts| ==> ts[i] == ts'[i - 1];
    assert s == s[..n] + s[n..];
  }

  // ---------------------------------------------------------------- the lemma

  /** Whatever the lexer accepts is its tokens' spellings separated by extras,
      with the newline flags telling where the line ends are. */
  lemma {:induction false} LexSpelled(s: string, nl: bool, cmdOk: bool)
    ensures var r := LexFrom(s, nl, cmdOk);
            r.Tokens? ==> exists gaps :: Woven(s, gaps, r.tokens, nl)
    decreases |s|
  {
    var r := LexFrom(s, nl, cmdOk);
    if r.Tokens? {
      var gaps: seq<string>;
      if s == [] {
        gaps := [[]];
      } else if IsBlank(s[0]) {
        LexSpelled(s[1..], nl || s[0] == '\n', cmdOk || s[0] == '\n');
        var gaps' :| Woven(s[1..], gaps', r.tokens, nl || s[0] == '\n');
        gaps := WovenBlank(s, nl, gaps', r.tokens);
      } else if IsCommentStart(s) {
        LexSpelled(s[LineLen(s)..], nl, cmdOk);
        var gaps' :| Woven(s[LineLen(s)..], gaps', r.tokens, nl);
        gaps := WovenComment(s, nl, gaps', r.tokens);
      } else {
        var k, n := Scan(s, cmdOk).kind, Scan(s, cmdOk).len;
        LexSpelled(s[n..], false, OpensStatement(k));
        var ts' := LexFrom(s[n..], false, OpensStatement(k)).tokens;
        var gaps' :| Woven(s[n..], gaps', ts', false);
        gaps := WovenToken(s, nl, k, n, gaps', ts');
      }
      assert Woven(s, gaps, r.tokens, nl);
    }
  }

  /** At the top level: a tokenized source is its tokens' spellings separated
      by extras. */
  lemma TokenizeSpelled(src: string)
    ensures var r := Tokenize(src);
            r.Tokenized? ==> exists gaps :: Woven(src, gaps, r.tokens, false)
  {
    LexSpelled(src, false, true);
  }
}
