/**
 * Comments: a block comment ends at the first closer after its opener, a
 * lone slash is division, and a source (or the rest of one) made only of
 * whitespace and comments is exactly what gives the end-of-input token.
 */
module CommentFacts {
  import opened Wrappers
  import opened Chars
  import opened Tokens
  import opened Symbols
  import opened Lexing
  import opened LexingFacts
  import opened ScanFacts

  /**
   * The index just past the first block comment closer at or after `i`, or
   * None when there is none.
   */
  function CommentEnd(src: string, i: nat): (r: Option<nat>)
    requires i <= |src|
    ensures r.Some? ==> i + 2 <= r.value <= |src| && CloserAt(src, r.value - 2)
    ensures r.Some? ==> forall j | i <= j < r.value - 2 :: !CloserAt(src, j)
    ensures r.None? ==> forall j | i <= j :: !CloserAt(src, j)
    decreases |src| - i
  {
    if i + 1 < |src| then
      if src[i] == '*' && src[i + 1] == '/' then Some(i + 2) else CommentEnd(src, i + 1)
    else None
  }

  /**
   * The scanner's block comment loop stops right after the first closer, or,
   * when there is none, on the last character of the source (or where it
   * started, if that is later).
   */
  lemma {:induction false} SkipBlockAtFirstCloser(src: string, c: Cursor)
    requires Inv(src, c)
    ensures match SkipBlock(src, c) {
      case Closed(e) => CommentEnd(src, c.pos) == Some(e.pos)
      case Unterminated(e) => CommentEnd(src, c.pos) == None && e.pos == if c.pos + 1 < |src| then |src| - 1 else c.pos
    }
    decreases |src| - c.pos
  {
    if c.pos + 1 < |src| && !(src[c.pos] == '*' && src[c.pos + 1] == '/') {
      SkipBlockAtFirstCloser(src, Advance(c, src[c.pos]));
    }
  }

  /**
   * From index `i` on, the source holds only whitespace, line comments and
   * closed block comments.
   */
  predicate Trivia(src: string, i: nat)
    requires i <= |src|
    decreases |src| - i
  {
    if i == |src| then true
    else if IsSpace(src[i]) then Trivia(src, i + 1)
    else if src[i] == '/' && i + 1 < |src| && src[i + 1] == '/' then Trivia(src, LineEnd(src, i + 2))
    else if src[i] == '/' && i + 1 < |src| && src[i + 1] == '*' then
      match CommentEnd(src, i + 2)
      case Some(e) => Trivia(src, e)
      case None => false
    else false
  }

  /** Skipping whitespace does not change whether only trivia follows. */
  lemma {:induction false} TriviaAfterSpaces(src: string, c: Cursor)
    requires Inv(src, c)
    ensures Trivia(src, SkipSpaces(src, c).pos) == Trivia(src, c.pos)
    decreases |src| - c.pos
  {
    if c.pos < |src| && IsSpace(src[c.pos]) {
      TriviaAfterSpaces(src, Advance(c, src[c.pos]));
    }
  }

  /**
   * One call of the scanner gives the end-of-input token exactly when only
   * whitespace and comments are left.
   */
  lemma {:induction false} TriviaGivesEof(src: string, s: State)
    requires Inv(src, s.cur)
    ensures Trivia(src, s.cur.pos) <==> Next(src, s).result.Ok? && Next(src, s).result.value.kind == Eof
    decreases |src| - s.cur.pos
  {
    var c := SkipSpaces(src, s.cur);
    TriviaAfterSpaces(src, s.cur);
    if c.pos == |src| {
      NextAtEnd(src, s, c);
    } else if src[c.pos] == '/' && c.pos + 1 < |src| && src[c.pos + 1] == '/' {
      LineCommentRestarts(src, s, c);
      TriviaGivesEof(src, State(Cursor(LineEnd(src, c.pos + 2), c.line, c.col), s.syms));
    } else if src[c.pos] == '/' && c.pos + 1 < |src| && src[c.pos + 1] == '*' {
      var b := Cursor(c.pos + 2, c.line, c.col);
      SkipBlockAtFirstCloser(src, b);
      if SkipBlock(src, b).Closed? {
        BlockCommentRestarts(src, s, c);
        TriviaGivesEof(src, State(SkipBlock(src, b).at, s.syms));
      } else {
        BlockCommentUnterminated(src, s, c);
      }
    } else {
      NextScansToken(src, s, c);
      LexTokenFits(src, State(c, s.syms));
    }
  }

  /**
   * A whole scan collects nothing but the end-of-input token, without an
   * error, exactly when the input holds only whitespace and comments.
   */
  lemma TriviaOnlyInput(src: string, s: State)
    requires Inv(src, s.cur)
    ensures var r := Tokenize(src, s);
      Trivia(src, s.cur.pos) <==> r.error.None? && |r.produced| == 1 && r.produced[0].kind == Eof
  {
    var st := Next(src, s);
    TriviaGivesEof(src, s);
    TokenizeStep(src, s, st.result, st.next);
    if st.result.Ok? && st.result.value.kind != Eof {
      TokenizeShape(src, st.next);
    }
  }

  /** Scanning a token at a `/` gives the division sign. */
  lemma SlashScanned(src: string, s: State)
    requires Inv(src, s.cur) && s.cur.pos < |src| && src[s.cur.pos] == '/'
    ensures var c := s.cur;
      LexToken(src, s) == Step(Ok(Token(Slash, "/", c.line, c.col)), State(Cursor(c.pos + 1, c.line, c.col + 1), s.syms))
  {
    var c := s.cur;
    if c.pos + 1 < |src| {
      OperatorShape(src[c.pos..c.pos + 2]);
    }
  }

  /** A `/` that opens no comment is the division sign. */
  lemma SlashIsDivision(src: string, s: State, c: Cursor)
    requires Inv(src, s.cur) && c == SkipSpaces(src, s.cur) && c.pos < |src| && src[c.pos] == '/'
    requires c.pos + 1 == |src| || (src[c.pos + 1] != '/' && src[c.pos + 1] != '*')
    ensures Next(src, s) == Step(Ok(Token(Slash, "/", c.line, c.col)), State(Cursor(c.pos + 1, c.line, c.col + 1), s.syms))
  {
    NextScansToken(src, s, c);
    SlashScanned(src, State(c, s.syms));
  }
}
