/**
 * Properties of the scanner functions of module Lexing: line counting,
 * where comments end, maximal munch, operator priority, and what a whole
 * scan produces.
 */
module LexingFacts {
  import opened Wrappers
  import opened Chars
  import opened Tokens
  import opened Symbols
  import opened Lexing

  // ---------------------------------------------------------------------
  // Line counting
  // ---------------------------------------------------------------------

  /** Moving over one character keeps the line count right. */
  lemma AdvanceKeepsLines(src: string, c: Cursor)
    requires LineAccurate(src, c) && c.pos < |src|
    ensures LineAccurate(src, Advance(c, src[c.pos]))
  {
    NewlinesSnoc(src, c.pos);
  }

  /** Moving over characters that are not line feeds keeps the line count right, whatever the column. */
  lemma {:induction false} NoNewlineKeepsLines(src: string, c: Cursor, e: nat, col: nat)
    requires LineAccurate(src, c) && c.pos <= e <= |src|
    requires forall j | c.pos <= j < e :: src[j] != '\n'
    ensures LineAccurate(src, Cursor(e, c.line, col))
    decreases e - c.pos
  {
    if c.pos < e {
      NewlinesSnoc(src, c.pos);
      NoNewlineKeepsLines(src, Cursor(c.pos + 1, c.line, col), e, col);
    }
  }

  /** Characters that are not line feeds add nothing to the line feeds before them. */
  lemma {:induction false} NewlinesSkip(src: string, i: nat, e: nat)
    requires i <= e <= |src|
    requires forall j | i <= j < e :: src[j] != '\n'
    ensures Newlines(src[..e]) == Newlines(src[..i])
    decreases e - i
  {
    if i < e {
      NewlinesSnoc(src, e - 1);
      NewlinesSkip(src, i, e - 1);
    }
  }

  /** Skipping whitespace keeps the line count right. */
  lemma {:induction false} SkipSpacesKeepsLines(src: string, c: Cursor)
    requires Inv(src, c) && LineAccurate(src, c)
    ensures LineAccurate(src, SkipSpaces(src, c))
    decreases |src| - c.pos
  {
    if c.pos < |src| && IsSpace(src[c.pos]) {
      AdvanceKeepsLines(src, c);
      SkipSpacesKeepsLines(src, Advance(c, src[c.pos]));
    }
  }

  /** A line comment stops at the first line feed after `i`, or at the end of the source. */
  lemma {:induction false} LineEndStops(src: string, i: nat)
    requires i <= |src|
    ensures var e := LineEnd(src, i);
      && (forall j | i <= j < e :: src[j] != '\n')
      && (e == |src| || src[e] == '\n')
    decreases |src| - i
  {
    if i < |src| && src[i] != '\n' {
      LineEndStops(src, i + 1);
    }
  }

  /** Skipping a block comment's body and closer keeps the line count right. */
  lemma {:induction false} SkipBlockKeepsLines(src: string, c: Cursor)
    requires Inv(src, c) && LineAccurate(src, c)
    ensures LineAccurate(src, SkipBlock(src, c).at)
    decreases |src| - c.pos
  {
    if c.pos + 1 < |src| {
      if src[c.pos] == '*' && src[c.pos + 1] == '/' {
        NoNewlineKeepsLines(src, c, c.pos + 2, c.col);
      } else {
        AdvanceKeepsLines(src, c);
        SkipBlockKeepsLines(src, Advance(c, src[c.pos]));
      }
    }
  }

  /** Scanning one token never moves over a line feed. */
  lemma LexTokenStaysOnLine(src: string, s: State)
    requires Inv(src, s.cur) && s.cur.pos < |src| && !IsSpace(src[s.cur.pos])
    ensures forall j | s.cur.pos <= j < LexToken(src, s).next.cur.pos :: src[j] != '\n'
  {
    var c := s.cur;
    if IsDigit(src[c.pos]) {
      NumberEndRun(src, c.pos, false);
    } else if IsIdentStart(src[c.pos]) {
      IdentEndRun(src, c.pos);
      assert LexToken(src, s) == LexIdentifier(src, s);
    } else if LexOperator(src, c).Some? {
      OperatorShape(src[c.pos..c.pos + 2]);
    }
  }

  /** Scanning one token keeps the line count right. */
  lemma LexTokenKeepsLines(src: string, s: State)
    requires Inv(src, s.cur) && LineAccurate(src, s.cur) && s.cur.pos < |src| && !IsSpace(src[s.cur.pos])
    ensures LineAccurate(src, LexToken(src, s).next.cur)
  {
    var e := LexToken(src, s).next.cur;
    LexTokenStaysOnLine(src, s);
    NoNewlineKeepsLines(src, s.cur, e.pos, e.col);
  }

  /** Skipping a whole block comment, opener included, keeps the line count right. */
  lemma BlockCommentKeepsLines(src: string, c: Cursor)
    requires Inv(src, c) && LineAccurate(src, c) && c.pos + 1 < |src| && src[c.pos] == '/' && src[c.pos + 1] == '*'
    ensures LineAccurate(src, SkipBlock(src, Cursor(c.pos + 2, c.line, c.col)).at)
  {
    NoNewlineKeepsLines(src, c, c.pos + 2, c.col);
    SkipBlockKeepsLines(src, Cursor(c.pos + 2, c.line, c.col));
  }

  // ---------------------------------------------------------------------
  // Column counting
  // ---------------------------------------------------------------------

  /** The index of the last line feed in src[lo..hi], or `lo - 1` when there is none. */
  function LastLineFeed(src: string, lo: nat, hi: nat): (k: int)
    requires lo <= hi <= |src|
    ensures lo - 1 <= k < hi
    ensures lo <= k ==> src[k] == '\n'
    ensures forall j | k < j < hi && lo <= j :: src[j] != '\n'
    decreases hi - lo
  {
    if hi == lo then lo - 1
    else if src[hi - 1] == '\n' then hi - 1
    else LastLineFeed(src, lo, hi - 1)
  }

  /** Taking one more character at the front of the range only matters when the rest holds no line feed. */
  lemma {:induction false} LastLineFeedFront(src: string, lo: nat, hi: nat)
    requires lo < hi <= |src|
    ensures var k := LastLineFeed(src, lo + 1, hi);
      LastLineFeed(src, lo, hi) == if lo < k then k else if src[lo] == '\n' then lo else lo - 1
    decreases hi - lo
  {
    if src[hi - 1] != '\n' && lo + 1 < hi {
      LastLineFeedFront(src, lo, hi - 1);
    }
  }

  /**
   * `r` is where a walk from `c` over src[c.pos..r.pos], one character at a
   * time, leaves the column: while no line feed has been passed the column
   * grows by one per character; after the last line feed passed, at `k`, it
   * is the number of characters since that line feed plus one.
   */
  predicate ColumnsCounted(src: string, c: Cursor, r: Cursor)
  {
    && c.pos <= r.pos <= |src|
    && var k := LastLineFeed(src, c.pos, r.pos);
      r.col == if k < c.pos then c.col + (r.pos - c.pos) else r.pos - k
  }

  /** A walk that ends at `r` after its first step ends at `r` from the step's start as well. */
  lemma ColumnsCountedStep(src: string, c: Cursor, r: Cursor)
    requires c.pos < r.pos <= |src| && ColumnsCounted(src, Advance(c, src[c.pos]), r)
    ensures ColumnsCounted(src, c, r)
  {
    LastLineFeedFront(src, c.pos, r.pos);
  }

  /** Skipping whitespace moves over whitespace only. */
  lemma {:induction false} SkipSpacesOnlySpaces(src: string, c: Cursor)
    requires Inv(src, c)
    ensures forall j | c.pos <= j < SkipSpaces(src, c).pos :: IsSpace(src[j])
    decreases |src| - c.pos
  {
    if c.pos < |src| && IsSpace(src[c.pos]) {
      SkipSpacesOnlySpaces(src, Advance(c, src[c.pos]));
    }
  }

  /** Skipping whitespace counts the columns one per character, a line feed starting again at column 1. */
  lemma {:induction false} SkipSpacesColumns(src: string, c: Cursor)
    requires Inv(src, c)
    ensures ColumnsCounted(src, c, SkipSpaces(src, c))
    decreases |src| - c.pos
  {
    if c.pos < |src| && IsSpace(src[c.pos]) {
      SkipSpacesColumns(src, Advance(c, src[c.pos]));
      ColumnsCountedStep(src, c, SkipSpaces(src, c));
    }
  }

  /**
   * Where the column count of a block comment's body stops: at the closer
   * when there is one, so that the closer's two characters are passed
   * without moving the column; otherwise where the scan gave up.
   */
  function BodyEnd(r: BlockEnd): Cursor
  {
    match r
    case Closed(e) => Cursor(if e.pos < 2 then 0 else e.pos - 2, e.line, e.col)
    case Unterminated(e) => e
  }

  /**
   * Skipping a block comment's body counts its columns one per character, a
   * line feed starting again at column 1; the closer adds no column.
   */
  lemma {:induction false} SkipBlockColumns(src: string, c: Cursor)
    requires Inv(src, c)
    ensures ColumnsCounted(src, c, BodyEnd(SkipBlock(src, c)))
    decreases |src| - c.pos
  {
    if c.pos + 1 < |src| && !(src[c.pos] == '*' && src[c.pos + 1] == '/') {
      SkipBlockColumns(src, Advance(c, src[c.pos]));
      ColumnsCountedStep(src, c, BodyEnd(SkipBlock(src, c)));
    }
  }

  // ---------------------------------------------------------------------
  // One token
  // ---------------------------------------------------------------------

  /**
   * What a token scanned at `c` and ending at `e` satisfies: it is the
   * source text between them, on the cursor's line and at its column, and
   * it is not the end-of-input token.
   */
  ghost predicate ScannedAt(src: string, c: Cursor, t: Token, e: Cursor)
  {
    Fits(src, c.pos, t, e) && t.kind != Eof && e.pos == c.pos + |t.lexeme| && t.line == c.line && t.column == c.col
  }

  /** A token text taken from the source between `c` and `e`, with no line feed there, fits. */
  lemma TextFits(src: string, c: Cursor, t: Token, e: Cursor)
    requires c.pos <= e.pos <= |src| && t.lexeme == src[c.pos..e.pos]
    requires forall j | c.pos <= j < e.pos :: src[j] != '\n'
    requires t.line == c.line == e.line && t.column == c.col && e.col == c.col + (e.pos - c.pos)
    requires t.kind != Eof && c.pos < e.pos
    ensures ScannedAt(src, c, t, e)
  {
    assert forall j | 0 <= j < |t.lexeme| :: t.lexeme[j] == src[c.pos + j];
  }

  /** How one scanned token and the cursor after it relate to the cursor before, case by case. */
  lemma LexTokenShape(src: string, s: State)
    requires Inv(src, s.cur) && s.cur.pos < |src| && !IsSpace(src[s.cur.pos])
    ensures var r := LexToken(src, s); var c := s.cur; var e := r.next.cur;
      && e.line == c.line && e.col == c.col + (e.pos - c.pos)
      && (r.result.Ok? ==> var t := r.result.value;
            t.lexeme == src[c.pos..e.pos] && t.line == c.line && t.column == c.col && t.kind != Eof)
  {
    var c := s.cur;
    if IsDigit(src[c.pos]) {
    } else if IsIdentStart(src[c.pos]) {
      assert LexToken(src, s) == LexIdentifier(src, s);
    } else if LexOperator(src, c).None? {
      assert src[c.pos..c.pos + 1] == [src[c.pos]];
    }
  }

  /**
   * A token scanned at `s.cur` is the source text from the cursor to the
   * new cursor, starts at the cursor's line and column, and is never the
   * end-of-input token.
   */
  lemma LexTokenFits(src: string, s: State)
    requires Inv(src, s.cur) && s.cur.pos < |src| && !IsSpace(src[s.cur.pos])
    ensures var r := LexToken(src, s);
      r.result.Ok? ==> ScannedAt(src, s.cur, r.result.value, r.next.cur)
  {
    var r := LexToken(src, s);
    LexTokenStaysOnLine(src, s);
    LexTokenShape(src, s);
    if r.result.Ok? {
      TextFits(src, s.cur, r.result.value, r.next.cur);
    }
  }

  /** Scanning an identifier or keyword registers the name of an identifier and changes the table in no other way. */
  lemma LexIdentifierRegisters(src: string, s: State)
    requires Inv(src, s.cur) && s.cur.pos < |src| && IsIdentStart(src[s.cur.pos])
    ensures LexIdentifier(src, s).next.syms == Registered(s.syms, LexIdentifier(src, s).result)
  {
    var text := src[s.cur.pos..IdentEnd(src, s.cur.pos)];
    if Keyword(text).Some? {
      assert LexIdentifier(src, s).result.value.kind == Keyword(text).value;
    }
  }

  /** Scanning one token registers the name of an identifier and changes the table in no other way. */
  lemma LexTokenRegisters(src: string, s: State)
    requires Inv(src, s.cur) && s.cur.pos < |src| && !IsSpace(src[s.cur.pos])
    ensures LexToken(src, s).next.syms == Registered(s.syms, LexToken(src, s).result)
  {
    var c := s.cur;
    if IsDigit(src[c.pos]) {
    } else if IsIdentStart(src[c.pos]) {
      assert LexToken(src, s) == LexIdentifier(src, s);
      LexIdentifierRegisters(src, s);
    }
  }

  // ---------------------------------------------------------------------
  // One call of the scanner, case by case
  // ---------------------------------------------------------------------

  /** Past trailing whitespace the scanner gives the end-of-input token at the end's line and column. */
  lemma NextAtEnd(src: string, s: State, c: Cursor)
    requires Inv(src, s.cur) && c == SkipSpaces(src, s.cur) && c.pos == |src|
    ensures Next(src, s) == Step(Ok(Token(Eof, "", c.line, c.col)), State(c, s.syms))
  {
  }

  /** A line comment is skipped up to its line feed and the scan starts over there, column unchanged. */
  lemma LineCommentRestarts(src: string, s: State, c: Cursor)
    requires Inv(src, s.cur) && c == SkipSpaces(src, s.cur)
    requires c.pos + 1 < |src| && src[c.pos] == '/' && src[c.pos + 1] == '/'
    ensures Next(src, s) == Next(src, State(Cursor(LineEnd(src, c.pos + 2), c.line, c.col), s.syms))
  {
  }

  /** A closed block comment is skipped and the scan starts over after its closer. */
  lemma BlockCommentRestarts(src: string, s: State, c: Cursor)
    requires Inv(src, s.cur) && c == SkipSpaces(src, s.cur)
    requires c.pos + 1 < |src| && src[c.pos] == '/' && src[c.pos + 1] == '*'
    requires SkipBlock(src, Cursor(c.pos + 2, c.line, c.col)).Closed?
    ensures Next(src, s) == Next(src, State(SkipBlock(src, Cursor(c.pos + 2, c.line, c.col)).at, s.syms))
  {
  }

  /** A block comment without a closer is an error where the comment scan stopped. */
  lemma BlockCommentUnterminated(src: string, s: State, c: Cursor)
    requires Inv(src, s.cur) && c == SkipSpaces(src, s.cur)
    requires c.pos + 1 < |src| && src[c.pos] == '/' && src[c.pos + 1] == '*'
    requires SkipBlock(src, Cursor(c.pos + 2, c.line, c.col)).Unterminated?
    ensures var e := SkipBlock(src, Cursor(c.pos + 2, c.line, c.col)).at;
      Next(src, s) == Step(Err(LexicalError(UnterminatedComment, e.line, e.col)), State(e, s.syms))
  {
    assert Next(src, s) == NextAt(src, State(c, s.syms));
    UnterminatedAt(src, State(c, s.syms));
  }

  /** NextAt on an unterminated block comment's opener. */
  lemma UnterminatedAt(src: string, s: State)
    requires Inv(src, s.cur) && s.cur.pos + 1 < |src| && src[s.cur.pos] == '/' && src[s.cur.pos + 1] == '*'
    requires SkipBlock(src, Cursor(s.cur.pos + 2, s.cur.line, s.cur.col)).Unterminated?
    ensures var e := SkipBlock(src, Cursor(s.cur.pos + 2, s.cur.line, s.cur.col)).at;
      NextAt(src, s) == Step(Err(LexicalError(UnterminatedComment, e.line, e.col)), State(e, s.syms))
  {
  }

  /** Anywhere else the scanner scans one token where the whitespace ends. */
  lemma NextScansToken(src: string, s: State, c: Cursor)
    requires Inv(src, s.cur) && c == SkipSpaces(src, s.cur) && c.pos < |src|
    requires !(src[c.pos] == '/' && c.pos + 1 < |src| && (src[c.pos + 1] == '/' || src[c.pos + 1] == '*'))
    ensures Next(src, s) == LexToken(src, State(c, s.syms))
  {
  }

  // ---------------------------------------------------------------------
  // One call of the scanner
  // ---------------------------------------------------------------------

  /** One call of the scanner keeps the line count right. */
  lemma {:induction false} NextKeepsLines(src: string, s: State)
    requires Inv(src, s.cur) && LineAccurate(src, s.cur)
    ensures LineAccurate(src, Next(src, s).next.cur)
    decreases |src| - s.cur.pos
  {
    var c := SkipSpaces(src, s.cur);
    SkipSpacesKeepsLines(src, s.cur);
    if c.pos >= |src| {
      NextAtEnd(src, s, c);
    } else if src[c.pos] == '/' && c.pos + 1 < |src| && src[c.pos + 1] == '/' {
      LineCommentRestarts(src, s, c);
      var e := LineEnd(src, c.pos + 2);
      LineEndStops(src, c.pos + 2);
      NoNewlineKeepsLines(src, c, e, c.col);
      NextKeepsLines(src, State(Cursor(e, c.line, c.col), s.syms));
    } else if src[c.pos] == '/' && c.pos + 1 < |src| && src[c.pos + 1] == '*' {
      BlockCommentKeepsLines(src, c);
      var b := SkipBlock(src, Cursor(c.pos + 2, c.line, c.col));
      if b.Closed? {
        BlockCommentRestarts(src, s, c);
        NextKeepsLines(src, State(b.at, s.syms));
      } else {
        BlockCommentUnterminated(src, s, c);
      }
    } else {
      NextScansToken(src, s, c);
      LexTokenKeepsLines(src, State(c, s.syms));
    }
  }

  /**
   * A token from one call of the scanner is the source text right before
   * the new cursor, after the old one; the end-of-input token is empty and
   * comes only at the end of the source.
   */
  lemma {:induction false} NextFits(src: string, s: State)
    requires Inv(src, s.cur)
    ensures var r := Next(src, s);
      r.result.Ok? ==> Fits(src, s.cur.pos, r.result.value, r.next.cur)
    decreases |src| - s.cur.pos
  {
    var c := SkipSpaces(src, s.cur);
    if c.pos >= |src| {
      NextAtEnd(src, s, c);
    } else if src[c.pos] == '/' && c.pos + 1 < |src| && src[c.pos + 1] == '/' {
      LineCommentRestarts(src, s, c);
      NextFits(src, State(Cursor(LineEnd(src, c.pos + 2), c.line, c.col), s.syms));
    } else if src[c.pos] == '/' && c.pos + 1 < |src| && src[c.pos + 1] == '*' {
      var from := Cursor(c.pos + 2, c.line, c.col);
      if SkipBlock(src, from).Closed? {
        BlockCommentRestarts(src, s, c);
        NextFits(src, State(SkipBlock(src, from).at, s.syms));
      } else {
        BlockCommentUnterminated(src, s, c);
      }
    } else {
      NextScansToken(src, s, c);
      LexTokenFits(src, State(c, s.syms));
    }
  }

  /** One call of the scanner changes the symbol table only by registering an identifier it returns. */
  lemma {:induction false} NextRegisters(src: string, s: State)
    requires Inv(src, s.cur)
    ensures Next(src, s).next.syms == Registered(s.syms, Next(src, s).result)
    decreases |src| - s.cur.pos
  {
    var c := SkipSpaces(src, s.cur);
    if c.pos >= |src| {
      NextAtEnd(src, s, c);
    } else if src[c.pos] == '/' && c.pos + 1 < |src| && src[c.pos + 1] == '/' {
      LineCommentRestarts(src, s, c);
      NextRegisters(src, State(Cursor(LineEnd(src, c.pos + 2), c.line, c.col), s.syms));
    } else if src[c.pos] == '/' && c.pos + 1 < |src| && src[c.pos + 1] == '*' {
      var from := Cursor(c.pos + 2, c.line, c.col);
      if SkipBlock(src, from).Closed? {
        BlockCommentRestarts(src, s, c);
        NextRegisters(src, State(SkipBlock(src, from).at, s.syms));
      } else {
        BlockCommentUnterminated(src, s, c);
      }
    } else {
      NextScansToken(src, s, c);
      LexTokenRegisters(src, State(c, s.syms));
    }
  }

  /** A token that fits before an accurately counted cursor starts on the line it reports. */
  lemma FitsOnLine(src: string, from: nat, t: Token, e: Cursor)
    requires Fits(src, from, t, e) && LineAccurate(src, e)
    ensures t.line == 1 + Newlines(src[..e.pos - |t.lexeme|])
  {
    var p := e.pos - |t.lexeme|;
    assert forall j | p <= j < e.pos :: src[j] == t.lexeme[j - p];
    NewlinesSkip(src, p, e.pos);
  }

  /** The line a token is reported on is one more than the line feeds before its first character. */
  lemma NextTokenLine(src: string, s: State)
    requires Inv(src, s.cur) && LineAccurate(src, s.cur)
    ensures var r := Next(src, s);
      r.result.Ok? ==>
        && Fits(src, s.cur.pos, r.result.value, r.next.cur)
        && r.result.value.line == 1 + Newlines(src[..r.next.cur.pos - |r.result.value.lexeme|])
  {
    var r := Next(src, s);
    NextFits(src, s);
    NextKeepsLines(src, s);
    if r.result.Ok? {
      FitsOnLine(src, s.cur.pos, r.result.value, r.next.cur);
    }
  }

  // ---------------------------------------------------------------------
  // Whole scans
  // ---------------------------------------------------------------------

  /** A whole scan begins with one call of the scanner and goes on as that call's outcome says. */
  lemma TokenizeStep(src: string, s: State, res: Result<Token, LexicalError>, s2: State)
    requires Inv(src, s.cur) && Next(src, s) == Step(res, s2)
    ensures res.Err? ==> Tokenize(src, s) == Run([], Some(res.error), s2)
    ensures res.Ok? && res.value.kind == Eof ==> Tokenize(src, s) == Run([res.value], None, s2)
    ensures res.Ok? && res.value.kind != Eof ==> Tokenize(src, s) == Prefixed([res.value], Tokenize(src, s2))
  {
  }

  /** Putting `p` and then `t` in front of a run is putting `p + [t]` in front of it. */
  lemma PrefixedTwice(p: seq<Token>, t: Token, r: Run)
    ensures Prefixed(p, Prefixed([t], r)) == Prefixed(p + [t], r)
  {
    assert p + ([t] + r.produced) == (p + [t]) + r.produced;
  }

  /**
   * The run that one outcome `res` of the scanner starts, given the run
   * `rest` that would follow it: an error or the end-of-input token ends
   * the run, any other token is collected before `rest`.
   */
  function StepRun(res: Result<Token, LexicalError>, s2: State, rest: Run): Run
  {
    match res
    case Err(e) => Run([], Some(e), s2)
    case Ok(t) => if t.kind == Eof then Run([t], None, s2) else Prefixed([t], rest)
  }

  /** A whole scan is the run its first call of the scanner starts, followed by the scan after it. */
  lemma TokenizeIsStepRun(src: string, s: State)
    requires Inv(src, s.cur)
    ensures var st := Next(src, s);
      Tokenize(src, s) == StepRun(st.result, st.next, Tokenize(src, st.next))
  {
    var st := Next(src, s);
    TokenizeStep(src, s, st.result, st.next);
  }

  /**
   * One more call of the scanner inside a scan `whole` that has so far
   * collected `produced`: an error or the end-of-input token completes the
   * scan, any other token joins what was collected.
   */
  lemma ScanContinues(whole: Run, produced: seq<Token>, res: Result<Token, LexicalError>, s2: State, rest: Run)
    requires whole == Prefixed(produced, StepRun(res, s2, rest))
    ensures res.Err? ==> whole == Run(produced, Some(res.error), s2)
    ensures res.Ok? && res.value.kind == Eof ==> whole == Run(produced + [res.value], None, s2)
    ensures res.Ok? && res.value.kind != Eof ==> whole == Prefixed(produced + [res.value], rest)
  {
    if res.Err? {
      assert produced + [] == produced;
    } else if res.value.kind != Eof {
      PrefixedTwice(produced, res.value, rest);
    }
  }
}
