/**
 * The scanner as functions on values. A Cursor is the scanner's position,
 * line and column; a State adds the symbol table's map. Each function below
 * describes one routine of the scanner: what it consumes, where the cursor
 * ends, and what it produces.
 */
module Lexing {
  import opened Wrappers
  import opened Chars
  import opened Tokens
  import opened Symbols

  datatype Cursor = Cursor(pos: nat, line: nat, col: nat)

  datatype ErrorKind = UnexpectedCharacter(ch: char) | UnterminatedComment | InvalidFloat

  /** A lexical error: what went wrong and the 1-based line and column it is reported at. */
  datatype LexicalError = LexicalError(kind: ErrorKind, line: nat, column: nat)

  datatype State = State(cur: Cursor, syms: map<string, SymbolInfo>)

  /** The outcome of one call of the scanner, and the state it leaves. */
  datatype Step = Step(result: Result<Token, LexicalError>, next: State)

  /** The outcome of a routine that does not touch the symbol table. */
  datatype Lexed = Lexed(result: Result<Token, LexicalError>, at: Cursor)

  /** Where a block comment scan stops: after its closer, or at the end without one. */
  datatype BlockEnd = Closed(at: Cursor) | Unterminated(at: Cursor)

  /** The tokens of a whole scan, the error that ended it if any, and the final state. */
  datatype Run = Run(produced: seq<Token>, error: Option<LexicalError>, next: State)

  /** The cursor invariant: inside the source (or at its end), line and column 1-based. */
  predicate Inv(src: string, c: Cursor)
  {
    c.pos <= |src| && c.line >= 1 && c.col >= 1
  }

  /** The line number is one more than the line feeds before the position. */
  ghost predicate LineAccurate(src: string, c: Cursor)
  {
    c.pos <= |src| && c.line == 1 + Newlines(src[..c.pos])
  }

  /** The cursor at the very beginning of a source. */
  function Start(): Cursor
  {
    Cursor(0, 1, 1)
  }

  /**
   * Moves over one character: the position always moves by one; a line feed
   * starts the next line at column 1, any other character moves one column
   * along the same line.
   */
  function Advance(c: Cursor, ch: char): (r: Cursor)
    ensures r.pos == c.pos + 1
    ensures ch == '\n' <==> r.line == c.line + 1
    ensures ch == '\n' ==> r.col == 1
    ensures ch != '\n' ==> r.line == c.line && r.col == c.col + 1
  {
    if ch == '\n' then Cursor(c.pos + 1, c.line + 1, 1) else Cursor(c.pos + 1, c.line, c.col + 1)
  }

  /** Skips the whitespace run at the cursor. */
  function SkipSpaces(src: string, c: Cursor): (r: Cursor)
    requires Inv(src, c)
    ensures Inv(src, r) && c.pos <= r.pos && c.line <= r.line
    ensures r.pos == |src| || !IsSpace(src[r.pos])
    decreases |src| - c.pos
  {
    if c.pos < |src| && IsSpace(src[c.pos]) then SkipSpaces(src, Advance(c, src[c.pos])) else c
  }

  /** The index of the first line feed at or after `i`, or the end of the source. */
  function LineEnd(src: string, i: nat): (e: nat)
    requires i <= |src|
    ensures i <= e <= |src|
    decreases |src| - i
  {
    if i < |src| && src[i] != '\n' then LineEnd(src, i + 1) else i
  }

  /** A block comment closer `*` `/` starts at index `j`. */
  predicate CloserAt(src: string, j: nat)
  {
    j + 1 < |src| && src[j] == '*' && src[j + 1] == '/'
  }

  /**
   * Scans the body of a block comment from `c`, which is just past its
   * opener. Characters of the body move the line and column; the closer
   * itself moves only the position.
   */
  function SkipBlock(src: string, c: Cursor): (r: BlockEnd)
    requires Inv(src, c)
    ensures Inv(src, r.at) && c.pos <= r.at.pos && c.line <= r.at.line
    ensures r.Closed? ==> c.pos + 2 <= r.at.pos
    decreases |src| - c.pos
  {
    if c.pos + 1 < |src| then
      if src[c.pos] == '*' && src[c.pos + 1] == '/' then Closed(Cursor(c.pos + 2, c.line, c.col))
      else SkipBlock(src, Advance(c, src[c.pos]))
    else Unterminated(c)
  }

  /**
   * Where a numeric literal that has reached index `i` stops, and whether it
   * has taken a dot: digits are taken, and one `.` as long as none has been
   * taken (`isFloat`).
   */
  function NumberEnd(src: string, i: nat, isFloat: bool): (r: (nat, bool))
    requires i <= |src|
    ensures i <= r.0 <= |src|
    decreases |src| - i
  {
    if i < |src| && IsDigit(src[i]) then NumberEnd(src, i + 1, isFloat)
    else if i < |src| && src[i] == '.' && !isFloat then NumberEnd(src, i + 1, true)
    else (i, isFloat)
  }

  /**
   * The run NumberEnd takes holds only digits and dots, and at most one dot
   * (none when one was taken before `i`); it reports a dot exactly when one
   * was taken; it stops at a character that is neither a digit nor an
   * allowed dot.
   */
  lemma {:induction false} NumberEndRun(src: string, i: nat, isFloat: bool)
    requires i <= |src|
    ensures var (e, dot) := NumberEnd(src, i, isFloat);
      && (forall j | i <= j < e :: IsDigit(src[j]) || src[j] == '.')
      && (forall j, k | i <= j < k < e :: !(src[j] == '.' && src[k] == '.'))
      && (isFloat ==> dot && forall j | i <= j < e :: src[j] != '.')
      && (!isFloat ==> (dot <==> exists j | i <= j < e :: src[j] == '.'))
      && (e < |src| ==> !IsDigit(src[e]) && (src[e] == '.' ==> dot))
    decreases |src| - i
  {
    if i < |src| && IsDigit(src[i]) {
      NumberEndRun(src, i + 1, isFloat);
    } else if i < |src| && src[i] == '.' && !isFloat {
      NumberEndRun(src, i + 1, true);
    }
  }

  /** Digits with at most one `.`, starting with a digit. */
  predicate NumberText(s: string)
  {
    |s| > 0 && IsDigit(s[0]) &&
    (forall j | 0 <= j < |s| :: IsDigit(s[j]) || s[j] == '.') &&
    (forall j, k | 0 <= j < k < |s| :: !(s[j] == '.' && s[k] == '.'))
  }

  /**
   * Classifies the text of a numeric literal that starts at the given line
   * and column: without a dot an integer literal; with one a floating
   * literal, unless the text ends in the dot.
   */
  function NumberToken(text: string, isFloat: bool, line: nat, col: nat): (r: Result<Token, LexicalError>)
    requires |text| > 0
    ensures r.Err? <==> isFloat && text[|text| - 1] == '.'
    ensures r.Err? ==> r.error == LexicalError(InvalidFloat, line, col)
    ensures r.Ok? ==> r.value.lexeme == text && r.value.line == line && r.value.column == col
    ensures r.Ok? ==> (r.value.kind == IntLit <==> !isFloat) && (r.value.kind == FloatLit <==> isFloat)
  {
    if !isFloat then Ok(Token(IntLit, text, line, col))
    else if text[|text| - 1] == '.' then Err(LexicalError(InvalidFloat, line, col))
    else Ok(Token(FloatLit, text, line, col))
  }

  /** Scans a numeric literal at `c`: the longest run NumberEnd takes, classified by NumberToken. */
  function LexNumber(src: string, c: Cursor): (r: Lexed)
    requires Inv(src, c) && c.pos < |src| && IsDigit(src[c.pos])
    ensures Inv(src, r.at) && c.pos < r.at.pos
  {
    var (e, isFloat) := NumberEnd(src, c.pos, false);
    var text := src[c.pos..e];
    Lexed(NumberToken(text, isFloat, c.line, c.col), Cursor(e, c.line, c.col + |text|))
  }

  /** The end of the run of identifier characters at `i`. */
  function IdentEnd(src: string, i: nat): (e: nat)
    requires i <= |src|
    ensures i <= e <= |src|
    decreases |src| - i
  {
    if i < |src| && IsIdentPart(src[i]) then IdentEnd(src, i + 1) else i
  }

  /** IdentEnd takes a run of identifier characters and stops at the first other one. */
  lemma {:induction false} IdentEndRun(src: string, i: nat)
    requires i <= |src|
    ensures var e := IdentEnd(src, i);
      && (forall j | i <= j < e :: IsIdentPart(src[j]))
      && (e == |src| || !IsIdentPart(src[e]))
    decreases |src| - i
  {
    if i < |src| && IsIdentPart(src[i]) {
      IdentEndRun(src, i + 1);
    }
  }

  /** The scanner's registration rule: add an unknown entry for a name not yet present. */
  function Register(syms: map<string, SymbolInfo>, name: string): (r: map<string, SymbolInfo>)
    ensures r.Keys == syms.Keys + {name}
    ensures forall n | n in syms :: r[n] == syms[n]
    ensures name !in syms ==> r[name] == Unknown(name)
  {
    if name in syms then syms else syms[name := Unknown(name)]
  }

  /** The symbol table after a scan step that produced `result`. */
  function Registered(syms: map<string, SymbolInfo>, result: Result<Token, LexicalError>): map<string, SymbolInfo>
  {
    if result.Ok? && result.value.kind == Identifier then Register(syms, result.value.lexeme) else syms
  }

  /**
   * Scans an identifier or keyword at the cursor: the longest run of
   * identifier characters. A word in the keyword table gives its kind and
   * leaves the table alone; any other word is an identifier and is
   * registered.
   */
  function LexIdentifier(src: string, s: State): (r: Step)
    requires Inv(src, s.cur) && s.cur.pos < |src| && IsIdentStart(src[s.cur.pos])
    ensures Inv(src, r.next.cur) && s.cur.pos < r.next.cur.pos
  {
    var c := s.cur;
    var e := IdentEnd(src, c.pos);
    var text := src[c.pos..e];
    var at := Cursor(e, c.line, c.col + (e - c.pos));
    match Keyword(text)
    case Some(k) => Step(Ok(Token(k, text, c.line, c.col)), State(at, s.syms))
    case None => Step(Ok(Token(Identifier, text, c.line, c.col)), State(at, Register(s.syms, text)))
  }

  /**
   * A token that was just consumed, ending at cursor `c` and starting at or
   * after index `from`: its text is the source right before `c`, it holds no
   * line feed, and its line and column are those of its first character.
   * Only the end-of-input token is empty, and it sits at the end.
   */
  ghost predicate Fits(src: string, from: nat, t: Token, c: Cursor)
  {
    && from + |t.lexeme| <= c.pos <= |src|
    && src[c.pos - |t.lexeme|..c.pos] == t.lexeme
    && '\n' !in t.lexeme
    && t.line == c.line && t.column + |t.lexeme| == c.col
    && (t.kind == Eof <==> t.lexeme == [])
    && (t.kind == Eof ==> c.pos == |src|)
  }

  /** A two-character operator at the cursor, if the next two characters form one. */
  function LexOperator(src: string, c: Cursor): (r: Option<Lexed>)
    requires Inv(src, c) && c.pos < |src|
    ensures r.Some? ==> r.value.at == Cursor(c.pos + 2, c.line, c.col + 2)
  {
    if c.pos + 1 < |src| && Operator(src[c.pos..c.pos + 2]).Some? then
      var op := src[c.pos..c.pos + 2];
      Some(Lexed(Ok(Token(Operator(op).value, op, c.line, c.col)), Cursor(c.pos + 2, c.line, c.col + 2)))
    else None
  }

  /**
   * Consumes one character: its kind from the single-character table, or
   * an unexpected-character error at its line and column.
   */
  function LexSingle(src: string, c: Cursor): (r: Lexed)
    requires Inv(src, c) && c.pos < |src| && !IsSpace(src[c.pos])
    ensures r.at == Cursor(c.pos + 1, c.line, c.col + 1)
  {
    var ch := src[c.pos];
    var at := Cursor(c.pos + 1, c.line, c.col + 1);
    match SingleChar(ch)
    case Some(k) => Lexed(Ok(Token(k, [ch], c.line, c.col)), at)
    case None => Lexed(Err(LexicalError(UnexpectedCharacter(ch), c.line, c.col)), at)
  }

  /**
   * Scans one token at a character that is not whitespace and does not
   * open a comment: a number, an identifier or keyword, a two-character
   * operator, or else a single character.
   */
  function LexToken(src: string, s: State): (r: Step)
    requires Inv(src, s.cur) && s.cur.pos < |src| && !IsSpace(src[s.cur.pos])
    ensures Inv(src, r.next.cur) && s.cur.pos < r.next.cur.pos
  {
    var c := s.cur;
    var ch := src[c.pos];
    if IsDigit(ch) then
      var l := LexNumber(src, c);
      Step(l.result, State(l.at, s.syms))
    else if IsIdentStart(ch) then
      LexIdentifier(src, s)
    else
      match LexOperator(src, c)
      case Some(l) => Step(l.result, State(l.at, s.syms))
      case None => var l := LexSingle(src, c); Step(l.result, State(l.at, s.syms))
  }

  /** One call of the scanner: skip whitespace, then go on as NextAt. */
  function Next(src: string, s: State): (r: Step)
    requires Inv(src, s.cur)
    ensures Inv(src, r.next.cur) && s.cur.pos <= r.next.cur.pos
    ensures r.result.Ok? && r.result.value.kind != Eof ==> s.cur.pos < r.next.cur.pos
    decreases |src| - s.cur.pos, 1
  {
    NextAt(src, State(SkipSpaces(src, s.cur), s.syms))
  }

  /**
   * The scanner past whitespace: at the end give the end-of-input token;
   * skip a line or block comment and start over; otherwise scan one token.
   */
  function NextAt(src: string, s: State): (r: Step)
    requires Inv(src, s.cur) && (s.cur.pos == |src| || !IsSpace(src[s.cur.pos]))
    ensures Inv(src, r.next.cur) && s.cur.pos <= r.next.cur.pos
    ensures r.result.Ok? && r.result.value.kind != Eof ==> s.cur.pos < r.next.cur.pos
    decreases |src| - s.cur.pos, 0
  {
    var c := s.cur;
    if c.pos >= |src| then Step(Ok(Token(Eof, "", c.line, c.col)), s)
    else if src[c.pos] == '/' && c.pos + 1 < |src| && src[c.pos + 1] == '/' then
      Next(src, State(Cursor(LineEnd(src, c.pos + 2), c.line, c.col), s.syms))
    else if src[c.pos] == '/' && c.pos + 1 < |src| && src[c.pos + 1] == '*' then
      match SkipBlock(src, Cursor(c.pos + 2, c.line, c.col))
      case Closed(e) => Next(src, State(e, s.syms))
      case Unterminated(e) => Step(Err(LexicalError(UnterminatedComment, e.line, e.col)), State(e, s.syms))
    else LexToken(src, s)
  }

  /** The identifiers among `ts`, by name. */
  function IdentifierNames(ts: seq<Token>): set<string>
  {
    if ts == [] then {}
    else (if ts[0].kind == Identifier then {ts[0].lexeme} else {}) + IdentifierNames(ts[1..])
  }

  /** The run `r` with the tokens `p` in front. */
  function Prefixed(p: seq<Token>, r: Run): Run
  {
    Run(p + r.produced, r.error, r.next)
  }

  /** Calls the scanner until it gives the end-of-input token or fails. */
  function Tokenize(src: string, s: State): (r: Run)
    requires Inv(src, s.cur)
    ensures Inv(src, r.next.cur) && s.cur.pos <= r.next.cur.pos
    decreases |src| - s.cur.pos, 1
  {
    Collect(src, s.cur.pos, Next(src, s))
  }

  /**
   * Goes on from the outcome `st` of a call of the scanner made at index
   * `from`: an error ends the run, the end-of-input token is collected
   * last, and any other token is collected before the rest of the run.
   */
  function Collect(src: string, from: nat, st: Step): (r: Run)
    requires Inv(src, st.next.cur) && from <= st.next.cur.pos
    requires st.result.Ok? && st.result.value.kind != Eof ==> from < st.next.cur.pos
    ensures Inv(src, r.next.cur) && from <= r.next.cur.pos
    decreases |src| - from, 0
  {
    match st.result
    case Err(e) => Run([], Some(e), st.next)
    case Ok(t) =>
      if t.kind == Eof then Run([t], None, st.next)
      else Prefixed([t], Tokenize(src, st.next))
  }
}
