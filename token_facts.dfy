/**
 * Properties of scanning one token at a cursor that is past whitespace and
 * comments: maximal munch for numbers and words, how keywords and
 * identifiers reach the symbol table, operator priority, and the errors for
 * characters no rule accepts.
 */
module TokenFacts {
  import opened Wrappers
  import opened Chars
  import opened Tokens
  import opened Symbols
  import opened Lexing

  // ---------------------------------------------------------------------
  // Numbers
  // ---------------------------------------------------------------------

  /**
   * A number takes the longest run of digits with at most one dot: the text
   * is well formed, and the character after it is neither a digit nor a
   * dot that could still be taken.
   */
  lemma NumberMaximalMunch(src: string, c: Cursor)
    requires Inv(src, c) && c.pos < |src| && IsDigit(src[c.pos])
    ensures var r := LexNumber(src, c);
      var text := src[c.pos..r.at.pos];
      && NumberText(text)
      && r.at == Cursor(c.pos + |text|, c.line, c.col + |text|)
      && (r.at.pos == |src| || (!IsDigit(src[r.at.pos]) && (src[r.at.pos] == '.' ==> '.' in text)))
  {
    NumberEndRun(src, c.pos, false);
    var e := LexNumber(src, c).at.pos;
    var text := src[c.pos..e];
    assert forall j | 0 <= j < |text| :: text[j] == src[c.pos + j];
    if e < |src| && src[e] == '.' {
      var j :| c.pos <= j < e && src[j] == '.';
      assert text[j - c.pos] == '.';
    }
  }

  /**
   * A number without a dot is an integer literal; one with a dot is a
   * floating literal, unless its text ends in the dot, which is an invalid
   * float reported at the number's first character.
   */
  lemma NumberClassified(src: string, c: Cursor)
    requires Inv(src, c) && c.pos < |src| && IsDigit(src[c.pos])
    ensures var r := LexNumber(src, c);
      var text := src[c.pos..r.at.pos];
      && |text| > 0
      && ('.' !in text ==> r.result == Ok(Token(IntLit, text, c.line, c.col)))
      && ('.' in text && text[|text| - 1] != '.' ==> r.result == Ok(Token(FloatLit, text, c.line, c.col)))
      && (text[|text| - 1] == '.' ==> r.result == Err(LexicalError(InvalidFloat, c.line, c.col)))
  {
    NumberEndRun(src, c.pos, false);
    var (e, dot) := NumberEnd(src, c.pos, false);
    var text := src[c.pos..e];
    if dot {
      var j :| c.pos <= j < e && src[j] == '.';
      assert text[j - c.pos] == '.';
    } else {
      assert forall j | 0 <= j < |text| :: text[j] == src[c.pos + j];
    }
  }

  // ---------------------------------------------------------------------
  // Identifiers and keywords
  // ---------------------------------------------------------------------

  /** A word takes the longest run of letters, digits and underscores. */
  lemma IdentifierMaximalMunch(src: string, s: State)
    requires Inv(src, s.cur) && s.cur.pos < |src| && IsIdentStart(src[s.cur.pos])
    ensures var r := LexIdentifier(src, s);
      var e := r.next.cur.pos;
      && (forall j | s.cur.pos <= j < e :: IsIdentPart(src[j]))
      && (e == |src| || !IsIdentPart(src[e]))
      && r.next.cur == Cursor(e, s.cur.line, s.cur.col + (e - s.cur.pos))
      && r.result.Ok? && r.result.value.lexeme == src[s.cur.pos..e]
      && r.result.value.line == s.cur.line && r.result.value.column == s.cur.col
  {
    IdentEndRun(src, s.cur.pos);
  }

  /** A word in the keyword table gets the table's kind and leaves the symbol table as it was. */
  lemma KeywordLeavesTable(src: string, s: State)
    requires Inv(src, s.cur) && s.cur.pos < |src| && IsIdentStart(src[s.cur.pos])
    requires Keyword(src[s.cur.pos..IdentEnd(src, s.cur.pos)]).Some?
    ensures var r := LexIdentifier(src, s);
      && r.result.Ok?
      && r.result.value.kind == Keyword(src[s.cur.pos..IdentEnd(src, s.cur.pos)]).value
      && r.result.value.kind != Identifier
      && r.next.syms == s.syms
  {
  }

  /**
   * A word not in the keyword table is an identifier. A name the table does
   * not hold yet is registered with type "unknown"; an entry already there
   * is never overwritten; no other name changes.
   */
  lemma IdentifierRegistered(src: string, s: State)
    requires Inv(src, s.cur) && s.cur.pos < |src| && IsIdentStart(src[s.cur.pos])
    requires Keyword(src[s.cur.pos..IdentEnd(src, s.cur.pos)]).None?
    ensures var name := src[s.cur.pos..IdentEnd(src, s.cur.pos)];
      var r := LexIdentifier(src, s);
      && r.result.Ok? && r.result.value.kind == Identifier && r.result.value.lexeme == name
      && r.next.syms.Keys == s.syms.Keys + {name}
      && (name in s.syms ==> r.next.syms == s.syms)
      && (name !in s.syms ==> r.next.syms[name] == Unknown(name) && r.next.syms[name].typ == "unknown")
      && (forall n | n in s.syms :: r.next.syms[n] == s.syms[n])
  {
  }

  // ---------------------------------------------------------------------
  // Operators and single characters
  // ---------------------------------------------------------------------

  /** Two characters that form an operator are taken together, before any single-character rule. */
  lemma OperatorBeatsSingleChar(src: string, s: State)
    requires Inv(src, s.cur) && s.cur.pos + 1 < |src| && !IsSpace(src[s.cur.pos])
    requires Operator(src[s.cur.pos..s.cur.pos + 2]).Some?
    ensures var c := s.cur;
      var op := src[c.pos..c.pos + 2];
      LexToken(src, s) == Step(Ok(Token(Operator(op).value, op, c.line, c.col)), State(Cursor(c.pos + 2, c.line, c.col + 2), s.syms))
  {
    var c := s.cur;
    var op := src[c.pos..c.pos + 2];
    assert op[0] == src[c.pos];
    assert !IsDigit(src[c.pos]) && !IsIdentStart(src[c.pos]);
  }

  /**
   * A character of the single-character table that starts no two-character
   * operator is a token of its own: the table's kind for it, the character
   * as its text, at the cursor's line and column, with the cursor one column
   * further on and the symbol table unchanged.
   */
  lemma SingleCharScanned(src: string, s: State)
    requires Inv(src, s.cur) && s.cur.pos < |src| && SingleChar(src[s.cur.pos]).Some?
    requires s.cur.pos + 1 == |src| || Operator(src[s.cur.pos..s.cur.pos + 2]).None?
    ensures var c := s.cur; var ch := src[c.pos];
      LexToken(src, s) == Step(Ok(Token(SingleChar(ch).value, [ch], c.line, c.col)), State(Cursor(c.pos + 1, c.line, c.col + 1), s.syms))
  {
    var c := s.cur;
    assert !IsDigit(src[c.pos]) && !IsIdentStart(src[c.pos]);
    assert LexOperator(src, c).None?;
  }

  /** A `=` not followed by another `=` is the assignment sign. */
  lemma LoneEqualIsAssignment(src: string, s: State)
    requires Inv(src, s.cur) && s.cur.pos < |src| && src[s.cur.pos] == '='
    requires s.cur.pos + 1 == |src| || src[s.cur.pos + 1] != '='
    ensures var c := s.cur;
      LexToken(src, s) == Step(Ok(Token(Equal, "=", c.line, c.col)), State(Cursor(c.pos + 1, c.line, c.col + 1), s.syms))
  {
    var c := s.cur;
    if c.pos + 1 < |src| {
      assert src[c.pos..c.pos + 2] == ['=', src[c.pos + 1]];
    }
  }

  /**
   * A `&` or `|` that is not doubled is not a token: it is an
   * unexpected-character error at its own line and column, one character
   * having been consumed.
   */
  lemma LoneAmpersandOrBarRejected(src: string, s: State)
    requires Inv(src, s.cur) && s.cur.pos < |src| && (src[s.cur.pos] == '&' || src[s.cur.pos] == '|')
    requires s.cur.pos + 1 == |src| || src[s.cur.pos + 1] != src[s.cur.pos]
    ensures var c := s.cur;
      LexToken(src, s) ==
        Step(Err(LexicalError(UnexpectedCharacter(src[c.pos]), c.line, c.col)), State(Cursor(c.pos + 1, c.line, c.col + 1), s.syms))
  {
    var c := s.cur;
    if c.pos + 1 < |src| {
      OperatorShape(src[c.pos..c.pos + 2]);
    }
  }

  /** A number cannot start with a dot: a leading `.` is an unexpected character. */
  lemma LeadingDotRejected(src: string, s: State)
    requires Inv(src, s.cur) && s.cur.pos < |src| && src[s.cur.pos] == '.'
    ensures var c := s.cur;
      LexToken(src, s) ==
        Step(Err(LexicalError(UnexpectedCharacter('.'), c.line, c.col)), State(Cursor(c.pos + 1, c.line, c.col + 1), s.syms))
  {
    var c := s.cur;
    if c.pos + 1 < |src| {
      assert src[c.pos..c.pos + 2] == ['.', src[c.pos + 1]];
    }
  }

  /**
   * A character that starts no number, word or operator and is no token by
   * itself is an unexpected-character error at its own line and column.
   */
  lemma UnexpectedCharacterRejected(src: string, s: State)
    requires Inv(src, s.cur) && s.cur.pos < |src| && !IsSpace(src[s.cur.pos])
    requires !IsDigit(src[s.cur.pos]) && !IsIdentStart(src[s.cur.pos])
    requires src[s.cur.pos] !in "(){},;+-*/%<>=![]|&"
    ensures LexToken(src, s).result == Err(LexicalError(UnexpectedCharacter(src[s.cur.pos]), s.cur.line, s.cur.col))
  {
  }
}
