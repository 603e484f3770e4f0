/**
 * Concrete scans: the inputs of the scanner's unit tests (or shortened
 * forms of them) with the exact tokens, errors and tables they give.
 */
module LexerExamples {
  import opened Wrappers
  import opened Chars
  import opened Tokens
  import opened Symbols
  import opened Lexing
  import opened LexingFacts
  import opened TokenFacts

  // ---------------------------------------------------------------------
  // The inputs, character by character
  // ---------------------------------------------------------------------

  /** `src` is the text `123 45.67`. */
  predicate NumbersText(src: string)
  {
    |src| == 9 && src[0] == '1' && src[1] == '2' && src[2] == '3' && src[3] == ' ' && src[4] == '4'
    && src[5] == '5' && src[6] == '.' && src[7] == '6' && src[8] == '7'
  }

  /** `src` is the text `int x = @;`. */
  predicate AssignmentText(src: string)
  {
    |src| == 10 && src[0] == 'i' && src[1] == 'n' && src[2] == 't' && src[3] == ' ' && src[4] == 'x'
    && src[5] == ' ' && src[6] == '=' && src[7] == ' ' && src[8] == '@' && src[9] == ';'
  }

  /** `src` is the text `if x1`. */
  predicate KeywordsText(src: string)
  {
    |src| == 5 && src[0] == 'i' && src[1] == 'f' && src[2] == ' ' && src[3] == 'x' && src[4] == '1'
  }

  /** `src` is the text `x x`. */
  predicate RepeatedText(src: string)
  {
    |src| == 3 && src[0] == 'x' && src[1] == ' ' && src[2] == 'x'
  }

  /** `src` is the text `a <= b`. */
  predicate OperatorsText(src: string)
  {
    |src| == 6 && src[0] == 'a' && src[1] == ' ' && src[2] == '<' && src[3] == '=' && src[4] == ' '
    && src[5] == 'b'
  }

  /** `src` is the text `a // c`, a line feed, then `/* d */ b`. */
  predicate CommentsText(src: string)
  {
    |src| == 16 && src[0] == 'a' && src[1] == ' ' && src[2] == '/' && src[3] == '/' && src[4] == ' '
    && src[5] == 'c' && src[6] == '\n' && src[7] == '/' && src[8] == '*' && src[9] == ' ' && src[10] == 'd'
    && src[11] == ' ' && src[12] == '*' && src[13] == '/' && src[14] == ' ' && src[15] == 'b'
  }

  /** `src` is the text `/* a` line feed `b */ c`: a block comment across two lines. */
  predicate CommentLinesText(src: string)
  {
    |src| == 11 && src[0] == '/' && src[1] == '*' && src[2] == ' ' && src[3] == 'a' && src[4] == '\n'
    && src[5] == 'b' && src[6] == ' ' && src[7] == '*' && src[8] == '/' && src[9] == ' ' && src[10] == 'c'
  }

  // ---------------------------------------------------------------------
  // "123 45.67": an integer and a floating literal
  // ---------------------------------------------------------------------

  /** The first call takes `123`, stopping at the space: an integer literal at 1:1. */
  lemma NumbersFirst(src: string, syms: map<string, SymbolInfo>)
    requires NumbersText(src)
    ensures Next(src, State(Start(), syms)) == Step(Ok(Token(IntLit, "123", 1, 1)), State(Cursor(3, 1, 4), syms))
  {
    assert SkipSpaces(src, Start()) == Start();
    assert NumberEnd(src, 3, false) == (3, false);
    assert NumberEnd(src, 2, false) == (3, false);
    assert NumberEnd(src, 1, false) == (3, false);
    assert src[0..3] == "123";
    assert LexToken(src, State(Start(), syms)) == Step(Ok(Token(IntLit, "123", 1, 1)), State(Cursor(3, 1, 4), syms));
    NextScansToken(src, State(Start(), syms), Start());
  }

  /** The second call skips the space and takes `45.67` with its one dot: a floating literal at 1:5. */
  lemma NumbersSecond(src: string, syms: map<string, SymbolInfo>)
    requires NumbersText(src)
    ensures Next(src, State(Cursor(3, 1, 4), syms)) == Step(Ok(Token(FloatLit, "45.67", 1, 5)), State(Cursor(9, 1, 10), syms))
  {
    assert SkipSpaces(src, Cursor(4, 1, 5)) == Cursor(4, 1, 5);
    assert SkipSpaces(src, Cursor(3, 1, 4)) == Cursor(4, 1, 5);
    assert NumberEnd(src, 9, true) == (9, true);
    assert NumberEnd(src, 8, true) == (9, true);
    assert NumberEnd(src, 7, true) == (9, true);
    assert NumberEnd(src, 6, false) == (9, true);
    assert NumberEnd(src, 5, false) == (9, true);
    assert src[4..9] == "45.67";
    assert LexToken(src, State(Cursor(4, 1, 5), syms)) == Step(Ok(Token(FloatLit, "45.67", 1, 5)), State(Cursor(9, 1, 10), syms));
    NextScansToken(src, State(Cursor(3, 1, 4), syms), Cursor(4, 1, 5));
  }

  // ---------------------------------------------------------------------
  // Errors
  // ---------------------------------------------------------------------

  /** A character no rule accepts ends the scan with an error at its line and column. */
  lemma InvalidCharacterExample(syms: map<string, SymbolInfo>)
    ensures Tokenize("@", State(Start(), syms)) ==
      Run([], Some(LexicalError(UnexpectedCharacter('@'), 1, 1)), State(Cursor(1, 1, 2), syms))
  {
    var src := "@";
    assert SkipSpaces(src, Start()) == Start();
    NextScansToken(src, State(Start(), syms), Start());
    assert SingleChar('@') == None;
    TokenizeStep(src, State(Start(), syms), Err(LexicalError(UnexpectedCharacter('@'), 1, 1)), State(Cursor(1, 1, 2), syms));
  }

  /**
   * A block comment without a closer is an error reported where the comment
   * loop gave up: on the last character, with the opener not counted in the
   * column.
   */
  lemma UnterminatedCommentExample(syms: map<string, SymbolInfo>)
    ensures Tokenize("/* open", State(Start(), syms)) ==
      Run([], Some(LexicalError(UnterminatedComment, 1, 5)), State(Cursor(6, 1, 5), syms))
  {
    var src := "/* open";
    assert SkipSpaces(src, Start()) == Start();
    assert SkipBlock(src, Cursor(6, 1, 5)) == Unterminated(Cursor(6, 1, 5));
    assert SkipBlock(src, Cursor(5, 1, 4)) == Unterminated(Cursor(6, 1, 5));
    assert SkipBlock(src, Cursor(4, 1, 3)) == Unterminated(Cursor(6, 1, 5));
    assert SkipBlock(src, Cursor(3, 1, 2)) == Unterminated(Cursor(6, 1, 5));
    assert SkipBlock(src, Cursor(2, 1, 1)) == Unterminated(Cursor(6, 1, 5));
    BlockCommentUnterminated(src, State(Start(), syms), Start());
    TokenizeStep(src, State(Start(), syms), Err(LexicalError(UnterminatedComment, 1, 5)), State(Cursor(6, 1, 5), syms));
  }

  /** A number that ends in its dot is an invalid float, reported at its first digit. */
  lemma TrailingDotExample(syms: map<string, SymbolInfo>)
    ensures Tokenize("123.", State(Start(), syms)) ==
      Run([], Some(LexicalError(InvalidFloat, 1, 1)), State(Cursor(4, 1, 5), syms))
  {
    var src := "123.";
    assert SkipSpaces(src, Start()) == Start();
    assert NumberEnd(src, 4, true) == (4, true);
    assert NumberEnd(src, 3, false) == (4, true);
    assert NumberEnd(src, 2, false) == (4, true);
    assert NumberEnd(src, 1, false) == (4, true);
    assert src[0..4] == "123.";
    NextScansToken(src, State(Start(), syms), Start());
    TokenizeStep(src, State(Start(), syms), Err(LexicalError(InvalidFloat, 1, 1)), State(Cursor(4, 1, 5), syms));
  }

  /** A number cannot start with its dot. */
  lemma LeadingDotExample(syms: map<string, SymbolInfo>)
    ensures Tokenize(".14", State(Start(), syms)) ==
      Run([], Some(LexicalError(UnexpectedCharacter('.'), 1, 1)), State(Cursor(1, 1, 2), syms))
  {
    var src := ".14";
    assert SkipSpaces(src, Start()) == Start();
    NextScansToken(src, State(Start(), syms), Start());
    LeadingDotRejected(src, State(Start(), syms));
    TokenizeStep(src, State(Start(), syms), Err(LexicalError(UnexpectedCharacter('.'), 1, 1)), State(Cursor(1, 1, 2), syms));
  }

  /** The error at `@` comes after the tokens before it, which the scan keeps. */
  lemma InvalidCharacterLaterFirst(src: string, syms: map<string, SymbolInfo>)
    requires AssignmentText(src)
    ensures Next(src, State(Start(), syms)) == Step(Ok(Token(Int, "int", 1, 1)), State(Cursor(3, 1, 4), syms))
  {
    assert SkipSpaces(src, Start()) == Start();
    assert IdentEnd(src, 3) == 3;
    assert IdentEnd(src, 2) == 3;
    assert IdentEnd(src, 1) == 3;
    assert src[0..3] == "int";
    assert LexToken(src, State(Start(), syms)) == Step(Ok(Token(Int, "int", 1, 1)), State(Cursor(3, 1, 4), syms));
    NextScansToken(src, State(Start(), syms), Start());
  }

  /** `x` is an identifier and is registered. */
  lemma InvalidCharacterLaterSecond(src: string, syms: map<string, SymbolInfo>)
    requires AssignmentText(src)
    ensures Next(src, State(Cursor(3, 1, 4), syms)) ==
      Step(Ok(Token(Identifier, "x", 1, 5)), State(Cursor(5, 1, 6), Register(syms, "x")))
  {
    assert SkipSpaces(src, Cursor(4, 1, 5)) == Cursor(4, 1, 5);
    assert SkipSpaces(src, Cursor(3, 1, 4)) == Cursor(4, 1, 5);
    assert IdentEnd(src, 5) == 5;
    assert src[4..5] == "x";
    assert LexToken(src, State(Cursor(4, 1, 5), syms)) == Step(Ok(Token(Identifier, "x", 1, 5)), State(Cursor(5, 1, 6), Register(syms, "x")));
    NextScansToken(src, State(Cursor(3, 1, 4), syms), Cursor(4, 1, 5));
  }

  /** A lone `=` is the assignment sign. */
  lemma InvalidCharacterLaterThird(src: string, syms: map<string, SymbolInfo>)
    requires AssignmentText(src)
    ensures Next(src, State(Cursor(5, 1, 6), syms)) == Step(Ok(Token(Equal, "=", 1, 7)), State(Cursor(7, 1, 8), syms))
  {
    assert SkipSpaces(src, Cursor(6, 1, 7)) == Cursor(6, 1, 7);
    assert SkipSpaces(src, Cursor(5, 1, 6)) == Cursor(6, 1, 7);
    assert src[6..8] == "= ";
    assert LexToken(src, State(Cursor(6, 1, 7), syms)) == Step(Ok(Token(Equal, "=", 1, 7)), State(Cursor(7, 1, 8), syms));
    NextScansToken(src, State(Cursor(5, 1, 6), syms), Cursor(6, 1, 7));
  }

  /** `@` is no token: the error carries its line and column. */
  lemma InvalidCharacterLaterFourth(src: string, syms: map<string, SymbolInfo>)
    requires AssignmentText(src)
    ensures Next(src, State(Cursor(7, 1, 8), syms)) ==
      Step(Err(LexicalError(UnexpectedCharacter('@'), 1, 9)), State(Cursor(9, 1, 10), syms))
  {
    assert SkipSpaces(src, Cursor(8, 1, 9)) == Cursor(8, 1, 9);
    assert SkipSpaces(src, Cursor(7, 1, 8)) == Cursor(8, 1, 9);
    assert src[8..10] == "@;";
    assert SingleChar('@') == None;
    assert LexToken(src, State(Cursor(8, 1, 9), syms)) == Step(Err(LexicalError(UnexpectedCharacter('@'), 1, 9)), State(Cursor(9, 1, 10), syms));
    NextScansToken(src, State(Cursor(7, 1, 8), syms), Cursor(8, 1, 9));
  }

  // ---------------------------------------------------------------------
  // Keywords, identifiers and the table
  // ---------------------------------------------------------------------

  /** `if` is a keyword: its own kind, and the table is left alone. */
  lemma KeywordsFirst(src: string, syms: map<string, SymbolInfo>)
    requires KeywordsText(src)
    ensures Next(src, State(Start(), syms)) == Step(Ok(Token(If, "if", 1, 1)), State(Cursor(2, 1, 3), syms))
  {
    assert SkipSpaces(src, Start()) == Start();
    assert IdentEnd(src, 2) == 2;
    assert IdentEnd(src, 1) == 2;
    assert src[0..2] == "if";
    assert LexToken(src, State(Start(), syms)) == Step(Ok(Token(If, "if", 1, 1)), State(Cursor(2, 1, 3), syms));
    NextScansToken(src, State(Start(), syms), Start());
  }

  /** `x1` is one identifier, digits included, and is registered. */
  lemma KeywordsSecond(src: string, syms: map<string, SymbolInfo>)
    requires KeywordsText(src)
    ensures Next(src, State(Cursor(2, 1, 3), syms)) ==
      Step(Ok(Token(Identifier, "x1", 1, 4)), State(Cursor(5, 1, 6), Register(syms, "x1")))
  {
    assert SkipSpaces(src, Cursor(3, 1, 4)) == Cursor(3, 1, 4);
    assert SkipSpaces(src, Cursor(2, 1, 3)) == Cursor(3, 1, 4);
    assert IdentEnd(src, 5) == 5;
    assert IdentEnd(src, 4) == 5;
    assert src[3..5] == "x1";
    KeywordShape("x1");
    assert LexToken(src, State(Cursor(3, 1, 4), syms)) == Step(Ok(Token(Identifier, "x1", 1, 4)), State(Cursor(5, 1, 6), Register(syms, "x1")));
    NextScansToken(src, State(Cursor(2, 1, 3), syms), Cursor(3, 1, 4));
  }

  /** The first `x` is registered. */
  lemma RepeatedFirst(src: string, syms: map<string, SymbolInfo>)
    requires RepeatedText(src)
    ensures Next(src, State(Start(), syms)) == Step(Ok(Token(Identifier, "x", 1, 1)), State(Cursor(1, 1, 2), Register(syms, "x")))
  {
    assert SkipSpaces(src, Start()) == Start();
    assert IdentEnd(src, 1) == 1;
    assert src[0..1] == "x";
    KeywordShape("x");
    assert LexToken(src, State(Start(), syms)) == Step(Ok(Token(Identifier, "x", 1, 1)), State(Cursor(1, 1, 2), Register(syms, "x")));
    NextScansToken(src, State(Start(), syms), Start());
  }

  /** The second `x` finds its name already in the table, which it leaves exactly as it was. */
  lemma RepeatedSecond(src: string, syms: map<string, SymbolInfo>)
    requires RepeatedText(src) && "x" in syms
    ensures Next(src, State(Cursor(1, 1, 2), syms)) == Step(Ok(Token(Identifier, "x", 1, 3)), State(Cursor(3, 1, 4), syms))
  {
    assert SkipSpaces(src, Cursor(2, 1, 3)) == Cursor(2, 1, 3);
    assert SkipSpaces(src, Cursor(1, 1, 2)) == Cursor(2, 1, 3);
    assert IdentEnd(src, 3) == 3;
    assert src[2..3] == "x";
    KeywordShape("x");
    assert LexToken(src, State(Cursor(2, 1, 3), syms)) == Step(Ok(Token(Identifier, "x", 1, 3)), State(Cursor(3, 1, 4), syms));
    NextScansToken(src, State(Cursor(1, 1, 2), syms), Cursor(2, 1, 3));
  }

  // ---------------------------------------------------------------------
  // Operators
  // ---------------------------------------------------------------------

  /** `a` is an identifier. */
  lemma OperatorsFirst(src: string, syms: map<string, SymbolInfo>)
    requires OperatorsText(src)
    ensures Next(src, State(Start(), syms)) == Step(Ok(Token(Identifier, "a", 1, 1)), State(Cursor(1, 1, 2), Register(syms, "a")))
  {
    assert SkipSpaces(src, Start()) == Start();
    assert IdentEnd(src, 1) == 1;
    assert src[0..1] == "a";
    KeywordShape("a");
    assert LexToken(src, State(Start(), syms)) == Step(Ok(Token(Identifier, "a", 1, 1)), State(Cursor(1, 1, 2), Register(syms, "a")));
    NextScansToken(src, State(Start(), syms), Start());
  }

  /** The second call takes `<=` as one token, not `<` and then `=`. */
  lemma OperatorsSecond(src: string, syms: map<string, SymbolInfo>)
    requires OperatorsText(src)
    ensures Next(src, State(Cursor(1, 1, 2), syms)) == Step(Ok(Token(Le, "<=", 1, 3)), State(Cursor(4, 1, 5), syms))
  {
    assert SkipSpaces(src, Cursor(2, 1, 3)) == Cursor(2, 1, 3);
    assert SkipSpaces(src, Cursor(1, 1, 2)) == Cursor(2, 1, 3);
    assert src[2..4] == "<=";
    assert LexToken(src, State(Cursor(2, 1, 3), syms)) == Step(Ok(Token(Le, "<=", 1, 3)), State(Cursor(4, 1, 5), syms));
    NextScansToken(src, State(Cursor(1, 1, 2), syms), Cursor(2, 1, 3));
  }

  /** `b` is an identifier, at column 6. */
  lemma OperatorsThird(src: string, syms: map<string, SymbolInfo>)
    requires OperatorsText(src)
    ensures Next(src, State(Cursor(4, 1, 5), syms)) == Step(Ok(Token(Identifier, "b", 1, 6)), State(Cursor(6, 1, 7), Register(syms, "b")))
  {
    assert SkipSpaces(src, Cursor(5, 1, 6)) == Cursor(5, 1, 6);
    assert SkipSpaces(src, Cursor(4, 1, 5)) == Cursor(5, 1, 6);
    assert IdentEnd(src, 6) == 6;
    assert src[5..6] == "b";
    KeywordShape("b");
    assert LexToken(src, State(Cursor(5, 1, 6), syms)) == Step(Ok(Token(Identifier, "b", 1, 6)), State(Cursor(6, 1, 7), Register(syms, "b")));
    NextScansToken(src, State(Cursor(4, 1, 5), syms), Cursor(5, 1, 6));
  }

  /** A single `&` is no operator: an error at its own column. */
  lemma LoneAmpersandExample(syms: map<string, SymbolInfo>)
    ensures Tokenize("&b", State(Start(), syms)) ==
      Run([], Some(LexicalError(UnexpectedCharacter('&'), 1, 1)), State(Cursor(1, 1, 2), syms))
  {
    var src := "&b";
    assert SkipSpaces(src, Start()) == Start();
    NextScansToken(src, State(Start(), syms), Start());
    LoneAmpersandOrBarRejected(src, State(Start(), syms));
    TokenizeStep(src, State(Start(), syms), Err(LexicalError(UnexpectedCharacter('&'), 1, 1)), State(Cursor(1, 1, 2), syms));
  }

  // ---------------------------------------------------------------------
  // Comments
  // ---------------------------------------------------------------------

  /** `a` is an identifier. */
  lemma CommentsFirst(src: string, syms: map<string, SymbolInfo>)
    requires CommentsText(src)
    ensures Next(src, State(Start(), syms)) ==
      Step(Ok(Token(Identifier, "a", 1, 1)), State(Cursor(1, 1, 2), Register(syms, "a")))
  {
    assert SkipSpaces(src, Start()) == Start();
    assert IdentEnd(src, 1) == 1;
    assert src[0..1] == "a";
    KeywordShape("a");
    assert LexToken(src, State(Start(), syms)) == Step(Ok(Token(Identifier, "a", 1, 1)), State(Cursor(1, 1, 2), Register(syms, "a")));
    NextScansToken(src, State(Start(), syms), Start());
  }

  /** The line comment is skipped up to its line feed, with the column left at 3. */
  lemma CommentsSkipLine(src: string, syms: map<string, SymbolInfo>)
    requires CommentsText(src)
    ensures Next(src, State(Cursor(1, 1, 2), syms)) == Next(src, State(Cursor(6, 1, 3), syms))
  {
    assert SkipSpaces(src, Cursor(2, 1, 3)) == Cursor(2, 1, 3);
    assert SkipSpaces(src, Cursor(1, 1, 2)) == Cursor(2, 1, 3);
    assert LineEnd(src, 6) == 6;
    assert LineEnd(src, 5) == 6;
    assert LineEnd(src, 4) == 6;
    LineCommentRestarts(src, State(Cursor(1, 1, 2), syms), Cursor(2, 1, 3));
  }

  /** The line feed is whitespace; the block comment is skipped, its closer not counted in the column. */
  lemma CommentsSkipBlock(src: string, syms: map<string, SymbolInfo>)
    requires CommentsText(src)
    ensures Next(src, State(Cursor(6, 1, 3), syms)) == Next(src, State(Cursor(14, 2, 4), syms))
  {
    assert SkipSpaces(src, Cursor(7, 2, 1)) == Cursor(7, 2, 1);
    assert SkipSpaces(src, Cursor(6, 1, 3)) == Cursor(7, 2, 1);
    assert SkipBlock(src, Cursor(12, 2, 4)) == Closed(Cursor(14, 2, 4));
    assert SkipBlock(src, Cursor(11, 2, 3)) == Closed(Cursor(14, 2, 4));
    assert SkipBlock(src, Cursor(10, 2, 2)) == Closed(Cursor(14, 2, 4));
    assert SkipBlock(src, Cursor(9, 2, 1)) == Closed(Cursor(14, 2, 4));
    BlockCommentRestarts(src, State(Cursor(6, 1, 3), syms), Cursor(7, 2, 1));
  }

  /** `b` is reported on line 2 at column 5, though it is the ninth character of its line: the comment's opener and closer were not counted. */
  lemma CommentsLast(src: string, syms: map<string, SymbolInfo>)
    requires CommentsText(src)
    ensures Next(src, State(Cursor(14, 2, 4), syms)) ==
      Step(Ok(Token(Identifier, "b", 2, 5)), State(Cursor(16, 2, 6), Register(syms, "b")))
  {
    assert SkipSpaces(src, Cursor(15, 2, 5)) == Cursor(15, 2, 5);
    assert SkipSpaces(src, Cursor(14, 2, 4)) == Cursor(15, 2, 5);
    assert IdentEnd(src, 16) == 16;
    assert src[15..16] == "b";
    KeywordShape("b");
    assert LexToken(src, State(Cursor(15, 2, 5), syms)) == Step(Ok(Token(Identifier, "b", 2, 5)), State(Cursor(16, 2, 6), Register(syms, "b")));
    NextScansToken(src, State(Cursor(14, 2, 4), syms), Cursor(15, 2, 5));
  }

  /**
   * A block comment across a line feed: the body's line feed is counted, so
   * the scan resumes on line 2, at column 3 because the opener and closer
   * were not counted.
   */
  lemma CommentLinesSkip(src: string, syms: map<string, SymbolInfo>)
    requires CommentLinesText(src)
    ensures Next(src, State(Start(), syms)) == Next(src, State(Cursor(9, 2, 3), syms))
  {
    assert SkipSpaces(src, Start()) == Start();
    assert SkipBlock(src, Cursor(7, 2, 3)) == Closed(Cursor(9, 2, 3));
    assert SkipBlock(src, Cursor(6, 2, 2)) == Closed(Cursor(9, 2, 3));
    assert SkipBlock(src, Cursor(5, 2, 1)) == Closed(Cursor(9, 2, 3));
    assert SkipBlock(src, Cursor(4, 1, 3)) == Closed(Cursor(9, 2, 3));
    assert SkipBlock(src, Cursor(3, 1, 2)) == Closed(Cursor(9, 2, 3));
    assert SkipBlock(src, Cursor(2, 1, 1)) == Closed(Cursor(9, 2, 3));
    BlockCommentRestarts(src, State(Start(), syms), Start());
  }

  /** `c` is reported at 2:4, though it is the sixth character of its line. */
  lemma CommentLinesLast(src: string, syms: map<string, SymbolInfo>)
    requires CommentLinesText(src)
    ensures Next(src, State(Cursor(9, 2, 3), syms)) ==
      Step(Ok(Token(Identifier, "c", 2, 4)), State(Cursor(11, 2, 5), Register(syms, "c")))
  {
    assert SkipSpaces(src, Cursor(10, 2, 4)) == Cursor(10, 2, 4);
    assert SkipSpaces(src, Cursor(9, 2, 3)) == Cursor(10, 2, 4);
    assert IdentEnd(src, 11) == 11;
    assert src[10..11] == "c";
    KeywordShape("c");
    assert LexToken(src, State(Cursor(10, 2, 4), syms)) == Step(Ok(Token(Identifier, "c", 2, 4)), State(Cursor(11, 2, 5), Register(syms, "c")));
    NextScansToken(src, State(Cursor(9, 2, 3), syms), Cursor(10, 2, 4));
  }
}
