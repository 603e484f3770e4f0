/**
 * The scanner object. It holds the source, a cursor (position, line,
 * column) that its methods advance step by step, the tokens produced so far
 * and the global symbol table. Each method is proved to do what the
 * matching function of module Lexing describes.
 */
module Analyzer {
  import opened Wrappers
  import opened Chars
  import opened Tokens
  import opened Symbols
  import opened Lexing
  import opened LexingFacts

  class LexicalAnalyzer {
    const source: string
    var position: nat
    var line: nat
    var column: nat
    var tokens: seq<Token>
    const symbolTable: SymbolTable

    /**
     * The cursor stays inside the source with 1-based line and column, and
     * the table is the single global scope.
     */
    ghost predicate Valid()
      reads this, symbolTable
    {
      && Inv(source, Cur())
      && symbolTable.parent == null && symbolTable.Repr == {symbolTable}
    }

    ghost function Cur(): Cursor
      reads this
    {
      Cursor(position, line, column)
    }

    ghost function Snapshot(): State
      reads this, symbolTable
    {
      State(Cur(), symbolTable.symbols)
    }

    constructor (sourceCode: string)
      ensures Valid()
      ensures source == sourceCode && Cur() == Start() && tokens == []
      ensures fresh(symbolTable) && symbolTable.symbols == BuiltIns() && symbolTable.name == "global"
    {
      source := sourceCode;
      position := 0;
      line := 1;
      column := 1;
      tokens := [];
      symbolTable := new SymbolTable("global");
      new;
      InitializeBuiltInFunctions();
    }

    /** Seeds the table with the built-in functions `read` and `write`. */
    method InitializeBuiltInFunctions()
      requires symbolTable.Valid()
      modifies symbolTable`symbols
      ensures symbolTable.Valid()
      ensures symbolTable.symbols == old(symbolTable.symbols)["read" := ReadInfo()]["write" := WriteInfo()]
    {
      symbolTable.Insert("read", ReadInfo());
      symbolTable.Insert("write", WriteInfo());
    }

    /** Moves over whitespace, counting lines and columns. */
    method SkipWhitespace()
      requires Valid()
      modifies this`position, this`line, this`column
      ensures Valid()
      ensures Cur() == SkipSpaces(source, old(Cur()))
    {
      while position < |source| && IsSpace(source[position])
        invariant Valid()
        invariant SkipSpaces(source, Cur()) == SkipSpaces(source, old(Cur()))
        decreases |source| - position
      {
        if source[position] == '\n' {
          line := line + 1;
          column := 1;
        } else {
          column := column + 1;
        }
        position := position + 1;
      }
    }

    /** Moves over `//` and the rest of the line up to its line feed; the column is left as it was. */
    method SkipLineComment()
      requires Valid() && position + 1 < |source| && source[position] == '/' && source[position + 1] == '/'
      modifies this`position
      ensures Valid()
      ensures position == LineEnd(source, old(position) + 2)
    {
      position := position + 2;
      while position < |source| && source[position] != '\n'
        invariant old(position) + 2 <= position <= |source|
        invariant LineEnd(source, position) == LineEnd(source, old(position) + 2)
        decreases |source| - position
      {
        position := position + 1;
      }
    }

    /**
     * Moves over the comment opener, the comment's body and its closer. The body's
     * characters count lines and columns; the opener and closer do not move
     * the column. Gives the unterminated-comment error when the source ends
     * first.
     */
    method SkipBlockComment() returns (err: Option<LexicalError>)
      requires Valid() && position + 1 < |source| && source[position] == '/' && source[position + 1] == '*'
      modifies this`position, this`line, this`column
      ensures Valid()
      ensures match SkipBlock(source, Cursor(old(position) + 2, old(line), old(column))) {
        case Closed(e) => err == None && Cur() == e
        case Unterminated(e) => err == Some(LexicalError(UnterminatedComment, e.line, e.col)) && Cur() == e
      }
    {
      position := position + 2;
      ghost var from := Cur();
      while position < |source| - 1
        invariant Valid()
        invariant SkipBlock(source, Cur()) == SkipBlock(source, from)
        decreases |source| - position
      {
        if source[position] == '*' && source[position + 1] == '/' {
          position := position + 2;
          return None;
        }
        if source[position] == '\n' {
          line := line + 1;
          column := 1;
        } else {
          column := column + 1;
        }
        position := position + 1;
      }
      return Some(LexicalError(UnterminatedComment, line, column));
    }

    /** Scans a numeric literal starting at a digit. */
    method ScanNumber() returns (r: Result<Token, LexicalError>)
      requires Valid() && position < |source| && IsDigit(source[position])
      modifies this`position, this`column
      ensures Valid()
      ensures LexNumber(source, old(Cur())) == Lexed(r, Cur())
    {
      var startColumn := column;
      var number := "";
      var isFloat := false;
      ghost var start := position;
      while position < |source|
        invariant start <= position <= |source|
        invariant number == source[start..position]
        invariant column == startColumn + (position - start)
        invariant NumberEnd(source, position, isFloat) == NumberEnd(source, start, false)
        decreases |source| - position
      {
        var ch := source[position];
        if IsDigit(ch) {
          assert source[start..position + 1] == number + [ch];
          number := number + [ch];
          position := position + 1;
          column := column + 1;
        } else if ch == '.' && !isFloat {
          assert source[start..position + 1] == number + [ch];
          number := number + [ch];
          isFloat := true;
          position := position + 1;
          column := column + 1;
        } else {
          break;
        }
      }
      assert (position, isFloat) == NumberEnd(source, start, false);
      if isFloat {
        if number[|number| - 1] == '.' {
          return Err(LexicalError(InvalidFloat, line, startColumn));
        }
        return Ok(Token(FloatLit, number, line, startColumn));
      }
      return Ok(Token(IntLit, number, line, startColumn));
    }

    /** Scans an identifier or keyword, registering a new identifier as unknown. */
    method ScanIdentifier() returns (t: Token)
      requires Valid() && position < |source| && IsIdentStart(source[position])
      modifies this`position, this`column, symbolTable`symbols
      ensures Valid()
      ensures LexIdentifier(source, old(Snapshot())) == Step(Ok(t), Snapshot())
    {
      var startColumn := column;
      var identifier := "";
      ghost var start := position;
      while position < |source|
        invariant start <= position <= |source|
        invariant identifier == source[start..position]
        invariant column == startColumn + (position - start)
        invariant IdentEnd(source, position) == IdentEnd(source, start)
        invariant symbolTable.symbols == old(symbolTable.symbols)
        decreases |source| - position
      {
        var ch := source[position];
        if IsAlnum(ch) || ch == '_' {
          assert source[start..position + 1] == identifier + [ch];
          identifier := identifier + [ch];
          position := position + 1;
          column := column + 1;
        } else {
          break;
        }
      }
      assert position == IdentEnd(source, start);
      assert identifier == source[old(position)..position];
      var keyword := Keyword(identifier);
      if keyword.Some? {
        return Token(keyword.value, identifier, line, startColumn);
      }
      var found := symbolTable.Lookup(identifier);
      assert found.None? <==> identifier !in symbolTable.symbols;
      if found.None? {
        symbolTable.Insert(identifier, Unknown(identifier));
      }
      assert symbolTable.symbols == Register(old(symbolTable.symbols), identifier);
      return Token(Identifier, identifier, line, startColumn);
    }

    /**
     * Produces the next token, skipping whitespace and comments first and
     * starting over after each comment.
     */
    method NextToken() returns (r: Result<Token, LexicalError>)
      requires Valid()
      modifies this`position, this`line, this`column, symbolTable`symbols
      ensures Valid()
      ensures Next(source, old(Snapshot())) == Step(r, Snapshot())
      decreases |source| - position
    {
      ghost var s0 := Snapshot();
      SkipWhitespace();
      ghost var c := Cur();
      if position >= |source| {
        NextAtEnd(source, s0, c);
        return Ok(Token(Eof, "", line, column));
      }
      var ch := source[position];
      if ch == '/' && position + 1 < |source| {
        var nextCh := source[position + 1];
        if nextCh == '/' {
          LineCommentRestarts(source, s0, c);
          SkipLineComment();
          assert Snapshot() == State(Cursor(LineEnd(source, c.pos + 2), c.line, c.col), s0.syms);
          r := NextToken();
          return;
        } else if nextCh == '*' {
          var err := SkipBlockComment();
          ghost var e := SkipBlock(source, Cursor(c.pos + 2, c.line, c.col));
          if err.Some? {
            BlockCommentUnterminated(source, s0, c);
            return Err(err.value);
          }
          BlockCommentRestarts(source, s0, c);
          assert Snapshot() == State(e.at, s0.syms);
          r := NextToken();
          return;
        }
      }
      NextScansToken(source, s0, c);
      r := ScanToken();
    }

    /** Scans the token at a character that is neither whitespace nor a comment opener. */
    method ScanToken() returns (r: Result<Token, LexicalError>)
      requires Valid() && position < |source| && !IsSpace(source[position])
      modifies this`position, this`column, symbolTable`symbols
      ensures Valid()
      ensures LexToken(source, old(Snapshot())) == Step(r, Snapshot())
    {
      var ch := source[position];
      if IsDigit(ch) {
        r := ScanNumber();
        return;
      }
      if IsAlpha(ch) || ch == '_' {
        var t := ScanIdentifier();
        return Ok(t);
      }
      if position + 1 < |source| {
        var op := source[position..position + 2];
        var kind := Operator(op);
        if kind.Some? {
          position := position + 2;
          column := column + 2;
          return Ok(Token(kind.value, op, line, column - 2));
        }
      }
      position := position + 1;
      column := column + 1;
      var kind := SingleChar(ch);
      if kind.Some? {
        return Ok(Token(kind.value, [ch], line, column - 1));
      }
      return Err(LexicalError(UnexpectedCharacter(ch), line, column - 1));
    }

    /**
     * Collects tokens until the end-of-input token, which is collected too.
     * The tokens are appended to `tokens`; an error ends the scan.
     */
    method Analyze() returns (r: Result<seq<Token>, LexicalError>)
      requires Valid()
      modifies this`position, this`line, this`column, this`tokens, symbolTable`symbols
      ensures Valid()
      ensures var run := Tokenize(source, old(Snapshot()));
        && tokens == old(tokens) + run.produced
        && Snapshot() == run.next
        && r == if run.error.None? then Ok(tokens) else Err(run.error.value)
    {
      ghost var produced: seq<Token> := [];
      ghost var start := Snapshot();
      ghost var state := start;
      while true
        invariant Valid() && state == Snapshot()
        invariant tokens == old(tokens) + produced
        invariant Tokenize(source, start) == Prefixed(produced, Tokenize(source, state))
        decreases |source| - position
      {
        ghost var before := state;
        var next := NextToken();
        state := Snapshot();
        TokenizeIsStepRun(source, before);
        ScanContinues(Tokenize(source, start), produced, next, state, Tokenize(source, state));
        if next.Err? {
          return Err(next.error);
        }
        var t := next.value;
        tokens := tokens + [t];
        produced := produced + [t];
        if t.kind == Eof {
          return Ok(tokens);
        }
      }
    }
  }
}
