# MyC lexer, modelled in Dafny

This project models the lexical analyser of the MyC compiler front end
(`lexical_analyzer.py`). The analyser turns MyC source text into tokens:
keywords, identifiers, integer and floating literals, one- and two-character
operators and punctuation, and a final end-of-input token. It skips
whitespace, `//` line comments and `/* */` block comments, and records every
new identifier in a global symbol table that starts out holding the built-in
functions `read` and `write`. The first lexical error stops the scan. There
are three errors: an unexpected character, an unterminated block comment,
and a number ending in its dot.

The model has two layers.

* **Functions on values.** These are modules `Lexing`, `Tokens`, `Symbols`
  and `Chars`. Each routine of the analyser is a function over a cursor
  (position, line, column) and the symbol table's map. `Next` is one call of
  `next_token`, and `Tokenize` is the whole `analyze` loop, given as a `Run`:
  the tokens, the error that stopped the scan if any, and the final state.
* **The analyser object.** This is class `Analyzer.LexicalAnalyzer`. Its
  fields are the ones the source updates in place: `position`, `line`,
  `column`, `tokens`, and the `SymbolTable` whose `symbols` map grows. Its
  methods have the source's loops and recursion. Each method is proved to
  leave exactly the state that the matching function describes.

The properties are proved about the functions, in modules `LexingFacts`,
`TokenFacts`, `ScanFacts` and `CommentFacts`. Module `LexerExamples` works
the inputs of the unit tests through the scanner one call at a time.

Some behaviour of the source is odd, and the model keeps it as written:

* A line comment does not advance the column.
* A block comment's `/*` and `*/` do not advance the column, but its body does.
* A number cannot start with `.`, so `.14` gives an unexpected-character
  error at the dot.
* `123.` is an invalid float, reported at the first digit.
* A lone `&` or `|` is an unexpected character, with one character consumed.
* An unterminated block comment is reported where the comment loop stops.
  That is the last character of the source, not the end of it, except when
  fewer than two characters follow the opener: then the loop never runs and
  the error is at the position right after `/*`.

## Model

| member | source | states |
|---|---|---|
| Tokens.Value | lexical_analyzer.py:6-57 | exactly the single-character kinds have a one-character text, and every operator kind has a two-character text |
| Tokens.KeywordWords | lexical_analyzer.py:109-124 | the keyword table holds only the fourteen words of the table |
| Tokens.KeywordComplete | lexical_analyzer.py:109-121 | every keyword and type name is in the keyword table with its own kind |
| Tokens.BoolLiterals | lexical_analyzer.py:122-123 | `true` and `false` are in the keyword table as boolean literals |
| Tokens.BoolLitSound | lexical_analyzer.py:122-123 | only `true` and `false` map to the boolean literal kind |
| Tokens.Keyword | lexical_analyzer.py:109-124 | the keyword lookup yields only reserved kinds or the boolean literal kind, never Identifier |
| Tokens.KeywordShape | lexical_analyzer.py:109-124 | every keyword is 2 to 6 characters long and starts with one of ten letters |
| Tokens.OperatorSound | lexical_analyzer.py:126-133 | the operator table maps a two-character text to the operator kind spelled that way |
| Tokens.OperatorComplete | lexical_analyzer.py:126-133 | every operator kind is in the operator table under its own text |
| Tokens.Operator | lexical_analyzer.py:126-133 | the operator lookup yields only the six operator kinds |
| Tokens.OperatorShape | lexical_analyzer.py:126-133 | every operator is a comparison character followed by `=`, or a doubled `&` or `|` |
| Tokens.SingleCharSound | lexical_analyzer.py:203-208 | the single-character lookup gives a character the kind whose text is that character |
| Tokens.SingleCharComplete | lexical_analyzer.py:6-24 | every kind whose text is one character is found by the single-character lookup, as the search over the enumeration finds it |
| Tokens.SingleChar | lexical_analyzer.py:206-208 | the single-character lookup yields only the seventeen single-character kinds, and only for punctuation: never a letter, digit, underscore or whitespace |
| Symbols.NewInfo | lexical_analyzer.py:69-77 | a new record has the given name and type, is local, has array length -1, no return type, no parameters and no locals |
| Symbols.Unknown | lexical_analyzer.py:285 | the record for a new identifier has its name, type "unknown", and the defaults of a new record |
| Symbols.ReadInfo | lexical_analyzer.py:146-149 | the built-in `read` is a function returning "any" and taking ["void"] |
| Symbols.WriteInfo | lexical_analyzer.py:152-155 | the built-in `write` is a function returning "void" and taking ["any"] |
| Symbols.BuiltIns | lexical_analyzer.py:144-155 | the initial table holds exactly `read` (returns "any", takes ["void"]) and `write` (returns "void", takes ["any"]), both of type "function" |
| Symbols.SymbolTable.constructor | lexical_analyzer.py:80-83 | a new table is empty, has no parent and keeps its name |
| Symbols.SymbolTable.Insert | lexical_analyzer.py:85-86 | insert stores the record under the name, replacing any entry there; lookup then finds it; every other name looks up as before |
| Symbols.SymbolTable.Lookup | lexical_analyzer.py:88-93 | lookup finds a name exactly when the scope or a scope on its parent chain holds it, and gives the innermost entry |
| Lexing.Advance | lexical_analyzer.py:214-219 | moving over one character moves the position by one; a line feed starts the next line at column 1, any other character moves one column along the same line |
| Lexing.SkipSpaces | lexical_analyzer.py:212-219 | skipping whitespace stops at the end or at a non-space character, never moves back and never lowers the line |
| Lexing.LineEnd | lexical_analyzer.py:221-224 | a line comment's end lies between its start and the end of the source |
| Lexing.SkipBlock | lexical_analyzer.py:226-239 | a block comment scan never moves back, and a closed comment consumes at least its closer |
| Lexing.NumberEnd | lexical_analyzer.py:246-258 | the number loop ends between where it started and the end of the source |
| Lexing.NumberEndRun | lexical_analyzer.py:246-258 | a number takes only digits and at most one dot, reports the dot exactly when it took one, and stops at a character it cannot take |
| Lexing.IdentEnd | lexical_analyzer.py:270-277 | the identifier loop ends between where it started and the end of the source |
| Lexing.IdentEndRun | lexical_analyzer.py:270-277 | an identifier takes only letters, digits and underscores, and stops at the first other character |
| Lexing.NumberToken | lexical_analyzer.py:260-264 | a number's text is an error exactly when it took a dot and ends in it, reported as an invalid float at its first column; otherwise it is an integer literal without a dot and a floating literal with one, carrying its text, line and column |
| Lexing.LexNumber | lexical_analyzer.py:241-264 | scanning a number consumes at least one character and keeps the cursor in range |
| Lexing.Register | lexical_analyzer.py:284-285 | registering adds the name, keeps every existing entry unchanged, and makes a new name "unknown" |
| Lexing.LexIdentifier | lexical_analyzer.py:266-287 | scanning a word consumes at least one character and keeps the cursor in range |
| Lexing.LexOperator | lexical_analyzer.py:196-201 | a two-character operator moves the cursor two positions and two columns |
| Lexing.LexSingle | lexical_analyzer.py:203-210 | a single character, token or error, moves the cursor one position and one column |
| Lexing.LexToken | lexical_analyzer.py:187-210 | scanning a token always consumes at least one character |
| Lexing.Next | lexical_analyzer.py:168-172 | one call of the scanner never moves back, and moves forward whenever it gives a token other than end-of-input |
| Lexing.NextAt | lexical_analyzer.py:171-210 | past whitespace, a call never moves back, and moves forward whenever it gives a token other than end-of-input |
| Lexing.Tokenize | lexical_analyzer.py:157-166 | a whole scan ends inside the source, never before where it started |
| Lexing.Collect | lexical_analyzer.py:158-162 | what follows one call of the scanner in a scan ends inside the source, never before where that call started |
| LexingFacts.SkipSpacesKeepsLines | lexical_analyzer.py:212-219 | skipping whitespace keeps the line equal to one more than the line feeds before the position |
| LexingFacts.LineEndStops | lexical_analyzer.py:221-224 | a line comment contains no line feed and stops at one or at the end |
| LexingFacts.SkipBlockKeepsLines | lexical_analyzer.py:226-239 | the block comment scan keeps the line count accurate |
| LexingFacts.LastLineFeed | lexical_analyzer.py:214-217 | gives the last line feed in a range, or one before the range when it holds none |
| LexingFacts.SkipSpacesOnlySpaces | lexical_analyzer.py:213 | skipping whitespace moves over whitespace characters only |
| LexingFacts.SkipSpacesColumns | lexical_analyzer.py:212-219 | skipping whitespace adds one column per character, and after a line feed the column is the count of characters since the last line feed plus one |
| LexingFacts.SkipBlockColumns | lexical_analyzer.py:226-239 | in a block comment's body the column counts as in whitespace, a line feed starting again at column 1; the closer's two characters add no column |
| LexingFacts.LexTokenStaysOnLine | lexical_analyzer.py:187-210 | scanning a token never moves over a line feed |
| LexingFacts.LexTokenFits | lexical_analyzer.py:187-210 | a scanned token is the source text from the cursor to the new cursor, at the cursor's line and column, and is never end-of-input |
| LexingFacts.LexTokenRegisters | lexical_analyzer.py:266-287 | scanning a token changes the table only by registering an identifier it returns |
| LexingFacts.NextAtEnd | lexical_analyzer.py:169-172 | unfolding of NextAt at the end of the source: after trailing whitespace the scanner gives the end-of-input token with an empty text at the current line and column |
| LexingFacts.LineCommentRestarts | lexical_analyzer.py:177-182 | unfolding of NextAt at `//`: the scanner starts over at the line feed, with the line and column unchanged |
| LexingFacts.BlockCommentRestarts | lexical_analyzer.py:183-185 | unfolding of NextAt at a closed `/*`: the scanner starts over where the comment scan stopped |
| LexingFacts.BlockCommentUnterminated | lexical_analyzer.py:226-239 | an unclosed block comment is an error at the line and column where the comment scan stopped |
| LexingFacts.NextScansToken | lexical_analyzer.py:187-210 | unfolding of NextAt at any other character: past whitespace, one call scans one token there |
| LexingFacts.NextKeepsLines | lexical_analyzer.py:168-210 | one call of the scanner keeps the line count accurate |
| LexingFacts.NextFits | lexical_analyzer.py:168-210 | a token from one call is the source text right before the new cursor, has no line feed, and carries its line and column; only end-of-input is empty, and only at the end |
| LexingFacts.NextRegisters | lexical_analyzer.py:168-210 | one call changes the table only by registering the identifier it returns |
| LexingFacts.NextTokenLine | lexical_analyzer.py:168-210 | a token's line is one more than the number of line feeds before its first character |
| LexingFacts.TokenizeStep | lexical_analyzer.py:157-162 | unfolding of Tokenize: a scan is its first call followed by the rest; an error ends it, end-of-input is collected last, any other token comes before the rest |
| LexingFacts.ScanContinues | lexical_analyzer.py:158-162 | unfolding of Tokenize one loop turn further: each turn of the analyse loop either finishes the scan (error or end-of-input) or appends one token to what was collected |
| TokenFacts.NumberMaximalMunch | lexical_analyzer.py:246-258 | a number is the longest run of digits with at most one dot; the next character is not a digit, nor a dot that could still be taken |
| TokenFacts.NumberClassified | lexical_analyzer.py:260-264 | without a dot a number is an integer literal; with one it is a floating literal, or an invalid float at its first column when it ends in the dot |
| TokenFacts.IdentifierMaximalMunch | lexical_analyzer.py:270-277 | a word is the longest run of identifier characters, at the cursor's line and column |
| TokenFacts.KeywordLeavesTable | lexical_analyzer.py:280-281 | a keyword gets the table's kind, never Identifier, and leaves the symbol table unchanged |
| TokenFacts.IdentifierRegistered | lexical_analyzer.py:283-287 | a non-keyword is an identifier; a new name is added as "unknown", an existing entry is never overwritten, no other entry changes |
| TokenFacts.OperatorBeatsSingleChar | lexical_analyzer.py:195-201 | two characters that form an operator are taken as one token before any single-character rule |
| TokenFacts.SingleCharScanned | lexical_analyzer.py:203-208 | a character of the single-character table that starts no operator is a token of the table's kind with the character as its text, at the cursor, with the cursor one column on and the table unchanged |
| TokenFacts.LoneEqualIsAssignment | lexical_analyzer.py:203-208 | a `=` not followed by `=` is the assignment token |
| TokenFacts.LoneAmpersandOrBarRejected | lexical_analyzer.py:196-210 | an undoubled `&` or `|` is an unexpected-character error at its own column, after consuming it |
| TokenFacts.LeadingDotRejected | lexical_analyzer.py:187-210 | a `.` where a token starts is an unexpected-character error, not the start of a number |
| TokenFacts.UnexpectedCharacterRejected | lexical_analyzer.py:203-210 | a character that starts no number, word or operator and is no single-character token gives an unexpected-character error at its line and column |
| ScanFacts.TokenizeShape | lexical_analyzer.py:157-166 | a scan without an error ends with end-of-input and has it nowhere else; a scan with an error has no end-of-input token |
| ScanFacts.EofIsStable | lexical_analyzer.py:169-172 | once the scanner gives end-of-input it is at the end of the source, and calling it again gives the same token and state |
| ScanFacts.TokenizeAgainAtEnd | lexical_analyzer.py:157-166 | a scan started again after a completed scan collects only the end-of-input token |
| ScanFacts.TokenizeRegisters | lexical_analyzer.py:283-287 | a scan adds exactly the names of the identifiers it collected, each new one "unknown", and keeps every earlier entry |
| ScanFacts.AnalyzedTable | lexical_analyzer.py:141-155 | with a fresh analyser the final table holds exactly `read`, `write` and the collected identifier names, with the built-ins unchanged |
| ScanFacts.TokenizeLines | lexical_analyzer.py:157-166 | every collected token occurs in the source on the line it reports, with no line feed, and the line count stays accurate |
| ScanFacts.AnalyzedLines | lexical_analyzer.py:135-166 | scanning from the start of the source, every token is on the line it reports |
| CommentFacts.CommentEnd | lexical_analyzer.py:228-232 | gives the index after the first closer at or after an index, or None when no closer follows |
| CommentFacts.SkipBlockAtFirstCloser | lexical_analyzer.py:226-239 | a block comment ends at the first closer after its opener; without one the scan stops on the last character of the source, or where it started when fewer than two characters remain there |
| CommentFacts.TriviaAfterSpaces | lexical_analyzer.py:212-219 | skipping whitespace does not change whether only whitespace and comments follow |
| CommentFacts.TriviaGivesEof | lexical_analyzer.py:168-185 | one call gives end-of-input exactly when only whitespace and closed comments remain |
| CommentFacts.TriviaOnlyInput | lexical_analyzer.py:157-185 | a scan gives just the end-of-input token exactly when the input is only whitespace and closed comments |
| CommentFacts.SlashScanned | lexical_analyzer.py:195-208 | a token starting at `/` is the division sign |
| CommentFacts.SlashIsDivision | lexical_analyzer.py:176-208 | a `/` that opens no comment is scanned as the division sign |
| Analyzer.LexicalAnalyzer.constructor | lexical_analyzer.py:135-142 | a new analyser is at position 0, line 1, column 1, with no tokens and a new "global" table holding the built-ins |
| Analyzer.LexicalAnalyzer.InitializeBuiltInFunctions | lexical_analyzer.py:144-155 | inserts the `read` and `write` records into the table |
| Analyzer.LexicalAnalyzer.SkipWhitespace | lexical_analyzer.py:212-219 | the loop leaves the cursor where SkipSpaces puts it |
| Analyzer.LexicalAnalyzer.SkipLineComment | lexical_analyzer.py:221-224 | moves the position past `//` to the line feed or the end, with line and column unchanged |
| Analyzer.LexicalAnalyzer.SkipBlockComment | lexical_analyzer.py:226-239 | leaves the cursor where SkipBlock stops, and raises the unterminated-comment error exactly when there is no closer |
| Analyzer.LexicalAnalyzer.ScanNumber | lexical_analyzer.py:241-264 | the loop gives the result and cursor of LexNumber |
| Analyzer.LexicalAnalyzer.ScanIdentifier | lexical_analyzer.py:266-287 | the loop gives the token, cursor and table of LexIdentifier |
| Analyzer.LexicalAnalyzer.ScanToken | lexical_analyzer.py:187-210 | scanning one token gives the result and state of LexToken |
| Analyzer.LexicalAnalyzer.NextToken | lexical_analyzer.py:168-210 | one call, with its recursion after a comment, gives the result and state of Next |
| Analyzer.LexicalAnalyzer.Analyze | lexical_analyzer.py:157-166 | appends the tokens of Tokenize from the current state, ends in its final state, and returns the token list or the error |
| LexerExamples.NumbersFirst | test_lexical_analyzer.py:17-23 | in `123 45.67` the first token is the integer literal `123` at 1:1 |
| LexerExamples.NumbersSecond | test_lexical_analyzer.py:17-25 | in `123 45.67` the second token is the floating literal `45.67` at 1:5 |
| LexerExamples.InvalidCharacterLaterFirst | test_lexical_analyzer.py:55-59 | in `int x = @;` the first token is the keyword `int` |
| LexerExamples.InvalidCharacterLaterSecond | test_lexical_analyzer.py:55-59 | then `x` is an identifier at 1:5 and is registered |
| LexerExamples.InvalidCharacterLaterThird | test_lexical_analyzer.py:55-59 | then `=` is the assignment token at 1:7 |
| LexerExamples.InvalidCharacterLaterFourth | test_lexical_analyzer.py:55-59 | then `@` is an unexpected-character error at 1:9 |
| LexerExamples.InvalidCharacterExample | test_lexical_analyzer.py:111-115 | scanning `@` ends with an unexpected-character error at 1:1 and no tokens |
| LexerExamples.UnterminatedCommentExample | test_lexical_analyzer.py:61-65 | scanning `/* open` ends with an unterminated-comment error at 1:5 and no tokens |
| LexerExamples.TrailingDotExample | test_lexical_analyzer.py:67-71 | scanning `123.` ends with an invalid-float error at 1:1 |
| LexerExamples.LeadingDotExample | lexical_analyzer.py:294 | scanning `.14` ends with an unexpected-character error at the dot |
| LexerExamples.KeywordsFirst | test_lexical_analyzer.py:75-80 | in `if x1`, `if` is the keyword If |
| LexerExamples.KeywordsSecond | test_lexical_analyzer.py:75-84 | then `x1` is an identifier at 1:4 and is registered |
| LexerExamples.RepeatedFirst | lexical_analyzer.py:283-287 | in `x x` the first `x` is an identifier and is registered |
| LexerExamples.RepeatedSecond | lexical_analyzer.py:283-287 | the second `x` is an identifier at 1:3, and with `x` already in the table the table is left exactly as it was |
| LexerExamples.OperatorsFirst | test_lexical_analyzer.py:39-53 | in `a <= b` the first token is the identifier `a` |
| LexerExamples.OperatorsSecond | test_lexical_analyzer.py:39-53 | then `<=` is one Le token at 1:3 |
| LexerExamples.OperatorsThird | test_lexical_analyzer.py:39-53 | then `b` is an identifier at 1:6 |
| LexerExamples.LoneAmpersandExample | lexical_analyzer.py:196-210 | scanning `&b` ends with an unexpected-character error at the `&` |
| LexerExamples.CommentsFirst | test_lexical_analyzer.py:88-98 | in `a // c`, a line feed, then `/* d */ b`, the first token is `a` |
| LexerExamples.CommentsSkipLine | lexical_analyzer.py:180-182 | the line comment is skipped and the column stays 3 |
| LexerExamples.CommentsSkipBlock | lexical_analyzer.py:183-185 | the block comment on line 2 is skipped, and its opener and closer are not counted in the column |
| LexerExamples.CommentsLast | test_lexical_analyzer.py:88-103 | the last token is `b`, on line 2 at column 5 |
| LexerExamples.CommentLinesSkip | test_lexical_analyzer.py:88-103 | in `/* a`, a line feed, then `b */ c`, the comment across the line feed is skipped and the scan resumes on line 2 at column 3 |
| LexerExamples.CommentLinesLast | test_lexical_analyzer.py:88-103 | then `c` is an identifier at 2:4, though it is the sixth character of its line |

## Left out

- Printing is not modelled: `Token.__str__`, `SymbolTable.print_table`, the per-token prints and the table print in `analyze`, and `main`.
- Exception message text is not modelled. A `LexicalError` keeps its kind (unexpected character with the character, unterminated comment, invalid float), line and column. The first error ends the scan and is returned as a `Result`, not raised.
- Characters are ASCII. `isdigit`, `isalpha`, `isalnum` and `isspace` are their ASCII restrictions, so Unicode digits, letters and spaces are not modelled.
- `SymbolTable.name` is kept but nothing reads it. The parent chain is modelled for `lookup`, but the analyser never sets a parent. Its table is the single global scope.
- `SymbolInfo` fields other than name and type are stored with their defaults. The built-ins' return and parameter types are stored too. Nothing in the lexer reads them.
- The search through the token enumeration for a single-character kind is a lookup table. `Tokens.SingleCharSound`, `Tokens.SingleCharComplete` and the contract of `Tokens.SingleChar` state that both give the same answer.
- Lexing.SkipSpaces: its own contract states only bounds, progress and where it stops. What it moves over is stated by LexingFacts.SkipSpacesOnlySpaces, its columns by LexingFacts.SkipSpacesColumns, its lines by LexingFacts.SkipSpacesKeepsLines, and CommentFacts.TriviaAfterSpaces says it does not change what is left to scan.
- Lexing.LineEnd: its own contract states only bounds and progress. What it computes is stated by LexingFacts.LineEndStops.
- Lexing.SkipBlock: its own contract states only bounds and progress. Where it stops is stated by CommentFacts.SkipBlockAtFirstCloser, its columns by LexingFacts.SkipBlockColumns and its lines by LexingFacts.SkipBlockKeepsLines.
- Lexing.LexNumber: its own contract states only bounds and progress. What it computes is stated by TokenFacts.NumberMaximalMunch and TokenFacts.NumberClassified.
- Lexing.LexIdentifier: its own contract states only bounds and progress. What it computes is stated by TokenFacts.IdentifierMaximalMunch, TokenFacts.KeywordLeavesTable and TokenFacts.IdentifierRegistered.
- Lexing.LexOperator: its own contract states only bounds and progress. What it computes is stated by TokenFacts.OperatorBeatsSingleChar.
- Lexing.LexSingle: its own contract states only how far it moves the cursor. What it computes is stated by TokenFacts.SingleCharScanned for a table character, TokenFacts.LoneAmpersandOrBarRejected for an undoubled `&` or `|`, and TokenFacts.UnexpectedCharacterRejected for any other character.
- Lexing.LexToken: its own contract states only bounds and progress. Which rule fires and the kind it gives are stated by TokenFacts.NumberClassified, TokenFacts.KeywordLeavesTable, TokenFacts.IdentifierRegistered, TokenFacts.OperatorBeatsSingleChar, TokenFacts.SingleCharScanned, TokenFacts.LoneAmpersandOrBarRejected, TokenFacts.LeadingDotRejected and TokenFacts.UnexpectedCharacterRejected; the token's text and position by LexingFacts.LexTokenFits; the table by LexingFacts.LexTokenRegisters.
- Lexing.Next: its own contract states only bounds and progress. Comment skipping, the end-of-input token and the hand-over to one token scan are stated by the case lemmas LexingFacts.NextAtEnd, LexingFacts.LineCommentRestarts, LexingFacts.BlockCommentRestarts, LexingFacts.BlockCommentUnterminated and LexingFacts.NextScansToken, and that end-of-input comes exactly when only whitespace and comments remain by CommentFacts.TriviaGivesEof; the token's text, line and the table by LexingFacts.NextFits, LexingFacts.NextTokenLine and LexingFacts.NextRegisters.
- Lexing.NextAt: its own contract states only bounds and progress. What it computes is stated by the LexingFacts case lemmas, from NextAtEnd to NextScansToken.
- Analyzer.LexicalAnalyzer.NextToken: the source calls itself once per comment, so Python's recursion limit makes it fail with a `RecursionError` after about a thousand comments in a row. The model has no recursion-depth limit: `Lexing.NextAt` and this method start over after any number of comments.
- CommentFacts.TriviaOnlyInput: for the same reason it gives the end-of-input token for every input made only of whitespace and closed comments, also for one with so many comments in a row that the source would hit the recursion limit.
- Lexing.NumberEnd: its own contract states only bounds. What it takes, and where and why it stops, is stated by Lexing.NumberEndRun.
- Lexing.IdentEnd: its own contract states only bounds. What it takes, and where it stops, is stated by Lexing.IdentEndRun.
- Lexing.Collect: its own contract states only bounds. What the rest of a scan collects is stated by LexingFacts.TokenizeStep and the ScanFacts lemmas.
- Lexing.Tokenize: its own contract states only bounds and progress. What it computes is stated by the ScanFacts lemmas and CommentFacts.TriviaOnlyInput.
- The unit tests that scan several tokens are stated one scanner call at a time, on shortened inputs (`if x1` for `if else while x123 _testVar`, `a <= b` for the operator test, `a // c`, a line feed, `/* d */ b` for the first comments test, `/* a`, a line feed, `b */ c` for the comment across two lines in the second, `/* open` for `/* This comment never ends`). `test_basic_program` is not stated separately. Whole-scan statements on concrete inputs are kept to inputs where the first call ends the scan.
- The first `test_invalid_character` and `test_comments` are replaced in their class by later methods of the same name. Both versions are stated. The invalid-float test is commented out in the source, and `LexerExamples.TrailingDotExample` states what the code does with its input.
