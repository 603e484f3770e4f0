/**
 * The token model: the closed enumeration of token kinds, the text each kind
 * stands for, the immutable token record, and the three static tables the
 * scanner consults (keywords, two-character operators, single characters).
 */
module Tokens {
  import opened Wrappers

  datatype TokenKind =
    // single characters
    | LParen | RParen | LBrace | RBrace | Comma | Semicolon
    | Plus | Minus | Star | Slash | Percent
    | Less | Greater | Equal | Bang | LBracket | RBracket
    // two characters
    | Le | Ge | Eq | Ne | Or | And
    // keywords
    | If | Else | While | For | Return | Break | New | Size
    // type names
    | Void | Bool | Int | Float
    // literals and identifiers
    | BoolLit | IntLit | FloatLit | Identifier
    // end of input
    | Eof

  /**
   * The text attached to each kind in the enumeration: exactly the
   * single-character kinds have one-character text, and every operator kind
   * has two characters.
   */
  function Value(k: TokenKind): (r: string)
    ensures IsSingle(k) <==> |r| == 1
    ensures IsOperator(k) ==> |r| == 2
  {
    match k
    case LParen => "("
    case RParen => ")"
    case LBrace => "{"
    case RBrace => "}"
    case Comma => ","
    case Semicolon => ";"
    case Plus => "+"
    case Minus => "-"
    case Star => "*"
    case Slash => "/"
    case Percent => "%"
    case Less => "<"
    case Greater => ">"
    case Equal => "="
    case Bang => "!"
    case LBracket => "["
    case RBracket => "]"
    case Le => "<="
    case Ge => ">="
    case Eq => "=="
    case Ne => "!="
    case Or => "||"
    case And => "&&"
    case If => "if"
    case Else => "else"
    case While => "while"
    case For => "for"
    case Return => "return"
    case Break => "break"
    case New => "new"
    case Size => "size"
    case Void => "void"
    case Bool => "bool"
    case Int => "int"
    case Float => "float"
    case BoolLit => "BOOL_LIT"
    case IntLit => "INT_LIT"
    case FloatLit => "FLOAT_LIT"
    case Identifier => "IDENTIFIER"
    case Eof => "EOF"
  }

  /** A token: its kind, the text it was scanned from, and the 1-based line and column of its first character. */
  datatype Token = Token(kind: TokenKind, lexeme: string, line: nat, column: nat)

  /** The kinds that the keyword table maps a spelled-out word to. */
  predicate IsReserved(k: TokenKind)
  {
    k.If? || k.Else? || k.While? || k.For? || k.Return? || k.Break? || k.New? || k.Size?
    || k.Void? || k.Bool? || k.Int? || k.Float?
  }

  /** The kinds whose text is a single character. */
  predicate IsSingle(k: TokenKind)
  {
    k.LParen? || k.RParen? || k.LBrace? || k.RBrace? || k.Comma? || k.Semicolon? || k.Plus? || k.Minus?
    || k.Star? || k.Slash? || k.Percent? || k.Less? || k.Greater? || k.Equal? || k.Bang? || k.LBracket? || k.RBracket?
  }

  /** The kinds of the two-character operator table. */
  predicate IsOperator(k: TokenKind)
  {
    k.Le? || k.Ge? || k.Eq? || k.Ne? || k.Or? || k.And?
  }

  /** The keyword table: a reserved word maps to its own kind, `true` and `false` to BoolLit. */
  const Keywords: map<string, TokenKind> :=
    map["if" := If, "else" := Else, "while" := While, "for" := For, "return" := Return,
        "break" := Break, "new" := New, "size" := Size, "void" := Void, "bool" := Bool,
        "int" := Int, "float" := Float, "true" := BoolLit, "false" := BoolLit]

  /** The kind the keyword table gives `s`, if any: a reserved kind or BoolLit, never Identifier. */
  function Keyword(s: string): (r: Option<TokenKind>)
    ensures r.Some? ==> IsReserved(r.value) || r.value == BoolLit
  {
    if s in Keywords then Some(Keywords[s]) else None
  }

  /** The two-character operator table. */
  const Operators: map<string, TokenKind> :=
    map["<=" := Le, ">=" := Ge, "==" := Eq, "!=" := Ne, "||" := Or, "&&" := And]

  /** The kind the operator table gives `s`, if any: always one of the six operator kinds. */
  function Operator(s: string): (r: Option<TokenKind>)
    ensures r.Some? ==> IsOperator(r.value)
  {
    if s in Operators then Some(Operators[s]) else None
  }

  /** The kinds whose text is one character, by that character. */
  const SingleChars: map<char, TokenKind> := map[
    '(' := LParen, ')' := RParen, '{' := LBrace, '}' := RBrace, ',' := Comma, ';' := Semicolon,
    '+' := Plus, '-' := Minus, '*' := Star, '/' := Slash, '%' := Percent, '<' := Less,
    '>' := Greater, '=' := Equal, '!' := Bang, '[' := LBracket, ']' := RBracket]

  /**
   * The single-character table, built once in place of a search through the
   * enumeration: it yields only single-character kinds, and only for
   * punctuation (never a letter, digit, underscore or whitespace).
   */
  function SingleChar(c: char): (r: Option<TokenKind>)
    ensures r.Some? ==> IsSingle(r.value)
    ensures r.Some? ==> ('!' <= c <= '/') || (';' <= c <= '>') || ('[' <= c <= ']') || ('{' <= c <= '}')
  {
    if c in SingleChars then Some(SingleChars[c]) else None
  }

  /**
   * The keyword table holds exactly fourteen words; with KeywordComplete and
   * BoolLiterals this pins down every entry.
   */
  lemma KeywordWords(s: string)
    ensures Keyword(s).Some? ==>
      s in {"if", "else", "while", "for", "return", "break", "new", "size", "void", "bool", "int", "float", "true", "false"}
  {
  }

  /** Every keyword is two to six characters long and begins with one of ten letters. */
  lemma KeywordShape(s: string)
    ensures Keyword(s).Some? ==> 2 <= |s| <= 6 && s[0] in "befinrstvw"
  {
    KeywordWords(s);
  }

  /**
   * Every operator is two characters long: a comparison character followed
   * by `=`, or `&` or `|` doubled.
   */
  lemma OperatorShape(s: string)
    ensures Operator(s).Some? ==> |s| == 2 && ((s[0] in "<>=!" && s[1] == '=') || (s[0] in "&|" && s[1] == s[0]))
  {
  }

  /** The keyword table gives BoolLit only to `true` and `false`. */
  lemma BoolLitSound(s: string)
    ensures Keyword(s) == Some(BoolLit) ==> s == "true" || s == "false"
  {
  }

  /** Both boolean literals are in the keyword table. */
  lemma BoolLiterals()
    ensures Keyword("true") == Some(BoolLit) && Keyword("false") == Some(BoolLit)
  {
  }

  /** The operator table gives a two-character text the operator kind spelled that way. */
  lemma OperatorSound(s: string)
    ensures Operator(s).Some? ==> IsOperator(Operator(s).value) && Value(Operator(s).value) == s && |s| == 2
  {
  }

  /** The single-character table gives a character the kind spelled as that character. */
  lemma SingleCharSound(c: char)
    ensures SingleChar(c).Some? ==> Value(SingleChar(c).value) == [c]
  {
  }

  /**
   * The table finds every kind whose text is the one character: so it gives
   * the same answer as a search of the enumeration for a kind with that text.
   */
  lemma SingleCharComplete(c: char, k: TokenKind)
    requires Value(k) == [c]
    ensures SingleChar(c) == Some(k)
  {
  }

  /** Every reserved word's text is found in the keyword table. */
  lemma KeywordComplete(k: TokenKind)
    requires IsReserved(k)
    ensures Keyword(Value(k)) == Some(k)
  {
    match k
    case If => assert Keyword("if") == Some(If);
    case Else => assert Keyword("else") == Some(Else);
    case While => assert Keyword("while") == Some(While);
    case For => assert Keyword("for") == Some(For);
    case Return => assert Keyword("return") == Some(Return);
    case Break => assert Keyword("break") == Some(Break);
    case New => assert Keyword("new") == Some(New);
    case Size => assert Keyword("size") == Some(Size);
    case Void => assert Keyword("void") == Some(Void);
    case Bool => assert Keyword("bool") == Some(Bool);
    case Int => assert Keyword("int") == Some(Int);
    case Float => assert Keyword("float") == Some(Float);
    case _ =>
  }

  /** Every operator kind's text is found in the operator table. */
  lemma OperatorComplete(k: TokenKind)
    requires IsOperator(k)
    ensures Operator(Value(k)) == Some(k)
  {
  }
}
