/**
 * Properties of a whole scan (Tokenize), proved by induction over the calls
 * of the scanner it is made of: where the end-of-input token can appear,
 * what the symbol table holds at the end, and the lines tokens are reported
 * on.
 */
module ScanFacts {
  import opened Wrappers
  import opened Chars
  import opened Tokens
  import opened Symbols
  import opened Lexing
  import opened LexingFacts

  // ---------------------------------------------------------------------
  // The end-of-input token
  // ---------------------------------------------------------------------

  /**
   * The end-of-input token closes a run that ends without an error and
   * appears nowhere else; a run that ends with an error holds none.
   */
  ghost predicate EofLast(r: Run)
  {
    && (r.error.None? ==> |r.produced| > 0 && r.produced[|r.produced| - 1].kind == Eof)
    && (forall i | 0 <= i < |r.produced| && r.produced[i].kind == Eof :: r.error.None? && i == |r.produced| - 1)
  }

  /** Another token in front of a run keeps the end-of-input token last. */
  lemma EofLastCons(t: Token, r: Run)
    requires t.kind != Eof && EofLast(r)
    ensures EofLast(Prefixed([t], r))
  {
    var p := Prefixed([t], r).produced;
    assert forall i | 1 <= i < |p| :: p[i] == r.produced[i - 1];
  }

  /**
   * A scan that ends without an error ends with the end-of-input token, and
   * that token appears nowhere else; a scan that ends with an error holds no
   * end-of-input token at all.
   */
  lemma {:induction false} TokenizeShape(src: string, s: State)
    requires Inv(src, s.cur)
    ensures EofLast(Tokenize(src, s))
    decreases |src| - s.cur.pos
  {
    var st := Next(src, s);
    TokenizeStep(src, s, st.result, st.next);
    if st.result.Ok? && st.result.value.kind != Eof {
      TokenizeShape(src, st.next);
      EofLastCons(st.result.value, Tokenize(src, st.next));
    }
  }

  /**
   * Once the scanner has given the end-of-input token it is at the end of
   * the source, and calling it again gives the same token and leaves the
   * state as it is.
   */
  lemma EofIsStable(src: string, s: State)
    requires Inv(src, s.cur)
    ensures var r := Next(src, s);
      r.result.Ok? && r.result.value.kind == Eof ==>
        && r.next.cur.pos == |src|
        && Next(src, r.next) == r
  {
    var r := Next(src, s);
    NextFits(src, s);
    if r.result.Ok? && r.result.value.kind == Eof {
      assert r.result.value == Token(Eof, "", r.next.cur.line, r.next.cur.col);
      NextRegisters(src, s);
    }
  }

  /** A scan that has collected the end-of-input token, started again, collects just that token. */
  lemma {:induction false} TokenizeAgainAtEnd(src: string, s: State)
    requires Inv(src, s.cur)
    ensures var r := Tokenize(src, s);
      r.error.None? && |r.produced| > 0 ==> Tokenize(src, r.next) == Run([r.produced[|r.produced| - 1]], None, r.next)
    decreases |src| - s.cur.pos
  {
    var st := Next(src, s);
    TokenizeStep(src, s, st.result, st.next);
    TokenizeShape(src, s);
    if st.result.Ok? {
      if st.result.value.kind == Eof {
        EofIsStable(src, s);
        TokenizeStep(src, st.next, st.result, st.next);
      } else {
        TokenizeAgainAtEnd(src, st.next);
        TokenizeShape(src, st.next);
      }
    }
  }

  // ---------------------------------------------------------------------
  // The symbol table
  // ---------------------------------------------------------------------

  /** The names of identifiers in `[t] + ts` are those of `t`, if any, and those of `ts`. */
  lemma IdentifierNamesCons(t: Token, ts: seq<Token>)
    ensures IdentifierNames([t] + ts) == (if t.kind == Identifier then {t.lexeme} else {}) + IdentifierNames(ts)
  {
    assert ([t] + ts)[1..] == ts;
  }

  /**
   * Table `c` is table `a` with the names of the identifiers among `ts`
   * added, each new one unknown, and every entry of `a` kept as it was.
   */
  ghost predicate AddsNames(a: map<string, SymbolInfo>, c: map<string, SymbolInfo>, ts: seq<Token>)
  {
    && c.Keys == a.Keys + IdentifierNames(ts)
    && (forall n | n in a :: c[n] == a[n])
    && (forall n | n in c && n !in a :: c[n] == Unknown(n))
  }

  /**
   * The table after one token and then the rest of a scan: the table rule
   * for the whole scan follows from the rule for the token and the rule
   * for the rest.
   */
  lemma AddsNamesCons(a: map<string, SymbolInfo>, c: map<string, SymbolInfo>, t: Token, rest: seq<Token>)
    requires AddsNames(Registered(a, Ok(t)), c, rest)
    ensures AddsNames(a, c, [t] + rest)
  {
    IdentifierNamesCons(t, rest);
  }

  /**
   * A scan adds exactly the names of the identifiers it collected to the
   * table, each new one with type "unknown", and leaves every entry that was
   * already there as it was.
   */
  lemma {:induction false} TokenizeRegisters(src: string, s: State)
    requires Inv(src, s.cur)
    ensures var r := Tokenize(src, s);
      AddsNames(s.syms, r.next.syms, r.produced)
    decreases |src| - s.cur.pos
  {
    var st := Next(src, s);
    var rest := Tokenize(src, st.next);
    TokenizeIsStepRun(src, s);
    NextRegisters(src, s);
    if st.result.Ok? {
      var t := st.result.value;
      if t.kind == Eof {
        assert AddsNames(st.next.syms, st.next.syms, []);
        AddsNamesCons(s.syms, st.next.syms, t, []);
        assert [t] + [] == [t];
      } else {
        TokenizeRegisters(src, st.next);
        AddsNamesCons(s.syms, rest.next.syms, t, rest.produced);
      }
    }
  }

  /**
   * Scanning a whole source with a fresh scanner: the table ends up holding
   * the built-ins `read` and `write`, unchanged, and the names of the
   * identifiers collected, and nothing else.
   */
  lemma AnalyzedTable(src: string)
    ensures var r := Tokenize(src, State(Start(), BuiltIns()));
      && r.next.syms.Keys == {"read", "write"} + IdentifierNames(r.produced)
      && r.next.syms["read"] == ReadInfo() && r.next.syms["write"] == WriteInfo()
  {
    TokenizeRegisters(src, State(Start(), BuiltIns()));
  }

  // ---------------------------------------------------------------------
  // Lines
  // ---------------------------------------------------------------------

  /**
   * Token `t` is found in the source: its text stands at some index, holds
   * no line feed, and its line is one more than the line feeds before that
   * index.
   */
  ghost predicate Placed(src: string, t: Token)
  {
    && '\n' !in t.lexeme
    && exists p: nat | p + |t.lexeme| <= |src| :: src[p..p + |t.lexeme|] == t.lexeme && t.line == 1 + Newlines(src[..p])
  }

  /**
   * Every token of a scan from an accurately counted cursor is placed in the
   * source on the line it reports, and the line count is still accurate
   * where the scan stops.
   */
  lemma {:induction false} TokenizeLines(src: string, s: State)
    requires Inv(src, s.cur) && LineAccurate(src, s.cur)
    ensures var r := Tokenize(src, s);
      && LineAccurate(src, r.next.cur)
      && (forall t | t in r.produced :: Placed(src, t))
    decreases |src| - s.cur.pos
  {
    var st := Next(src, s);
    TokenizeStep(src, s, st.result, st.next);
    NextKeepsLines(src, s);
    if st.result.Ok? {
      var t := st.result.value;
      NextTokenLine(src, s);
      var p := st.next.cur.pos - |t.lexeme|;
      assert src[p..p + |t.lexeme|] == t.lexeme;
      assert Placed(src, t);
      if t.kind != Eof {
        TokenizeLines(src, st.next);
      }
    }
  }

  /** A whole scan from the start of the source: every token is on the line it reports. */
  lemma AnalyzedLines(src: string, syms: map<string, SymbolInfo>)
    ensures var r := Tokenize(src, State(Start(), syms));
      forall t | t in r.produced :: Placed(src, t)
  {
    assert src[..0] == [];
    TokenizeLines(src, State(Start(), syms));
  }
}
