/**
 * The character classes the scanner tests. The scanner calls Python's
 * str.isdigit, str.isalpha, str.isalnum and str.isspace; these are their
 * restrictions to ASCII.
 */
module Chars {
  predicate IsDigit(c: char) { '0' <= c <= '9' }

  predicate IsAlpha(c: char) { 'a' <= c <= 'z' || 'A' <= c <= 'Z' }

  predicate IsAlnum(c: char) { IsAlpha(c) || IsDigit(c) }

  /** Space, tab, line feed, vertical tab, form feed, carriage return and the four ASCII separators. */
  predicate IsSpace(c: char) { c == ' ' || '\t' <= c <= '\r' || '\U{1C}' <= c <= '\U{1F}' }

  /** A character that can start an identifier or keyword. */
  predicate IsIdentStart(c: char) { IsAlpha(c) || c == '_' }

  /** A character that can continue an identifier or keyword. */
  predicate IsIdentPart(c: char) { IsAlnum(c) || c == '_' }

  /** The number of line feeds in `s`. */
  function Newlines(s: string): nat
  {
    if s == [] then 0 else Newlines(s[..|s| - 1]) + (if s[|s| - 1] == '\n' then 1 else 0)
  }

  /** Counting the line feeds of a prefix one character at a time. */
  lemma NewlinesSnoc(s: string, i: nat)
    requires i < |s|
    ensures Newlines(s[..i + 1]) == Newlines(s[..i]) + (if s[i] == '\n' then 1 else 0)
  {
    assert s[..i + 1][..i] == s[..i];
  }
}
