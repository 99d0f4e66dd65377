/**
 * The e-mail shape every signup validator checks:
 *   ^[a-zA-Z0-9._%+-]+@[a-zA-Z0-9.-]+\.[a-zA-Z]{2,}$
 * stated as character classes and an existential choice of the '@' and of the
 * '.' before the top-level label, rather than as a regular-expression engine.
 */
module Email {

  predicate IsAsciiLetter(c: char) { 'a' <= c <= 'z' || 'A' <= c <= 'Z' }

  predicate IsAsciiDigit(c: char) { '0' <= c <= '9' }

  /** `[a-zA-Z0-9._%+-]` */
  predicate IsLocalChar(c: char) {
    IsAsciiLetter(c) || IsAsciiDigit(c) || c == '.' || c == '_' || c == '%' || c == '+' || c == '-'
  }

  /** `[a-zA-Z0-9.-]` */
  predicate IsDomainChar(c: char) {
    IsAsciiLetter(c) || IsAsciiDigit(c) || c == '.' || c == '-'
  }

  predicate AllLocal(s: string) { forall i :: 0 <= i < |s| ==> IsLocalChar(s[i]) }

  predicate AllDomain(s: string) { forall i :: 0 <= i < |s| ==> IsDomainChar(s[i]) }

  predicate AllLetters(s: string) { forall i :: 0 <= i < |s| ==> IsAsciiLetter(s[i]) }

  /**
   * `s` is local-part '@' domain '.' tld, with a non-empty local part and
   * domain, and a top-level label of two or more ASCII letters.
   */
  predicate SplitsAt(s: string, at: int, dot: int) {
    0 < at && at + 1 < dot && dot + 2 < |s| && s[at] == '@' && s[dot] == '.'
    && AllLocal(s[..at]) && AllDomain(s[at + 1..dot]) && AllLetters(s[dot + 1..])
  }

  /** The language of the pattern, anchored at both ends. */
  predicate IsEmailShape(s: string) {
    exists at, dot | 0 <= at < |s| && 0 <= dot < |s| :: SplitsAt(s, at, dot)
  }

  /**
   * `re.match(pattern, s)` is truthy. Python's `$` also matches just before a
   * final '\n', so one trailing newline is accepted as well.
   */
  predicate PatternMatches(s: string) {
    IsEmailShape(s) || (s != [] && s[|s| - 1] == '\n' && IsEmailShape(s[..|s| - 1]))
  }

  /** Every accepted address ends in an ASCII letter, so white space never ends one. */
  lemma ShapeEndsInLetter(s: string)
    requires IsEmailShape(s)
    ensures s != [] && IsAsciiLetter(s[|s| - 1])
  {
    var at, dot :| 0 <= at < |s| && 0 <= dot < |s| && SplitsAt(s, at, dot);
    assert s[dot + 1..][|s| - dot - 2] == s[|s| - 1];
  }

  /** On input without a final newline (every stripped field) the match is the strict shape. */
  lemma MatchWithoutNewline(s: string)
    requires s == [] || s[|s| - 1] != '\n'
    ensures PatternMatches(s) <==> IsEmailShape(s)
  {
  }

  /** The trailing-newline case is real: "a@b.co\n" matches although it is not an address. */
  lemma NewlineAccepted()
    ensures PatternMatches("a@b.co\n") && !IsEmailShape("a@b.co\n")
  {
    var s := "a@b.co\n";
    var t := s[..|s| - 1];
    assert t == "a@b.co";
    assert t[1] == '@' && t[3] == '.';
    assert AllLocal(t[..1]) by { assert t[..1] == "a"; }
    assert AllDomain(t[2..3]) by { assert t[2..3] == "b"; }
    assert AllLetters(t[4..]) by { assert t[4..] == "co"; }
    assert SplitsAt(t, 1, 3);
    if IsEmailShape(s) {
      ShapeEndsInLetter(s);
    }
  }
}
