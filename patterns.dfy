/**
 * The two regular expressions the validators test, written as predicates.
 * `RegExp.prototype.test` searches: a pattern without `^` may match
 * anywhere in the string, and a pattern without `$` may stop early.
 */
module Patterns {
  import opened Text

  /**
   * One match of `\S+@\S+\.\S+` in `s`, spanning `s[a..e]`: a non-space run
   * `s[a..at]`, the `@` at `at`, a non-space run `s[at+1..dot]`, the `.` at
   * `dot`, and a non-space run `s[dot+1..e]`.
   */
  ghost predicate EmailMatchAt(s: string, a: int, at: int, dot: int, e: int) {
    && 0 <= a < at && at + 1 < dot && dot + 1 < e <= |s|
    && NoSpace(s[a..at]) && s[at] == '@'
    && NoSpace(s[at + 1..dot]) && s[dot] == '.'
    && NoSpace(s[dot + 1..e])
  }

  /** `/\S+@\S+\.\S+/.test(s)`: some part of `s` matches (the pattern is not anchored). */
  ghost predicate MatchesEmailPattern(s: string) {
    exists a, at, dot, e :: EmailMatchAt(s, a, at, dot, e)
  }

  /**
   * The smallest match, anchored at its `@` and its `.`: a non-space before
   * the `@`, only non-spaces (at least one) between them, a non-space after
   * the `.`.
   */
  predicate EmailAnchor(s: string, at: int, dot: int) {
    && 1 <= at && at + 1 < dot && dot + 1 < |s|
    && s[at] == '@' && s[dot] == '.'
    && !IsSpace(s[at - 1]) && !IsSpace(s[dot + 1])
    && NoSpace(s[at + 1..dot])
  }

  /** The test the pages run, shortened to the smallest match. */
  predicate EmailShape(s: string) {
    exists at, dot | 0 <= at < |s| && 0 <= dot < |s| :: EmailAnchor(s, at, dot)
  }

  lemma AnchorIsMatch(s: string, at: int, dot: int)
    requires EmailAnchor(s, at, dot)
    ensures EmailMatchAt(s, at - 1, at, dot, dot + 2)
  {
    assert s[at - 1..at] == [s[at - 1]];
    assert s[dot + 1..dot + 2] == [s[dot + 1]];
  }

  lemma MatchHasAnchor(s: string, a: int, at: int, dot: int, e: int)
    requires EmailMatchAt(s, a, at, dot, e)
    ensures EmailAnchor(s, at, dot)
  {
    assert s[at - 1] == s[a..at][at - 1 - a];
    assert s[dot + 1] == s[dot + 1..e][0];
  }

  /** The executable test agrees with the regular expression on every string. */
  lemma EmailShapeIsPattern(s: string)
    ensures EmailShape(s) <==> MatchesEmailPattern(s)
  {
    if EmailShape(s) {
      var at, dot :| 0 <= at < |s| && 0 <= dot < |s| && EmailAnchor(s, at, dot);
      AnchorIsMatch(s, at, dot);
    }
    if MatchesEmailPattern(s) {
      var a, at, dot, e :| EmailMatchAt(s, a, at, dot, e);
      MatchHasAnchor(s, a, at, dot, e);
    }
  }

  /** An all-white-space string never has the email shape. */
  lemma BlankIsNoEmail(s: string)
    requires AllSpace(s)
    ensures !EmailShape(s)
  {
  }

  /** Without a `.` there is no match. */
  lemma NoDotNoEmail(s: string)
    requires '.' !in s
    ensures !MatchesEmailPattern(s)
  {
    EmailShapeIsPattern(s);
  }

  /** Text around a match does not matter: the pattern is not anchored at either end. */
  lemma EmailShapeIgnoresContext(pre: string, s: string, post: string)
    requires EmailShape(s)
    ensures EmailShape(pre + s + post)
  {
    var at, dot :| 0 <= at < |s| && 0 <= dot < |s| && EmailAnchor(s, at, dot);
    var t := pre + s + post;
    var n := |pre|;
    assert t[n + at + 1..n + dot] == s[at + 1..dot];
    assert t[n + at] == '@' && t[n + dot] == '.';
    assert t[n + at - 1] == s[at - 1] && t[n + dot + 1] == s[dot + 1];
    assert EmailAnchor(t, n + at, n + dot);
  }

  /** The characters JavaScript's `.` does not match. */
  predicate IsLineTerminator(c: char) {
    c == '\n' || c == '\r' || c == '\U{2028}' || c == '\U{2029}'
  }

  /**
   * `/^https?:\/\/.+/.test(s)`: `s` starts with `http://` or `https://`
   * and the next character exists and is not a line terminator.
   */
  predicate PortfolioShape(s: string) {
    || (|s| > 7 && s[..7] == "http://" && !IsLineTerminator(s[7]))
    || (|s| > 8 && s[..8] == "https://" && !IsLineTerminator(s[8]))
  }

  /** Anchored only at the start: anything may follow a match. */
  lemma PortfolioShapeExtends(s: string, t: string)
    requires PortfolioShape(s)
    ensures PortfolioShape(s + t)
  {
    var u := s + t;
    if |s| > 7 && s[..7] == "http://" && !IsLineTerminator(s[7]) {
      assert u[..7] == s[..7] && u[7] == s[7];
    } else {
      assert u[..8] == s[..8] && u[8] == s[8];
    }
  }

  /** Anchored at the start: a string with anything in front of the scheme never matches. */
  lemma PortfolioShapeNeedsScheme(s: string)
    requires PortfolioShape(s)
    ensures s[..4] == "http"
  {
    assert s[..4] == s[..7][..4];
  }
}
