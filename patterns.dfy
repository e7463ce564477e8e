/** The three regular expressions the sign-up and login forms test, each written out as a
    predicate on the characters of the string.

    Each pattern has two forms. The first follows the regular expression's own structure:
    runs of characters for `+`, lookaheads for `(?=...)`. The second is the small witness
    the form checks. Lemmas prove the two forms agree. */
module Patterns {
  import opened Common

  /** `s[lo..hi]` is a non-empty run of non-white-space characters (what `\S+` matches). */
  predicate NonSpaceRun(s: string, lo: int, hi: int) {
    0 <= lo < hi <= |s| && forall k :: lo <= k < hi ==> !IsSpace(s[k])
  }

  // ---------------------------------------------------------------------------
  // Email: /\S+@\S+\.\S+/ (not anchored, so it may match anywhere in the string)
  // ---------------------------------------------------------------------------

  /** One match of the email expression: `\S+` over `[a, i)`, `@` at `i`, `\S+` over
      `(i, j)`, `.` at `j`, `\S+` over `(j, b)`. */
  predicate EmailMatchAt(s: string, a: int, i: int, j: int, b: int) {
    && NonSpaceRun(s, a, i) && i < |s| && s[i] == '@'
    && NonSpaceRun(s, i + 1, j) && j < |s| && s[j] == '.'
    && NonSpaceRun(s, j + 1, b)
  }

  /** The regular expression matches somewhere in `s`. */
  ghost predicate EmailRegexMatches(s: string) {
    exists a, i, j, b :: EmailMatchAt(s, a, i, j, b)
  }

  /** The smallest match around an `@` at `i` and a `.` at `j`: one non-space character
      before the `@`, non-space characters strictly between, one non-space character after
      the `.`. */
  predicate EmailWitness(s: string, i: int, j: int) {
    && 1 <= i && i + 1 < j && j + 1 < |s|
    && !IsSpace(s[i - 1]) && s[i] == '@'
    && (forall k :: i < k < j ==> !IsSpace(s[k]))
    && s[j] == '.' && !IsSpace(s[j + 1])
  }

  /** The test the forms run on an email address. */
  predicate EmailLooksValid(s: string) {
    exists i, j | 0 <= i < j < |s| :: EmailWitness(s, i, j)
  }

  /** The witness test accepts exactly the strings the regular expression matches. */
  lemma EmailPatternIff(s: string)
    ensures EmailLooksValid(s) <==> EmailRegexMatches(s)
  {
    if EmailLooksValid(s) {
      var i, j :| 0 <= i < j < |s| && EmailWitness(s, i, j);
      assert EmailMatchAt(s, i - 1, i, j, j + 2);
    }
    if EmailRegexMatches(s) {
      var a, i, j, b :| EmailMatchAt(s, a, i, j, b);
      assert EmailWitness(s, i, j);
    }
  }

  /** The expression needs at least five characters, and it has no anchors, so
      `"see a@b.co now"` passes too. */
  lemma EmailExamples()
    ensures EmailLooksValid("a@b.co")
    ensures EmailLooksValid("see a@b.co now")
    ensures !EmailLooksValid("a@b.")
    ensures !EmailLooksValid("a @b.c")
  {
    assert EmailWitness("a@b.co", 1, 3);
    assert EmailWitness("see a@b.co now", 5, 7);
    var t := "a@b.";
    forall i, j | 0 <= i < j < |t| ensures !EmailWitness(t, i, j) {
    }
    var u := "a @b.c";
    forall i, j | 0 <= i < j < |u| ensures !EmailWitness(u, i, j) {
      if i == 2 {
        assert IsSpace(u[i - 1]);
      }
    }
  }

  // ---------------------------------------------------------------------------
  // Username: /^[a-zA-Z0-9_]+$/
  // ---------------------------------------------------------------------------

  predicate IsWordChar(c: char) {
    IsLowerLetter(c) || IsUpperLetter(c) || IsDigit(c) || c == '_'
  }

  /** The anchored expression matches: non-empty, and letters, digits and `_` only. */
  predicate UsernameMatches(s: string) {
    |s| > 0 && forall k :: 0 <= k < |s| ==> IsWordChar(s[k])
  }

  // ---------------------------------------------------------------------------
  // Password: /(?=.*[a-z])(?=.*[A-Z])(?=.*\d)/
  // ---------------------------------------------------------------------------

  /** `.*` from `p` reaches `q`: nothing in `[p, q)` is a line terminator. */
  predicate SameLine(s: string, p: int, q: int) {
    0 <= p <= q <= |s| && forall k :: p <= k < q ==> !IsLineTerminator(s[k])
  }

  predicate LowerAheadAt(s: string, p: int, q: int) {
    SameLine(s, p, q) && q < |s| && IsLowerLetter(s[q])
  }

  predicate UpperAheadAt(s: string, p: int, q: int) {
    SameLine(s, p, q) && q < |s| && IsUpperLetter(s[q])
  }

  predicate DigitAheadAt(s: string, p: int, q: int) {
    SameLine(s, p, q) && q < |s| && IsDigit(s[q])
  }

  /** All three lookaheads succeed at the same start `p`. */
  predicate LookaheadsAt(s: string, p: int) {
    && (exists q | p <= q < |s| :: LowerAheadAt(s, p, q))
    && (exists q | p <= q < |s| :: UpperAheadAt(s, p, q))
    && (exists q | p <= q < |s| :: DigitAheadAt(s, p, q))
  }

  /** The expression matches: some start position satisfies all three lookaheads. */
  predicate PasswordMatches(s: string) {
    exists p | 0 <= p <= |s| :: LookaheadsAt(s, p)
  }

  predicate NoLineTerminator(s: string) {
    forall k :: 0 <= k < |s| ==> !IsLineTerminator(s[k])
  }

  predicate HasLower(s: string) { exists k | 0 <= k < |s| :: IsLowerLetter(s[k]) }

  predicate HasUpper(s: string) { exists k | 0 <= k < |s| :: IsUpperLetter(s[k]) }

  predicate HasDigit(s: string) { exists k | 0 <= k < |s| :: IsDigit(s[k]) }

  /** On a single line, the password expression means "has a lower-case letter, an
      upper-case letter and a digit". */
  lemma PasswordSingleLine(s: string)
    requires NoLineTerminator(s)
    ensures PasswordMatches(s) <==> HasLower(s) && HasUpper(s) && HasDigit(s)
  {
    if HasLower(s) && HasUpper(s) && HasDigit(s) {
      var l :| 0 <= l < |s| && IsLowerLetter(s[l]);
      var u :| 0 <= u < |s| && IsUpperLetter(s[u]);
      var d :| 0 <= d < |s| && IsDigit(s[d]);
      assert LowerAheadAt(s, 0, l) && UpperAheadAt(s, 0, u) && DigitAheadAt(s, 0, d);
      assert LookaheadsAt(s, 0);
    }
    if PasswordMatches(s) {
      var p :| 0 <= p <= |s| && LookaheadsAt(s, p);
      var l :| p <= l < |s| && LowerAheadAt(s, p, l);
      var u :| p <= u < |s| && UpperAheadAt(s, p, u);
      var d :| p <= d < |s| && DigitAheadAt(s, p, d);
      assert IsLowerLetter(s[l]) && IsUpperLetter(s[u]) && IsDigit(s[d]);
    }
  }

  /** Whatever the lines, a match needs each class to occur. */
  lemma PasswordNeedsAllClasses(s: string)
    requires PasswordMatches(s)
    ensures HasLower(s) && HasUpper(s) && HasDigit(s)
  {
    var p :| 0 <= p <= |s| && LookaheadsAt(s, p);
    var l :| p <= l < |s| && LowerAheadAt(s, p, l);
    var u :| p <= u < |s| && UpperAheadAt(s, p, u);
    var d :| p <= d < |s| && DigitAheadAt(s, p, d);
    assert IsLowerLetter(s[l]) && IsUpperLetter(s[u]) && IsDigit(s[d]);
  }

  /** `.` does not cross a line break, so the three classes must share a line: `"abc\nABC123"`
      has all three and still fails. */
  lemma PasswordClassesMustShareALine()
    ensures !PasswordMatches("abc\nABC123")
  {
    var s := "abc\nABC123";
    forall p | 0 <= p <= |s| ensures !LookaheadsAt(s, p) {
      if p <= 3 {
        forall q | p <= q < |s| ensures !UpperAheadAt(s, p, q) {
          if q > 3 {
            assert IsLineTerminator(s[3]);
          }
        }
      } else {
        forall q | p <= q < |s| ensures !LowerAheadAt(s, p, q) {
        }
      }
    }
  }
}
