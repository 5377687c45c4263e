/** The character-level tests the onboarding form applies to its text fields:
    JavaScript's `String.prototype.trim()` (a field is blank when trimming leaves
    nothing) and the email pattern `^[^\s@]+@[^\s@]+\.[^\s@]+$`. */
module FieldChecks {

  /** The characters that both the regular-expression class `\s` and `trim()`
      treat as white space in JavaScript: the WhiteSpace and LineTerminator
      code points of ECMAScript. */
  predicate IsWhitespace(c: char)
  {
    || ('\t' <= c <= '\r')   // tab, line feed, vertical tab, form feed, carriage return
    || c == ' '
    || c == '\U{00A0}' || c == '\U{1680}'
    || ('\U{2000}' <= c <= '\U{200A}')
    || c == '\U{2028}' || c == '\U{2029}' || c == '\U{202F}' || c == '\U{205F}'
    || c == '\U{3000}' || c == '\U{FEFF}'
  }

  ghost predicate AllWhitespace(s: string)
  {
    forall i :: 0 <= i < |s| ==> IsWhitespace(s[i])
  }

  /** JavaScript's `s.trim()`: white space is removed from both ends. Nothing
      is left exactly when `s` is all white space, and what is left neither
      starts nor ends with white space. */
  function Trim(s: string): (r: string)
    ensures r == [] <==> AllWhitespace(s)
    ensures r != [] ==> !IsWhitespace(r[0]) && !IsWhitespace(r[|r| - 1])
  {
    if |s| > 0 && IsWhitespace(s[0]) then
      var r := Trim(s[1..]);
      assert AllWhitespace(s[1..]) ==> AllWhitespace(s) by {
        if AllWhitespace(s[1..]) {
          forall i | 0 < i < |s| ensures IsWhitespace(s[i]) { assert s[i] == s[1..][i - 1]; }
        }
      }
      r
    else if |s| > 0 && IsWhitespace(s[|s| - 1]) then
      Trim(s[..|s| - 1])
    else
      s
  }

  /** `r` is `s[i..j]`, and `s` holds only white space before `i` and from `j` on. */
  ghost predicate CutsWhitespaceEnds(s: string, r: string, i: int, j: int)
  {
    0 <= i <= j <= |s| && r == s[i..j] && AllWhitespace(s[..i]) && AllWhitespace(s[j..])
  }

  /** Putting one white-space character back in front keeps a cut valid. */
  lemma PrependWhitespaceCut(s: string, r: string, i: int, j: int)
    requires |s| > 0 && IsWhitespace(s[0]) && CutsWhitespaceEnds(s[1..], r, i, j)
    ensures CutsWhitespaceEnds(s, r, i + 1, j + 1)
  {
    var t := s[1..];
    assert t[i..j] == s[i + 1..j + 1];
    assert t[j..] == s[j + 1..];
    var cut := s[..i + 1];
    forall k | 0 <= k < |cut| ensures IsWhitespace(cut[k]) {
      if k > 0 { assert cut[k] == t[..i][k - 1]; }
    }
  }

  /** Putting one white-space character back at the end keeps a cut valid. */
  lemma AppendWhitespaceCut(s: string, r: string, i: int, j: int)
    requires |s| > 0 && IsWhitespace(s[|s| - 1]) && CutsWhitespaceEnds(s[..|s| - 1], r, i, j)
    ensures CutsWhitespaceEnds(s, r, i, j)
  {
    var t := s[..|s| - 1];
    assert t[i..j] == s[i..j];
    assert t[..i] == s[..i];
    var cut := s[j..];
    forall k | 0 <= k < |cut| ensures IsWhitespace(cut[k]) {
      if j + k < |s| - 1 { assert cut[k] == t[j..][k]; }
    }
  }

  /** What `Trim` returns is `s` itself with a run of white space cut from
      each end: a contiguous slice of `s` with only white space outside it. */
  lemma {:induction false} TrimCutsWhitespaceEnds(s: string)
    ensures exists i, j :: CutsWhitespaceEnds(s, Trim(s), i, j)
  {
    if |s| > 0 && IsWhitespace(s[0]) {
      TrimCutsWhitespaceEnds(s[1..]);
      var i, j :| CutsWhitespaceEnds(s[1..], Trim(s[1..]), i, j);
      PrependWhitespaceCut(s, Trim(s), i, j);
    } else if |s| > 0 && IsWhitespace(s[|s| - 1]) {
      TrimCutsWhitespaceEnds(s[..|s| - 1]);
      var i, j :| CutsWhitespaceEnds(s[..|s| - 1], Trim(s[..|s| - 1]), i, j);
      AppendWhitespaceCut(s, Trim(s), i, j);
    } else {
      assert CutsWhitespaceEnds(s, Trim(s), 0, |s|);
    }
  }

  /** The form's `!value.trim()`: the field holds nothing but white space. */
  function IsBlank(s: string): (b: bool)
    ensures b <==> AllWhitespace(s)
  {
    Trim(s) == []
  }

  /** A character of the class `[^\s@]`. */
  predicate IsAddressChar(c: char)
  {
    !IsWhitespace(c) && c != '@'
  }

  /** `s` matches `[^\s@]+`. */
  ghost predicate IsAddressRun(s: string)
  {
    |s| > 0 && forall i :: 0 <= i < |s| ==> IsAddressChar(s[i])
  }

  /** The email regular expression read literally: a run of `[^\s@]`, an `@`,
      a run, a `.`, and a run, covering the whole string. */
  ghost predicate MatchesEmailPattern(s: string)
  {
    exists at, dot :: 0 <= at < dot < |s| && s[at] == '@' && s[dot] == '.' &&
      IsAddressRun(s[..at]) && IsAddressRun(s[at + 1..dot]) && IsAddressRun(s[dot + 1..])
  }

  /** The index of the first `c` in `s`, or `|s|` when there is none. */
  function IndexOf(s: string, c: char): (i: nat)
    ensures i <= |s|
    ensures i < |s| ==> s[i] == c
    ensures forall j :: 0 <= j < i ==> s[j] != c
  {
    if s == [] then 0
    else if s[0] == c then 0
    else 1 + IndexOf(s[1..], c)
  }

  /** The executable form of the email test: no white space anywhere, exactly
      one `@` with something before it, and a `.` after the `@` that has at
      least one character on each side. */
  predicate HasEmailShape(s: string)
  {
    var at := IndexOf(s, '@');
    && (forall i :: 0 <= i < |s| ==> !IsWhitespace(s[i]))
    && 0 < at
    && at + 3 <= |s|
    && '@' !in s[at + 1..]
    && '.' in s[at + 2..|s| - 1]
  }

  /** A string the executable test accepts matches the regular expression. */
  lemma {:induction false} ShapeImpliesPattern(s: string)
    requires HasEmailShape(s)
    ensures MatchesEmailPattern(s)
  {
    var at := IndexOf(s, '@');
    var k :| 0 <= k < |s[at + 2..|s| - 1]| && s[at + 2..|s| - 1][k] == '.';
    var dot := at + 2 + k;
    assert s[dot] == '.';
    forall i | 0 <= i < |s| && i != at
      ensures IsAddressChar(s[i])
    {
      if i > at { assert s[i] == s[at + 1..][i - at - 1]; }
    }
    assert IsAddressRun(s[..at]);
    assert IsAddressRun(s[at + 1..dot]);
    assert IsAddressRun(s[dot + 1..]);
  }

  /** In a match of the pattern split at `at` and `dot`, every character but
      the `@` belongs to `[^\s@]`. */
  lemma PatternSplitChars(s: string, at: int, dot: int)
    requires 0 <= at < dot < |s| && s[at] == '@' && s[dot] == '.'
    requires IsAddressRun(s[..at]) && IsAddressRun(s[at + 1..dot]) && IsAddressRun(s[dot + 1..])
    ensures forall i :: 0 <= i < |s| && i != at ==> IsAddressChar(s[i])
  {
    forall i | 0 <= i < |s| && i != at
      ensures IsAddressChar(s[i])
    {
      if i < at { assert s[i] == s[..at][i]; }
      else if i < dot { assert s[i] == s[at + 1..dot][i - at - 1]; }
      else if i > dot { assert s[i] == s[dot + 1..][i - dot - 1]; }
    }
  }

  /** A string the regular expression matches passes the executable test. */
  lemma {:induction false} PatternImpliesShape(s: string)
    requires MatchesEmailPattern(s)
    ensures HasEmailShape(s)
  {
    var at, dot :| 0 <= at < dot < |s| && s[at] == '@' && s[dot] == '.' &&
      IsAddressRun(s[..at]) && IsAddressRun(s[at + 1..dot]) && IsAddressRun(s[dot + 1..]);
    PatternSplitChars(s, at, dot);
    assert IndexOf(s, '@') == at;
    var tail := s[at + 1..];
    forall i | 0 <= i < |tail| ensures tail[i] != '@' {
      assert tail[i] == s[at + 1 + i];
    }
    assert s[at + 2..|s| - 1][dot - at - 2] == '.';
  }

  /** The executable test accepts exactly the strings the regular expression matches. */
  lemma EmailShapeMatchesPattern(s: string)
    ensures HasEmailShape(s) <==> MatchesEmailPattern(s)
  {
    if HasEmailShape(s) { ShapeImpliesPattern(s); }
    if MatchesEmailPattern(s) { PatternImpliesShape(s); }
  }

  /** The shortest value the email test accepts has five characters, as
      `a@b.c` does. */
  lemma EmailShapeMinLength(s: string)
    requires HasEmailShape(s)
    ensures |s| >= 5
  {
  }

  /** Any white space in the value (leading and trailing included) makes the
      email test fail. */
  lemma WhitespaceFailsEmail(s: string, i: nat)
    requires i < |s| && IsWhitespace(s[i])
    ensures !MatchesEmailPattern(s)
  {
    EmailShapeMatchesPattern(s);
  }

  /** Sample values: `"foo"` has no `@`,
      `"a@b.com"` is accepted, and a padded address is not blank yet is
      refused, because the pattern runs on the untrimmed value. */
  lemma EmailExamples()
    ensures !MatchesEmailPattern("foo")
    ensures MatchesEmailPattern("a@b.com")
    ensures !IsBlank(" a@b.com ") && !MatchesEmailPattern(" a@b.com ")
  {
    var s := "a@b.com";
    assert s[..1] == "a" && s[2..3] == "b" && s[4..] == "com";
    assert IsAddressRun(s[..1]) && IsAddressRun(s[2..3]) && IsAddressRun(s[4..]);
    assert s[1] == '@' && s[3] == '.';
    var padded := " a@b.com ";
    WhitespaceFailsEmail(padded, 0);
    assert !IsWhitespace(padded[1]);
  }
}
