/**
 * The e-mail check that signup applies: the JavaScript regular expression
 * `^[^\s@]+@[^\s@]+\.[^\s@]+$` (src/utils/auth.ts:48).
 *
 * `MatchesPattern` is the meaning of the expression itself: three non-empty
 * runs of characters that are neither white space nor `@`, joined by an `@`
 * and a `.`. `IsValidEmail` is the same condition in plain terms (one `@`,
 * no white space, a non-empty local part, a domain with an interior `.`);
 * `PatternIffValidEmail` proves the two agree on every string.
 */
module EmailPattern {

  /** A character of ECMAScript's `\s` class: WhiteSpace and LineTerminator code points. */
  predicate IsWhitespace(c: char)
  {
    var n := c as int;
    (0x09 <= n <= 0x0D) || n == 0x20 || n == 0xA0 || n == 0x1680 ||
    (0x2000 <= n <= 0x200A) || n == 0x2028 || n == 0x2029 || n == 0x202F ||
    n == 0x205F || n == 0x3000 || n == 0xFEFF
  }

  /** A character of the class `[^\s@]`. */
  predicate IsPlain(c: char)
  {
    !IsWhitespace(c) && c != '@'
  }

  /** The text matched by `[^\s@]+`. */
  ghost predicate PlainRun(t: string)
  {
    |t| > 0 && forall k :: 0 <= k < |t| ==> IsPlain(t[k])
  }

  /** `s` matches `^[^\s@]+@[^\s@]+\.[^\s@]+$`: `s` splits at an `@` (index `i`) and a later `.` (index `j`) into three plain runs. */
  ghost predicate MatchesPattern(s: string)
  {
    exists i, j :: 0 <= i < j < |s| && IsSplit(s, i, j)
  }

  /** `s[i]` is the `@` and `s[j]` the `.` of a match of the pattern. */
  ghost predicate IsSplit(s: string, i: int, j: int)
    requires 0 <= i < j < |s|
  {
    s[i] == '@' && s[j] == '.' &&
    PlainRun(s[..i]) && PlainRun(s[i + 1..j]) && PlainRun(s[j + 1..])
  }

  /** The number of occurrences of `c` in `s`. */
  function Count(s: string, c: char): (n: nat)
    ensures n <= |s|
    ensures n == 0 <==> c !in s
  {
    if s == [] then 0 else (if s[0] == c then 1 else 0) + Count(s[1..], c)
  }

  /** The index of the first `c` in `s`, or `|s|` when there is none. */
  function IndexOf(s: string, c: char): (i: nat)
    ensures i <= |s|
    ensures i < |s| <==> c in s
    ensures i < |s| ==> s[i] == c
    ensures c !in s[..i]
  {
    if s == [] then 0
    else if s[0] == c then 0
    else
      var i := 1 + IndexOf(s[1..], c);
      assert s[..i] == [s[0]] + s[1..][..i - 1];
      i
  }

  /** No character of `s` is white space. */
  predicate NoWhitespace(s: string)
  {
    forall k :: 0 <= k < |s| ==> !IsWhitespace(s[k])
  }

  /** `d` holds a `.` that is neither its first nor its last character. */
  predicate HasInteriorDot(d: string)
  {
    exists k :: 0 < k < |d| - 1 && d[k] == '.'
  }

  /** The pattern in plain terms: exactly one `@`, no white space, a non-empty local part, and a domain with an interior `.`. */
  predicate IsValidEmail(s: string)
  {
    Count(s, '@') == 1 && NoWhitespace(s) &&
    var at := IndexOf(s, '@');
    0 < at < |s| && HasInteriorDot(s[at + 1..])
  }

  /** The local part: everything before the first `@`. */
  function LocalPart(s: string): (l: string)
    ensures '@' !in l
    ensures l <= s
  {
    s[..IndexOf(s, '@')]
  }

  /** The domain part: everything after the first `@` (empty when there is none). */
  function DomainPart(s: string): (d: string)
    ensures '@' in s ==> s == LocalPart(s) + "@" + d
  {
    var at := IndexOf(s, '@');
    if at < |s| then
      assert s == s[..at] + [s[at]] + s[at + 1..];
      s[at + 1..]
    else []
  }

  lemma {:induction false} CountAppend(a: string, b: string, c: char)
    ensures Count(a + b, c) == Count(a, c) + Count(b, c)
  {
    if a == [] {
      assert a + b == b;
    } else {
      assert (a + b)[1..] == a[1..] + b;
      CountAppend(a[1..], b, c);
    }
  }

  /** A string splits at its only `@` into two strings free of `@`. */
  lemma OnlyAt(s: string, at: nat)
    requires at < |s| && s[at] == '@' && Count(s, '@') == 1
    ensures '@' !in s[..at] && '@' !in s[at + 1..]
  {
    assert s == s[..at] + [s[at]] + s[at + 1..];
    CountAppend(s[..at] + [s[at]], s[at + 1..], '@');
    CountAppend(s[..at], [s[at]], '@');
  }

  lemma PatternImpliesValidEmail(s: string, i: int, j: int)
    requires 0 <= i < j < |s| && IsSplit(s, i, j)
    ensures IsValidEmail(s)
  {
    var l, d1, d2 := s[..i], s[i + 1..j], s[j + 1..];
    assert s == l + ['@'] + d1 + ['.'] + d2;
    assert '@' !in l by { assert forall k :: 0 <= k < |l| ==> IsPlain(l[k]); }
    assert '@' !in d1 by { assert forall k :: 0 <= k < |d1| ==> IsPlain(d1[k]); }
    assert '@' !in d2 by { assert forall k :: 0 <= k < |d2| ==> IsPlain(d2[k]); }
    CountAppend(l + ['@'] + d1 + ['.'], d2, '@');
    CountAppend(l + ['@'] + d1, ['.'], '@');
    CountAppend(l + ['@'], d1, '@');
    CountAppend(l, ['@'], '@');
    assert Count(s, '@') == 1;
    forall k | 0 <= k < |s| ensures !IsWhitespace(s[k]) {
      if k < i { assert s[k] == l[k]; }
      else if i < k < j { assert s[k] == d1[k - i - 1]; }
      else if j < k { assert s[k] == d2[k - j - 1]; }
    }
    var at := IndexOf(s, '@');
    assert at == i;
    assert s[at + 1..][j - i - 1] == '.';
  }

  lemma ValidEmailImpliesPattern(s: string)
    requires IsValidEmail(s)
    ensures MatchesPattern(s)
  {
    var i := IndexOf(s, '@');
    var d := s[i + 1..];
    var k :| 0 < k < |d| - 1 && d[k] == '.';
    var j := i + 1 + k;
    OnlyAt(s, i);
    assert s[i + 1..j] == d[..k];
    assert s[j + 1..] == d[k + 1..];
    assert forall m :: 0 <= m < |s[..i]| ==> IsPlain(s[..i][m]) by {
      forall m | 0 <= m < |s[..i]| ensures IsPlain(s[..i][m]) {
        assert s[..i][m] == s[m];
      }
    }
    assert forall m :: 0 <= m < |d| ==> IsPlain(d[m]) by {
      forall m | 0 <= m < |d| ensures IsPlain(d[m]) {
        assert d[m] == s[i + 1 + m];
      }
    }
    assert forall m :: 0 <= m < |d[..k]| ==> IsPlain(d[..k][m]) by {
      forall m | 0 <= m < |d[..k]| ensures IsPlain(d[..k][m]) {
        assert d[..k][m] == d[m];
      }
    }
    var d2 := d[k + 1..];
    assert forall m :: 0 <= m < |d2| ==> IsPlain(d2[m]) by {
      forall m | 0 <= m < |d2| ensures IsPlain(d2[m]) {
        assert d2[m] == d[k + 1 + m];
      }
    }
    assert IsSplit(s, i, j);
  }

  /** The regular expression and the plain-terms predicate accept the same strings. */
  lemma PatternIffValidEmail(s: string)
    ensures MatchesPattern(s) <==> IsValidEmail(s)
  {
    if MatchesPattern(s) {
      var i, j :| 0 <= i < j < |s| && IsSplit(s, i, j);
      PatternImpliesValidEmail(s, i, j);
    }
    if IsValidEmail(s) {
      ValidEmailImpliesPattern(s);
    }
  }

  /** The parts of an accepted address: the local part is non-empty and free of `@`, the domain has an interior `.`. */
  lemma ValidEmailParts(s: string)
    requires IsValidEmail(s)
    ensures s == LocalPart(s) + "@" + DomainPart(s)
    ensures |LocalPart(s)| > 0 && '@' !in DomainPart(s)
    ensures HasInteriorDot(DomainPart(s)) && NoWhitespace(s)
  {
    OnlyAt(s, IndexOf(s, '@'));
  }
}
