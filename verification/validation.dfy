/**
 * The two format checks the domain models share: the e-mail pattern
 * `^[^\s@]+@[^\s@]+\.[^\s@]+$` (user and parking models alike) and the
 * phone pattern `^\d{1,10}$` (parking model).  Both patterns are anchored
 * and carry no flags, so `$` means end of input.
 */
module Validation {

  /** JavaScript's `\s` class: ASCII tab to carriage return, space, and the Unicode space separators. */
  predicate IsSpace(c: char) {
    var n := c as int;
    || (9 <= n <= 13)
    || n == 0x20 || n == 0xA0 || n == 0x1680
    || (0x2000 <= n <= 0x200A)
    || n == 0x2028 || n == 0x2029 || n == 0x202F || n == 0x205F || n == 0x3000 || n == 0xFEFF
  }

  /** The character class `[^\s@]`. */
  predicate IsAtom(c: char) {
    !IsSpace(c) && c != '@'
  }

  /** Every character of `s` is in `[^\s@]`. */
  predicate AllAtoms(s: string) {
    forall i :: 0 <= i < |s| ==> IsAtom(s[i])
  }

  /**
   * The e-mail pattern read as a regular expression: `s` splits at an `@`
   * (offset `at`) and a later `.` (offset `dot`) into three non-empty runs of
   * `[^\s@]`.
   */
  ghost predicate EmailSplit(s: string, at: int, dot: int) {
    && 0 < at && at + 1 < dot && dot + 1 < |s|
    && s[at] == '@' && s[dot] == '.'
    && AllAtoms(s[..at]) && AllAtoms(s[at + 1..dot]) && AllAtoms(s[dot + 1..])
  }

  ghost predicate MatchesEmailPattern(s: string) {
    exists at, dot :: EmailSplit(s, at, dot)
  }

  /** No whitespace anywhere in `s`. */
  predicate NoSpace(s: string) {
    forall i :: 0 <= i < |s| ==> !IsSpace(s[i])
  }

  /** Offset of the first `c` in `s`, or `|s|` when there is none. */
  function FirstIndex(s: string, c: char): (i: nat)
    ensures i <= |s|
    ensures i < |s| ==> s[i] == c
    ensures forall j :: 0 <= j < i ==> s[j] != c
  {
    if |s| == 0 then 0 else if s[0] == c then 0 else 1 + FirstIndex(s[1..], c)
  }

  /** `d` has a `.` that is neither its first nor its last character. */
  predicate HasInnerDot(d: string) {
    exists k :: 0 < k < |d| - 1 && d[k] == '.'
  }

  /**
   * The e-mail check as a direct condition: no whitespace, exactly one `@`,
   * a non-empty part before it, and a domain holding an inner dot.
   */
  predicate IsValidEmail(s: string) {
    var at := FirstIndex(s, '@');
    && NoSpace(s)
    && 0 < at < |s|
    && '@' !in s[at + 1..]
    && HasInnerDot(s[at + 1..])
  }

  /** The direct condition and the regular expression accept the same strings. */
  lemma EmailCheckMatchesPattern(s: string)
    ensures IsValidEmail(s) <==> MatchesEmailPattern(s)
  {
    if IsValidEmail(s) {
      var at := FirstIndex(s, '@');
      var d := s[at + 1..];
      var k :| 0 < k < |d| - 1 && d[k] == '.';
      var dot := at + 1 + k;
      assert s[dot] == d[k];
      forall i | 0 <= i < |s| && i != at
        ensures IsAtom(s[i])
      {
        if i > at {
          assert s[i] == d[i - at - 1];
        }
      }
      assert EmailSplit(s, at, dot);
    }
    if MatchesEmailPattern(s) {
      var at, dot :| EmailSplit(s, at, dot);
      forall i | 0 <= i < |s| && i != at && i != dot
        ensures IsAtom(s[i])
      {
        if i < at {
          assert s[i] == s[..at][i];
        } else if i < dot {
          assert s[i] == s[at + 1..dot][i - at - 1];
        } else {
          assert s[i] == s[dot + 1..][i - dot - 1];
        }
      }
      assert FirstIndex(s, '@') == at;
      var d := s[at + 1..];
      assert d[dot - at - 1] == s[dot];
      assert HasInnerDot(d);
    }
  }

  /** The phone pattern `^\d{1,10}$`: one to ten ASCII digits and nothing else. */
  predicate IsValidPhone(s: string) {
    1 <= |s| <= 10 && forall i :: 0 <= i < |s| ==> '0' <= s[i] <= '9'
  }

  /** A plain address passes. */
  lemma EmailAcceptsPlainAddress()
    ensures IsValidEmail("a@b.co")
  {
    assert "a@b.co"[3] == '.';
    assert FirstIndex("a@b.co", '@') == 1;
  }

  /** A domain without a dot, and an empty local part, fail. */
  lemma EmailRejectsMissingParts()
    ensures !IsValidEmail("a@bco")
    ensures !IsValidEmail("@b.co")
  {
    assert FirstIndex("a@bco", '@') == 1;
  }

  /** A second `@` fails. */
  lemma EmailRejectsTwoAts()
    ensures !IsValidEmail("a@b@c.co")
  {
    assert FirstIndex("a@b@c.co", '@') == 1;
    assert "a@b@c.co"[3] == '@';
  }

  /** Whitespace fails, and so does a dot right after the `@`. */
  lemma EmailRejectsSpaceAndLeadingDot()
    ensures !IsValidEmail("a b@c.co")
    ensures !IsValidEmail("a@.co")
  {
    assert IsSpace("a b@c.co"[1]);
    assert FirstIndex("a@.co", '@') == 1;
  }

  /** Ten digits pass; eleven digits, the empty string and separators do not. */
  lemma PhoneExamples()
    ensures IsValidPhone("3001234567")
    ensures !IsValidPhone("30012345678")
    ensures !IsValidPhone("")
    ensures !IsValidPhone("300-123")
  {
    assert "300-123"[3] == '-';
  }
}
