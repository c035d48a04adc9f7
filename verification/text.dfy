/**
 * Case-sensitive substring search, the `String.prototype.includes` that the
 * rate-limit guard uses to classify request URLs.
 */
module Text {

  /** `p` occurs in `s` at offset `i`. */
  ghost predicate OccursAt(p: string, s: string, i: int) {
    0 <= i && i + |p| <= |s| && s[i..i + |p|] == p
  }

  /** Reference meaning of `s.includes(p)`: some offset of `s` starts a copy of `p`. */
  ghost predicate Occurs(p: string, s: string) {
    exists i :: OccursAt(p, s, i)
  }

  /**
   * `s.includes(p)`, computed by trying each offset from the left.  The
   * contract needs the recursive call's contract: an occurrence in the tail
   * is an occurrence in `s` shifted by one, and every offset other than 0 is
   * an offset of the tail.
   */
  function Includes(s: string, p: string): (b: bool)
    ensures b <==> Occurs(p, s)
    decreases |s|
  {
    if |p| > |s| then
      assert forall i :: !OccursAt(p, s, i);
      false
    else if s[..|p|] == p then
      assert OccursAt(p, s, 0);
      true
    else
      var b := Includes(s[1..], p);
      ShiftOccurrence(p, s);
      b
  }

  /** Occurrences of `p` in `s` other than at offset 0 are the occurrences in `s[1..]`, shifted. */
  lemma ShiftOccurrence(p: string, s: string)
    requires |s| >= 1
    requires |p| > |s| || s[..|p|] != p
    ensures Occurs(p, s) <==> Occurs(p, s[1..])
  {
    if Occurs(p, s) {
      var i :| OccursAt(p, s, i);
      assert i != 0;
      assert s[1..][i - 1..i - 1 + |p|] == s[i..i + |p|];
      assert OccursAt(p, s[1..], i - 1);
    }
    if Occurs(p, s[1..]) {
      var j :| OccursAt(p, s[1..], j);
      assert s[1..][j..j + |p|] == s[j + 1..j + 1 + |p|];
      assert OccursAt(p, s, j + 1);
    }
  }

  /** A pattern holding a character that `s` lacks does not occur in `s`. */
  lemma MissingCharNoOccurrence(p: string, s: string, c: char)
    requires c in p && c !in s
    ensures !Occurs(p, s)
  {
  }

  /** A pattern placed between any two strings occurs in the result. */
  lemma OccursBetween(pre: string, p: string, post: string)
    ensures Occurs(p, pre + p + post)
  {
    assert (pre + p + post)[|pre|..|pre| + |p|] == p;
    assert OccursAt(p, pre + p + post, |pre|);
  }
}
