/**
 * Character classes and string primitives shared by every module: the ASCII
 * case folding that `toLowerCase` and the `/i` regex flag perform, JavaScript's
 * whitespace set (used by `trim` and `\s`), and substring search as
 * `String.prototype.includes` performs it.
 */
module Text {

  /** Folds one character to lower case; only 'A'..'Z' change. */
  function LowerChar(c: char): char {
    if 'A' <= c <= 'Z' then (c as int + 32) as char else c
  }

  /** `toLowerCase`, restricted to ASCII letters. */
  function Lower(s: string): (r: string)
    ensures |r| == |s|
    ensures forall i :: 0 <= i < |s| ==> r[i] == LowerChar(s[i])
  {
    seq(|s|, i requires 0 <= i < |s| => LowerChar(s[i]))
  }

  predicate IsUpper(c: char) { 'A' <= c <= 'Z' }

  predicate IsDigit(c: char) { '0' <= c <= '9' }

  /** The regex class `\w`: ASCII letters, digits and underscore. */
  predicate IsWordChar(c: char) {
    'a' <= c <= 'z' || 'A' <= c <= 'Z' || IsDigit(c) || c == '_'
  }

  /**
   * JavaScript's WhiteSpace and LineTerminator code points: the set that
   * `String.prototype.trim` strips and the regex class `\s` matches.
   */
  predicate IsSpace(c: char) {
    c == '\t' || c == '\n' || c == '\U{0B}' || c == '\U{0C}' || c == '\r' || c == ' '
    || c == '\U{A0}' || c == '\U{1680}' || ('\U{2000}' <= c <= '\U{200A}')
    || c == '\U{2028}' || c == '\U{2029}' || c == '\U{202F}' || c == '\U{205F}'
    || c == '\U{3000}' || c == '\U{FEFF}'
  }

  /** `p` occurs in `s` starting at index `i`. */
  ghost predicate OccursAt(p: string, s: string, i: int) {
    0 <= i && i + |p| <= |s| && s[i..i + |p|] == p
  }

  /** The reference meaning of substring containment. */
  ghost predicate IsSubstring(p: string, s: string) {
    exists i :: OccursAt(p, s, i)
  }

  predicate StartsWith(s: string, p: string) {
    |p| <= |s| && s[..|p|] == p
  }

  /** `s.includes(p)`, as a left-to-right scan of the start positions. */
  predicate Contains(s: string, p: string)
    decreases |s|
  {
    StartsWith(s, p) || (|s| > 0 && Contains(s[1..], p))
  }

  /** The scan finds `p` exactly when `p` occurs somewhere in `s`. */
  lemma {:induction false} ContainsIsSubstring(s: string, p: string)
    ensures Contains(s, p) <==> IsSubstring(p, s)
    decreases |s|
  {
    if StartsWith(s, p) {
      assert OccursAt(p, s, 0);
    } else if |s| == 0 {
    } else {
      ContainsIsSubstring(s[1..], p);
      if IsSubstring(p, s[1..]) {
        var i :| OccursAt(p, s[1..], i);
        assert s[i + 1..i + 1 + |p|] == s[1..][i..i + |p|];
        assert OccursAt(p, s, i + 1);
      }
      if IsSubstring(p, s) {
        var i :| OccursAt(p, s, i);
        assert i != 0;
        assert s[1..][i - 1..i - 1 + |p|] == s[i..i + |p|];
        assert OccursAt(p, s[1..], i - 1);
      }
    }
  }

  /** Text added on either side never removes an occurrence. */
  lemma SubstringOfExtension(p: string, s: string, t: string)
    requires IsSubstring(p, s)
    ensures IsSubstring(p, s + t) && IsSubstring(p, t + s)
  {
    var i :| OccursAt(p, s, i);
    assert (s + t)[i..i + |p|] == s[i..i + |p|];
    assert OccursAt(p, s + t, i);
    assert (t + s)[|t| + i..|t| + i + |p|] == s[i..i + |p|];
    assert OccursAt(p, t + s, |t| + i);
  }

  /** Folding distributes over concatenation and is idempotent. */
  lemma LowerFacts(s: string, t: string)
    ensures Lower(s + t) == Lower(s) + Lower(t)
    ensures Lower(Lower(s)) == Lower(s)
  {
  }

  /** Folding commutes with taking a slice. */
  lemma LowerOfSlice(s: string, i: nat, j: nat)
    requires i <= j <= |s|
    ensures Lower(s[i..j]) == Lower(s)[i..j]
  {
  }

  /** A character that folding leaves alone and that no upper-case letter folds to. */
  lemma LowerCharPreimage(c: char, d: char)
    requires !('a' <= d <= 'z') && !IsUpper(d)
    ensures LowerChar(c) == d <==> c == d
  {
  }

  /** Folding leaves a string with no upper-case letter unchanged. */
  lemma LowerOfLowerCase(s: string)
    requires forall i :: 0 <= i < |s| ==> !IsUpper(s[i])
    ensures Lower(s) == s
  {
  }
}
