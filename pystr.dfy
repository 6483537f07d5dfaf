/** The few Python `str` operations the filter relies on, stated over
    `seq<char>`: substring test (`pat in s`), `s.find(c)`, `s.rstrip()`,
    `' ' * n` and the open slice `s[i:]`. */
module PyStr {

  /** The whitespace `str.rstrip()` removes at the end of a line
      (only the ASCII line-layout characters; see README). */
  predicate IsSpace(c: char) {
    c == ' ' || c == '\t' || c == '\n' || c == '\r'
  }

  /** `pat` occurs in `s` starting at index `i`. */
  ghost predicate OccursAt(pat: string, s: string, i: int) {
    0 <= i && i + |pat| <= |s| && s[i..i + |pat|] == pat
  }

  /** Python's `pat in s` for strings, as a property. */
  ghost predicate IsSubstring(pat: string, s: string) {
    exists i :: OccursAt(pat, s, i)
  }

  /** Python's `pat in s`, computed by trying each start position. */
  function Contains(s: string, pat: string): (b: bool)
    ensures b <==> IsSubstring(pat, s)
    decreases |s|
  {
    if |s| < |pat| then false
    else if s[..|pat|] == pat then (assert OccursAt(pat, s, 0); true)
    else
      var b := Contains(s[1..], pat);
      if b then
        assert IsSubstring(pat, s) by {
          var j :| OccursAt(pat, s[1..], j);
          assert s[1..][j..j + |pat|] == s[j + 1..j + 1 + |pat|];
          assert OccursAt(pat, s, j + 1);
        }
        b
      else
        assert forall i :: OccursAt(pat, s, i) ==> OccursAt(pat, s[1..], i - 1) by {
          forall i | OccursAt(pat, s, i) ensures OccursAt(pat, s[1..], i - 1) {
            assert i != 0;
            assert s[1..][i - 1..i - 1 + |pat|] == s[i..i + |pat|];
          }
        }
        b
  }

  /** Python's `s.find(c)` for a single character: the index of the first
      occurrence, or -1 when `c` does not occur. */
  function Find(s: string, c: char): (r: int)
    ensures -1 <= r < |s|
    ensures r == -1 <==> c !in s
    ensures 0 <= r ==> s[r] == c && c !in s[..r]
  {
    if |s| == 0 then -1
    else if s[0] == c then 0
    else
      var k := Find(s[1..], c);
      assert s == [s[0]] + s[1..];
      if k == -1 then -1
      else
        assert s[..k + 1] == [s[0]] + s[1..][..k];
        k + 1
  }

  /** Python's `s.rstrip()`: the longest prefix of `s` that does not end in
      whitespace, everything after it being whitespace. */
  function RStrip(s: string): (r: string)
    ensures |r| <= |s| && r == s[..|r|]
    ensures forall i :: |r| <= i < |s| ==> IsSpace(s[i])
    ensures r == [] || !IsSpace(r[|r| - 1])
  {
    if |s| == 0 || !IsSpace(s[|s| - 1]) then s
    else RStrip(s[..|s| - 1])
  }

  /** Python's `' ' * n`: `n` spaces, and the empty string when `n <= 0`. */
  function Spaces(n: int): (r: string)
    ensures |r| == if n < 0 then 0 else n
    ensures forall i :: 0 <= i < |r| ==> r[i] == ' '
  {
    if n <= 0 then "" else Spaces(n - 1) + " "
  }

  /** Python's open slice `s[i:]`, including negative `i` (counted from the
      end) and `i` past the end (empty result). */
  function SliceFrom(s: string, i: int): string {
    if i < 0 then (if -i < |s| then s[|s| + i..] else s)
    else if i <= |s| then s[i..]
    else ""
  }

  /** `s[i:]` is a suffix of `s`: the last `|s| - i` characters for `i` in
      range, nothing past the end, and the last `-i` characters (or all of
      `s`) for negative `i`. */
  lemma SliceFromIsSuffix(s: string, i: int)
    ensures var r := SliceFrom(s, i);
      |r| <= |s| && r == s[|s| - |r|..] &&
      (0 <= i <= |s| ==> |r| == |s| - i) &&
      (|s| < i ==> r == "") &&
      (i < 0 ==> |r| == if -i < |s| then -i else |s|)
  {
  }

  /** A pattern whose last character is not whitespace occurs in a line
      exactly when it occurs in the right-stripped line. */
  lemma {:induction false} ContainsIgnoresTrailingSpace(s: string, pat: string)
    requires pat != [] && !IsSpace(pat[|pat| - 1])
    ensures Contains(RStrip(s), pat) == Contains(s, pat)
  {
    var r := RStrip(s);
    if Contains(s, pat) {
      var i :| OccursAt(pat, s, i);
      assert s[i + |pat| - 1] == pat[|pat| - 1];
      assert i + |pat| <= |r|;
      assert r[i..i + |pat|] == s[i..i + |pat|];
      assert OccursAt(pat, r, i);
    }
    if Contains(r, pat) {
      var i :| OccursAt(pat, r, i);
      assert r == s[..|r|];
      assert s[i..i + |pat|] == r[i..i + |pat|];
      assert OccursAt(pat, s, i);
    }
  }

  /** Stripping twice is stripping once. */
  lemma RStripIdempotent(s: string)
    ensures RStrip(RStrip(s)) == RStrip(s)
  {
  }
}
