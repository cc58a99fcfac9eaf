/** The two string operations the tag search relies on: JavaScript's
    `toLowerCase` (restricted to ASCII letters) and `includes`. */
module Text {

  /** An ASCII capital letter. */
  predicate IsUpper(c: char) {
    'A' <= c <= 'Z'
  }

  /** `toLowerCase` on a single character: capitals move to their lower-case
      letter, every other character is left alone. */
  function LowerChar(c: char): (r: char)
    ensures !IsUpper(r)
    ensures !IsUpper(c) ==> r == c
    ensures IsUpper(c) ==> 'a' <= r <= 'z' && r as int - c as int == 'a' as int - 'A' as int
  {
    if IsUpper(c) then (c as int - 'A' as int + 'a' as int) as char else c
  }

  /** `toLowerCase` on a string, character by character. */
  function Lower(s: string): (r: string)
    ensures |r| == |s|
    ensures forall i :: 0 <= i < |s| ==> r[i] == LowerChar(s[i])
  {
    seq(|s|, i requires 0 <= i < |s| => LowerChar(s[i]))
  }

  /** No character of `s` is an ASCII capital. */
  predicate IsLowerCase(s: string) {
    forall i :: 0 <= i < |s| ==> !IsUpper(s[i])
  }

  /** Lowering yields a lower-case string, and lowering again changes nothing. */
  lemma LowerIsLowerCase(s: string)
    ensures IsLowerCase(Lower(s))
    ensures Lower(Lower(s)) == Lower(s)
  {
  }

  /** `sub` occurs in `s` starting at index `i`. */
  ghost predicate OccursAt(s: string, sub: string, i: int) {
    0 <= i && i + |sub| <= |s| && s[i..i + |sub|] == sub
  }

  /** An occurrence in the tail of `s` is an occurrence in `s`, one index later. */
  lemma OccursShift(s: string, sub: string)
    requires |s| > 0
    ensures forall i :: 0 <= i ==> (OccursAt(s[1..], sub, i) <==> OccursAt(s, sub, i + 1))
  {
    forall i | 0 <= i
      ensures OccursAt(s[1..], sub, i) <==> OccursAt(s, sub, i + 1)
    {
      if 0 <= i && i + 1 + |sub| <= |s| {
        assert s[1..][i..i + |sub|] == s[i + 1..i + 1 + |sub|];
      }
    }
  }

  /** `s.includes(sub)`: whether `sub` occurs somewhere in `s`. The empty
      string occurs in every string. */
  function Contains(s: string, sub: string): (r: bool)
    ensures r <==> exists i :: OccursAt(s, sub, i)
    decreases |s|
  {
    if sub <= s then
      assert OccursAt(s, sub, 0);
      true
    else if |s| == 0 then
      false
    else
      OccursShift(s, sub);
      assert forall i :: OccursAt(s, sub, i) ==> i == 0 || OccursAt(s[1..], sub, i - 1);
      Contains(s[1..], sub)
  }

  /** The empty string is found in every string. */
  lemma ContainsEmpty(s: string)
    ensures Contains(s, "")
  {
    assert OccursAt(s, "", 0);
  }
}
