/** Case-insensitive substring matching, the model of Django's `icontains` lookup. */
module Text {

  /** ASCII lower-casing of one character; other characters are left as they are. */
  function LowerChar(c: char): char {
    if 'A' <= c <= 'Z' then (c as int + 32) as char else c
  }

  function Lower(s: string): (r: string)
    ensures |r| == |s|
    ensures forall i :: 0 <= i < |s| ==> r[i] == LowerChar(s[i])
  {
    seq(|s|, i requires 0 <= i < |s| => LowerChar(s[i]))
  }

  /** `t` occurs in `s` starting at position `i`. */
  predicate OccursAt(t: string, s: string, i: int) {
    0 <= i && i + |t| <= |s| && s[i..i + |t|] == t
  }

  /** Substring test, scanning `s` from the left. */
  function Contains(s: string, t: string): (r: bool)
    ensures r <==> exists i :: OccursAt(t, s, i)
    decreases |s|
  {
    if |s| < |t| then false
    else if s[..|t|] == t then (assert OccursAt(t, s, 0); true)
    else (ContainsShift(s, t); Contains(s[1..], t))
  }

  /** Dropping the first character shifts every occurrence after position 0 by one. */
  lemma ContainsShift(s: string, t: string)
    requires |s| >= |t| && s[..|t|] != t
    ensures (exists i :: OccursAt(t, s, i)) <==> (exists i :: OccursAt(t, s[1..], i))
  {
    if exists i :: OccursAt(t, s, i) {
      var i :| OccursAt(t, s, i);
      assert i != 0;
      assert s[1..][i - 1..i - 1 + |t|] == s[i..i + |t|];
      assert OccursAt(t, s[1..], i - 1);
    }
    if exists i :: OccursAt(t, s[1..], i) {
      var i :| OccursAt(t, s[1..], i);
      assert s[1..][i..i + |t|] == s[i + 1..i + 1 + |t|];
      assert OccursAt(t, s, i + 1);
    }
  }

  /** `icontains`: `t` occurs in `s` once both are lower-cased. */
  predicate ContainsIgnoreCase(s: string, t: string) {
    Contains(Lower(s), Lower(t))
  }
}
