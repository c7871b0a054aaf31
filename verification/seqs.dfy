/** Sequence helpers that stand for the ORM's `.filter(...)` and `.first()`. */
module Seqs {
  import opened Wrappers

  /** Index of the first element satisfying `p`, or None: `.filter(p).first()` over rows in query order. */
  function FirstWhere<T>(s: seq<T>, p: T -> bool): (r: Option<nat>)
    ensures r.Some? ==> r.value < |s| && p(s[r.value])
    ensures r.Some? ==> forall j :: 0 <= j < r.value ==> !p(s[j])
    ensures r.None? <==> forall j :: 0 <= j < |s| ==> !p(s[j])
  {
    if |s| == 0 then None
    else if p(s[0]) then Some(0)
    else match FirstWhere(s[1..], p)
      case None => None
      case Some(i) => Some(i + 1)
  }

  /** Appending an element changes the first match only when there was none before. */
  lemma {:induction false} FirstWhereAppend<T>(s: seq<T>, x: T, p: T -> bool)
    ensures FirstWhere(s + [x], p) ==
      if FirstWhere(s, p).Some? then FirstWhere(s, p)
      else if p(x) then Some(|s|)
      else None
  {
    var s' := s + [x];
    assert forall j :: 0 <= j < |s| ==> s'[j] == s[j];
    assert s'[|s|] == x;
    match FirstWhere(s', p)
    case Some(k) =>
      if k < |s| {
        assert p(s[k]);
      }
    case None =>
  }

  /** The elements satisfying `p`, in their original order: `.filter(p)`. */
  function Filter<T>(s: seq<T>, p: T -> bool): (r: seq<T>)
    ensures |r| <= |s|
    ensures forall i :: 0 <= i < |r| ==> p(r[i]) && r[i] in s
    ensures forall i :: 0 <= i < |s| && p(s[i]) ==> s[i] in r
  {
    if |s| == 0 then []
    else (if p(s[0]) then [s[0]] else []) + Filter(s[1..], p)
  }
}
