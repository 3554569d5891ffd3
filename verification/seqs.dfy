/** Sequence searches shared by the level loader. */
module Seqs {
  import opened Wrappers

  /** Index of the first element of `s` satisfying `p`, as an iterator's `find`
      returns the first match: None exactly when no element matches. */
  function FindFirst<T>(s: seq<T>, p: T -> bool): (r: Option<nat>)
    ensures r.Some? ==> r.value < |s| && p(s[r.value])
    ensures r.Some? ==> forall j :: 0 <= j < r.value ==> !p(s[j])
    ensures r.None? <==> forall j :: 0 <= j < |s| ==> !p(s[j])
  {
    if |s| == 0 then None
    else if p(s[0]) then Some(0)
    else
      match FindFirst(s[1..], p)
      case None => None
      case Some(i) => Some(i + 1)
  }
}
