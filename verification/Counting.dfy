/** Counting the elements of a sequence that satisfy a predicate. */
module Counting {
  function CountIf<T>(s: seq<T>, p: T -> bool): (n: nat)
    ensures n <= |s|
  {
    if s == [] then 0 else CountIf(s[..|s| - 1], p) + if p(s[|s| - 1]) then 1 else 0
  }

  ghost function IndicesOf<T>(s: seq<T>, p: T -> bool): set<int> {
    set i | 0 <= i < |s| && p(s[i])
  }

  /** The count is the number of indices. */
  lemma {:induction false} CountIsIndices<T>(s: seq<T>, p: T -> bool)
    ensures CountIf(s, p) == |IndicesOf(s, p)|
  {
    if s == [] {
      assert IndicesOf(s, p) == {};
    } else {
      var n := |s| - 1;
      CountIsIndices(s[..n], p);
      assert IndicesOf(s, p) == IndicesOf(s[..n], p) + if p(s[n]) then {n} else {};
    }
  }
}
