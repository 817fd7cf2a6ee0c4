/** Searching a sequence as JavaScript's `findIndex` / `indexOf` do. */
module Sequences {

  /** `i` is the first position of `x` in `s`. */
  ghost predicate IsFirstIndex<T>(s: seq<T>, x: T, i: int)
  {
    0 <= i < |s| && s[i] == x && forall j :: 0 <= j < i ==> s[j] != x
  }

  /** The first position of `x` in `s`, or -1 when there is none. */
  function FindIndex<T(==)>(s: seq<T>, x: T): (r: int)
    ensures -1 <= r < |s|
    ensures r == -1 <==> x !in s
    ensures r != -1 ==> IsFirstIndex(s, x, r)
  {
    if |s| == 0 then -1
    else if s[0] == x then 0
    else
      var k := FindIndex(s[1..], x);
      if k == -1 then -1 else k + 1
  }

  /** An `x` right after a prefix free of `x` is found at the prefix's end. */
  lemma {:induction false} FindIndexAfterPrefix<T>(prefix: seq<T>, tail: seq<T>, x: T)
    requires x !in prefix && |tail| > 0 && tail[0] == x
    ensures FindIndex(prefix + tail, x) == |prefix|
  {
    if |prefix| > 0 {
      assert (prefix + tail)[1..] == prefix[1..] + tail;
      FindIndexAfterPrefix(prefix[1..], tail, x);
    } else {
      assert prefix + tail == tail;
    }
  }
}
