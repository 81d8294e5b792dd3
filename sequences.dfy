/** Generic sequence helpers used by the checkout model. */
module Sequences {

  /** Index of the first element that fails `keep`, or `|s|` when every element passes. */
  function FirstFailing<T>(s: seq<T>, keep: T -> bool): (k: nat)
    ensures k <= |s|
    ensures forall j :: 0 <= j < k ==> keep(s[j])
    ensures k < |s| ==> !keep(s[k])
  {
    if s == [] then 0
    else if !keep(s[0]) then 0
    else 1 + FirstFailing(s[1..], keep)
  }

  /** Number of elements of `s` that satisfy `p`. */
  function Count<T>(s: seq<T>, p: T -> bool): (n: nat)
    ensures n <= |s|
  {
    if s == [] then 0 else (if p(s[0]) then 1 else 0) + Count(s[1..], p)
  }

  lemma {:induction false} CountConcat<T>(a: seq<T>, b: seq<T>, p: T -> bool)
    ensures Count(a + b, p) == Count(a, p) + Count(b, p)
  {
    if a != [] {
      assert (a + b)[1..] == a[1..] + b;
      CountConcat(a[1..], b, p);
    } else {
      assert a + b == b;
    }
  }

}
