/** `Array.prototype.findIndex` and `document.querySelector` by key: the first index holding a value. */
module Lookup {

  /** `Array.prototype.findIndex` for equality: the first index holding `x`, or -1. */
  function IndexOf<T(==)>(xs: seq<T>, x: T): (k: int)
    ensures -1 <= k < |xs|
    ensures k == -1 <==> x !in xs
    ensures k >= 0 ==> xs[k] == x && x !in xs[..k]
  {
    if xs == [] then -1
    else if xs[0] == x then 0
    else
      var k := IndexOf(xs[1..], x);
      assert xs[1..][..k + 1] == xs[1..k + 2] && xs[..k + 2] == [xs[0]] + xs[1..k + 2];
      if k == -1 then -1 else k + 1
  }

  /** The loop behind `findIndex`. */
  method FindIndex<T(==)>(xs: seq<T>, x: T) returns (k: int)
    ensures k == IndexOf(xs, x)
  {
    k := 0;
    while k < |xs| && xs[k] != x
      invariant 0 <= k <= |xs|
      invariant x !in xs[..k]
    {
      assert xs[..k + 1] == xs[..k] + [xs[k]];
      k := k + 1;
    }
    if k == |xs| {
      assert xs[..k] == xs;
      k := -1;
    }
    IndexOfUnique(xs, x, k);
  }

  /** The first occurrence is the only index satisfying IndexOf's postcondition. */
  lemma IndexOfUnique<T>(xs: seq<T>, x: T, k: int)
    requires -1 <= k < |xs|
    requires k == -1 ==> x !in xs
    requires k >= 0 ==> xs[k] == x && x !in xs[..k]
    ensures k == IndexOf(xs, x)
  {
  }
}
