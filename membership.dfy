/** `Array.prototype.includes` on an array of strings, the test both
    server-listing scripts use to validate their arguments. */
module Membership {

  /** Whether `x` is one of the elements of `xs`, scanning from the front. */
  function Includes(xs: seq<string>, x: string): (r: bool)
    ensures r <==> exists i :: 0 <= i < |xs| && xs[i] == x
  {
    if xs == [] then false
    else if xs[0] == x then true
    else
      assert forall i :: 1 <= i < |xs| ==> xs[i] == xs[1..][i - 1];
      Includes(xs[1..], x)
  }
}
