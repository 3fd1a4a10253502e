/** The milestone list: the index of the last fulfilled milestone, and the
    rendering rule that shows the milestones up to one past it. Whether a
    milestone is fulfilled depends on the player, which is not part of this
    model; the answers come in as a sequence of flags. */
module Milestones {
  import opened Common

  /** `highestMilestone`: scans every milestone and remembers the last index
      whose milestone is fulfilled, or -1 when none is. */
  method HighestMilestone(fulfilled: seq<bool>) returns (n: int)
    ensures -1 <= n < |fulfilled|
    ensures n == -1 <==> forall i :: 0 <= i < |fulfilled| ==> !fulfilled[i]
    ensures n >= 0 ==> fulfilled[n]
    ensures forall i :: n < i < |fulfilled| ==> !fulfilled[i]
  {
    n := -1;
    for i := 0 to |fulfilled|
      invariant -1 <= n < i
      invariant n == -1 <==> forall j :: 0 <= j < i ==> !fulfilled[j]
      invariant n >= 0 ==> fulfilled[n]
      invariant forall j :: n < j < i ==> !fulfilled[j]
    {
      if fulfilled[i] {
        n := i;
      }
    }
  }

  /** The text of one rendered milestone: a check box and the title. */
  function Line(fulfilled: bool, title: string): string
  {
    "[" + (if fulfilled then "x" else " ") + "] " + title
  }

  /** The rendered list: the milestone at index `i` is shown when
      `i <= n + 1` and is absent otherwise. */
  function Rendered(fulfilled: seq<bool>, titles: seq<string>, n: int): (r: seq<Option<string>>)
    requires |fulfilled| == |titles|
    ensures |r| == |titles|
    ensures forall i :: 0 <= i < |r| ==> (r[i].Some? <==> i <= n + 1)
    ensures forall i :: 0 <= i < |r| && r[i].Some? ==> r[i].value == Line(fulfilled[i], titles[i])
  {
    seq(|titles|, i requires 0 <= i < |titles| => if i <= n + 1 then Some(Line(fulfilled[i], titles[i])) else None)
  }

  /** The number of milestones a rendered list shows. */
  function Shown(r: seq<Option<string>>): nat
  {
    if r == [] then 0 else Shown(r[..|r| - 1]) + (if r[|r| - 1].Some? then 1 else 0)
  }

  /** A list whose first `k` entries are shown and the rest hidden shows
      `k` entries. */
  lemma {:induction false} ShownPrefix(r: seq<Option<string>>, k: nat)
    requires k <= |r|
    requires forall i :: 0 <= i < |r| ==> (r[i].Some? <==> i < k)
    ensures Shown(r) == k
    decreases |r|
  {
    if r != [] {
      var init := r[..|r| - 1];
      if k == |r| {
        ShownPrefix(init, k - 1);
      } else {
        ShownPrefix(init, k);
      }
    }
  }

  /** With `n` the highest fulfilled index, the list shows the first
      `min(n + 2, length)` milestones: every fulfilled one, and the first
      unfulfilled one after them when there is one. */
  lemma ShownCount(fulfilled: seq<bool>, titles: seq<string>, n: int)
    requires |fulfilled| == |titles| && -1 <= n < |fulfilled|
    ensures Shown(Rendered(fulfilled, titles, n)) == if n + 2 <= |titles| then n + 2 else |titles|
  {
    var k := if n + 2 <= |titles| then n + 2 else |titles|;
    ShownPrefix(Rendered(fulfilled, titles, n), k);
  }

  /** Every fulfilled milestone is shown once `n` is the highest fulfilled
      index. */
  lemma FulfilledAreShown(fulfilled: seq<bool>, titles: seq<string>, n: int, i: int)
    requires |fulfilled| == |titles| && 0 <= i < |fulfilled| && fulfilled[i] && -1 <= n
    requires forall j :: n < j < |fulfilled| ==> !fulfilled[j]
    ensures Rendered(fulfilled, titles, n)[i] == Some(Line(true, titles[i]))
  {
  }
}
