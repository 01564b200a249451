/** Strictly ascending integer lists, shared by the chord and scale interval tables. */
module Sequences {

  /** Every element is larger than every element before it. */
  predicate Ascending(r: seq<int>) {
    forall i, j :: 0 <= i < j < |r| ==> r[i] < r[j]
  }

  /** An ascending list lies between its first and last elements. */
  lemma AscendingBetweenEnds(r: seq<int>)
    requires Ascending(r) && |r| > 0
    ensures forall i :: 0 <= i < |r| ==> r[0] <= r[i] <= r[|r| - 1]
  {
  }
}
