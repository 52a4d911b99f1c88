/** Order-preserving filtering and mapping of sequences. */
module Seqs {

  /** The items that `keep` accepts, in their original order. */
  function Filter<T(!new)>(items: seq<T>, keep: T -> bool): (r: seq<T>)
    ensures |r| <= |items|
    ensures forall x :: x in r <==> x in items && keep(x)
  {
    if items == [] then []
    else
      var last := items[|items| - 1];
      Filter(items[..|items| - 1], keep) + (if keep(last) then [last] else [])
  }

  /** `f` applied to each item, in order. */
  function Map<T, U>(items: seq<T>, f: T -> U): (r: seq<U>)
    ensures |r| == |items|
    ensures forall i :: 0 <= i < |items| ==> r[i] == f(items[i])
  {
    if items == [] then []
    else Map(items[..|items| - 1], f) + [f(items[|items| - 1])]
  }

  /** A non-empty sequence is its prefix followed by its last item, and the prefix
      holds only items of the sequence. */
  lemma SplitLast<T>(items: seq<T>)
    requires items != []
    ensures items[..|items| - 1] + [items[|items| - 1]] == items
    ensures forall x :: x in items[..|items| - 1] ==> x in items
  {
  }
}
