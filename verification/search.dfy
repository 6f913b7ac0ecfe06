/** Searches over sequences that the registry lookups are built from:
    the first occurrence (Python's `next(...)` over a generator), a filter
    (a list comprehension with a condition) and the last match. */
module Search {
  import opened Wrappers

  /** Index of the first element of `xs` equal to `x`, or None. */
  function FirstIndexOf<T(==)>(xs: seq<T>, x: T): (r: Option<nat>)
    ensures r.Some? ==> r.value < |xs| && xs[r.value] == x && x !in xs[..r.value]
    ensures r.None? <==> x !in xs
  {
    if xs == [] then None
    else if xs[0] == x then Some(0)
    else
      match FirstIndexOf(xs[1..], x)
      case None => None
      case Some(i) =>
        assert xs[..i + 1] == [xs[0]] + xs[1..][..i];
        Some(i + 1)
  }

  /** The elements of `xs` that satisfy `keep`, in their order in `xs`. */
  function Filter<T>(xs: seq<T>, keep: T -> bool): (r: seq<T>)
    ensures |r| <= |xs|
    ensures forall y :: y in r ==> y in xs && keep(y)
    ensures forall i :: 0 <= i < |xs| && keep(xs[i]) ==> xs[i] in r
  {
    if xs == [] then []
    else
      var init, last := xs[..|xs| - 1], xs[|xs| - 1];
      assert forall i :: 0 <= i < |xs| - 1 ==> xs[i] == init[i];
      Filter(init, keep) + (if keep(last) then [last] else [])
  }

  /** Index of the last element of `xs` that satisfies `keep`, or None. */
  function LastIndexWhere<T>(xs: seq<T>, keep: T -> bool): (r: Option<nat>)
    ensures r.Some? ==> r.value < |xs| && keep(xs[r.value])
    ensures r.Some? ==> forall j :: r.value < j < |xs| ==> !keep(xs[j])
    ensures r.None? <==> forall j :: 0 <= j < |xs| ==> !keep(xs[j])
  {
    if xs == [] then None
    else if keep(xs[|xs| - 1]) then Some(|xs| - 1)
    else LastIndexWhere(xs[..|xs| - 1], keep)
  }

  /** Taking the last element of the filtered list is the same as picking
      the last matching element of the original list. */
  lemma {:induction false} FilterLastIsLastMatch<T>(xs: seq<T>, keep: T -> bool)
    ensures |Filter(xs, keep)| > 0 <==> LastIndexWhere(xs, keep).Some?
    ensures |Filter(xs, keep)| > 0 ==>
              Filter(xs, keep)[|Filter(xs, keep)| - 1] == xs[LastIndexWhere(xs, keep).value]
  {
    if xs != [] && !keep(xs[|xs| - 1]) {
      FilterLastIsLastMatch(xs[..|xs| - 1], keep);
    }
  }
}
