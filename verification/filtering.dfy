/** Keeping the elements of a list that satisfy a condition, in their order. */
module Filtering {

  function Filter<T(!new)>(keep: T -> bool, s: seq<T>): (r: seq<T>)
    ensures forall x :: x in r <==> x in s && keep(x)
  {
    if s == [] then []
    else
      var earlier, last := Filter(keep, s[..|s| - 1]), s[|s| - 1];
      assert forall x :: x in s <==> x in s[..|s| - 1] || x == last;
      if keep(last) then earlier + [last] else earlier
  }

  /** Filtering keeps order and repetitions: what it makes of two lists in a row is what it makes of each, in a row. */
  lemma {:induction false} FilterConcat<T(!new)>(keep: T -> bool, a: seq<T>, b: seq<T>)
    ensures Filter(keep, a + b) == Filter(keep, a) + Filter(keep, b)
    decreases |b|
  {
    if b == [] {
      assert a + b == a;
    } else {
      assert (a + b)[..|a + b| - 1] == a + b[..|b| - 1];
      FilterConcat(keep, a, b[..|b| - 1]);
    }
  }

  lemma FilterAround<T(!new)>(keep: T -> bool, a: seq<T>, x: T, b: seq<T>)
    ensures Filter(keep, a + [x] + b) == Filter(keep, a) + (if keep(x) then [x] else []) + Filter(keep, b)
  {
    FilterConcat(keep, a + [x], b);
    FilterConcat(keep, a, [x]);
  }
}
