/** The one lodash function the user model calls. */
module Lodash {

  /** `_.map(xs, f)` over an array: `f` applied to each element, in order. */
  function Map<A, B>(xs: seq<A>, f: A -> B): (r: seq<B>)
    ensures |r| == |xs|
    ensures forall i :: 0 <= i < |xs| ==> r[i] == f(xs[i])
    decreases |xs|
  {
    if xs == [] then [] else [f(xs[0])] + Map(xs[1..], f)
  }

  /** Mapping with a function that returns its argument copies the array:
      same length, same elements, same order. */
  lemma MapIdentity<A>(xs: seq<A>, f: A -> A)
    requires forall x :: f(x) == x
    ensures Map(xs, f) == xs
  {
  }
}
