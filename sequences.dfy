/**
  Facts about appending one element to a sequence, stated once and proved
  where nothing else is in scope; the recursive definitions of this project
  all take sequences apart at their last element.
 */
module Sequences {

  /** A non-empty sequence is its prefix followed by its last element. */
  lemma SnocParts<T>(xs: seq<T>)
    requires |xs| > 0
    ensures xs == xs[..|xs| - 1] + [xs[|xs| - 1]]
  {
  }

  /** Taking one element back off a sequence. */
  lemma SnocAppend<T>(xs: seq<T>, x: T)
    ensures (xs + [x])[..|xs|] == xs && (xs + [x])[|xs|] == x
  {
  }

  lemma AppendSnoc<T>(xs: seq<T>, ys: seq<T>, x: T)
    ensures xs + (ys + [x]) == (xs + ys) + [x]
  {
  }

  lemma AppendAssociative<T>(xs: seq<T>, ys: seq<T>, zs: seq<T>)
    ensures (xs + ys) + zs == xs + (ys + zs)
  {
  }
}
