/** Counting the elements of a sequence that satisfy a predicate. */
module Sequences {

  /** Number of elements of `xs` that satisfy `p` (the `xs.filter(p).length` idiom). */
  function Count<T>(xs: seq<T>, p: T -> bool): (n: nat)
    ensures n <= |xs|
  {
    if xs == [] then 0 else (if p(xs[0]) then 1 else 0) + Count(xs[1..], p)
  }

  lemma {:induction false} CountAppend<T>(xs: seq<T>, ys: seq<T>, p: T -> bool)
    ensures Count(xs + ys, p) == Count(xs, p) + Count(ys, p)
  {
    if xs == [] {
      assert xs + ys == ys;
    } else {
      assert (xs + ys)[1..] == xs[1..] + ys;
      CountAppend(xs[1..], ys, p);
    }
  }

  /** No element satisfies `p`, so none is counted. */
  lemma {:induction false} CountNone<T>(xs: seq<T>, p: T -> bool)
    requires forall i | 0 <= i < |xs| :: !p(xs[i])
    ensures Count(xs, p) == 0
  {
    if xs != [] {
      CountNone(xs[1..], p);
    }
  }

  /** Exactly the element at `k` satisfies `p`, so one is counted. */
  lemma {:induction false} CountOne<T>(xs: seq<T>, k: nat, p: T -> bool)
    requires k < |xs| && p(xs[k])
    requires forall i | 0 <= i < |xs| && i != k :: !p(xs[i])
    ensures Count(xs, p) == 1
  {
    if k == 0 {
      CountNone(xs[1..], p);
    } else {
      CountOne(xs[1..], k - 1, p);
    }
  }
}
