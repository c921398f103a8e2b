/** Probability rows and the weighted choice the walkers make.

    A weighted choice over a row `p` of probabilities is modelled the way
    numpy's `random.choice` performs it: one uniform draw `u` in [0, 1) is
    taken, and the chosen index is the first one whose cumulative probability
    exceeds `u` (inverse CDF). */
module Probability {

  /** One uniform random draw. */
  type Draw = u: real | 0.0 <= u < 1.0

  /** Sum of a row of reals. */
  function Sum(p: seq<real>): real
  {
    if p == [] then 0.0 else p[0] + Sum(p[1..])
  }

  predicate NonNegative(p: seq<real>)
  {
    forall i | 0 <= i < |p| :: p[i] >= 0.0
  }

  /** What numpy accepts as the `p` argument of a weighted choice: no
      negative entry and a total of exactly 1 (the floating-point tolerance
      numpy allows is not modelled). */
  predicate IsDistribution(p: seq<real>)
  {
    NonNegative(p) && Sum(p) == 1.0
  }

  lemma {:induction false} SumAppend(p: seq<real>, x: real)
    ensures Sum(p + [x]) == Sum(p) + x
  {
    if p != [] {
      assert (p + [x])[1..] == p[1..] + [x];
      SumAppend(p[1..], x);
    }
  }

  /** The running sum grows by the next element. */
  lemma PrefixSumStep(p: seq<real>, k: nat)
    requires k < |p|
    ensures Sum(p[..k + 1]) == Sum(p[..k]) + p[k]
  {
    assert p[..k + 1] == p[..k] + [p[k]];
    SumAppend(p[..k], p[k]);
  }

  lemma {:induction false} SumNonNegative(p: seq<real>)
    requires NonNegative(p)
    ensures Sum(p) >= 0.0
  {
    if p != [] {
      SumNonNegative(p[1..]);
    }
  }

  /** Index chosen by one draw `u`: the first index whose cumulative
      probability exceeds `u`. The chosen entry always has a positive
      probability, so an impossible transition is never taken. */
  function Sample(p: seq<real>, u: real): (i: nat)
    requires NonNegative(p) && 0.0 <= u < Sum(p)
    ensures i < |p| && p[i] > 0.0
    ensures Sum(p[..i]) <= u < Sum(p[..i]) + p[i]
  {
    if u < p[0] then 0
    else
      var j := Sample(p[1..], u - p[0]);
      assert p[..1 + j][1..] == p[1..][..j];
      1 + j
  }

  /** Conversely, every entry with a positive probability is chosen by some
      draw: the one equal to the cumulative probability before it. */
  lemma {:induction false} SampleReaches(p: seq<real>, i: nat)
    requires NonNegative(p) && i < |p| && p[i] > 0.0
    ensures 0.0 <= Sum(p[..i]) < Sum(p)
    ensures Sample(p, Sum(p[..i])) == i
  {
    SumNonNegative(p[1..]);
    if i > 0 {
      SampleReaches(p[1..], i - 1);
      assert p[..i][1..] == p[1..][..i - 1];
    }
  }
}
