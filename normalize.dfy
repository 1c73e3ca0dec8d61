/**
 * Display normalisation shared by both pages: a biomarker shown as a
 * percentage of its declared maximum, and the arithmetic mean of a list
 * of such percentages.
 */
module Normalize {

  /** `(value / max) * 100`; nothing is clamped, so a value above its maximum gives more than 100. */
  function Percent(value: real, max: real): (p: real)
    requires max > 0.0
    ensures p * max == value * 100.0
    ensures p == 100.0 <==> value == max
    ensures 0.0 <= p <= 100.0 <==> 0.0 <= value <= max
    ensures p > 100.0 <==> value > max
  {
    (value / max) * 100.0
  }

  /** The sum of a list of reals. */
  function Sum(s: seq<real>): real
  {
    if s == [] then 0.0 else s[0] + Sum(s[1..])
  }

  /** The arithmetic mean of a non-empty list (what `np.mean` computes on reals). */
  function Mean(s: seq<real>): (m: real)
    requires |s| > 0
    ensures m * (|s| as real) == Sum(s)
  {
    Sum(s) / (|s| as real)
  }

  /** If every element lies in [lo, hi], the sum lies in [lo * n, hi * n]. */
  lemma {:induction false} SumBounds(s: seq<real>, lo: real, hi: real)
    requires forall i :: 0 <= i < |s| ==> lo <= s[i] <= hi
    ensures lo * (|s| as real) <= Sum(s) <= hi * (|s| as real)
  {
    if s != [] {
      SumBounds(s[1..], lo, hi);
      assert lo <= s[0] <= hi;
      assert |s[1..]| as real + 1.0 == |s| as real;
    }
  }

  /** If every element lies in [lo, hi], so does the mean. */
  lemma MeanBounds(s: seq<real>, lo: real, hi: real)
    requires |s| > 0
    requires forall i :: 0 <= i < |s| ==> lo <= s[i] <= hi
    ensures lo <= Mean(s) <= hi
  {
    SumBounds(s, lo, hi);
  }
}
