/**
 * Summary statistics over a list of yearly values: `reduce((a, b) => a + b, 0)`,
 * `Math.min(...values)`, `Math.max(...values)`, their mean and the percent change
 * between the first and the last value.
 */
module Series {

  function Sum(s: seq<real>): real {
    if s == [] then 0.0 else s[0] + Sum(s[1..])
  }

  /** `Math.min(...s)` on a non-empty list. */
  function Min(s: seq<real>): (m: real)
    requires |s| > 0
    ensures forall i :: 0 <= i < |s| ==> m <= s[i]
    ensures exists i :: 0 <= i < |s| && m == s[i]
  {
    if |s| == 1 then s[0]
    else
      var rest := Min(s[1..]);
      assert forall i :: 1 <= i < |s| ==> s[1..][i - 1] == s[i];
      if s[0] <= rest then s[0] else rest
  }

  /** `Math.max(...s)` on a non-empty list. */
  function Max(s: seq<real>): (m: real)
    requires |s| > 0
    ensures forall i :: 0 <= i < |s| ==> s[i] <= m
    ensures exists i :: 0 <= i < |s| && m == s[i]
  {
    if |s| == 1 then s[0]
    else
      var rest := Max(s[1..]);
      assert forall i :: 1 <= i < |s| ==> s[1..][i - 1] == s[i];
      if s[0] >= rest then s[0] else rest
  }

  function Mean(s: seq<real>): real
    requires |s| > 0
  {
    Sum(s) / |s| as real
  }

  /** Every value lies within n copies of the bounds' range: the sum is between n*min and n*max. */
  lemma {:induction false} SumBetween(s: seq<real>, lo: real, hi: real)
    requires forall i :: 0 <= i < |s| ==> lo <= s[i] <= hi
    ensures |s| as real * lo <= Sum(s) <= |s| as real * hi
  {
    if s != [] {
      assert forall i :: 0 <= i < |s[1..]| ==> s[1..][i] == s[i + 1];
      SumBetween(s[1..], lo, hi);
    }
  }

  /** A mean never leaves the bounds its values keep to. */
  lemma MeanBetween(s: seq<real>, lo: real, hi: real)
    requires |s| > 0
    requires forall i :: 0 <= i < |s| ==> lo <= s[i] <= hi
    ensures lo <= Mean(s) <= hi
  {
    SumBetween(s, lo, hi);
    DivideBounds(Sum(s), |s| as real, lo, hi);
  }

  /** The mean of a non-empty list lies between its minimum and its maximum. */
  lemma MinMeanMax(s: seq<real>)
    requires |s| > 0
    ensures Min(s) <= Mean(s) <= Max(s)
  {
    MeanBetween(s, Min(s), Max(s));
  }

  lemma DivideBounds(total: real, n: real, lo: real, hi: real)
    requires n > 0.0 && n * lo <= total <= n * hi
    ensures lo <= total / n <= hi
  {
  }

  /** `first ? ((last - first) / Math.abs(first)) * 100 : 0`. */
  function PctChange(first: real, last: real): (p: real)
    ensures first == 0.0 ==> p == 0.0
    ensures first != 0.0 ==> (p > 0.0 <==> last > first) && (p < 0.0 <==> last < first)
    ensures first != 0.0 ==> p * (if first < 0.0 then -first else first) == (last - first) * 100.0
  {
    if first != 0.0 then
      var a := if first < 0.0 then -first else first;
      var p := (last - first) / a * 100.0;
      assert p * a == (last - first) * 100.0;
      p
    else 0.0
  }
}
