/**
 * Bar series: one OHLCV sample per minute, oldest first, together with the
 * column projections and the sum/mean helpers that replace pandas' column
 * arithmetic.
 */
module Series {

  /** One bar: timestamp, open, high, low, close and (integer) volume. */
  datatype Bar = Bar(t: int, o: real, h: real, l: real, c: real, v: int)

  /** Every bar's high is at least its low. */
  predicate RangesNonNegative(bars: seq<Bar>) {
    forall i :: 0 <= i < |bars| ==> bars[i].l <= bars[i].h
  }

  /** Every bar's volume is non-negative. */
  predicate VolumesNonNegative(bars: seq<Bar>) {
    forall i :: 0 <= i < |bars| ==> 0 <= bars[i].v
  }

  /** The close column. */
  function Closes(bars: seq<Bar>): (r: seq<real>)
    ensures |r| == |bars|
    ensures forall i :: 0 <= i < |bars| ==> r[i] == bars[i].c
  {
    seq(|bars|, i requires 0 <= i < |bars| => bars[i].c)
  }

  /** The volume column, as reals. */
  function Volumes(bars: seq<Bar>): (r: seq<real>)
    ensures |r| == |bars|
    ensures forall i :: 0 <= i < |bars| ==> r[i] == bars[i].v as real
  {
    seq(|bars|, i requires 0 <= i < |bars| => bars[i].v as real)
  }

  /** The per-bar range column `h - l`. */
  function Ranges(bars: seq<Bar>): (r: seq<real>)
    ensures |r| == |bars|
    ensures forall i :: 0 <= i < |bars| ==> r[i] == bars[i].h - bars[i].l
  {
    seq(|bars|, i requires 0 <= i < |bars| => bars[i].h - bars[i].l)
  }

  function Sum(xs: seq<real>): real
  {
    if |xs| == 0 then 0.0 else xs[0] + Sum(xs[1..])
  }

  /** Arithmetic mean; pandas' `Series.mean()` on a non-empty column. */
  function Mean(xs: seq<real>): real
    requires |xs| > 0
  {
    Sum(xs) / (|xs| as real)
  }

  /** Summing splits over concatenation. */
  lemma {:induction false} SumAppend(xs: seq<real>, ys: seq<real>)
    ensures Sum(xs + ys) == Sum(xs) + Sum(ys)
  {
    if |xs| == 0 {
      assert xs + ys == ys;
    } else {
      assert (xs + ys)[1..] == xs[1..] + ys;
      SumAppend(xs[1..], ys);
    }
  }

  /** A lower bound on every element bounds the sum from below. */
  lemma {:induction false} SumAtLeast(xs: seq<real>, lo: real)
    requires forall i :: 0 <= i < |xs| ==> lo <= xs[i]
    ensures lo * (|xs| as real) <= Sum(xs)
  {
    if |xs| > 0 {
      SumAtLeast(xs[1..], lo);
    }
  }

  /** An upper bound on every element bounds the sum from above. */
  lemma {:induction false} SumAtMost(xs: seq<real>, hi: real)
    requires forall i :: 0 <= i < |xs| ==> xs[i] <= hi
    ensures Sum(xs) <= hi * (|xs| as real)
  {
    if |xs| > 0 {
      SumAtMost(xs[1..], hi);
    }
  }

  /** A strict upper bound on every element of a non-empty sequence bounds the sum strictly. */
  lemma {:induction false} SumBelow(xs: seq<real>, hi: real)
    requires |xs| > 0
    requires forall i :: 0 <= i < |xs| ==> xs[i] < hi
    ensures Sum(xs) < hi * (|xs| as real)
  {
    if |xs| > 1 {
      SumBelow(xs[1..], hi);
    }
  }

  /** The mean lies between any common lower and upper bound of the elements. */
  lemma MeanBetween(xs: seq<real>, lo: real, hi: real)
    requires |xs| > 0
    requires forall i :: 0 <= i < |xs| ==> lo <= xs[i] <= hi
    ensures lo <= Mean(xs) <= hi
  {
    SumAtLeast(xs, lo);
    SumAtMost(xs, hi);
  }

  /** The mean of non-negative values is non-negative, and the mean of a constant sequence is that constant. */
  lemma MeanFacts(xs: seq<real>)
    requires |xs| > 0
    ensures (forall i :: 0 <= i < |xs| ==> 0.0 <= xs[i]) ==> 0.0 <= Mean(xs)
    ensures (forall i :: 0 <= i < |xs| ==> xs[i] == xs[0]) ==> Mean(xs) == xs[0]
  {
    if forall i :: 0 <= i < |xs| ==> 0.0 <= xs[i] {
      SumAtLeast(xs, 0.0);
    }
    if forall i :: 0 <= i < |xs| ==> xs[i] == xs[0] {
      MeanBetween(xs, xs[0], xs[0]);
    }
  }
}
