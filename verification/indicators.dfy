/** Closed-form technical indicators over a bar series (indicators.py). */
module Indicators {
  import opened Series

  /** Number of closes in the trailing moving average. */
  const MAWindow: nat := 20

  function FirstOpen(bars: seq<Bar>): real
    requires |bars| > 0
  {
    bars[0].o
  }

  function LastClose(bars: seq<Bar>): real
    requires |bars| > 0
  {
    bars[|bars| - 1].c
  }

  /** Percent move from the first bar's open to the last bar's close. */
  function PercentChange(bars: seq<Bar>): (r: real)
    requires |bars| > 0 && FirstOpen(bars) != 0.0
    ensures r * FirstOpen(bars) == (LastClose(bars) - FirstOpen(bars)) * 100.0
    ensures FirstOpen(bars) > 0.0 ==> (r > 0.0 <==> LastClose(bars) > FirstOpen(bars))
  {
    (LastClose(bars) - FirstOpen(bars)) / FirstOpen(bars) * 100.0
  }

  /** Mean volume of the series. */
  function AverageVolume(bars: seq<Bar>): (r: real)
    requires |bars| > 0
    ensures VolumesNonNegative(bars) ==> 0.0 <= r
    ensures (forall i :: 0 <= i < |bars| ==> bars[i].v == bars[0].v) ==> r == bars[0].v as real
  {
    MeanFacts(Volumes(bars));
    Mean(Volumes(bars))
  }

  /** Simplified average true range: the mean of `h - l`, ignoring gaps. */
  function AtrSimple(bars: seq<Bar>): (r: real)
    requires |bars| > 0
    ensures RangesNonNegative(bars) ==> 0.0 <= r
    ensures (forall i :: 0 <= i < |bars| ==> bars[i].h - bars[i].l == bars[0].h - bars[0].l)
            ==> r == bars[0].h - bars[0].l
  {
    MeanFacts(Ranges(bars));
    Mean(Ranges(bars))
  }

  /** Percent move from the first open back down to the last close. */
  function GapFillPct(bars: seq<Bar>): (r: real)
    requires |bars| > 0 && FirstOpen(bars) != 0.0
    ensures r * FirstOpen(bars) == (FirstOpen(bars) - LastClose(bars)) * 100.0
  {
    (FirstOpen(bars) - LastClose(bars)) / FirstOpen(bars) * 100.0
  }

  /** The last `MAWindow` closes, the window of the trailing moving average. */
  function MAWindowCloses(bars: seq<Bar>): (w: seq<real>)
    requires |bars| >= MAWindow
    ensures |w| == MAWindow
    ensures w[MAWindow - 1] == LastClose(bars)
  {
    Closes(bars)[|bars| - MAWindow..]
  }

  /** Whether the last close is above the trailing 20-bar mean of closes. */
  function LastAbove20MA(bars: seq<Bar>): (r: bool)
    ensures |bars| < MAWindow ==> !r
  {
    if |bars| < MAWindow then false
    else LastClose(bars) > Mean(MAWindowCloses(bars))
  }

  /** Percent move from `level` to the last close. */
  function PctReclaimOfLevel(bars: seq<Bar>, level: real): (r: real)
    requires |bars| > 0 && level != 0.0
    ensures r * level == (LastClose(bars) - level) * 100.0
  {
    (LastClose(bars) - level) / level * 100.0
  }

  // ---------------------------------------------------------------------------
  // Properties relating the indicators to each other and to their inputs.

  /** The gap-fill percentage is the exact negation of the percent change. */
  lemma GapFillIsNegatedPercentChange(bars: seq<Bar>)
    requires |bars| > 0 && FirstOpen(bars) != 0.0
    ensures GapFillPct(bars) == -PercentChange(bars)
  {
  }

  /** Reclaim of the first open is the open-to-close percent change. */
  lemma ReclaimOfFirstOpenIsPercentChange(bars: seq<Bar>)
    requires |bars| > 0 && FirstOpen(bars) != 0.0
    ensures PctReclaimOfLevel(bars, FirstOpen(bars)) == PercentChange(bars)
  {
  }

  /** Average volume lies between any bounds on the bars' volumes; in particular it is non-negative. */
  lemma AverageVolumeBetween(bars: seq<Bar>, lo: real, hi: real)
    requires |bars| > 0
    requires forall i :: 0 <= i < |bars| ==> lo <= bars[i].v as real <= hi
    ensures lo <= AverageVolume(bars) <= hi
  {
    MeanBetween(Volumes(bars), lo, hi);
  }

  /** With non-negative volumes the average volume is non-negative. */
  lemma AverageVolumeNonNegative(bars: seq<Bar>)
    requires |bars| > 0 && VolumesNonNegative(bars)
    ensures 0.0 <= AverageVolume(bars)
  {
    SumAtLeast(Volumes(bars), 0.0);
  }

  /** The simplified ATR lies between any bounds on the bars' ranges. */
  lemma AtrBetween(bars: seq<Bar>, lo: real, hi: real)
    requires |bars| > 0
    requires forall i :: 0 <= i < |bars| ==> lo <= bars[i].h - bars[i].l <= hi
    ensures lo <= AtrSimple(bars) <= hi
  {
    MeanBetween(Ranges(bars), lo, hi);
  }

  /** When every bar has `h >= l` the simplified ATR is non-negative. */
  lemma AtrNonNegative(bars: seq<Bar>)
    requires |bars| > 0 && RangesNonNegative(bars)
    ensures 0.0 <= AtrSimple(bars)
  {
    SumAtLeast(Ranges(bars), 0.0);
  }

  /** A last close strictly above the 19 closes before it is above the 20-bar mean. */
  lemma LastAbove20MAOnNewHigh(bars: seq<Bar>)
    requires |bars| >= MAWindow
    requires forall i :: |bars| - MAWindow <= i < |bars| - 1 ==> bars[i].c < LastClose(bars)
    ensures LastAbove20MA(bars)
  {
    var w := MAWindowCloses(bars);
    var last := LastClose(bars);
    var head := w[..MAWindow - 1];
    assert w == head + [last];
    SumAppend(head, [last]);
    assert Sum([last]) == last;
    forall i | 0 <= i < |head|
      ensures head[i] < last
    {
      assert head[i] == bars[|bars| - MAWindow + i].c;
    }
    SumBelow(head, last);
  }

  /** Being above the 20-bar mean needs some earlier close in the window below the last close. */
  lemma LastAbove20MANeedsLowerClose(bars: seq<Bar>)
    requires LastAbove20MA(bars)
    ensures exists i :: |bars| - MAWindow <= i < |bars| - 1 && bars[i].c < LastClose(bars)
  {
    var w := MAWindowCloses(bars);
    var last := LastClose(bars);
    if forall i :: |bars| - MAWindow <= i < |bars| - 1 ==> last <= bars[i].c {
      forall k | 0 <= k < |w|
        ensures last <= w[k]
      {
        assert w[k] == bars[|bars| - MAWindow + k].c;
      }
      SumAtLeast(w, last);
      assert false;
    }
  }

  /** Only the last `MAWindow` bars matter: older history does not change the answer. */
  lemma LastAbove20MAIgnoresHistory(older: seq<Bar>, bars: seq<Bar>)
    requires |bars| >= MAWindow
    ensures LastAbove20MA(older + bars) == LastAbove20MA(bars)
  {
    assert MAWindowCloses(older + bars) == MAWindowCloses(bars);
  }
}
