/** Concrete instances of the pipeline worked through by hand. */
module WorkedExamples {
  import opened Wrappers
  import opened Series
  import opened Indicators
  import opened Rubric
  import opened Executor
  import opened Scanner

  /** 100000 at 3% risk for an A grade with a close of 50 buys 60 shares. */
  lemma SizingExample()
    ensures Quantity(AccountValue, SizeByGrade(NoSizing, A), 50.0) == 60
  {
    assert AccountValue * 0.03 / 50.0 == 60.0;
  }

  /** Perfect sub-scores under the default weights give composite 1 and grade A+. */
  lemma AllOnesExample()
    ensures CombineScores(Subscores(1.0, 1.0, 1.0, 1.0, 1.0), None).composite == 1.0
    ensures GradeFromScore(1.0) == APlus
  {
  }

  /** The A+/A boundary sits exactly at 0.85. */
  lemma GradeBoundaryExample()
    ensures GradeFromScore(0.85) == APlus
    ensures GradeFromScore(0.84999) == A
    ensures GradeFromScore(-0.5) == F
  {
  }

  /** A 2% move, 2.5x volume, all structure flags and sentiment 0.8 score 0.79, an A. */
  lemma MetricsExample()
    ensures ScoreFromTech(ExampleMetrics()) == Subscores(0.4, 1.0, 1.0, 0.8, 1.0)
    ensures GradePacketForTrade("SPY", ExampleMetrics(), None).composite == 0.79
    ensures GradePacketForTrade("SPY", ExampleMetrics(), None).grade == A
  {
    var m := ExampleMetrics();
    assert BehaviorScore(m) == 0.4;
    assert StructureScore(m) == 1.0;
    assert InstitutionalScore(m) == 1.0;
    assert SentimentScore(m) == 0.8;
    assert ExecutionScore(m) == 1.0;
    var s := ScoreFromTech(m);
    assert s == Subscores(0.4, 1.0, 1.0, 0.8, 1.0);
    assert CombineScores(s, None).composite == 0.79;
    assert GradeFromScore(0.79) == A;
  }

  /** A 2% move, average volume 1000 with 2500 on the last bar, every flag favourable, sentiment 0.8. */
  function ExampleMetrics(): Metrics {
    Metrics(Some(2.0), Some(1000.0), None, None, Some(true), Some(true), Some(true),
            Some(2500.0), Some(true), Some(false), None, Some(0.8))
  }

  /** Six rising one-point bars from 100 to 105, the last on triple volume. */
  function RisingBars(): seq<Bar> {
    [ Bar(0, 100.0,  101.0, 99.0,  100.0, 1000),
      Bar(1, 101.0,  102.0, 100.0, 101.0, 1000),
      Bar(2, 102.0,  103.0, 101.0, 102.0, 1000),
      Bar(3, 103.0,  104.0, 102.0, 103.0, 1000),
      Bar(4, 104.0,  105.0, 103.0, 104.0, 1000),
      Bar(5, 105.0,  106.0, 104.0, 105.0, 3000) ]
  }

  /** The indicators of the rising series: a 5% move, ATR 2, breakout and hold, too short for the 20-bar test. */
  lemma RisingBarsIndicators()
    ensures AtrSimple(RisingBars()) == 2.0
    ensures AverageVolume(RisingBars()) == 8000.0 / 6.0
    ensures PercentChange(RisingBars()) == 5.0
    ensures Breakout(RisingBars()) && Hold2Bars(RisingBars()) && !LastAbove20MA(RisingBars())
  {
    var bars := RisingBars();
    assert forall i :: 0 <= i < |bars| ==> bars[i].h - bars[i].l == 2.0;
    assert Volumes(bars) == [1000.0, 1000.0, 1000.0, 1000.0, 1000.0, 3000.0];
  }

  /** The rising series with sentiment 0.8 scores (1, 0.75, 1, 0.8, 1), composite 0.9075, grade A+. */
  lemma RisingBarsPacket()
    ensures var p := GradePacketForTrade("SPY", ComputeMetrics(RisingBars(), 0.8), None);
      p.composite == 0.9075 && p.grade == APlus
  {
    RisingBarsIndicators();
    var m := ComputeMetrics(RisingBars(), 0.8);
    assert m.vLast == Some(3000.0);
    assert InstitutionalScore(m) == 1.0;
    assert ScoreFromTech(m) == Subscores(1.0, 0.75, 1.0, 0.8, 1.0);
  }

  /** The rising series grades A+ and buys 47 shares at 105 with stop 103 and target 108. */
  lemma DecideExample()
    ensures OrderOf(Decide(Config(None, NoSizing, None), "SPY", Fetched(RisingBars()), 0.8, AccountValue))
         == Some(BuildBracketOrder("SPY", 47, "buy", 105.0, 108.0, 103.0))
  {
    RisingBarsIndicators();
    RisingBarsPacket();
    assert Quantity(AccountValue, 0.05, 105.0) == 47;
  }
}
