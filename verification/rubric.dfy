/**
 * The grading rubric (rubric.py): metrics -> five sub-scores in [0,1] ->
 * weighted composite -> letter grade.
 */
module Rubric {
  import opened Wrappers

  /**
   * The metrics dictionary handed to the rubric.  Every key may be missing;
   * the rubric reads each with its own default.
   */
  datatype Metrics = Metrics(
    percentChange: Option<real>,
    avgVolume: Option<real>,
    atr: Option<real>,
    gapPct: Option<real>,
    lastAbove20ma: Option<bool>,
    breakoutConfirmed: Option<bool>,
    hold2bars: Option<bool>,
    vLast: Option<real>,
    duringAllowedHours: Option<bool>,
    gexFlatOrPos: Option<bool>,
    darkPoolFlag: Option<bool>,
    sentimentScore: Option<real>)

  /** The five category scores. */
  datatype Subscores = Subscores(
    behavior: real,
    structure: real,
    institutional: real,
    sentiment: real,
    execution: real)

  predicate InUnit(x: real) {
    0.0 <= x <= 1.0
  }

  predicate AllInUnit(s: Subscores) {
    InUnit(s.behavior) && InUnit(s.structure) && InUnit(s.institutional)
    && InUnit(s.sentiment) && InUnit(s.execution)
  }

  function Abs(x: real): real {
    if x < 0.0 then -x else x
  }

  function Min(a: real, b: real): real {
    if a <= b then a else b
  }

  function Max(a: real, b: real): real {
    if a >= b then a else b
  }

  /** Clamp into [0,1]: values inside are kept, values outside go to the nearer end. */
  function Clamp01(x: real): (r: real)
    ensures InUnit(r)
    ensures InUnit(x) ==> r == x
    ensures x < 0.0 ==> r == 0.0
    ensures x > 1.0 ==> r == 1.0
  {
    Max(0.0, Min(1.0, x))
  }

  lemma Clamp01Monotone(x: real, y: real)
    requires x <= y
    ensures Clamp01(x) <= Clamp01(y)
  {
  }

  // ---------------------------------------------------------------------------
  // Sub-scores

  /** Behaviour: a 5% move (either direction) or more scores 1, smaller moves scale linearly. */
  function BehaviorScore(m: Metrics): (r: real)
    ensures InUnit(r)
    ensures Abs(m.percentChange.GetOr(0.0)) >= 5.0 ==> r == 1.0
    ensures Abs(m.percentChange.GetOr(0.0)) < 5.0 ==> r * 5.0 == Abs(m.percentChange.GetOr(0.0))
  {
    var pct := Abs(m.percentChange.GetOr(0.0));
    Clamp01(Min(pct / 5.0, 1.0))
  }

  /** Behaviour never decreases as the size of the move grows. */
  lemma BehaviorMonotone(m1: Metrics, m2: Metrics)
    requires Abs(m1.percentChange.GetOr(0.0)) <= Abs(m2.percentChange.GetOr(0.0))
    ensures BehaviorScore(m1) <= BehaviorScore(m2)
  {
  }

  function Flag(b: Option<bool>): bool {
    b.GetOr(false)
  }

  /** Structure: 0.5 for a confirmed breakout, 0.25 each for above-20MA and a 2-bar hold. */
  function StructureScore(m: Metrics): (r: real)
    ensures r == (if Flag(m.breakoutConfirmed) then 0.5 else 0.0)
               + (if Flag(m.lastAbove20ma) then 0.25 else 0.0)
               + (if Flag(m.hold2bars) then 0.25 else 0.0)
    ensures r in {0.0, 0.25, 0.5, 0.75, 1.0}
    ensures Flag(m.breakoutConfirmed) ==> r >= 0.5
    ensures r > 0.5 ==> Flag(m.breakoutConfirmed)
    ensures r == 1.0 <==> Flag(m.breakoutConfirmed) && Flag(m.lastAbove20ma) && Flag(m.hold2bars)
    ensures r == 0.0 <==> !Flag(m.breakoutConfirmed) && !Flag(m.lastAbove20ma) && !Flag(m.hold2bars)
  {
    var s0 := 0.0;
    var s1 := if Flag(m.breakoutConfirmed) then s0 + 0.5 else s0;
    var s2 := if Flag(m.lastAbove20ma) then s1 + 0.25 else s1;
    var s3 := if Flag(m.hold2bars) then s2 + 0.25 else s2;
    assert InUnit(s3);
    Clamp01(s3)
  }

  /** Institutional before any dark-pool penalty: half the last-bar volume ratio, capped at 1. */
  function VolumeSpikeScore(m: Metrics): (r: real)
    ensures InUnit(r)
    ensures m.avgVolume.GetOr(1.0) <= 0.0 ==> r == 0.0
    ensures (m.avgVolume.GetOr(1.0) > 0.0 && m.vLast.GetOr(0.0) >= 2.0 * m.avgVolume.GetOr(1.0)) ==> r == 1.0
    ensures (m.avgVolume.GetOr(1.0) > 0.0 && 0.0 <= m.vLast.GetOr(0.0) <= 2.0 * m.avgVolume.GetOr(1.0))
            ==> r * (2.0 * m.avgVolume.GetOr(1.0)) == m.vLast.GetOr(0.0)
    ensures (m.avgVolume.GetOr(1.0) > 0.0 && m.vLast.GetOr(0.0) < 0.0) ==> r == 0.0
  {
    var v := m.vLast.GetOr(0.0);
    var avg := m.avgVolume.GetOr(1.0);
    if avg > 0.0 then
      SpikeRegimes(v, avg);
      Clamp01(Min(v / avg / 2.0, 1.0))
    else 0.0
  }

  /** Dividing by a positive number preserves order. */
  lemma DivMonotone(x1: real, x2: real, d: real)
    requires x1 <= x2 && 0.0 < d
    ensures x1 / d <= x2 / d
  {
    assert x1 / d == x1 * (1.0 / d) && x2 / d == x2 * (1.0 / d);
    ScaleMonotone(x1, x2, 1.0 / d);
  }

  /** The three regimes of the capped half volume ratio for a positive average. */
  lemma SpikeRegimes(v: real, avg: real)
    requires 0.0 < avg
    ensures v >= 2.0 * avg ==> Clamp01(Min(v / avg / 2.0, 1.0)) == 1.0
    ensures 0.0 <= v <= 2.0 * avg ==> Clamp01(Min(v / avg / 2.0, 1.0)) * (2.0 * avg) == v
    ensures v < 0.0 ==> Clamp01(Min(v / avg / 2.0, 1.0)) == 0.0
  {
    HalfRatioBounds(v, avg);
    if 0.0 <= v <= 2.0 * avg {
      HalfRatioTimes(v, avg);
    }
  }

  /** The half ratio is at least 1 from twice the average up, in [0,1] below it, negative for negative volume. */
  lemma HalfRatioBounds(v: real, avg: real)
    requires 0.0 < avg
    ensures v >= 2.0 * avg ==> v / avg / 2.0 >= 1.0
    ensures 0.0 <= v <= 2.0 * avg ==> 0.0 <= v / avg / 2.0 <= 1.0
    ensures v < 0.0 ==> v / avg / 2.0 < 0.0
  {
    assert (2.0 * avg) / avg == 2.0;
    assert 0.0 / avg == 0.0;
    if v >= 2.0 * avg {
      DivMonotone(2.0 * avg, v, avg);
    } else if v >= 0.0 {
      DivMonotone(0.0, v, avg);
      DivMonotone(v, 2.0 * avg, avg);
    } else {
      assert v / avg < 0.0;
    }
  }

  /** Scaling the half ratio back by twice the average recovers the volume. */
  lemma HalfRatioTimes(v: real, avg: real)
    requires 0.0 < avg
    ensures (v / avg / 2.0) * (2.0 * avg) == v
  {
    var r := v / avg;
    assert r * avg == v;
    assert (r / 2.0) * 2.0 == r;
    assert (r / 2.0) * (2.0 * avg) == ((r / 2.0) * 2.0) * avg;
  }

  /** Institutional: the volume-spike score, less 0.3 (floored at 0) under a dark-pool flag. */
  function InstitutionalScore(m: Metrics): (r: real)
    ensures InUnit(r)
    ensures !Flag(m.darkPoolFlag) ==> r == VolumeSpikeScore(m)
    ensures Flag(m.darkPoolFlag) ==> r == Max(0.0, VolumeSpikeScore(m) - 0.3)
    ensures m.avgVolume.GetOr(1.0) <= 0.0 ==> r == 0.0
    ensures (m.avgVolume.GetOr(1.0) > 0.0 && m.vLast.GetOr(0.0) >= 2.0 * m.avgVolume.GetOr(1.0)
             && !Flag(m.darkPoolFlag)) ==> r == 1.0
    ensures Flag(m.darkPoolFlag) ==> r <= 0.7
  {
    var inst := VolumeSpikeScore(m);
    if Flag(m.darkPoolFlag) then Max(0.0, inst - 0.3) else inst
  }

  /** Institutional never decreases as the last-bar volume grows, other keys fixed. */
  lemma InstitutionalMonotoneInVolume(m: Metrics, v1: real, v2: real)
    requires v1 <= v2
    ensures InstitutionalScore(m.(vLast := Some(v1))) <= InstitutionalScore(m.(vLast := Some(v2)))
  {
    var avg := m.avgVolume.GetOr(1.0);
    if avg > 0.0 {
      DivMonotone(v1, v2, avg);
      DivMonotone(v1 / avg, v2 / avg, 2.0);
      Clamp01Monotone(Min(v1 / avg / 2.0, 1.0), Min(v2 / avg / 2.0, 1.0));
      assert VolumeSpikeScore(m.(vLast := Some(v1))) <= VolumeSpikeScore(m.(vLast := Some(v2)));
    }
  }

  /** Sentiment: the supplied score clamped, 0.5 when absent. */
  function SentimentScore(m: Metrics): (r: real)
    ensures InUnit(r)
    ensures m.sentimentScore.None? ==> r == 0.5
    ensures m.sentimentScore.Some? && InUnit(m.sentimentScore.value) ==> r == m.sentimentScore.value
    ensures m.sentimentScore.Some? && m.sentimentScore.value < 0.0 ==> r == 0.0
    ensures m.sentimentScore.Some? && m.sentimentScore.value > 1.0 ==> r == 1.0
  {
    Clamp01(m.sentimentScore.GetOr(0.5))
  }

  /** Execution: a hard gate, 0 outside allowed hours or when the GEX flag is set, 1 otherwise. */
  function ExecutionScore(m: Metrics): (r: real)
    ensures r == 0.0 || r == 1.0
    ensures r == 0.0 <==> !m.duringAllowedHours.GetOr(true) || m.gexFlatOrPos.GetOr(false)
    ensures m.duringAllowedHours.None? && m.gexFlatOrPos.None? ==> r == 1.0
  {
    var e0 := 1.0;
    var e1 := if !m.duringAllowedHours.GetOr(true) then 0.0 else e0;
    if m.gexFlatOrPos.GetOr(false) then 0.0 else e1
  }

  /** All five sub-scores; each lies in [0,1]. */
  function ScoreFromTech(m: Metrics): (r: Subscores)
    ensures AllInUnit(r)
    ensures r.structure in {0.0, 0.25, 0.5, 0.75, 1.0}
    ensures r.execution == 0.0 || r.execution == 1.0
  {
    Subscores(BehaviorScore(m), StructureScore(m), InstitutionalScore(m),
              SentimentScore(m), ExecutionScore(m))
  }

  // ---------------------------------------------------------------------------
  // Composite

  /** One weight-table entry, an item of the weights dictionary. */
  datatype Weight = Weight(key: string, w: real)

  type Weights = seq<Weight>

  const DefaultWeights: Weights := [
    Weight("behavior", 0.30),
    Weight("structure", 0.25),
    Weight("institutional", 0.20),
    Weight("sentiment", 0.15),
    Weight("execution", 0.10)
  ]

  /** A sub-score by category name; an unknown name reads as 0. */
  function SubscoreOf(s: Subscores, key: string): real {
    if key == "behavior" then s.behavior
    else if key == "structure" then s.structure
    else if key == "institutional" then s.institutional
    else if key == "sentiment" then s.sentiment
    else if key == "execution" then s.execution
    else 0.0
  }

  /** One entry's contribution: its category's sub-score times its weight. */
  function Term(s: Subscores, e: Weight): real {
    SubscoreOf(s, e.key) * e.w
  }

  /** Sum over the weight entries of sub-score times weight. */
  function WeightedSum(s: Subscores, ws: Weights): real
  {
    if |ws| == 0 then 0.0 else Term(s, ws[0]) + WeightedSum(s, ws[1..])
  }

  /** Summing splits over concatenated weight tables. */
  lemma {:induction false} WeightedSumAppend(s: Subscores, a: Weights, b: Weights)
    ensures WeightedSum(s, a + b) == WeightedSum(s, a) + WeightedSum(s, b)
  {
    if |a| == 0 {
      assert a + b == b;
    } else {
      assert (a + b)[1..] == a[1..] + b;
      WeightedSumAppend(s, a[1..], b);
    }
  }

  lemma WeightedSumSingle(s: Subscores, e: Weight)
    ensures WeightedSum(s, [e]) == Term(s, e)
  {
    assert [e][1..] == [];
  }

  /** Appending one entry adds that entry's term. */
  lemma WeightedSumSnoc(s: Subscores, a: Weights, e: Weight)
    ensures WeightedSum(s, a + [e]) == WeightedSum(s, a) + Term(s, e)
  {
    WeightedSumAppend(s, a, [e]);
    WeightedSumSingle(s, e);
  }

  /** The accumulation loop: add each entry's sub-score times weight, in table order. */
  method AccumulateComposite(s: Subscores, ws: Weights) returns (composite: real)
    ensures composite == WeightedSum(s, ws)
  {
    composite := 0.0;
    var i := 0;
    while i < |ws|
      invariant 0 <= i <= |ws|
      invariant composite == WeightedSum(s, ws[..i])
    {
      assert ws[..i + 1] == ws[..i] + [ws[i]];
      WeightedSumSnoc(s, ws[..i], ws[i]);
      composite := composite + SubscoreOf(s, ws[i].key) * ws[i].w;
      i := i + 1;
    }
    assert ws[..i] == ws;
  }

  function TotalWeight(ws: Weights): real
  {
    if |ws| == 0 then 0.0 else ws[0].w + TotalWeight(ws[1..])
  }

  predicate NonNegativeWeights(ws: Weights) {
    forall i :: 0 <= i < |ws| ==> 0.0 <= ws[i].w
  }

  /** `s1` is at most `s2` in every category. */
  predicate Dominated(s1: Subscores, s2: Subscores) {
    s1.behavior <= s2.behavior && s1.structure <= s2.structure
    && s1.institutional <= s2.institutional && s1.sentiment <= s2.sentiment
    && s1.execution <= s2.execution
  }

  /** Result of combining: the composite and the sub-scores it came from. */
  datatype Combined = Combined(composite: real, components: Subscores)

  /** Weighted composite under the given weights, or the default weights when none are given. */
  function CombineScores(s: Subscores, weights: Option<Weights>): (r: Combined)
    ensures r.components == s
    ensures weights.Some? ==> r.composite == WeightedSum(s, weights.value)
    ensures weights.None? ==> (r.composite == 0.30 * s.behavior + 0.25 * s.structure
              + 0.20 * s.institutional + 0.15 * s.sentiment + 0.10 * s.execution)
  {
    DefaultComposite(s);
    Combined(WeightedSum(s, weights.GetOr(DefaultWeights)), s)
  }

  /** Under the default weights the composite is the fixed 30/25/20/15/10 blend. */
  lemma DefaultComposite(s: Subscores)
    ensures WeightedSum(s, DefaultWeights) == 0.30 * s.behavior + 0.25 * s.structure
              + 0.20 * s.institutional + 0.15 * s.sentiment + 0.10 * s.execution
  {
    var ws := DefaultWeights;
    assert WeightedSum(s, ws[4..]) == 0.10 * s.execution;
    assert WeightedSum(s, ws[3..]) == 0.15 * s.sentiment + WeightedSum(s, ws[4..]);
    assert WeightedSum(s, ws[2..]) == 0.20 * s.institutional + WeightedSum(s, ws[3..]);
    assert WeightedSum(s, ws[1..]) == 0.25 * s.structure + WeightedSum(s, ws[2..]);
  }

  lemma DefaultWeightsTotalOne()
    ensures NonNegativeWeights(DefaultWeights)
    ensures TotalWeight(DefaultWeights) == 1.0
  {
    var ws := DefaultWeights;
    assert ws[1..][1..][1..][1..][1..] == [];
  }

  /** With non-negative weights and unit sub-scores the composite lies in [0, total weight]. */
  lemma {:induction false} WeightedSumBounds(s: Subscores, ws: Weights)
    requires AllInUnit(s) && NonNegativeWeights(ws)
    ensures 0.0 <= WeightedSum(s, ws) <= TotalWeight(ws)
  {
    if |ws| > 0 {
      TermBounds(s, ws[0]);
      WeightedSumBounds(s, ws[1..]);
    }
  }

  /** With non-negative weights the composite is monotone in every sub-score. */
  lemma {:induction false} WeightedSumMonotone(s1: Subscores, s2: Subscores, ws: Weights)
    requires Dominated(s1, s2) && NonNegativeWeights(ws)
    ensures WeightedSum(s1, ws) <= WeightedSum(s2, ws)
  {
    if |ws| > 0 {
      TermMonotone(s1, s2, ws[0]);
      WeightedSumMonotone(s1, s2, ws[1..]);
    }
  }

  lemma TermBounds(s: Subscores, e: Weight)
    requires AllInUnit(s) && 0.0 <= e.w
    ensures 0.0 <= Term(s, e) <= e.w
  {
    var x := SubscoreOf(s, e.key);
    assert 0.0 <= x <= 1.0;
    ScaleMonotone(0.0, x, e.w);
    ScaleMonotone(x, 1.0, e.w);
    assert 0.0 * e.w == 0.0 && 1.0 * e.w == e.w;
    assert Term(s, e) == x * e.w;
    assert x * e.w <= e.w;
    assert 0.0 <= x * e.w;
  }

  lemma TermMonotone(s1: Subscores, s2: Subscores, e: Weight)
    requires Dominated(s1, s2) && 0.0 <= e.w
    ensures Term(s1, e) <= Term(s2, e)
  {
    SubscoreOfDominated(s1, s2, e.key);
    ScaleMonotone(SubscoreOf(s1, e.key), SubscoreOf(s2, e.key), e.w);
  }

  lemma SubscoreOfDominated(s1: Subscores, s2: Subscores, key: string)
    requires Dominated(s1, s2)
    ensures SubscoreOf(s1, key) <= SubscoreOf(s2, key)
  {
  }

  lemma ScaleMonotone(x1: real, x2: real, w: real)
    requires x1 <= x2 && 0.0 <= w
    ensures x1 * w <= x2 * w
  {
    assert (x2 - x1) * w >= 0.0;
  }

  /** Default-weight composite of unit sub-scores is itself in [0,1]. */
  lemma DefaultCompositeInUnit(s: Subscores)
    requires AllInUnit(s)
    ensures InUnit(CombineScores(s, None).composite)
  {
    DefaultWeightsTotalOne();
    WeightedSumBounds(s, DefaultWeights);
  }

  // ---------------------------------------------------------------------------
  // Grades

  datatype Grade = APlus | A | B | C | F

  /** Position of a grade in the order F < C < B < A < A+. */
  function Rank(g: Grade): nat {
    match g
    case APlus => 4
    case A => 3
    case B => 2
    case C => 1
    case F => 0
  }

  datatype Tier = Tier(threshold: real, grade: Grade)

  /** Tiers from best to worst; the first whose threshold the score reaches wins. */
  const GradeThresholds: seq<Tier> := [
    Tier(0.85, APlus),
    Tier(0.75, A),
    Tier(0.60, B),
    Tier(0.40, C),
    Tier(0.0, F)
  ]

  /** The grade of the first tier whose threshold is at most `score`, or F when none is. */
  function FirstTier(table: seq<Tier>, score: real): (g: Grade)
    ensures (forall i :: 0 <= i < |table| ==> score < table[i].threshold) ==> g == F
    ensures forall i :: (0 <= i < |table| && table[i].threshold <= score
              && (forall j :: 0 <= j < i ==> score < table[j].threshold)) ==> g == table[i].grade
  {
    if |table| == 0 then F
    else if score >= table[0].threshold then table[0].grade
    else
      var g := FirstTier(table[1..], score);
      assert forall i :: 1 <= i < |table| ==> table[i] == table[1..][i - 1];
      g
  }

  /** Thresholds and grade ranks both descend along the table, and every grade ranks at least F. */
  predicate Descending(table: seq<Tier>) {
    forall i, j :: 0 <= i < j < |table| ==>
      table[j].threshold <= table[i].threshold && Rank(table[j].grade) <= Rank(table[i].grade)
  }

  /** Lookup in a descending table is monotone: a higher score never gets a lower grade. */
  lemma {:induction false} FirstTierMonotone(table: seq<Tier>, s1: real, s2: real)
    requires Descending(table) && s1 <= s2
    ensures Rank(FirstTier(table, s1)) <= Rank(FirstTier(table, s2))
  {
    if |table| > 0 && s2 < table[0].threshold {
      FirstTierMonotone(table[1..], s1, s2);
    } else if |table| > 0 && s1 < table[0].threshold {
      // s2 stops at the head; s1 stops later (or falls through to F), which ranks no higher.
      FirstTierRankBound(table[1..], s1, Rank(table[0].grade));
    }
  }

  /** In a descending tail every result ranks at most `bound` when every tail grade does. */
  lemma {:induction false} FirstTierRankBound(table: seq<Tier>, score: real, bound: nat)
    requires forall i :: 0 <= i < |table| ==> Rank(table[i].grade) <= bound
    ensures Rank(FirstTier(table, score)) <= bound
  {
    if |table| > 0 && score < table[0].threshold {
      FirstTierRankBound(table[1..], score, bound);
    }
  }

  /** The letter grade of a composite score. */
  function GradeFromScore(score: real): (g: Grade)
    ensures g == APlus <==> 0.85 <= score
    ensures g == A <==> 0.75 <= score < 0.85
    ensures g == B <==> 0.60 <= score < 0.75
    ensures g == C <==> 0.40 <= score < 0.60
    ensures g == F <==> score < 0.40
  {
    var t := GradeThresholds;
    assert t[0].threshold == 0.85 && t[1].threshold == 0.75 && t[2].threshold == 0.60
        && t[3].threshold == 0.40 && t[4].threshold == 0.0;
    FirstTier(t, score)
  }

  /** A higher composite never earns a lower grade. */
  lemma GradeMonotone(s1: real, s2: real)
    requires s1 <= s2
    ensures Rank(GradeFromScore(s1)) <= Rank(GradeFromScore(s2))
  {
    GradeThresholdsDescending();
    FirstTierMonotone(GradeThresholds, s1, s2);
    assert GradeFromScore(s1) == FirstTier(GradeThresholds, s1);
    assert GradeFromScore(s2) == FirstTier(GradeThresholds, s2);
  }

  lemma GradeThresholdsDescending()
    ensures Descending(GradeThresholds)
  {
    var t := GradeThresholds;
    assert t[0] == Tier(0.85, APlus) && t[1] == Tier(0.75, A) && t[2] == Tier(0.60, B)
        && t[3] == Tier(0.40, C) && t[4] == Tier(0.0, F);
    forall i, j | 0 <= i < j < |t|
      ensures t[j].threshold <= t[i].threshold && Rank(t[j].grade) <= Rank(t[i].grade)
    {
    }
  }

  // ---------------------------------------------------------------------------
  // Grade packet

  datatype GradePacket = GradePacket(
    symbol: string,
    subscores: Subscores,
    composite: real,
    grade: Grade,
    components: Subscores)

  /** Score, combine and grade one symbol's metrics. */
  function GradePacketForTrade(symbol: string, m: Metrics, weights: Option<Weights>): (r: GradePacket)
    ensures r.symbol == symbol
    ensures r.subscores == ScoreFromTech(m) && r.components == r.subscores
    ensures AllInUnit(r.subscores)
    ensures r.composite == CombineScores(r.subscores, weights).composite
    ensures r.grade == GradeFromScore(r.composite)
    ensures weights.None? ==> InUnit(r.composite)
  {
    var subs := ScoreFromTech(m);
    var combined := CombineScores(subs, weights);
    DefaultCompositeInUnit(subs);
    GradePacket(symbol, subs, combined.composite, GradeFromScore(combined.composite), combined.components)
  }
}
