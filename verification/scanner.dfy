/**
 * The per-symbol decision of the scan loop (main.py): guard on series
 * length, compute metrics, grade, gate on the grade, size, and build the
 * bracket order.  One tick applies the decision to every configured symbol.
 */
module Scanner {
  import opened Wrappers
  import opened Series
  import opened Indicators
  import opened Rubric
  import opened Executor

  /** The `sizing` section of the configuration; each key may be missing. */
  datatype SizingConfig = SizingConfig(
    gradeAPlus: Option<real>,
    gradeA: Option<real>,
    gradeB: Option<real>,
    maxRiskPerTradePct: Option<real>)

  const NoSizing := SizingConfig(None, None, None, None)

  /** The parts of the configuration the decision reads. */
  datatype Config = Config(
    symbols: Option<seq<string>>,
    sizing: SizingConfig,
    rubricWeights: Option<Weights>)

  const DefaultSymbols: seq<string> := ["SPY", "QQQ", "TSLA"]

  /** The hard-coded account value the loop sizes against. */
  const AccountValue: real := 100000.0

  /** Fewer bars than this and the symbol is skipped. */
  const MinBars: nat := 6

  function Symbols(cfg: Config): seq<string> {
    cfg.symbols.GetOr(DefaultSymbols)
  }

  // ---------------------------------------------------------------------------
  // Sizing

  /** Risk fraction per grade when the sizing section leaves it unset. */
  function DefaultRisk(g: Grade): real {
    match g
    case APlus => 0.05
    case A => 0.03
    case _ => 0.01
  }

  /** Risk fraction of the account for a grade; grades below B use the per-trade maximum. */
  function SizeByGrade(sizing: SizingConfig, g: Grade): (pct: real)
    ensures sizing == NoSizing ==> pct == DefaultRisk(g)
    ensures g == APlus && sizing.gradeAPlus.None? ==> pct == 0.05
    ensures g == A && sizing.gradeA.None? ==> pct == 0.03
    ensures g == B && sizing.gradeB.None? ==> pct == 0.01
    ensures (g == C || g == F) && sizing.maxRiskPerTradePct.None? ==> pct == 0.01
    ensures g == APlus && sizing.gradeAPlus.Some? ==> pct == sizing.gradeAPlus.value
    ensures g == A && sizing.gradeA.Some? ==> pct == sizing.gradeA.value
    ensures g == B && sizing.gradeB.Some? ==> pct == sizing.gradeB.value
    ensures (g == C || g == F) && sizing.maxRiskPerTradePct.Some? ==> pct == sizing.maxRiskPerTradePct.value
  {
    match g
    case APlus => sizing.gradeAPlus.GetOr(0.05)
    case A => sizing.gradeA.GetOr(0.03)
    case B => sizing.gradeB.GetOr(0.01)
    case _ => sizing.maxRiskPerTradePct.GetOr(0.01)
  }

  /** Under the default sizing a better grade never risks less. */
  lemma DefaultSizingMonotone(g1: Grade, g2: Grade)
    requires Rank(g1) <= Rank(g2)
    ensures SizeByGrade(NoSizing, g1) <= SizeByGrade(NoSizing, g2)
  {
  }

  /** Whole shares whose cost at `max(1, lastClose)` fits the risk budget `account * pct`. */
  function Quantity(account: real, pct: real, lastClose: real): (q: int)
    ensures q as real * Max(1.0, lastClose) <= account * pct
    ensures account * pct < (q + 1) as real * Max(1.0, lastClose)
    ensures 0.0 <= account && 0.0 <= pct ==> 0 <= q
  {
    var price := Max(1.0, lastClose);
    var q := (account * pct / price).Floor;
    QuantityBounds(account * pct, price, q);
    q
  }

  lemma QuantityBounds(budget: real, price: real, q: int)
    requires price >= 1.0 && q == (budget / price).Floor
    ensures q as real * price <= budget < (q + 1) as real * price
    ensures 0.0 <= budget ==> 0 <= q
  {
    var x := budget / price;
    var lo := q as real;
    var hi := (q + 1) as real;
    assert hi == lo + 1.0;
    assert x * price == budget;
    assert lo <= x < hi;
    ScaleMonotone(lo, x, price);
    assert (hi - x) * price > 0.0;
    assert x * price < hi * price;
    assert budget < hi * price;
  }

  /** A whole count `q` within one share of the budget is positive exactly when one share is affordable. */
  lemma FloorCountPositive(budget: real, price: real, q: int)
    requires price >= 1.0
    requires q as real * price <= budget < (q + 1) as real * price
    ensures 0 < q <==> price <= budget
  {
    if q >= 1 {
      ScaleMonotone(1.0, q as real, price);
    } else {
      ScaleMonotone((q + 1) as real, 1.0, price);
    }
  }

  /** Entry, stop and take-profit prices, before rounding to cents. */
  datatype Levels = Levels(limit: real, stop: real, takeProfit: real)

  /** Stop one ATR below the close, take-profit one and a half ATR above it. */
  function BracketLevels(lastClose: real, atr: real): (r: Levels)
    ensures r.limit == lastClose
    ensures r.limit - r.stop == atr && r.takeProfit - r.limit == 1.5 * atr
    ensures 0.0 <= atr ==> r.stop <= r.limit <= r.takeProfit
  {
    Levels(lastClose, lastClose - atr * 1.0, lastClose + atr * 1.5)
  }

  // ---------------------------------------------------------------------------
  // Heuristics and metrics

  function PrevClose(bars: seq<Bar>): real
    requires |bars| >= 2
  {
    bars[|bars| - 2].c
  }

  /** The last close rose over the previous one and the series is up more than 0.2%. */
  function Breakout(bars: seq<Bar>): (r: bool)
    requires |bars| >= 2 && FirstOpen(bars) != 0.0
    ensures FirstOpen(bars) > 0.0 ==>
      (r <==> LastClose(bars) > PrevClose(bars) && LastClose(bars) - FirstOpen(bars) > 0.002 * FirstOpen(bars))
  {
    BreakoutThreshold(bars);
    LastClose(bars) > PrevClose(bars) && PercentChange(bars) > 0.2
  }

  /** On a positive first open, the 0.2% move test reads as a division-free comparison of prices. */
  lemma BreakoutThreshold(bars: seq<Bar>)
    requires |bars| > 0 && FirstOpen(bars) != 0.0
    ensures FirstOpen(bars) > 0.0 ==>
      (PercentChange(bars) > 0.2 <==> LastClose(bars) - FirstOpen(bars) > 0.002 * FirstOpen(bars))
  {
    if FirstOpen(bars) > 0.0 {
      PercentAboveThreshold(PercentChange(bars), FirstOpen(bars), LastClose(bars));
    }
  }

  /** For a positive open, a percent change above 0.2 means a close more than 0.2% of the open above it. */
  lemma PercentAboveThreshold(pct: real, open: real, close: real)
    requires 0.0 < open && pct * open == (close - open) * 100.0
    ensures pct > 0.2 <==> close - open > 0.002 * open
  {
    if pct > 0.2 {
      assert (pct - 0.2) * open > 0.0;
    } else {
      ScaleMonotone(pct, 0.2, open);
    }
  }

  /** A confirmed breakout on a positively priced series closes above where it opened. */
  lemma BreakoutClosesAboveOpen(bars: seq<Bar>)
    requires |bars| >= 2 && FirstOpen(bars) > 0.0
    requires Breakout(bars)
    ensures LastClose(bars) > FirstOpen(bars)
  {
  }

  /** The last two closes both sit above the third-from-last close. */
  function Hold2Bars(bars: seq<Bar>): (r: bool)
    ensures |bars| < 3 ==> !r
    ensures r ==> bars[|bars| - 1].c > bars[|bars| - 3].c && bars[|bars| - 2].c > bars[|bars| - 3].c
  {
    if |bars| >= 3 then
      bars[|bars| - 1].c > bars[|bars| - 3].c && bars[|bars| - 2].c > bars[|bars| - 3].c
    else false
  }

  /** Only the last three bars matter to the 2-bar hold: older history never changes it. */
  lemma {:induction false} Hold2BarsIgnoresHistory(older: seq<Bar>, bars: seq<Bar>)
    requires |bars| >= 3
    ensures Hold2Bars(older + bars) == Hold2Bars(bars)
  {
    var all := older + bars;
    var n := |all|;
    assert all[n - 1] == bars[|bars| - 1];
    assert all[n - 2] == bars[|bars| - 2];
    assert all[n - 3] == bars[|bars| - 3];
  }

  /** The metrics dictionary built from a long enough series and a sentiment score. */
  function ComputeMetrics(bars: seq<Bar>, sentiment: real): (m: Metrics)
    requires |bars| >= MinBars && FirstOpen(bars) != 0.0
    ensures m.percentChange == Some(PercentChange(bars))
    ensures m.avgVolume == Some(AverageVolume(bars))
    ensures m.atr == Some(AtrSimple(bars))
    ensures m.gapPct == Some(GapFillPct(bars))
    ensures m.lastAbove20ma == Some(LastAbove20MA(bars))
    ensures m.breakoutConfirmed == Some(Breakout(bars))
    ensures m.hold2bars == Some(Hold2Bars(bars))
    ensures m.duringAllowedHours == Some(true) && m.gexFlatOrPos == Some(false)
    ensures m.vLast == Some(bars[|bars| - 1].v as real)
    ensures m.darkPoolFlag.None? && m.sentimentScore == Some(sentiment)
    ensures ExecutionScore(m) == 1.0
  {
    Metrics(
      percentChange := Some(PercentChange(bars)),
      avgVolume := Some(AverageVolume(bars)),
      atr := Some(AtrSimple(bars)),
      gapPct := Some(GapFillPct(bars)),
      lastAbove20ma := Some(LastAbove20MA(bars)),
      breakoutConfirmed := Some(Breakout(bars)),
      hold2bars := Some(Hold2Bars(bars)),
      vLast := Some(bars[|bars| - 1].v as real),
      duringAllowedHours := Some(true),
      gexFlatOrPos := Some(false),
      darkPoolFlag := None,
      sentimentScore := Some(sentiment))
  }

  // ---------------------------------------------------------------------------
  // Decision

  /** What the data collaborator returned for a symbol. */
  datatype FetchResult = Fetched(bars: seq<Bar>) | NoFrame | FetchFailed

  /** Per-symbol outcome of one tick. */
  datatype Outcome =
    | Skipped(symbol: string)
    | Failed(symbol: string)
    | Graded(symbol: string, packet: GradePacket, order: Option<Order>)

  /** Only the two top grades trade. */
  predicate Tradeable(g: Grade) {
    g == APlus || g == A
  }

  /** The order, if any, an outcome submits. */
  function OrderOf(r: Outcome): Option<Order> {
    if r.Graded? then r.order else None
  }

  /** The whole per-symbol decision. */
  function Decide(cfg: Config, symbol: string, fetch: FetchResult, sentiment: real, account: real): (r: Outcome)
    ensures r.symbol == symbol
    ensures fetch.NoFrame? || (fetch.Fetched? && |fetch.bars| < MinBars) <==> r.Skipped?
    ensures r.Failed? <==>
      (fetch.FetchFailed? || (fetch.Fetched? && |fetch.bars| >= MinBars && FirstOpen(fetch.bars) == 0.0))
    ensures r.Graded? ==> fetch.Fetched? && |fetch.bars| >= MinBars && FirstOpen(fetch.bars) != 0.0
    ensures r.Graded? ==>
      r.packet == GradePacketForTrade(symbol, ComputeMetrics(fetch.bars, sentiment), cfg.rubricWeights)
    ensures r.Graded? ==>
      (r.order.Some? <==>
         (Tradeable(r.packet.grade)
          && 0 < Quantity(account, SizeByGrade(cfg.sizing, r.packet.grade), LastClose(fetch.bars))))
  {
    match fetch
    case FetchFailed => Failed(symbol)
    case NoFrame => Skipped(symbol)
    case Fetched(bars) =>
      if |bars| < MinBars then Skipped(symbol)
      else if FirstOpen(bars) == 0.0 then Failed(symbol)
      else
        var m := ComputeMetrics(bars, sentiment);
        var packet := GradePacketForTrade(symbol, m, cfg.rubricWeights);
        if !Tradeable(packet.grade) then Graded(symbol, packet, None)
        else
          var pct := SizeByGrade(cfg.sizing, packet.grade);
          var close := LastClose(bars);
          var qty := Quantity(account, pct, close);
          if qty <= 0 then Graded(symbol, packet, None)
          else
            var lv := BracketLevels(close, m.atr.value);
            Graded(symbol, packet,
                   Some(BuildBracketOrder(symbol, qty, "buy", lv.limit, lv.takeProfit, lv.stop)))
  }

  /** Any order the decision builds is a buy bracket for this symbol, sized and priced from the series. */
  lemma DecideOrderShape(cfg: Config, symbol: string, fetch: FetchResult, sentiment: real, account: real)
    requires OrderOf(Decide(cfg, symbol, fetch, sentiment, account)).Some?
    ensures fetch.Fetched? && |fetch.bars| >= MinBars
    ensures var o := OrderOf(Decide(cfg, symbol, fetch, sentiment, account)).value;
      && IsBracketShape(o)
      && o.symbol == symbol && o.side == "buy" && 0 < o.qty
      && o.qty == Quantity(account, SizeByGrade(cfg.sizing, Decide(cfg, symbol, fetch, sentiment, account).packet.grade),
                           LastClose(fetch.bars))
      && o.limitPrice == LastClose(fetch.bars)
      && o.limitPrice - o.stopLoss.stopPrice == AtrSimple(fetch.bars)
      && o.takeProfit.limitPrice - o.limitPrice == 1.5 * AtrSimple(fetch.bars)
  {
  }

  /** With well-formed bars (high at least low) the stop is never above the entry, nor the entry above the target. */
  lemma DecidePricesOrdered(cfg: Config, symbol: string, bars: seq<Bar>, sentiment: real, account: real)
    requires RangesNonNegative(bars)
    requires OrderOf(Decide(cfg, symbol, Fetched(bars), sentiment, account)).Some?
    ensures var o := OrderOf(Decide(cfg, symbol, Fetched(bars), sentiment, account)).value;
      o.stopLoss.stopPrice <= o.limitPrice <= o.takeProfit.limitPrice
  {
    DecideOrderShape(cfg, symbol, Fetched(bars), sentiment, account);
    AtrNonNegative(bars);
  }

  /** Short or absent series never trade. */
  lemma ShortSeriesNeverTrades(cfg: Config, symbol: string, fetch: FetchResult, sentiment: real, account: real)
    requires fetch.NoFrame? || fetch.FetchFailed? || (fetch.Fetched? && |fetch.bars| < MinBars)
    ensures OrderOf(Decide(cfg, symbol, fetch, sentiment, account)).None?
  {
  }

  /** At least one share is bought exactly when the budget covers one share at `max(1, lastClose)`. */
  lemma QuantityPositiveIff(account: real, pct: real, lastClose: real)
    ensures 0 < Quantity(account, pct, lastClose) <==> Max(1.0, lastClose) <= account * pct
  {
    FloorCountPositive(account * pct, Max(1.0, lastClose), Quantity(account, pct, lastClose));
  }

  // ---------------------------------------------------------------------------
  // One tick of the scan loop

  /** What the collaborators supply for one entry of the symbol list: the bars fetch and the sentiment score. */
  datatype Feed = Feed(fetch: FetchResult, sentiment: real)

  /**
   * Decide each entry in turn, independently of the others. Feeds are matched by
   * position, so a symbol listed twice is fetched twice and may see different bars.
   */
  function TickOver(cfg: Config, symbols: seq<string>, feeds: seq<Feed>, account: real): (r: seq<Outcome>)
    requires |feeds| == |symbols|
    ensures |r| == |symbols|
    ensures forall i :: 0 <= i < |symbols| ==>
      r[i] == Decide(cfg, symbols[i], feeds[i].fetch, feeds[i].sentiment, account)
  {
    if |symbols| == 0 then []
    else
      var first := Decide(cfg, symbols[0], feeds[0].fetch, feeds[0].sentiment, account);
      [first] + TickOver(cfg, symbols[1..], feeds[1..], account)
  }

  /** One pass over the configured symbols at the fixed account value, one feed per list entry. */
  function Tick(cfg: Config, feeds: seq<Feed>): (r: seq<Outcome>)
    requires |feeds| == |Symbols(cfg)|
    ensures |r| == |Symbols(cfg)|
    ensures forall i :: 0 <= i < |r| ==> r[i].symbol == Symbols(cfg)[i]
    ensures forall i :: 0 <= i < |r| ==>
      r[i] == Decide(cfg, Symbols(cfg)[i], feeds[i].fetch, feeds[i].sentiment, AccountValue)
  {
    TickOver(cfg, Symbols(cfg), feeds, AccountValue)
  }

  /** An entry's outcome depends only on its own feed: another entry failing cannot change it. */
  lemma TickIsolatesSymbols(cfg: Config, f1: seq<Feed>, f2: seq<Feed>, i: nat)
    requires |f1| == |Symbols(cfg)| && |f2| == |Symbols(cfg)|
    requires i < |Symbols(cfg)|
    requires f1[i] == f2[i]
    ensures Tick(cfg, f1)[i] == Tick(cfg, f2)[i]
  {
  }
}
