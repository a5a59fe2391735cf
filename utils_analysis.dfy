/** The reduced duplicate of the engine in src/utils/analysis.py: the same
    formulas without volatility or metadata, a percentage change computed as
    change / first close, daily extremes scaled after taking them, and the
    Bollinger bands returned as whole columns. */
module UtilsAnalysis {
  import opened Wrappers
  import opened Series
  import opened Indicators
  import opened Analysis

  /** The record the reduced `analyze_data` returns. */
  datatype BasicAnalysis = BasicAnalysis(
    avgPrice: real,
    priceChange: real,
    priceChangePct: Option<real>,
    avgVolume: real,
    trend: Trend,
    maxDailyGain: Option<real>,
    maxDailyLoss: Option<real>,
    macd: real,
    macdSignal: real,
    rsi: Option<real>,
    bbUpper: Column,
    bbMiddle: Column,
    bbLower: Column,
    stochK: Option<real>,
    stochD: Option<real>)

  /** `price_change / first_close * 100`; a zero first close gives NaN or an infinity. */
  function ChangeOverFirst(close: seq<real>): (r: Option<real>)
    requires |close| > 0
    ensures r.Some? <==> close[0] != 0.0
    ensures r.Some? ==> r.value * close[0] == PriceChange(close) * 100.0
  {
    if close[0] == 0.0 then None else Some(PriceChange(close) / close[0] * 100.0)
  }

  /** The reduced record; an empty table fails on `iloc[-1]`. */
  function AnalyzeBasic(bars: seq<Bar>, root: real -> real): (r: Result<BasicAnalysis, AnalysisError>)
    ensures r.Err? <==> |bars| == 0
    ensures r.Ok? ==> |r.value.bbUpper| == |r.value.bbMiddle| == |r.value.bbLower| == |bars|
  {
    if |bars| == 0 then Err(EmptySeries)
    else
      var close := Closes(bars);
      var n := |close|;
      var change := PriceChange(close);
      var pct := PctChange(close);
      var bands := Bollinger(close, root);
      Ok(BasicAnalysis(
        avgPrice := Mean(close),
        priceChange := change,
        priceChangePct := ChangeOverFirst(close),
        avgVolume := Mean(Volumes(bars)),
        trend := if change > 0.0 then Upward else Downward,
        maxDailyGain := ScaleCell(MaxDefined(pct), 100.0),
        maxDailyLoss := ScaleCell(MinDefined(pct), 100.0),
        macd := MacdLine(close)[n - 1],
        macdSignal := MacdSignal(close)[n - 1],
        rsi := Rsi(close),
        bbUpper := bands.upper,
        bbMiddle := bands.middle,
        bbLower := bands.lower,
        stochK := StochK(bars)[n - 1],
        stochD := StochD(bars)[n - 1]))
  }

  /** The reduced record agrees with the full engine on every field they share:
      the two percentage formulas coincide, scaling the extremes after taking
      them is the same as taking the extremes of the scaled returns, and the
      full engine's bands are the reduced bands at the last bar. */
  lemma AgreesWithFullEngine(frame: Frame, root: real -> real)
    requires |frame.bars| > 0
    ensures var b, a, n := AnalyzeBasic(frame.bars, root).value, Analyze(frame, root).value, |frame.bars|;
      && b.avgPrice == a.avgPrice && b.priceChange == a.priceChange
      && b.priceChangePct == a.priceChangePct
      && b.avgVolume == a.avgVolume && b.trend == a.trend
      && b.maxDailyGain == a.maxDailyGain && b.maxDailyLoss == a.maxDailyLoss
      && b.macd == a.macd && b.macdSignal == a.macdSignal && b.rsi == a.rsi
      && b.stochK == a.stochK && b.stochD == a.stochD
      && b.bbUpper[n - 1] == a.bbUpper && b.bbMiddle[n - 1] == a.bbMiddle && b.bbLower[n - 1] == a.bbLower
  {
    var close := Closes(frame.bars);
    PercentFormulasAgree(close);
    ScaleMax(PctChange(close), 100.0);
    ScaleMin(PctChange(close), 100.0);
  }

  /** `(last - first) / first * 100` and `(last / first - 1) * 100` coincide. */
  lemma PercentFormulasAgree(close: seq<real>)
    requires |close| > 0
    ensures ChangeOverFirst(close) == PriceChangePct(close)
  {
    if close[0] != 0.0 {
      var first, last := close[0], close[|close| - 1];
      assert first / first == 1.0;
      assert (last - first) / first == last / first - first / first;
    }
  }

  /** The trend label is "Upward" exactly when the change is positive, and the
      change is last close minus first close. */
  lemma BasicTrendFollowsPriceChange(bars: seq<Bar>, root: real -> real)
    requires |bars| > 0
    ensures var b := AnalyzeBasic(bars, root).value;
      && b.priceChange == bars[|bars| - 1].close - bars[0].close
      && (b.trend == Upward <==> b.priceChange > 0.0)
  {
  }

  /** Both daily extremes are 100 times an extreme of `pct_change`, and the
      loss never exceeds the gain. */
  lemma BasicDailyExtremes(bars: seq<Bar>, root: real -> real)
    requires |bars| > 0
    ensures var b, pct := AnalyzeBasic(bars, root).value, PctChange(Closes(bars));
      && (b.maxDailyGain.Some? <==> MaxDefined(pct).Some?)
      && (b.maxDailyGain.Some? ==> b.maxDailyGain.value == 100.0 * MaxDefined(pct).value)
      && (b.maxDailyLoss.Some? <==> MinDefined(pct).Some?)
      && (b.maxDailyLoss.Some? ==> b.maxDailyLoss.value == 100.0 * MinDefined(pct).value)
      && (b.maxDailyGain.Some? ==> b.maxDailyLoss.value <= b.maxDailyGain.value)
  {
    var pct := PctChange(Closes(bars));
    MinDefinedAtMostMaxDefined(pct);
    if MaxDefined(pct).Some? {
      MulMonotone(100.0, MinDefined(pct).value, MaxDefined(pct).value);
    }
  }

  /** Multiplying by a positive factor keeps `<=`. */
  lemma MulMonotone(f: real, a: real, b: real)
    requires f > 0.0 && a <= b
    ensures f * a <= f * b
  {
    if a < b {
      ScaleOrder(f, a, b);
    }
  }

  /** A constant close series has MACD and signal 0 and no RSI. */
  lemma BasicConstantSeries(bars: seq<Bar>, root: real -> real, c: real)
    requires |bars| > 0
    requires forall i :: 0 <= i < |bars| ==> bars[i].close == c
    ensures var b := AnalyzeBasic(bars, root).value;
      b.macd == 0.0 && b.macdSignal == 0.0 && b.rsi.None?
  {
    var close := Closes(bars);
    assert Constant(close, c);
    MacdOfConstant(close, c);
    RsiOfConstant(close, c);
  }

  /** At every index the three band columns are defined together from index
      19 on, ordered, and upper - middle == middle - lower. */
  lemma BasicBandsSymmetric(bars: seq<Bar>, root: real -> real, i: nat)
    requires |bars| > 0 && IsSqrt(root) && i < |bars|
    ensures var b := AnalyzeBasic(bars, root).value;
      && (b.bbMiddle[i].Some? <==> 19 <= i)
      && (b.bbUpper[i].Some? <==> 19 <= i)
      && (b.bbLower[i].Some? <==> 19 <= i)
      && (19 <= i ==>
            && b.bbUpper[i].value - b.bbMiddle[i].value == b.bbMiddle[i].value - b.bbLower[i].value
            && b.bbLower[i].value <= b.bbMiddle[i].value <= b.bbUpper[i].value)
  {
    BollingerShape(Closes(bars), root, i);
  }

  /** RSI and the stochastic lines keep their bounds in the reduced record. */
  lemma BasicOscillatorBounds(bars: seq<Bar>, root: real -> real)
    requires |bars| > 0
    ensures var b := AnalyzeBasic(bars, root).value;
      && (b.rsi.Some? ==> 0.0 <= b.rsi.value <= 100.0)
      && (WellFormed(bars) && b.stochK.Some? ==> 0.0 <= b.stochK.value <= 100.0)
      && (WellFormed(bars) && b.stochD.Some? ==> 0.0 <= b.stochD.value <= 100.0)
  {
    RsiBounds(Closes(bars));
    if WellFormed(bars) {
      StochKBounds(bars, |bars| - 1);
      StochDBounds(bars, |bars| - 1);
    }
  }
}
