/** The indicator formulas of the analysis engine (src/analysis.py), which the
    reduced variant in src/utils/analysis.py repeats. Every formula is stated
    over a whole series; the engine reports the entry at the last bar. */
module Indicators {
  import opened Wrappers
  import opened Series

  /** One daily row of the price table. */
  datatype Bar = Bar(open: real, high: real, low: real, close: real, volume: real)

  function Closes(bars: seq<Bar>): (xs: seq<real>)
    ensures |xs| == |bars|
    ensures forall i :: 0 <= i < |bars| ==> xs[i] == bars[i].close
  {
    seq(|bars|, i requires 0 <= i < |bars| => bars[i].close)
  }

  function Highs(bars: seq<Bar>): (xs: seq<real>)
    ensures |xs| == |bars|
    ensures forall i :: 0 <= i < |bars| ==> xs[i] == bars[i].high
  {
    seq(|bars|, i requires 0 <= i < |bars| => bars[i].high)
  }

  function Lows(bars: seq<Bar>): (xs: seq<real>)
    ensures |xs| == |bars|
    ensures forall i :: 0 <= i < |bars| ==> xs[i] == bars[i].low
  {
    seq(|bars|, i requires 0 <= i < |bars| => bars[i].low)
  }

  function Volumes(bars: seq<Bar>): (xs: seq<real>)
    ensures |xs| == |bars|
    ensures forall i :: 0 <= i < |bars| ==> xs[i] == bars[i].volume
  {
    seq(|bars|, i requires 0 <= i < |bars| => bars[i].volume)
  }

  /** Every bar closes inside its own low-high range. */
  predicate WellFormed(bars: seq<Bar>)
  {
    forall i :: 0 <= i < |bars| ==> bars[i].low <= bars[i].close <= bars[i].high
  }

  // ---------------------------------------------------------------------------
  // Returns and price change
  // ---------------------------------------------------------------------------

  /** Daily returns in percent: `pct_change() * 100`. */
  function DailyReturns(close: seq<real>): (r: Column)
    ensures |r| == |close|
  {
    Scale(PctChange(close), 100.0)
  }

  /** Last close minus first close. */
  function PriceChange(close: seq<real>): real
    requires |close| > 0
  {
    close[|close| - 1] - close[0]
  }

  /** `(last / first - 1) * 100`; a zero first close divides by zero. */
  function PriceChangePct(close: seq<real>): (r: Option<real>)
    requires |close| > 0
    ensures r.Some? <==> close[0] != 0.0
  {
    if close[0] == 0.0 then None
    else Some((close[|close| - 1] / close[0] - 1.0) * 100.0)
  }

  /** With a positive first close the percentage change has the sign of the change. */
  lemma PriceChangePctSign(close: seq<real>)
    requires |close| > 0 && close[0] > 0.0
    ensures PriceChangePct(close).Some?
    ensures PriceChangePct(close).value > 0.0 <==> PriceChange(close) > 0.0
    ensures PriceChangePct(close).value < 0.0 <==> PriceChange(close) < 0.0
    ensures PriceChangePct(close).value == 0.0 <==> PriceChange(close) == 0.0
  {
    var first, last := close[0], close[|close| - 1];
    var q := last / first;
    assert q * first == last;
    if q <= 1.0 { MulNonNegative(1.0 - q, first); }
    if q >= 1.0 { MulNonNegative(q - 1.0, first); }
    if q == 1.0 { assert last == first; }
  }

  /** The annualised volatility: the sample standard deviation of the daily
      returns (skipping undefined ones) times the square root of 252. */
  function Volatility(close: seq<real>, root: real -> real): (v: Option<real>)
    ensures v.Some? <==> |DefinedValues(DailyReturns(close))| >= 2
  {
    ScaleCell(StdDefined(DailyReturns(close), root), root(252.0))
  }

  lemma VolatilityNonNegative(close: seq<real>, root: real -> real)
    requires IsSqrt(root)
    ensures Volatility(close, root).Some? ==> Volatility(close, root).value >= 0.0
  {
    var s := StdDefined(DailyReturns(close), root);
    if s.Some? {
      assert s.value >= 0.0;
      MulNonNegative(root(252.0), s.value);
    }
  }

  // ---------------------------------------------------------------------------
  // MACD: EMA(12) - EMA(26) with adjust=False, signal = EMA(9) of the line
  // ---------------------------------------------------------------------------

  function MacdLine(close: seq<real>): (m: seq<real>)
    ensures |m| == |close|
  {
    var fast, slow := Ewm(close, Alpha(12)), Ewm(close, Alpha(26));
    seq(|close|, i requires 0 <= i < |close| => fast[i] - slow[i])
  }

  function MacdSignal(close: seq<real>): (s: seq<real>)
    ensures |s| == |close|
  {
    Ewm(MacdLine(close), Alpha(9))
  }

  /** On a rising close series the 12-span EMA is above the 26-span EMA from
      the second bar on, so the MACD line is positive there. */
  lemma MacdPositiveWhenRising(close: seq<real>)
    requires Rising(close)
    ensures |close| > 0 ==> MacdLine(close)[0] == 0.0
    ensures forall i :: 0 < i < |close| ==> MacdLine(close)[i] > 0.0
  {
    assert Alpha(26) < Alpha(12);
    forall i | 0 <= i < |close|
      ensures Ewm(close, Alpha(26))[i] <= Ewm(close, Alpha(12))[i]
      ensures i > 0 ==> Ewm(close, Alpha(26))[i] < Ewm(close, Alpha(12))[i]
    {
      FasterEwmAbove(close, Alpha(12), Alpha(26), i);
    }
  }

  /** For a constant close series both EMAs equal the constant, so the MACD
      line and its signal are zero at every bar. */
  lemma MacdOfConstant(close: seq<real>, c: real)
    requires Constant(close, c)
    ensures Constant(MacdLine(close), 0.0)
    ensures Constant(MacdSignal(close), 0.0)
  {
    EwmConstant(close, Alpha(12), c);
    EwmConstant(close, Alpha(26), c);
    EwmConstant(MacdLine(close), Alpha(9), 0.0);
  }

  // ---------------------------------------------------------------------------
  // RSI(14) from plain 14-bar means of gains and losses
  // ---------------------------------------------------------------------------

  /** `delta.where(delta > 0, 0)`: an undefined delta fails the test (NaN > 0 is
      false) and is replaced by 0 like every non-positive one. */
  function Gains(delta: Column): (g: seq<real>)
    ensures |g| == |delta|
    ensures forall i :: 0 <= i < |g| ==> g[i] >= 0.0
  {
    seq(|delta|, i requires 0 <= i < |delta| =>
      if delta[i].Some? && delta[i].value > 0.0 then delta[i].value else 0.0)
  }

  /** `-delta.where(delta < 0, 0)`: the size of every fall, 0 elsewhere. */
  function Losses(delta: Column): (l: seq<real>)
    ensures |l| == |delta|
    ensures forall i :: 0 <= i < |l| ==> l[i] >= 0.0
  {
    seq(|delta|, i requires 0 <= i < |delta| =>
      if delta[i].Some? && delta[i].value < 0.0 then -delta[i].value else 0.0)
  }

  /** `100 - 100 / (1 + gain / loss)` in floating point: a zero loss with a
      positive gain makes the ratio infinite and the result exactly 100;
      zero over zero is NaN. */
  function RsiFromMeans(gain: real, loss: real): (r: Option<real>)
    requires gain >= 0.0 && loss >= 0.0
    ensures r.None? <==> gain == 0.0 && loss == 0.0
    ensures loss == 0.0 && gain > 0.0 ==> r == Some(100.0)
    ensures r.Some? ==> r.value * (gain + loss) == 100.0 * gain
  {
    if loss > 0.0 then
      var q := gain / loss;
      assert q * loss == gain;
      assert (100.0 - 100.0 / (1.0 + q)) * (1.0 + q) == 100.0 * q;
      assert (gain + loss) == loss * (1.0 + q);
      Some(100.0 - 100.0 / (1.0 + q))
    else if gain > 0.0 then Some(100.0)
    else None
  }

  lemma MeanNonNegative(xs: seq<real>)
    requires |xs| > 0 && forall i :: 0 <= i < |xs| ==> xs[i] >= 0.0
    ensures Mean(xs) >= 0.0
  {
    MeanBetweenMinMax(xs);
  }

  /** The 14-bar mean of a column of non-negative values, where defined, is non-negative. */
  lemma RollingMeanNonNegative(xs: seq<real>, i: nat)
    requires i < |xs| && forall j :: 0 <= j < |xs| ==> xs[j] >= 0.0
    ensures RollingMean(xs, 14)[i].Some? ==> RollingMean(xs, 14)[i].value >= 0.0
  {
    if 13 <= i {
      var w := Window(xs, i, 14);
      assert forall j :: 0 <= j < |w| ==> w[j] == xs[i - 13 + j];
      MeanNonNegative(w);
    }
  }

  /** RSI at the last bar; undefined before 14 bars. */
  function Rsi(close: seq<real>): (r: Option<real>)
    requires |close| > 0
    ensures |close| < 14 ==> r.None?
  {
    var n := |close|;
    var gains, losses := Gains(Diff(close)), Losses(Diff(close));
    var g, l := RollingMean(gains, 14)[n - 1], RollingMean(losses, 14)[n - 1];
    if g.None? then None
    else
      RollingMeanNonNegative(gains, n - 1);
      RollingMeanNonNegative(losses, n - 1);
      RsiFromMeans(g.value, l.value)
  }

  lemma RsiFromMeansBounds(gain: real, loss: real)
    requires gain >= 0.0 && loss >= 0.0
    ensures RsiFromMeans(gain, loss).Some? ==> 0.0 <= RsiFromMeans(gain, loss).value <= 100.0
  {
    if loss > 0.0 {
      var d := 1.0 + gain / loss;
      assert gain / loss >= 0.0;
      assert d >= 1.0;
      var q := 100.0 / d;
      assert q * d == 100.0;
      assert 0.0 < q <= 100.0;
    }
  }

  /** Whenever RSI is defined it lies in [0, 100]; with fewer than 14 bars it is undefined. */
  lemma RsiBounds(close: seq<real>)
    requires |close| > 0
    ensures |close| < 14 ==> Rsi(close).None?
    ensures Rsi(close).Some? ==> 0.0 <= Rsi(close).value <= 100.0
  {
    var n := |close|;
    var gains, losses := Gains(Diff(close)), Losses(Diff(close));
    var g, l := RollingMean(gains, 14)[n - 1], RollingMean(losses, 14)[n - 1];
    if g.Some? {
      RollingMeanNonNegative(gains, n - 1);
      RollingMeanNonNegative(losses, n - 1);
      RsiFromMeansBounds(g.value, l.value);
    }
  }

  /** A constant series never rises or falls, so both means are zero and RSI is NaN. */
  lemma RsiOfConstant(close: seq<real>, c: real)
    requires |close| > 0 && Constant(close, c)
    ensures Rsi(close).None?
  {
    var n := |close|;
    var gains, losses := Gains(Diff(close)), Losses(Diff(close));
    if n >= 14 {
      assert Constant(gains, 0.0);
      assert Constant(losses, 0.0);
      MeanConstant(Window(gains, n - 1, 14), 0.0);
      MeanConstant(Window(losses, n - 1, 14), 0.0);
    }
  }

  // ---------------------------------------------------------------------------
  // Stochastic oscillator (14, 3)
  // ---------------------------------------------------------------------------

  /** `100 * ((close - low14) / (high14 - low14))` for one row; a zero range
      divides by zero. */
  function StochCell(close: real, low14: Option<real>, high14: Option<real>): Option<real>
  {
    if low14.None? || high14.None? || high14.value - low14.value == 0.0 then None
    else Some(100.0 * ((close - low14.value) / (high14.value - low14.value)))
  }

  /** %K for every row: close against the 14-bar low of Low and high of High. */
  function StochK(bars: seq<Bar>): (k: Column)
    ensures |k| == |bars|
  {
    var low14, high14 := RollingMin(Lows(bars), 14), RollingMax(Highs(bars), 14);
    seq(|bars|, i requires 0 <= i < |bars| => StochCell(bars[i].close, low14[i], high14[i]))
  }

  /** %D: the 3-row rolling mean of %K. */
  function StochD(bars: seq<Bar>): (d: Column)
    ensures |d| == |bars|
  {
    RollingMeanOpt(StochK(bars), 3)
  }

  lemma StochCellBounds(close: real, lo: real, hi: real)
    requires lo <= close <= hi
    ensures StochCell(close, Some(lo), Some(hi)).Some? ==>
              0.0 <= StochCell(close, Some(lo), Some(hi)).value <= 100.0
  {
    if hi - lo != 0.0 {
      UnitRatio(close - lo, hi - lo);
    }
  }

  /** A part of a positive whole is a fraction in [0, 1]. */
  lemma UnitRatio(x: real, d: real)
    requires d > 0.0 && 0.0 <= x <= d
    ensures 0.0 <= x / d <= 1.0
  {
    assert x / d * d == x;
  }

  /** For well-formed bars, %K lies in [0, 100] wherever the 14-bar range is
      non-zero; it is undefined before index 13. */
  lemma StochKBounds(bars: seq<Bar>, i: nat)
    requires WellFormed(bars) && i < |bars|
    ensures i < 13 ==> StochK(bars)[i].None?
    ensures StochK(bars)[i].Some? ==> 0.0 <= StochK(bars)[i].value <= 100.0
  {
    if 13 <= i {
      var lw, hw := Window(Lows(bars), i, 14), Window(Highs(bars), i, 14);
      assert lw[13] == bars[i].low && hw[13] == bars[i].high;
      StochCellBounds(bars[i].close, Min(lw), Max(hw));
    }
  }

  /** %D inherits the bounds of %K; it is undefined before index 15. */
  lemma StochDBounds(bars: seq<Bar>, i: nat)
    requires WellFormed(bars) && i < |bars|
    ensures i < 15 ==> StochD(bars)[i].None?
    ensures StochD(bars)[i].Some? ==> 0.0 <= StochD(bars)[i].value <= 100.0
  {
    var k := StochK(bars);
    forall j | 0 <= j < |k| && k[j].Some? ensures 0.0 <= k[j].value <= 100.0 {
      StochKBounds(bars, j);
    }
    RollingMeanOptWithin(k, 3, i, 0.0, 100.0);
    if 2 <= i < 15 {
      StochKBounds(bars, i - 2);
      assert !AllDefined(Window(k, i, 3)) by { assert Window(k, i, 3)[0] == k[i - 2]; }
    }
  }

  // ---------------------------------------------------------------------------
  // Bollinger bands (20, 2)
  // ---------------------------------------------------------------------------

  /** The three bands as whole columns. */
  datatype Bands = Bands(upper: Column, middle: Column, lower: Column)

  /** `a + f * b` cell by cell; undefined where either side is. */
  function Offset(a: Column, b: Column, f: real): (r: Column)
    requires |a| == |b|
    ensures |r| == |a|
  {
    seq(|a|, i requires 0 <= i < |a| =>
      if a[i].Some? && b[i].Some? then Some(a[i].value + f * b[i].value) else None)
  }

  /** middle = 20-bar mean, upper/lower = middle +/- 2 * 20-bar standard deviation. */
  function Bollinger(close: seq<real>, root: real -> real): (b: Bands)
    ensures |b.upper| == |b.middle| == |b.lower| == |close|
  {
    var mid, sd := RollingMean(close, 20), RollingStd(close, 20, root);
    Bands(Offset(mid, sd, 2.0), mid, Offset(mid, sd, -2.0))
  }

  /** All three bands are defined exactly from index 19, the upper band is as
      far above the middle as the lower band is below it, and they are ordered. */
  lemma BollingerShape(close: seq<real>, root: real -> real, i: nat)
    requires IsSqrt(root) && i < |close|
    ensures var b := Bollinger(close, root);
      && (b.upper[i].Some? <==> 19 <= i)
      && (b.middle[i].Some? <==> 19 <= i)
      && (b.lower[i].Some? <==> 19 <= i)
      && (19 <= i ==> b.upper[i].value - b.middle[i].value == b.middle[i].value - b.lower[i].value)
      && (19 <= i ==> b.lower[i].value <= b.middle[i].value <= b.upper[i].value)
  {
    if 19 <= i {
      var v := Variance(Window(close, i, 20));
      assert root(v) >= 0.0;
    }
  }

  /** For a constant close series the bands collapse onto the middle band. */
  lemma BollingerOfConstant(close: seq<real>, c: real, root: real -> real, i: nat)
    requires IsSqrt(root) && Constant(close, c) && 19 <= i < |close|
    ensures var b := Bollinger(close, root);
      b.upper[i] == b.middle[i] == b.lower[i] == Some(c)
  {
    var w := Window(close, i, 20);
    assert Constant(w, c);
    VarianceConstant(w, c);
    MeanConstant(w, c);
  }
}
