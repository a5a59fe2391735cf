/** The full indicator engine of src/analysis.py: `analyze_data`, which turns a
    price table into a flat record of statistics at its last bar, and the three
    private helpers `_determine_trend`, `_calculate_atr` and
    `_calculate_support_resistance`. */
module Analysis {
  import opened Wrappers
  import opened Series
  import opened Indicators

  /** The last-row value of an additional column: a number (NaN as `None`)
      or a text such as a sector name. */
  datatype Cell = Number(x: Option<real>) | Text(s: string)

  /** The price table handed to the engine: its daily bars and, for every
      additional column it carries, that column's value in the last row. */
  datatype Frame = Frame(bars: seq<Bar>, extra: map<string, Cell>)

  /** The binary trend label: there is no flat case. */
  datatype Trend = Upward | Downward

  /** `iloc[-1]` on an empty table raises IndexError. */
  datatype AnalysisError = EmptySeries

  /** The record `analyze_data` returns; `info` holds the copied metadata. */
  datatype Analysis = Analysis(
    volatility: Option<real>,
    avgPrice: real,
    priceChange: real,
    priceChangePct: Option<real>,
    avgVolume: real,
    maxDailyGain: Option<real>,
    maxDailyLoss: Option<real>,
    trend: Trend,
    macd: real,
    macdSignal: real,
    rsi: Option<real>,
    stochK: Option<real>,
    stochD: Option<real>,
    bbUpper: Option<real>,
    bbMiddle: Option<real>,
    bbLower: Option<real>,
    info: map<string, Cell>)

  /** The additional columns whose last value is copied into the record. */
  const MetadataKeys: seq<string> :=
    ["sector", "industry", "market_cap", "SMA_20", "SMA_50", "EMA_12", "EMA_26", "Volatility", "Avg_Value_Traded"]

  /** The copied metadata: exactly the listed keys the table carries, each with its value. */
  function CopiedMetadata(extra: map<string, Cell>): (m: map<string, Cell>)
    ensures forall k :: k in m <==> k in MetadataKeys && k in extra
    ensures forall k :: k in m ==> m[k] == extra[k]
  {
    map k | k in MetadataKeys && k in extra :: extra[k]
  }

  /** The record `analyze_data` builds, field by field; an empty table fails. */
  function Analyze(frame: Frame, root: real -> real): (r: Result<Analysis, AnalysisError>)
    ensures r.Err? <==> |frame.bars| == 0
  {
    if |frame.bars| == 0 then Err(EmptySeries)
    else
      var close := Closes(frame.bars);
      var n := |close|;
      var dailyReturns := DailyReturns(close);
      var change := PriceChange(close);
      var bands := Bollinger(close, root);
      Ok(Analysis(
        volatility := Volatility(close, root),
        avgPrice := Mean(close),
        priceChange := change,
        priceChangePct := PriceChangePct(close),
        avgVolume := Mean(Volumes(frame.bars)),
        maxDailyGain := MaxDefined(dailyReturns),
        maxDailyLoss := MinDefined(dailyReturns),
        trend := if change > 0.0 then Upward else Downward,
        macd := MacdLine(close)[n - 1],
        macdSignal := MacdSignal(close)[n - 1],
        rsi := Rsi(close),
        stochK := StochK(frame.bars)[n - 1],
        stochD := StochD(frame.bars)[n - 1],
        bbUpper := bands.upper[n - 1],
        bbMiddle := bands.middle[n - 1],
        bbLower := bands.lower[n - 1],
        info := CopiedMetadata(frame.extra)))
  }

  /** The metadata loop of `analyze_data`: walks the listed keys in order and
      copies each one the table carries. */
  method CopyMetadata(extra: map<string, Cell>) returns (info: map<string, Cell>)
    ensures info == CopiedMetadata(extra)
  {
    info := map[];
    for i := 0 to |MetadataKeys|
      invariant info == map k | k in MetadataKeys[..i] && k in extra :: extra[k]
    {
      var key := MetadataKeys[i];
      assert MetadataKeys[..i + 1] == MetadataKeys[..i] + [key];
      if key in extra {
        info := info[key := extra[key]];
      }
    }
    assert MetadataKeys[..|MetadataKeys|] == MetadataKeys;
  }

  /** `analyze_data`: fills the record key by key, then copies the metadata.
      `Analyze` is its specification: the ensures ties the result to it. */
  method AnalyzeData(frame: Frame, root: real -> real) returns (r: Result<Analysis, AnalysisError>)
    ensures r == Analyze(frame, root)
    ensures r.Ok? ==> forall k :: k in r.value.info <==> k in MetadataKeys && k in frame.extra
  {
    if |frame.bars| == 0 {
      return Err(EmptySeries);
    }
    var close := Closes(frame.bars);
    var n := |close|;
    var dailyReturns := DailyReturns(close);
    var volatility := Volatility(close, root);
    var avgPrice := Mean(close);
    var change := PriceChange(close);
    var changePct := PriceChangePct(close);
    var avgVolume := Mean(Volumes(frame.bars));
    var maxGain := MaxDefined(dailyReturns);
    var maxLoss := MinDefined(dailyReturns);
    var trend := if change > 0.0 then Upward else Downward;
    var macd := MacdLine(close)[n - 1];
    var signal := MacdSignal(close)[n - 1];
    var rsi := Rsi(close);
    var stochK := StochK(frame.bars)[n - 1];
    var stochD := StochD(frame.bars)[n - 1];
    var bands := Bollinger(close, root);
    var info := CopyMetadata(frame.extra);
    r := Ok(Analysis(volatility, avgPrice, change, changePct, avgVolume, maxGain, maxLoss, trend,
                     macd, signal, rsi, stochK, stochD,
                     bands.upper[n - 1], bands.middle[n - 1], bands.lower[n - 1], info));
  }

  // ---------------------------------------------------------------------------
  // What the record promises
  // ---------------------------------------------------------------------------

  /** The change is last close minus first close, and the trend is "Upward"
      exactly when it is positive: an unchanged price reads "Downward". */
  lemma TrendFollowsPriceChange(frame: Frame, root: real -> real)
    requires |frame.bars| > 0
    ensures var a := Analyze(frame, root).value;
      && a.priceChange == frame.bars[|frame.bars| - 1].close - frame.bars[0].close
      && (a.trend == Upward <==> a.priceChange > 0.0)
  {
  }

  /** A strictly rising close series reads as rising in every field that
      follows the direction of the price: the change is positive, the trend
      is "Upward", the MACD line is positive (the 12-span EMA leads the
      26-span one) and, with a positive first close, so is the percentage. */
  lemma RisingCloseRecord(frame: Frame, root: real -> real)
    requires |frame.bars| >= 2 && Rising(Closes(frame.bars))
    ensures var a := Analyze(frame, root).value;
      && a.priceChange > 0.0 && a.trend == Upward && a.macd > 0.0
      && (frame.bars[0].close > 0.0 ==> a.priceChangePct.Some? && a.priceChangePct.value > 0.0)
  {
    var close, n := Closes(frame.bars), |frame.bars|;
    RisingOrdered(close, 0, n - 1);
    MacdPositiveWhenRising(close);
    TrendFollowsPriceChange(frame, root);
    if frame.bars[0].close > 0.0 {
      PriceChangePctHasSignOfChange(frame, root);
    }
  }

  /** With a positive first close, the percentage change is defined and has
      the sign of the absolute change. */
  lemma PriceChangePctHasSignOfChange(frame: Frame, root: real -> real)
    requires |frame.bars| > 0 && frame.bars[0].close > 0.0
    ensures var a := Analyze(frame, root).value;
      && a.priceChangePct.Some?
      && (a.priceChangePct.value > 0.0 <==> a.priceChange > 0.0)
      && (a.priceChangePct.value < 0.0 <==> a.priceChange < 0.0)
  {
    PriceChangePctSign(Closes(frame.bars));
  }

  /** Over the daily returns of a close series, the smallest defined return
      never exceeds the largest; both are defined exactly when some day after
      the first has a non-zero previous close. */
  lemma ReturnExtremes(close: seq<real>)
    ensures MaxDefined(DailyReturns(close)).Some? <==> exists i :: 0 <= i < |close| - 1 && close[i] != 0.0
    ensures MinDefined(DailyReturns(close)).Some? <==> MaxDefined(DailyReturns(close)).Some?
    ensures MaxDefined(DailyReturns(close)).Some? ==>
              MinDefined(DailyReturns(close)).value <= MaxDefined(DailyReturns(close)).value
  {
    var pct := PctChange(close);
    ScaleMax(pct, 100.0);
    MinDefinedAtMostMaxDefined(DailyReturns(close));
    if exists i :: 0 <= i < |close| - 1 && close[i] != 0.0 {
      var i :| 0 <= i < |close| - 1 && close[i] != 0.0;
      assert pct[i + 1].Some?;
    } else {
      assert forall i :: 0 <= i < |pct| ==> pct[i].None?;
    }
  }

  /** The largest daily loss never exceeds the largest daily gain; both are
      defined exactly when some day after the first has a non-zero previous close. */
  lemma DailyExtremesOrdered(frame: Frame, root: real -> real)
    requires |frame.bars| > 0
    ensures var a, close := Analyze(frame, root).value, Closes(frame.bars);
      && (a.maxDailyGain.Some? <==> exists i :: 0 <= i < |close| - 1 && close[i] != 0.0)
      && (a.maxDailyLoss.Some? <==> a.maxDailyGain.Some?)
      && (a.maxDailyGain.Some? ==> a.maxDailyLoss.value <= a.maxDailyGain.value)
  {
    ReturnExtremes(Closes(frame.bars));
  }

  /** The average price lies between the lowest and the highest close. */
  lemma AvgPriceWithinCloseRange(frame: Frame, root: real -> real)
    requires |frame.bars| > 0
    ensures var a := Analyze(frame, root).value;
      Min(Closes(frame.bars)) <= a.avgPrice <= Max(Closes(frame.bars))
  {
    MeanBetweenMinMax(Closes(frame.bars));
  }

  /** A constant close series: no change ("Downward"), MACD and signal 0,
      RSI undefined, and from 20 bars on all three bands equal to the price. */
  lemma ConstantSeries(frame: Frame, root: real -> real, c: real)
    requires |frame.bars| > 0 && IsSqrt(root)
    requires forall i :: 0 <= i < |frame.bars| ==> frame.bars[i].close == c
    ensures var a := Analyze(frame, root).value;
      && a.priceChange == 0.0 && a.trend == Downward
      && a.macd == 0.0 && a.macdSignal == 0.0
      && a.rsi.None?
      && (|frame.bars| >= 20 ==> a.bbUpper == a.bbMiddle == a.bbLower == Some(c))
  {
    var close := Closes(frame.bars);
    var n := |close|;
    assert Constant(close, c);
    MacdOfConstant(close, c);
    RsiOfConstant(close, c);
    if n >= 20 {
      BollingerOfConstant(close, c, root, n - 1);
    }
  }

  /** RSI lies in [0, 100] whenever it is defined, and is undefined before 14 bars. */
  lemma RsiWithinBounds(frame: Frame, root: real -> real)
    requires |frame.bars| > 0
    ensures var a := Analyze(frame, root).value;
      && (|frame.bars| < 14 ==> a.rsi.None?)
      && (a.rsi.Some? ==> 0.0 <= a.rsi.value <= 100.0)
  {
    RsiBounds(Closes(frame.bars));
  }

  /** For well-formed bars %K and %D lie in [0, 100] whenever defined; %K is
      undefined before 14 bars and %D before 16. */
  lemma StochasticWithinBounds(frame: Frame, root: real -> real)
    requires |frame.bars| > 0 && WellFormed(frame.bars)
    ensures var a := Analyze(frame, root).value;
      && (|frame.bars| < 14 ==> a.stochK.None?)
      && (|frame.bars| < 16 ==> a.stochD.None?)
      && (a.stochK.Some? ==> 0.0 <= a.stochK.value <= 100.0)
      && (a.stochD.Some? ==> 0.0 <= a.stochD.value <= 100.0)
  {
    StochasticAtLastBar(frame, root);
    StochKBounds(frame.bars, |frame.bars| - 1);
    StochDBounds(frame.bars, |frame.bars| - 1);
  }

  /** The stochastic fields of the record are the oscillator's last cells. */
  lemma StochasticAtLastBar(frame: Frame, root: real -> real)
    requires |frame.bars| > 0
    ensures var a := Analyze(frame, root).value; var n := |frame.bars|;
      a.stochK == StochK(frame.bars)[n - 1] && a.stochD == StochD(frame.bars)[n - 1]
  {
  }

  /** The bands at the last bar are defined exactly from 20 bars on, ordered
      lower <= middle <= upper, and symmetric around the middle. */
  lemma BollingerAtLastBar(frame: Frame, root: real -> real)
    requires |frame.bars| > 0 && IsSqrt(root)
    ensures var a := Analyze(frame, root).value;
      && (a.bbMiddle.Some? <==> |frame.bars| >= 20)
      && (a.bbUpper.Some? <==> |frame.bars| >= 20)
      && (a.bbLower.Some? <==> |frame.bars| >= 20)
      && (|frame.bars| >= 20 ==>
            && a.bbLower.value <= a.bbMiddle.value <= a.bbUpper.value
            && a.bbUpper.value - a.bbMiddle.value == a.bbMiddle.value - a.bbLower.value)
  {
    BollingerShape(Closes(frame.bars), root, |frame.bars| - 1);
  }

  /** The annualised volatility is never negative. */
  lemma VolatilityIsNonNegative(frame: Frame, root: real -> real)
    requires |frame.bars| > 0 && IsSqrt(root)
    ensures var a := Analyze(frame, root).value;
      a.volatility.Some? ==> a.volatility.value >= 0.0
  {
    VolatilityNonNegative(Closes(frame.bars), root);
  }

  // ---------------------------------------------------------------------------
  // _determine_trend
  // ---------------------------------------------------------------------------

  datatype TrendStrength = StrongUpward | ModerateUpward | StrongDownward | ModerateDownward | Sideways

  /** `a > b` on floats: false when either side is NaN. */
  predicate Above(a: real, b: Option<real>)
  {
    b.Some? && a > b.value
  }

  /** `a < b` on floats: false when either side is NaN. */
  predicate Below(a: real, b: Option<real>)
  {
    b.Some? && a < b.value
  }

  /** Ranks the last close against the 20- and 50-bar means, in the source's if/elif order. */
  function DetermineTrend(bars: seq<Bar>): (r: Result<TrendStrength, AnalysisError>)
    ensures r.Err? <==> |bars| == 0
  {
    if |bars| == 0 then Err(EmptySeries)
    else
      var close := Closes(bars);
      var n := |close|;
      var price, sma20, sma50 := close[n - 1], RollingMean(close, 20)[n - 1], RollingMean(close, 50)[n - 1];
      if Above(price, sma20) && sma20.Some? && Above(sma20.value, sma50) then Ok(StrongUpward)
      else if Above(price, sma20) then Ok(ModerateUpward)
      else if Below(price, sma20) && sma20.Some? && Below(sma20.value, sma50) then Ok(StrongDownward)
      else if Below(price, sma20) then Ok(ModerateDownward)
      else Ok(Sideways)
  }

  /** The 20-bar mean at the last bar. */
  function Sma20(close: seq<real>): real
    requires |close| >= 20
  {
    Mean(Window(close, |close| - 1, 20))
  }

  /** The 50-bar mean at the last bar. */
  function Sma50(close: seq<real>): real
    requires |close| >= 50
  {
    Mean(Window(close, |close| - 1, 50))
  }

  /** What each label means: the upward labels exactly when the price is above
      its 20-bar mean, the downward ones exactly when below, "Strong" only when
      the 20-bar mean is itself beyond the 50-bar mean, and "Sideways" for
      fewer than 20 bars or a price equal to its mean. */
  lemma TrendLabels(bars: seq<Bar>)
    requires |bars| > 0
    ensures var close, t := Closes(bars), DetermineTrend(bars).value;
      && (t == StrongUpward <==> |close| >= 50 && close[|close| - 1] > Sma20(close) > Sma50(close))
      && (t == ModerateUpward <==>
            |close| >= 20 && close[|close| - 1] > Sma20(close) && !(|close| >= 50 && Sma20(close) > Sma50(close)))
      && (t == StrongDownward <==> |close| >= 50 && close[|close| - 1] < Sma20(close) < Sma50(close))
      && (t == ModerateDownward <==>
            |close| >= 20 && close[|close| - 1] < Sma20(close) && !(|close| >= 50 && Sma20(close) < Sma50(close)))
      && (t in {StrongUpward, ModerateUpward} <==> |close| >= 20 && close[|close| - 1] > Sma20(close))
      && (t in {StrongDownward, ModerateDownward} <==> |close| >= 20 && close[|close| - 1] < Sma20(close))
      && (t == Sideways <==> |close| < 20 || close[|close| - 1] == Sma20(close))
  {
  }

  /** The mean of 20 entries is below the last one when every earlier entry
      is at most `x < last`. */
  lemma MeanBelowLast(w: seq<real>, x: real)
    requires |w| == 20 && x < w[19]
    requires forall j :: 0 <= j < 19 ==> w[j] <= x
    ensures Mean(w) < w[19]
  {
    var p, last := w[..19], w[19];
    assert Sum(p) <= 19.0 * x by {
      assert Within(p, Min(p), x);
      SumBounds(p, Min(p), x);
    }
    assert Sum(w) == Sum(p) + last;
    assert Mean(w) == Sum(w) / 20.0;
  }

  /** A 50-bar mean is below the 20-bar mean of its last 20 bars when each of
      those is at least `y` and each of the 30 before them at most `x < y`. */
  lemma MeanRisesOverLaterBars(a: seq<real>, b: seq<real>, x: real, y: real)
    requires |a| == 30 && |b| == 20 && x < y
    requires forall i :: 0 <= i < 30 ==> a[i] <= x
    requires forall j :: 0 <= j < 20 ==> y <= b[j]
    ensures Mean(a + b) < Mean(b)
  {
    var sa, sb := Sum(a), Sum(b);
    assert sa <= 30.0 * x by {
      assert Within(a, Min(a), x);
      SumBounds(a, Min(a), x);
    }
    assert 20.0 * y <= sb by {
      assert Within(b, y, Max(b));
      SumBounds(b, y, Max(b));
    }
    SumAppend(a, b);
    assert Mean(a + b) == (sa + sb) / 50.0;
    assert Mean(b) == sb / 20.0;
  }

  /** A strictly rising series of at least 50 bars is a "Strong Upward" trend:
      the last close is above every earlier one, hence above the 20-bar mean,
      and each of the last 20 closes is above each of the 30 before them. */
  lemma RisingSeriesIsStrongUpward(bars: seq<Bar>)
    requires |bars| >= 50
    requires forall i, j :: 0 <= i < j < |bars| ==> bars[i].close < bars[j].close
    ensures DetermineTrend(bars) == Ok(StrongUpward)
  {
    var close := Closes(bars);
    var n := |close|;
    var w20 := Window(close, n - 1, 20);
    var w30 := close[n - 50..n - 20];
    var price := close[n - 1];
    assert Mean(w20) < price by {
      forall j | 0 <= j < 19 ensures w20[j] <= close[n - 2] {
        assert w20[j] == bars[n - 20 + j].close;
      }
      MeanBelowLast(w20, close[n - 2]);
    }
    assert Mean(w30 + w20) < Mean(w20) by {
      forall i | 0 <= i < 30 ensures w30[i] <= close[n - 21] {
        assert w30[i] == bars[n - 50 + i].close;
      }
      forall j | 0 <= j < 20 ensures close[n - 20] <= w20[j] {
        assert w20[j] == bars[n - 20 + j].close;
      }
      MeanRisesOverLaterBars(w30, w20, close[n - 21], close[n - 20]);
    }
    assert Window(close, n - 1, 50) == w30 + w20;
    var sma20, sma50 := RollingMean(close, 20)[n - 1], RollingMean(close, 50)[n - 1];
    assert sma20 == Some(Mean(w20));
    assert sma50 == Some(Mean(w30 + w20));
    assert Above(price, sma20) && Above(sma20.value, sma50);
  }

  // ---------------------------------------------------------------------------
  // _calculate_atr
  // ---------------------------------------------------------------------------

  function Abs(x: real): real
  {
    if x < 0.0 then -x else x
  }

  /** The true range of bar `i`: the largest of high - low and the distances
      of high and low from the previous close. At the first bar the two
      distances are NaN and the row maximum skips them, leaving high - low. */
  function TrueRangeAt(bars: seq<Bar>, i: nat): (tr: real)
    requires i < |bars|
    ensures tr >= bars[i].high - bars[i].low
    ensures 0 < i ==> tr >= Abs(bars[i].high - bars[i - 1].close) && tr >= Abs(bars[i].low - bars[i - 1].close)
    ensures 0 < i ==> tr >= 0.0
    ensures i == 0 ==> tr == bars[0].high - bars[0].low
  {
    var range := bars[i].high - bars[i].low;
    if i == 0 then range
    else
      var up, down := Abs(bars[i].high - bars[i - 1].close), Abs(bars[i].low - bars[i - 1].close);
      if range >= up && range >= down then range else if up >= down then up else down
  }

  /** The true-range column. */
  function TrueRange(bars: seq<Bar>): (tr: seq<real>)
    ensures |tr| == |bars|
    ensures forall i :: 0 <= i < |bars| ==> tr[i] == TrueRangeAt(bars, i)
  {
    seq(|bars|, i requires 0 <= i < |bars| => TrueRangeAt(bars, i))
  }

  /** `_calculate_atr`: the 14-bar mean of the true range at the last bar. */
  function Atr(bars: seq<Bar>): (r: Result<Option<real>, AnalysisError>)
    ensures r.Err? <==> |bars| == 0
  {
    if |bars| == 0 then Err(EmptySeries)
    else Ok(RollingMean(TrueRange(bars), 14)[|bars| - 1])
  }

  /** The ATR is defined from 14 bars on and is never negative, except that a
      first bar with low above high can drag it below zero while it is still
      inside the window. */
  lemma AtrNonNegative(bars: seq<Bar>)
    requires |bars| > 14 || (|bars| > 0 && bars[0].low <= bars[0].high)
    ensures Atr(bars).Ok?
    ensures Atr(bars).value.Some? <==> |bars| >= 14
    ensures Atr(bars).value.Some? ==> Atr(bars).value.value >= 0.0
  {
    var n := |bars|;
    if n >= 14 {
      var tr := TrueRange(bars);
      var w := Window(tr, n - 1, 14);
      forall j | 0 <= j < 14 ensures w[j] >= 0.0 {
        assert w[j] == TrueRangeAt(bars, n - 14 + j);
      }
      MeanNonNegative(w);
    }
  }

  // ---------------------------------------------------------------------------
  // _calculate_support_resistance
  // ---------------------------------------------------------------------------

  /** `(support, resistance)`: the 20-bar lowest and highest close at the last bar. */
  function SupportResistance(bars: seq<Bar>): (r: Result<(Option<real>, Option<real>), AnalysisError>)
    ensures r.Err? <==> |bars| == 0
  {
    if |bars| == 0 then Err(EmptySeries)
    else
      var close := Closes(bars);
      Ok((RollingMin(close, 20)[|bars| - 1], RollingMax(close, 20)[|bars| - 1]))
  }

  /** Both levels are defined exactly from 20 bars on; support is one of the
      last 20 closes and at most every one of them, resistance likewise at
      least every one, so support <= last close <= resistance. */
  lemma SupportBelowResistance(bars: seq<Bar>)
    requires |bars| > 0
    ensures var (s, r) := SupportResistance(bars).value;
      && (s.Some? <==> |bars| >= 20) && (r.Some? <==> |bars| >= 20)
      && (|bars| >= 20 ==>
            && s.value <= bars[|bars| - 1].close <= r.value
            && (forall i :: |bars| - 20 <= i < |bars| ==> s.value <= bars[i].close <= r.value)
            && (exists i :: |bars| - 20 <= i < |bars| && bars[i].close == s.value)
            && (exists i :: |bars| - 20 <= i < |bars| && bars[i].close == r.value))
  {
    var n := |bars|;
    if n >= 20 {
      var close := Closes(bars);
      var w := Window(close, n - 1, 20);
      assert forall j :: 0 <= j < 20 ==> w[j] == bars[n - 20 + j].close;
      forall i | n - 20 <= i < n ensures Min(w) <= bars[i].close <= Max(w) {
        assert w[i - (n - 20)] == bars[i].close;
      }
      var a :| 0 <= a < 20 && Min(w) == w[a];
      var b :| 0 <= b < 20 && Max(w) == w[b];
      assert bars[n - 20 + a].close == Min(w);
      assert bars[n - 20 + b].close == Max(w);
    }
  }
}
