/** The pandas operations that the indicator code is written in, over exact reals.
    A column is a sequence of cells; a cell is `None` where pandas holds NaN
    (before a rolling window fills, at the first `diff`/`pct_change` entry) or
    an infinity (a division by zero). */
module Series {
  import opened Wrappers

  type Column = seq<Option<real>>

  // ---------------------------------------------------------------------------
  // Aggregates over a series without gaps
  // ---------------------------------------------------------------------------

  /** The sum of a series, accumulated from the front. */
  function Sum(xs: seq<real>): real
  {
    if |xs| == 0 then 0.0 else Sum(xs[..|xs| - 1]) + xs[|xs| - 1]
  }

  /** `Series.mean()` of a non-empty series. */
  function Mean(xs: seq<real>): real
    requires |xs| > 0
  {
    Sum(xs) / (|xs| as real)
  }

  /** `Series.min()` of a non-empty series. */
  function Min(xs: seq<real>): (m: real)
    requires |xs| > 0
    ensures forall i :: 0 <= i < |xs| ==> m <= xs[i]
    ensures exists i :: 0 <= i < |xs| && m == xs[i]
  {
    if |xs| == 1 then xs[0]
    else
      var p := Min(xs[..|xs| - 1]);
      assert forall i :: 0 <= i < |xs| - 1 ==> xs[..|xs| - 1][i] == xs[i];
      if xs[|xs| - 1] < p then xs[|xs| - 1] else p
  }

  /** `Series.max()` of a non-empty series. */
  function Max(xs: seq<real>): (m: real)
    requires |xs| > 0
    ensures forall i :: 0 <= i < |xs| ==> xs[i] <= m
    ensures exists i :: 0 <= i < |xs| && m == xs[i]
  {
    if |xs| == 1 then xs[0]
    else
      var p := Max(xs[..|xs| - 1]);
      assert forall i :: 0 <= i < |xs| - 1 ==> xs[..|xs| - 1][i] == xs[i];
      if xs[|xs| - 1] > p then xs[|xs| - 1] else p
  }

  /** Every entry of `xs` lies in [lo, hi]. */
  predicate Within(xs: seq<real>, lo: real, hi: real)
  {
    forall i :: 0 <= i < |xs| ==> lo <= xs[i] <= hi
  }

  /** Every entry of `xs` equals `c`. */
  predicate Constant(xs: seq<real>, c: real)
  {
    forall i :: 0 <= i < |xs| ==> xs[i] == c
  }

  lemma {:induction false} SumBounds(xs: seq<real>, lo: real, hi: real)
    requires Within(xs, lo, hi)
    ensures (|xs| as real) * lo <= Sum(xs) <= (|xs| as real) * hi
  {
    if |xs| > 0 {
      var p := xs[..|xs| - 1];
      assert Within(p, lo, hi) by {
        forall i | 0 <= i < |p| ensures lo <= p[i] <= hi { assert p[i] == xs[i]; }
      }
      SumBounds(p, lo, hi);
      assert (|xs| as real) * lo == (|p| as real) * lo + lo;
      assert (|xs| as real) * hi == (|p| as real) * hi + hi;
    }
  }

  /** Sums split over concatenation. */
  lemma {:induction false} SumAppend(a: seq<real>, b: seq<real>)
    ensures Sum(a + b) == Sum(a) + Sum(b)
  {
    if |b| == 0 {
      assert a + b == a;
    } else {
      var p := b[..|b| - 1];
      assert (a + b)[..|a + b| - 1] == a + p;
      SumAppend(a, p);
    }
  }

  /** A mean of values that all lie in [lo, hi] lies in [lo, hi]. */
  lemma MeanWithin(xs: seq<real>, lo: real, hi: real)
    requires |xs| > 0 && Within(xs, lo, hi)
    ensures lo <= Mean(xs) <= hi
  {
    SumBounds(xs, lo, hi);
    var n := |xs| as real;
    assert Mean(xs) * n == Sum(xs);
  }

  /** The mean lies between the smallest and the largest entry. */
  lemma MeanBetweenMinMax(xs: seq<real>)
    requires |xs| > 0
    ensures Min(xs) <= Mean(xs) <= Max(xs)
  {
    MeanWithin(xs, Min(xs), Max(xs));
  }

  /** The mean of a constant series is that constant. */
  lemma MeanConstant(xs: seq<real>, c: real)
    requires |xs| > 0 && Constant(xs, c)
    ensures Mean(xs) == c
  {
    MeanWithin(xs, c, c);
  }

  // ---------------------------------------------------------------------------
  // Element-wise columns
  // ---------------------------------------------------------------------------

  /** `Series.pct_change()`: undefined at index 0; a zero previous value gives
      an infinity or NaN, hence undefined as well. */
  function PctChange(xs: seq<real>): (r: Column)
    ensures |r| == |xs|
    ensures forall i :: 0 <= i < |xs| ==> (r[i].Some? <==> 0 < i && xs[i - 1] != 0.0)
  {
    seq(|xs|, i requires 0 <= i < |xs| =>
      if i == 0 || xs[i - 1] == 0.0 then None else Some(xs[i] / xs[i - 1] - 1.0))
  }

  /** `Series.diff()`: undefined at index 0. */
  function Diff(xs: seq<real>): (r: Column)
    ensures |r| == |xs|
    ensures |xs| > 0 ==> r[0].None?
  {
    seq(|xs|, i requires 0 <= i < |xs| => if i == 0 then None else Some(xs[i] - xs[i - 1]))
  }

  /** A column multiplied by a constant; undefined cells stay undefined. */
  function Scale(c: Column, f: real): (r: Column)
    ensures |r| == |c|
  {
    if |c| == 0 then [] else Scale(c[..|c| - 1], f) + [ScaleCell(c[|c| - 1], f)]
  }

  function ScaleCell(x: Option<real>, f: real): Option<real>
  {
    if x.Some? then Some(f * x.value) else None
  }

  /** Every cell of `c` is defined. */
  predicate AllDefined(c: Column)
  {
    forall i :: 0 <= i < |c| ==> c[i].Some?
  }

  /** The values of a column whose every cell is defined. */
  function Values(c: Column): (xs: seq<real>)
    requires AllDefined(c)
    ensures |xs| == |c|
  {
    seq(|c|, i requires 0 <= i < |c| && AllDefined(c) => c[i].value)
  }

  /** The defined cells of a column, in order (what pandas' skipna aggregates see). */
  function DefinedValues(c: Column): (xs: seq<real>)
    ensures |xs| <= |c|
  {
    if |c| == 0 then []
    else if c[|c| - 1].Some? then DefinedValues(c[..|c| - 1]) + [c[|c| - 1].value]
    else DefinedValues(c[..|c| - 1])
  }

  /** `Series.max()` of a column: the largest defined entry, skipping NaN;
      NaN when no entry is defined. */
  function MaxDefined(c: Column): (r: Option<real>)
    ensures r.None? <==> (forall i :: 0 <= i < |c| ==> c[i].None?)
    ensures r.Some? ==> forall i :: 0 <= i < |c| && c[i].Some? ==> c[i].value <= r.value
    ensures r.Some? ==> exists i :: 0 <= i < |c| && c[i] == r
  {
    if |c| == 0 then None
    else
      assert forall i :: 0 <= i < |c| - 1 ==> c[..|c| - 1][i] == c[i];
      MaxCell(MaxDefined(c[..|c| - 1]), c[|c| - 1])
  }

  /** The larger of two cells, where an undefined cell is skipped. */
  function MaxCell(m: Option<real>, x: Option<real>): Option<real>
  {
    if x.None? then m else if m.None? || m.value < x.value then x else m
  }

  /** `Series.min()` of a column: the smallest defined entry, skipping NaN;
      NaN when no entry is defined. */
  function MinDefined(c: Column): (r: Option<real>)
    ensures r.None? <==> (forall i :: 0 <= i < |c| ==> c[i].None?)
    ensures r.Some? ==> forall i :: 0 <= i < |c| && c[i].Some? ==> r.value <= c[i].value
    ensures r.Some? ==> exists i :: 0 <= i < |c| && c[i] == r
  {
    if |c| == 0 then None
    else
      assert forall i :: 0 <= i < |c| - 1 ==> c[..|c| - 1][i] == c[i];
      MinCell(MinDefined(c[..|c| - 1]), c[|c| - 1])
  }

  /** The smaller of two cells, where an undefined cell is skipped. */
  function MinCell(m: Option<real>, x: Option<real>): Option<real>
  {
    if x.None? then m else if m.None? || x.value < m.value then x else m
  }

  /** Skipping NaN, the minimum of a column never exceeds its maximum, and
      both are defined exactly when some cell is. */
  lemma MinDefinedAtMostMaxDefined(c: Column)
    ensures MinDefined(c).Some? <==> MaxDefined(c).Some?
    ensures MaxDefined(c).Some? ==> MinDefined(c).value <= MaxDefined(c).value
  {
    if MaxDefined(c).Some? {
      var i :| 0 <= i < |c| && c[i] == MaxDefined(c);
      assert c[i].Some?;
    }
  }

  /** Multiplying by a positive factor keeps strict order. */
  lemma ScaleOrder(f: real, a: real, b: real)
    requires f > 0.0 && a < b
    ensures f * a < f * b
  {
    assert f * (b - a) > 0.0;
  }

  lemma ScaleLast(c: Column, f: real)
    requires |c| > 0
    ensures Scale(c, f)[..|c| - 1] == Scale(c[..|c| - 1], f)
    ensures Scale(c, f)[|c| - 1] == ScaleCell(c[|c| - 1], f)
  {
  }

  lemma ScaleCellExtremes(m: Option<real>, x: Option<real>, f: real)
    requires f > 0.0
    ensures MaxCell(ScaleCell(m, f), ScaleCell(x, f)) == ScaleCell(MaxCell(m, x), f)
    ensures MinCell(ScaleCell(m, f), ScaleCell(x, f)) == ScaleCell(MinCell(m, x), f)
  {
    if x.Some? && m.Some? {
      if x.value < m.value { ScaleOrder(f, x.value, m.value); }
      else if m.value < x.value { ScaleOrder(f, m.value, x.value); }
    }
  }

  /** Scaling a column by a positive factor scales its maximum. */
  lemma {:induction false} ScaleMax(c: Column, f: real)
    requires f > 0.0
    ensures MaxDefined(Scale(c, f)) == ScaleCell(MaxDefined(c), f)
  {
    if |c| > 0 {
      ScaleLast(c, f);
      ScaleMax(c[..|c| - 1], f);
      ScaleCellExtremes(MaxDefined(c[..|c| - 1]), c[|c| - 1], f);
    }
  }

  /** Scaling a column by a positive factor scales its minimum. */
  lemma {:induction false} ScaleMin(c: Column, f: real)
    requires f > 0.0
    ensures MinDefined(Scale(c, f)) == ScaleCell(MinDefined(c), f)
  {
    if |c| > 0 {
      ScaleLast(c, f);
      ScaleMin(c[..|c| - 1], f);
      ScaleCellExtremes(MinDefined(c[..|c| - 1]), c[|c| - 1], f);
    }
  }

  // ---------------------------------------------------------------------------
  // Rolling windows: a window of k entries is first complete at index k - 1
  // ---------------------------------------------------------------------------

  /** The k entries that end at index i. */
  function Window<T>(xs: seq<T>, i: nat, k: nat): (w: seq<T>)
    requires k - 1 <= i < |xs|
    ensures |w| == k
  {
    xs[i + 1 - k..i + 1]
  }

  /** `rolling(k).mean()` of a series without gaps. */
  function RollingMean(xs: seq<real>, k: nat): (r: Column)
    requires k > 0
    ensures |r| == |xs|
    ensures forall i :: 0 <= i < |xs| ==> (r[i].Some? <==> k - 1 <= i)
  {
    seq(|xs|, i requires 0 <= i < |xs| => if i + 1 < k then None else Some(Mean(Window(xs, i, k))))
  }

  /** `rolling(k).min()` of a series without gaps. */
  function RollingMin(xs: seq<real>, k: nat): (r: Column)
    requires k > 0
    ensures |r| == |xs|
    ensures forall i :: 0 <= i < |xs| ==> (r[i].Some? <==> k - 1 <= i)
  {
    seq(|xs|, i requires 0 <= i < |xs| => if i + 1 < k then None else Some(Min(Window(xs, i, k))))
  }

  /** `rolling(k).max()` of a series without gaps. */
  function RollingMax(xs: seq<real>, k: nat): (r: Column)
    requires k > 0
    ensures |r| == |xs|
    ensures forall i :: 0 <= i < |xs| ==> (r[i].Some? <==> k - 1 <= i)
  {
    seq(|xs|, i requires 0 <= i < |xs| => if i + 1 < k then None else Some(Max(Window(xs, i, k))))
  }

  /** `rolling(k).mean()` of a column with gaps: pandas needs k defined
      observations in the window, so one NaN in the window makes it NaN. */
  function RollingMeanOpt(c: Column, k: nat): (r: Column)
    requires k > 0
    ensures |r| == |c|
    ensures forall i :: 0 <= i < |c| ==> (r[i].Some? <==> k - 1 <= i && AllDefined(Window(c, i, k)))
  {
    seq(|c|, i requires 0 <= i < |c| =>
      if i + 1 < k || !AllDefined(Window(c, i, k)) then None
      else Some(Mean(Values(Window(c, i, k)))))
  }

  /** A rolling mean never leaves the range of the values it averages. */
  lemma RollingMeanOptWithin(c: Column, k: nat, i: nat, lo: real, hi: real)
    requires k > 0 && i < |c|
    requires forall j :: 0 <= j < |c| && c[j].Some? ==> lo <= c[j].value <= hi
    ensures RollingMeanOpt(c, k)[i].Some? ==> lo <= RollingMeanOpt(c, k)[i].value <= hi
  {
    if RollingMeanOpt(c, k)[i].Some? {
      var w := Window(c, i, k);
      var vs := Values(w);
      assert Within(vs, lo, hi) by {
        forall j | 0 <= j < |vs| ensures lo <= vs[j] <= hi {
          assert w[j] == c[i + 1 - k + j];
        }
      }
      MeanWithin(vs, lo, hi);
    }
  }

  // ---------------------------------------------------------------------------
  // Exponentially weighted means
  // ---------------------------------------------------------------------------

  /** The smoothing factor pandas derives from a span: 2 / (span + 1). */
  function Alpha(span: nat): (a: real)
    requires span >= 1
    ensures 0.0 < a <= 1.0
  {
    2.0 / ((span + 1) as real)
  }

  /** `ewm(alpha, adjust=False).mean()`: y0 = x0 and
      yt = (1 - alpha) * y(t-1) + alpha * xt. */
  function Ewm(xs: seq<real>, alpha: real): (ys: seq<real>)
    ensures |ys| == |xs|
    ensures |xs| > 0 ==> ys[0] == xs[0]
  {
    if |xs| == 0 then []
    else if |xs| == 1 then [xs[0]]
    else
      var p := Ewm(xs[..|xs| - 1], alpha);
      p + [(1.0 - alpha) * p[|p| - 1] + alpha * xs[|xs| - 1]]
  }

  /** The recurrence holds at every index, not only at the last one. */
  lemma {:induction false} EwmStep(xs: seq<real>, alpha: real, t: nat)
    requires 1 <= t < |xs|
    ensures Ewm(xs, alpha)[t] == (1.0 - alpha) * Ewm(xs, alpha)[t - 1] + alpha * xs[t]
  {
    var p := xs[..|xs| - 1];
    if t < |xs| - 1 {
      EwmStep(p, alpha, t);
      assert p[t] == xs[t];
    }
  }

  /** An adjust=False EMA of a constant series is that constant at every index. */
  lemma {:induction false} EwmConstant(xs: seq<real>, alpha: real, c: real)
    requires Constant(xs, c)
    ensures Constant(Ewm(xs, alpha), c)
  {
    if |xs| > 1 {
      var p := xs[..|xs| - 1];
      assert Constant(p, c) by {
        forall i | 0 <= i < |p| ensures p[i] == c { assert p[i] == xs[i]; }
      }
      EwmConstant(p, alpha, c);
      var ys := Ewm(p, alpha);
      assert (1.0 - alpha) * ys[|ys| - 1] + alpha * xs[|xs| - 1] == (1.0 - alpha) * c + alpha * c;
    }
  }

  lemma MulNonNegative(a: real, b: real)
    requires 0.0 <= a && 0.0 <= b
    ensures 0.0 <= a * b
  {
  }

  lemma ConvexWithin(a: real, y: real, x: real, lo: real, hi: real)
    requires 0.0 <= a <= 1.0 && lo <= y <= hi && lo <= x <= hi
    ensures lo <= (1.0 - a) * y + a * x <= hi
  {
    MulNonNegative(1.0 - a, y - lo);
    MulNonNegative(a, x - lo);
    MulNonNegative(1.0 - a, hi - y);
    MulNonNegative(a, hi - x);
  }

  /** With 0 <= alpha <= 1 every EMA value is a convex combination of inputs,
      so it stays within any range that holds all the inputs. */
  lemma {:induction false} EwmWithin(xs: seq<real>, alpha: real, lo: real, hi: real)
    requires 0.0 <= alpha <= 1.0
    requires Within(xs, lo, hi)
    ensures Within(Ewm(xs, alpha), lo, hi)
  {
    if |xs| > 1 {
      var p := xs[..|xs| - 1];
      assert Within(p, lo, hi) by {
        forall i | 0 <= i < |p| ensures lo <= p[i] <= hi { assert p[i] == xs[i]; }
      }
      EwmWithin(p, alpha, lo, hi);
      var ys := Ewm(p, alpha);
      ConvexWithin(alpha, ys[|ys| - 1], xs[|xs| - 1], lo, hi);
    }
  }

  /** Every entry is above the one before it. */
  predicate Rising(xs: seq<real>)
  {
    forall i :: 0 < i < |xs| ==> xs[i - 1] < xs[i]
  }

  /** A rising series is ordered between any two of its positions. */
  lemma {:induction false} RisingOrdered(xs: seq<real>, i: nat, j: nat)
    requires Rising(xs) && i < j < |xs|
    ensures xs[i] < xs[j]
  {
    if i < j - 1 {
      RisingOrdered(xs, i, j - 1);
    }
  }

  lemma MulPositive(a: real, b: real)
    requires 0.0 < a && 0.0 < b
    ensures 0.0 < a * b
  {
  }

  /** On a rising series an adjust=False EMA lags behind: it never exceeds
      the current entry. */
  lemma {:induction false} EwmLags(xs: seq<real>, alpha: real, t: nat)
    requires 0.0 <= alpha <= 1.0 && Rising(xs) && t < |xs|
    ensures Ewm(xs, alpha)[t] <= xs[t]
  {
    if t > 0 {
      var ys := Ewm(xs, alpha);
      EwmLags(xs, alpha, t - 1);
      EwmStep(xs, alpha, t);
      assert ys[t - 1] <= xs[t];
      ConvexWithin(alpha, ys[t - 1], xs[t], ys[t - 1], xs[t]);
    }
  }

  /** On a rising series the EMA with the larger smoothing factor (the
      shorter span) is above the other one from the second entry on. */
  lemma {:induction false} FasterEwmAbove(xs: seq<real>, a: real, b: real, t: nat)
    requires 0.0 < b < a <= 1.0 && Rising(xs) && t < |xs|
    ensures Ewm(xs, b)[t] <= Ewm(xs, a)[t]
    ensures t > 0 ==> Ewm(xs, b)[t] < Ewm(xs, a)[t]
  {
    if t > 0 {
      FasterEwmAbove(xs, a, b, t - 1);
      EwmLags(xs, b, t - 1);
      EwmGapStep(xs, a, b, t);
    }
  }

  /** One step of FasterEwmAbove on the EMA sequences themselves. */
  lemma EwmGapStep(xs: seq<real>, a: real, b: real, t: nat)
    requires 0.0 < b < a <= 1.0 && 1 <= t < |xs|
    requires Ewm(xs, b)[t - 1] <= Ewm(xs, a)[t - 1] && Ewm(xs, b)[t - 1] < xs[t]
    ensures Ewm(xs, b)[t] < Ewm(xs, a)[t]
  {
    var ya, yb := Ewm(xs, a), Ewm(xs, b);
    EwmStep(xs, a, t);
    EwmStep(xs, b, t);
    StepGap(a, b, xs[t], ya[t - 1], yb[t - 1]);
  }

  /** One EMA step keeps the faster average above the slower one when the
      new entry is above the slower average. */
  lemma StepGap(a: real, b: real, x: real, pa: real, pb: real)
    requires 0.0 < b < a <= 1.0 && pb <= pa && pb < x
    ensures (1.0 - b) * pb + b * x < (1.0 - a) * pa + a * x
  {
    MulPositive(a - b, x - pb);
    MulNonNegative(1.0 - a, pa - pb);
    assert ((1.0 - a) * pa + a * x) - ((1.0 - b) * pb + b * x) == (a - b) * (x - pb) + (1.0 - a) * (pa - pb);
  }

  /** The denominator of pandas' adjust=True EMA over the first m entries:
      1 + (1 - alpha) + ... + (1 - alpha)^(m-1). */
  function EwmAdjustedDen(m: nat, alpha: real): (d: real)
    requires m >= 1 && 0.0 <= alpha <= 1.0
    ensures d >= 1.0
  {
    if m == 1 then 1.0
    else
      var p := EwmAdjustedDen(m - 1, alpha);
      assert (1.0 - alpha) * p >= 0.0;
      1.0 + (1.0 - alpha) * p
  }

  /** The numerator of pandas' adjust=True EMA: the weighted sum
      x(t) + (1 - alpha) x(t-1) + ... + (1 - alpha)^t x(0). */
  function EwmAdjustedNum(xs: seq<real>, alpha: real): real
    requires |xs| >= 1
  {
    if |xs| == 1 then xs[0]
    else xs[|xs| - 1] + (1.0 - alpha) * EwmAdjustedNum(xs[..|xs| - 1], alpha)
  }

  /** `ewm(alpha).mean()` with pandas' default adjust=True: at every index the
      weighted mean of all entries so far with weights (1 - alpha)^age. */
  function EwmAdjusted(xs: seq<real>, alpha: real): (ys: seq<real>)
    requires 0.0 <= alpha <= 1.0
    ensures |ys| == |xs|
  {
    seq(|xs|, i requires 0 <= i < |xs| => EwmAdjustedNum(xs[..i + 1], alpha) / EwmAdjustedDen(i + 1, alpha))
  }

  lemma {:induction false} EwmAdjustedNumConstant(xs: seq<real>, alpha: real, c: real)
    requires |xs| >= 1 && 0.0 <= alpha <= 1.0 && Constant(xs, c)
    ensures EwmAdjustedNum(xs, alpha) == c * EwmAdjustedDen(|xs|, alpha)
  {
    if |xs| > 1 {
      var p := xs[..|xs| - 1];
      assert Constant(p, c) by {
        forall i | 0 <= i < |p| ensures p[i] == c { assert p[i] == xs[i]; }
      }
      EwmAdjustedNumConstant(p, alpha, c);
      var d := EwmAdjustedDen(|p|, alpha);
      assert c + (1.0 - alpha) * (c * d) == c * (1.0 + (1.0 - alpha) * d);
    }
  }

  /** The adjust=True EMA of a constant series is that constant. */
  lemma EwmAdjustedConstant(xs: seq<real>, alpha: real, c: real)
    requires 0.0 <= alpha <= 1.0 && Constant(xs, c)
    ensures Constant(EwmAdjusted(xs, alpha), c)
  {
    forall i | 0 <= i < |xs| ensures EwmAdjusted(xs, alpha)[i] == c {
      var p := xs[..i + 1];
      assert Constant(p, c) by {
        forall j | 0 <= j < |p| ensures p[j] == c { assert p[j] == xs[j]; }
      }
      EwmAdjustedNumConstant(p, alpha, c);
    }
  }

  // ---------------------------------------------------------------------------
  // Standard deviation: the square root is left abstract
  // ---------------------------------------------------------------------------

  /** `root` behaves as the non-negative square root on non-negative reals
      (the root of zero is stated on its own, which the solver does not derive
      from the squares). */
  ghost predicate IsSqrt(root: real -> real)
  {
    && root(0.0) == 0.0
    && forall v :: 0.0 <= v ==> 0.0 <= root(v) && root(v) * root(v) == v
  }

  /** Sum of squared deviations from m. */
  function SumSqDev(xs: seq<real>, m: real): (r: real)
    ensures r >= 0.0
  {
    if |xs| == 0 then 0.0
    else
      var d := xs[|xs| - 1] - m;
      assert d * d >= 0.0;
      SumSqDev(xs[..|xs| - 1], m) + d * d
  }

  /** The sample variance (ddof = 1), the square of what pandas' `std` returns. */
  function Variance(xs: seq<real>): (v: real)
    requires |xs| >= 2
    ensures v >= 0.0
  {
    SumSqDev(xs, Mean(xs)) / ((|xs| - 1) as real)
  }

  lemma {:induction false} SumSqDevConstant(xs: seq<real>, c: real)
    requires Constant(xs, c)
    ensures SumSqDev(xs, c) == 0.0
  {
    if |xs| > 0 {
      var p := xs[..|xs| - 1];
      assert Constant(p, c) by {
        forall i | 0 <= i < |p| ensures p[i] == c { assert p[i] == xs[i]; }
      }
      SumSqDevConstant(p, c);
    }
  }

  /** A constant series has no spread. */
  lemma VarianceConstant(xs: seq<real>, c: real)
    requires |xs| >= 2 && Constant(xs, c)
    ensures Variance(xs) == 0.0
  {
    MeanConstant(xs, c);
    SumSqDevConstant(xs, c);
  }

  /** `Series.std()` of a column: skips NaN, and needs two defined values. */
  function StdDefined(c: Column, root: real -> real): (s: Option<real>)
    ensures s.Some? <==> |DefinedValues(c)| >= 2
  {
    var vs := DefinedValues(c);
    if |vs| < 2 then None else Some(root(Variance(vs)))
  }

  /** `rolling(k).std()` of a series without gaps. */
  function RollingStd(xs: seq<real>, k: nat, root: real -> real): (r: Column)
    requires k >= 2
    ensures |r| == |xs|
    ensures forall i :: 0 <= i < |xs| ==> (r[i].Some? <==> k - 1 <= i)
  {
    seq(|xs|, i requires 0 <= i < |xs| => if i + 1 < k then None else Some(root(Variance(Window(xs, i, k)))))
  }

  /** `rolling(k).std()` of a column with gaps: NaN unless all k cells are defined. */
  function RollingStdOpt(c: Column, k: nat, root: real -> real): (r: Column)
    requires k >= 2
    ensures |r| == |c|
    ensures forall i :: 0 <= i < |c| ==> (r[i].Some? <==> k - 1 <= i && AllDefined(Window(c, i, k)))
  {
    seq(|c|, i requires 0 <= i < |c| =>
      if i + 1 < k || !AllDefined(Window(c, i, k)) then None
      else Some(root(Variance(Values(Window(c, i, k))))))
  }
}
