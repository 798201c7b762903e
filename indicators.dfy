/** The indicator columns main.py adds to a price frame: the 14-row RSI and
    the 50- and 200-row simple moving averages of the closing price. Values
    are exact reals; `None` stands for a NaN cell. */
module Indicators {
  import opened Wrappers

  const RSI_WINDOW: nat := 14
  const SHORT_WINDOW: nat := 50
  const LONG_WINDOW: nat := 200

  /** Sum of a sequence, accumulated from the front. */
  function Sum(s: seq<real>): real
  {
    if s == [] then 0.0 else Sum(s[..|s| - 1]) + s[|s| - 1]
  }

  /** Every term of `s` lies in [lo, hi], so the sum lies in [|s|*lo, |s|*hi]. */
  lemma {:induction false} SumBounds(s: seq<real>, lo: real, hi: real)
    requires forall k :: 0 <= k < |s| ==> lo <= s[k] <= hi
    ensures |s| as real * lo <= Sum(s) <= |s| as real * hi
  {
    if s != [] {
      SumBounds(s[..|s| - 1], lo, hi);
    }
  }

  /** A sum of non-negative terms is non-negative. */
  lemma {:induction false} SumNonNegative(s: seq<real>)
    requires forall k :: 0 <= k < |s| ==> s[k] >= 0.0
    ensures Sum(s) >= 0.0
  {
    if s != [] {
      SumNonNegative(s[..|s| - 1]);
    }
  }

  /** A sum of non-negative terms is zero exactly when every term is zero. */
  lemma {:induction false} SumZero(s: seq<real>)
    requires forall k :: 0 <= k < |s| ==> s[k] >= 0.0
    ensures Sum(s) == 0.0 <==> forall k :: 0 <= k < |s| ==> s[k] == 0.0
  {
    if s != [] {
      var front := s[..|s| - 1];
      SumZero(front);
      SumNonNegative(front);
    }
  }

  /** Row i of `close.diff(1)`: NaN on the first row, the change from the
      previous close after it. */
  function Delta(close: seq<real>, i: nat): (d: Option<real>)
    requires i < |close|
    ensures d.None? <==> i == 0
    ensures d.Some? ==> close[i - 1] + d.value == close[i]
  {
    if i == 0 then None else Some(close[i] - close[i - 1])
  }

  /** `delta.where(delta > 0, 0.0)`: the rise, and 0.0 where there is none
      or the delta is NaN. */
  function Gain(d: Option<real>): (g: real)
    ensures g >= 0.0
    ensures g > 0.0 <==> d.Some? && d.value > 0.0
  {
    if d.Some? && d.value > 0.0 then d.value else 0.0
  }

  /** `-delta.where(delta < 0, 0.0)`: the fall as a positive amount, and 0.0
      where there is none or the delta is NaN. */
  function Loss(d: Option<real>): (l: real)
    ensures l >= 0.0
    ensures l > 0.0 <==> d.Some? && d.value < 0.0
  {
    if d.Some? && d.value < 0.0 then -d.value else 0.0
  }

  /** Gain and loss split a delta: never both positive, their difference is
      the delta, and the NaN first delta counts as no gain and no loss. */
  lemma GainLossSplit(d: Option<real>)
    ensures Gain(d) == 0.0 || Loss(d) == 0.0
    ensures d.Some? ==> Gain(d) - Loss(d) == d.value
    ensures d.None? ==> Gain(d) == 0.0 && Loss(d) == 0.0
    ensures Gain(d) == 0.0 && Loss(d) == 0.0 <==> d.None? || d.value == 0.0
  {
  }

  /** The gain column, row for row with the closes. */
  function Gains(close: seq<real>): seq<real>
  {
    seq(|close|, i requires 0 <= i < |close| => Gain(Delta(close, i)))
  }

  /** The loss column, row for row with the closes. */
  function Losses(close: seq<real>): seq<real>
  {
    seq(|close|, i requires 0 <= i < |close| => Loss(Delta(close, i)))
  }

  /** The `w` values ending at row i. */
  function Window(xs: seq<real>, w: nat, i: nat): seq<real>
    requires 0 < w <= i + 1 <= |xs|
  {
    xs[i + 1 - w..i + 1]
  }

  /** `xs.rolling(window=w, min_periods=w).mean()`: the mean of the `w` rows
      ending at each row, NaN on the first w-1 rows. */
  function RollingMean(xs: seq<real>, w: nat): (r: seq<Option<real>>)
    requires w > 0
    ensures |r| == |xs|
    ensures forall i :: 0 <= i < |xs| ==> (r[i].Some? <==> i >= w - 1)
  {
    seq(|xs|, i requires 0 <= i < |xs| =>
      if i + 1 >= w then Some(Sum(Window(xs, w, i)) / w as real) else None)
  }

  /** A rolling mean lies between any bounds of the values in its window. */
  lemma RollingMeanBounds(xs: seq<real>, w: nat, i: nat, lo: real, hi: real)
    requires 0 < w <= i + 1 <= |xs|
    requires forall k :: i + 1 - w <= k <= i ==> lo <= xs[k] <= hi
    ensures lo <= RollingMean(xs, w)[i].value <= hi
  {
    var win := Window(xs, w, i);
    SumBounds(win, lo, hi);
    MeanBetween(Sum(win), w as real, lo, hi);
  }

  /** A total between n*lo and n*hi gives a mean between lo and hi. */
  lemma MeanBetween(total: real, n: real, lo: real, hi: real)
    requires n > 0.0
    requires n * lo <= total <= n * hi
    ensures lo <= total / n <= hi
  {
    var m := total / n;
    assert m * n == total;
    assert (m - lo) * n >= 0.0;
    assert (hi - m) * n >= 0.0;
  }

  /** A rolling mean of non-negative values is non-negative. */
  lemma RollingMeanNonNegative(xs: seq<real>, w: nat, i: nat)
    requires 0 < w <= i + 1 <= |xs|
    requires forall k :: i + 1 - w <= k <= i ==> xs[k] >= 0.0
    ensures RollingMean(xs, w)[i].value >= 0.0
  {
    SumNonNegative(Window(xs, w, i));
  }

  /** A rolling mean of non-negative values is zero exactly when every value
      in its window is zero. */
  lemma RollingMeanZero(xs: seq<real>, w: nat, i: nat)
    requires 0 < w <= i + 1 <= |xs|
    requires forall k :: i + 1 - w <= k <= i ==> xs[k] >= 0.0
    ensures RollingMean(xs, w)[i].value == 0.0 <==> forall k :: i + 1 - w <= k <= i ==> xs[k] == 0.0
  {
    var win := Window(xs, w, i);
    SumZero(win);
    forall k | i + 1 - w <= k <= i ensures xs[k] == win[k - (i + 1 - w)] { }
  }

  /** `100 - 100 / (1 + avg_gain / avg_loss)` as float arithmetic evaluates
      it: NaN when either mean is NaN or both are zero (0/0), 100 when only
      the loss is zero (x/0 is infinite). Otherwise it is 100 G / (G + L)
      for means G and L, an oscillator in [0, 100]. */
  function RsiOf(avgGain: Option<real>, avgLoss: Option<real>): (r: Option<real>)
    requires avgGain.Some? ==> avgGain.value >= 0.0
    requires avgLoss.Some? ==> avgLoss.value >= 0.0
    ensures r.Some? ==> 0.0 <= r.value <= 100.0
    ensures r.None? <==> avgGain.None? || avgLoss.None? || (avgGain.value == 0.0 && avgLoss.value == 0.0)
    ensures r.Some? ==> r.value * (avgGain.value + avgLoss.value) == 100.0 * avgGain.value
  {
    if avgGain.None? || avgLoss.None? then None
    else if avgLoss.value == 0.0 then
      if avgGain.value == 0.0 then None else Some(100.0)
    else
      var rs := avgGain.value / avgLoss.value;
      assert rs * avgLoss.value == avgGain.value;
      assert rs >= 0.0;
      var q := 100.0 / (1.0 + rs);
      assert q * (1.0 + rs) == 100.0;
      assert 0.0 < q <= 100.0;
      assert q * (avgLoss.value + avgGain.value) == 100.0 * avgLoss.value by {
        assert q * (avgLoss.value + avgGain.value) == q * ((1.0 + rs) * avgLoss.value);
      }
      Some(100.0 - q)
  }

  /** `calculate_rsi`: the RSI column, row for row with the closes. */
  function Rsi(close: seq<real>): (r: seq<Option<real>>)
    ensures |r| == |close|
  {
    var avgGain := RollingMean(Gains(close), RSI_WINDOW);
    var avgLoss := RollingMean(Losses(close), RSI_WINDOW);
    seq(|close|, i requires 0 <= i < |close| =>
      MeansNonNegative(close, i);
      RsiOf(avgGain[i], avgLoss[i]))
  }

  /** The rolling gain and loss means are non-negative where defined. */
  lemma MeansNonNegative(close: seq<real>, i: nat)
    requires i < |close|
    ensures RollingMean(Gains(close), RSI_WINDOW)[i].Some? ==> RollingMean(Gains(close), RSI_WINDOW)[i].value >= 0.0
    ensures RollingMean(Losses(close), RSI_WINDOW)[i].Some? ==> RollingMean(Losses(close), RSI_WINDOW)[i].value >= 0.0
  {
    if i >= RSI_WINDOW - 1 {
      RollingMeanNonNegative(Gains(close), RSI_WINDOW, i);
      RollingMeanNonNegative(Losses(close), RSI_WINDOW, i);
    }
  }

  /** The RSI on row i lies in [0, 100]; it is defined from row 13 on, except
      where the 14 gains and 14 losses ending at row i are all zero. */
  lemma RsiDefinedness(close: seq<real>, i: nat)
    requires i < |close|
    ensures Rsi(close)[i].Some? ==> 0.0 <= Rsi(close)[i].value <= 100.0
    ensures Rsi(close)[i].Some? ==> i >= RSI_WINDOW - 1
    ensures i >= RSI_WINDOW - 1 ==>
              (Rsi(close)[i].None? <==>
                 forall k :: i + 1 - RSI_WINDOW <= k <= i ==> Gains(close)[k] == 0.0 && Losses(close)[k] == 0.0)
  {
    var gains, losses := Gains(close), Losses(close);
    var avgGain := RollingMean(gains, RSI_WINDOW);
    var avgLoss := RollingMean(losses, RSI_WINDOW);
    if i >= RSI_WINDOW - 1 {
      RollingMeanZero(gains, RSI_WINDOW, i);
      RollingMeanZero(losses, RSI_WINDOW, i);
    }
    MeansNonNegative(close, i);
  }

  /** The indicator frame: the closes with the three derived columns. */
  datatype Frame = Frame(close: seq<real>, rsi: seq<Option<real>>, shortMa: seq<Option<real>>, longMa: seq<Option<real>>)

  /** `calculate_rsi` followed by `calculate_moving_averages`. */
  function Enrich(close: seq<real>): (f: Frame)
    ensures f.close == close
    ensures |f.rsi| == |f.shortMa| == |f.longMa| == |close|
    ensures forall i :: 0 <= i < |close| ==> (f.shortMa[i].Some? <==> i >= SHORT_WINDOW - 1)
    ensures forall i :: 0 <= i < |close| ==> (f.longMa[i].Some? <==> i >= LONG_WINDOW - 1)
  {
    Frame(close, Rsi(close), RollingMean(close, SHORT_WINDOW), RollingMean(close, LONG_WINDOW))
  }
}
