/** The forecasting endpoints of app/routers/stock_prediction.py: the
    single-window `predict` and the walk-forward `long_term_eval`.

    A series arrives newest-first and is turned oldest-first before anything
    else happens.  The forecasting model is a parameter: a function from a
    context window and a horizon to the forecast's central estimate. */
module StockPrediction {
  import opened Results

  /** `long_term_eval` keeps at most this many of the most recent points. */
  const MaxHistory: nat := 3000

  /** The only validation failure: the series is too short. */
  datatype EvalError = InsufficientData

  /** What `long_term_eval` accumulates: the concatenated forecasts and the
      concatenated actual values they are compared with. */
  datatype Evaluation = Evaluation(predicted: seq<real>, actual: seq<real>)

  /** The forecasting model: context window and horizon to point forecast. */
  type Forecaster = (seq<real>, int) -> seq<real>

  /** The model answers every request for `p` steps with exactly `p` values. */
  ghost predicate Horizon(forecast: Forecaster, p: int)
  {
    forall ctx: seq<real> :: |forecast(ctx, p)| == p
  }

  /** `data[::-1]`: element `i` of the result is element `|s|-1-i` of `s`. */
  function Reverse(s: seq<real>): (r: seq<real>)
    ensures |r| == |s|
    ensures forall i :: 0 <= i < |s| ==> r[i] == s[|s| - 1 - i]
  {
    seq(|s|, i requires 0 <= i < |s| => s[|s| - 1 - i])
  }

  /** Reversing twice gives back the series, so a caller that already holds
      oldest-first data may reverse it before sending it. */
  lemma ReverseInvolutive(s: seq<real>)
    ensures Reverse(Reverse(s)) == s
  {
    var r := Reverse(Reverse(s));
    assert forall i :: 0 <= i < |s| ==> r[i] == Reverse(s)[|s| - 1 - i];
  }

  /** The trailing `n` points of the reversed series are the first `n` input
      points, reversed. */
  lemma ReverseSuffix(s: seq<real>, n: nat)
    requires n <= |s|
    ensures Reverse(s)[|s| - n..] == Reverse(s[..n])
  {
    var a, b := Reverse(s)[|s| - n..], Reverse(s[..n]);
    forall i | 0 <= i < n ensures a[i] == b[i] {
      ReverseSuffixAt(s, n, i);
    }
  }

  lemma ReverseSuffixAt(s: seq<real>, n: nat, i: nat)
    requires i < n <= |s|
    ensures Reverse(s)[|s| - n + i] == Reverse(s[..n])[i]
  {
    var prefix, r, j := s[..n], Reverse(s), |s| - n + i;
    assert r[j] == s[|s| - 1 - j];
    assert |s| - 1 - j == n - 1 - i;
    assert Reverse(prefix)[i] == prefix[n - 1 - i] == s[n - 1 - i];
  }

  /** The truncation step: a series longer than MaxHistory keeps exactly its
      last MaxHistory points, a shorter one is left alone. */
  function MostRecent(data: seq<real>): (r: seq<real>)
    ensures |r| == if |data| > MaxHistory then MaxHistory else |data|
    ensures r == data[|data| - |r|..]
  {
    if |data| > MaxHistory then data[|data| - MaxHistory..] else data
  }

  /** The series `long_term_eval` windows over: reversed first, then
      truncated.  It holds the newest `min(len, MaxHistory)` inputs, and its
      element `i` is input element `|r|-1-i`, so the oldest kept point
      comes first. */
  function Chronological(series: seq<real>): (r: seq<real>)
    ensures |r| == if |series| > MaxHistory then MaxHistory else |series|
    ensures forall i :: 0 <= i < |r| ==> r[i] == series[|r| - 1 - i]
  {
    MostRecent(Reverse(series))
  }

  /** Because the reversal comes before the truncation, what survives is the
      newest points of the input (its first MaxHistory elements), oldest
      first; the oldest inputs are the ones discarded. */
  lemma ChronologicalKeepsNewest(series: seq<real>)
    ensures var n := if |series| > MaxHistory then MaxHistory else |series|;
      Chronological(series) == Reverse(series[..n])
  {
    var n := if |series| > MaxHistory then MaxHistory else |series|;
    ReverseSuffix(series, n);
  }

  /** Number of non-overlapping windows of `p` points that fit after the
      first context of `c` points in a series of `n` points: the last one
      ends at or before `n`, one more would not. */
  function WindowCount(n: int, c: int, p: int): (w: nat)
    requires 1 <= p && c <= n
    ensures c + w * p <= n < c + (w + 1) * p
  {
    (n - c) / p
  }

  /** The window count is the only count with those bounds. */
  lemma WindowCountUnique(n: int, c: int, p: int, k: nat)
    requires 1 <= p && c + k * p <= n < c + (k + 1) * p
    ensures WindowCount(n, c, p) == k
  {
    var w := WindowCount(n, c, p);
    if w < k {
      MulMonotone(w + 1, k, p);
    } else if w > k {
      MulMonotone(k + 1, w, p);
    }
  }

  lemma MulMonotone(a: nat, b: nat, p: nat)
    requires a <= b
    ensures a * p <= b * p
  {
  }

  /** The context window that ends at `index`: the `c` points before it. */
  function Context(data: seq<real>, c: nat, index: nat): (ctx: seq<real>)
    requires c <= index <= |data|
    ensures |ctx| == c
    ensures forall i :: 0 <= i < c ==> ctx[i] == data[index - c + i]
  {
    data[index - c..index]
  }

  /** The actual values a window starting at `index` is scored against. */
  function Truth(data: seq<real>, p: nat, index: nat): (t: seq<real>)
    requires index + p <= |data|
    ensures |t| == p
    ensures forall i :: 0 <= i < p ==> t[i] == data[index + i]
  {
    data[index..index + p]
  }

  /** A window's context ends exactly where its truth begins: together they
      are one contiguous stretch of the series, with no gap and no overlap. */
  lemma ContextMeetsTruth(data: seq<real>, c: nat, p: nat, index: nat)
    requires c <= index && index + p <= |data|
    ensures Context(data, c, index) + Truth(data, p, index) == data[index - c..index + p]
  {
    assert data[index - c..index + p] == data[index - c..index] + data[index..index + p];
  }

  /** The concatenated forecasts of the first `k` windows; window `j` starts
      at `c + j*p`.  With a model that honours the horizon, `k` windows
      forecast `k*p` values, as many as the actual values they are compared
      with. */
  function Forecasts(data: seq<real>, c: nat, p: nat, forecast: Forecaster, k: nat): (r: seq<real>)
    requires c + k * p <= |data|
    ensures Horizon(forecast, p) ==> |r| == k * p
    decreases k
  {
    if k == 0 then []
    else
      MulMonotone(k - 1, k, p);
      Forecasts(data, c, p, forecast, k - 1) + forecast(Context(data, c, c + (k - 1) * p), p)
  }

  /** No lookahead: the first `k` forecasts are a function of the points
      before the start of window `k - 1`'s truth, so changing anything from
      there on cannot change them. */
  lemma {:induction false} ForecastsSeeOnlyThePast(d1: seq<real>, d2: seq<real>, c: nat, p: nat,
                                                   forecast: Forecaster, k: nat)
    requires k >= 1 && c + k * p <= |d1| && c + k * p <= |d2|
    requires d1[..c + (k - 1) * p] == d2[..c + (k - 1) * p]
    ensures Forecasts(d1, c, p, forecast, k) == Forecasts(d2, c, p, forecast, k)
  {
    var index := c + (k - 1) * p;
    MulMonotone(k - 1, k, p);
    assert Context(d1, c, index) == d1[..index][index - c..];
    assert Context(d2, c, index) == d2[..index][index - c..];
    if k > 1 {
      MulMonotone(k - 2, k - 1, p);
      var earlier := c + (k - 2) * p;
      assert d1[..earlier] == d1[..index][..earlier];
      assert d2[..earlier] == d2[..index][..earlier];
      ForecastsSeeOnlyThePast(d1, d2, c, p, forecast, k - 1);
    }
  }

  /** `predict`: reverse, reject a series shorter than `c + 1`, and forecast
      once from the trailing `c` chronological points, which are the first
      `c` input points in reverse order. */
  function Predict(series: seq<real>, c: int, p: int, forecast: Forecaster): (r: Result<seq<real>, EvalError>)
    requires c >= 1
    ensures r.Err? <==> |series| < c + 1
    ensures r.Ok? ==> r.value == forecast(Reverse(series[..c]), p)
  {
    var data := Reverse(series);
    if |data| < c + 1 then Err(InsufficientData)
    else
      ReverseSuffix(series, c);
      Ok(forecast(data[|data| - c..], p))
  }

  /** The window loop of `long_term_eval` over the chronological series.
      `index` runs through `c, c+p, c+2p, ...` while a whole truth slice
      fits; the actual values are the one contiguous stretch after the first
      context, up to the last whole window (a shorter tail is dropped), and
      the predictions are the forecasts of exactly WindowCount windows. */
  method SlideWindows(data: seq<real>, c: int, p: int, forecast: Forecaster)
    returns (predicted: seq<real>, actual: seq<real>)
    requires c >= 1 && p >= 1 && c + p <= |data|
    ensures WindowCount(|data|, c, p) >= 1
    ensures actual == data[c..c + WindowCount(|data|, c, p) * p]
    ensures predicted == Forecasts(data, c, p, forecast, WindowCount(|data|, c, p))
    ensures Horizon(forecast, p) ==> |predicted| == |actual|
  {
    var lens := |data|;
    var index := c;
    actual, predicted := [], [];
    ghost var k: nat := 0;
    while index <= lens - p
      invariant index == c + k * p && index <= lens
      invariant actual == data[c..index]
      invariant predicted == Forecasts(data, c, p, forecast, k)
      decreases lens - index
    {
      var contextData := data[index - c..index];
      var mean := forecast(contextData, p);
      var trueVal := data[index..index + p];
      assert data[c..index + p] == data[c..index] + trueVal;
      actual := actual + trueVal;
      predicted := predicted + mean;
      index := index + p;
      k := k + 1;
    }
    WindowCountUnique(lens, c, p, k);
  }

  /** `long_term_eval` without the similarity score: reverse, truncate,
      fail exactly when fewer than `c + p` points remain (before any
      forecast), and otherwise slide the windows over what remains. */
  method LongTermEval(series: seq<real>, c: int, p: int, forecast: Forecaster)
    returns (r: Result<Evaluation, EvalError>)
    requires c >= 1 && p >= 1
    ensures r.Err? <==> |Chronological(series)| < c + p
    ensures r.Ok? ==> WindowCount(|Chronological(series)|, c, p) >= 1
    ensures r.Ok? ==>
      r.value.actual == Chronological(series)[c..c + WindowCount(|Chronological(series)|, c, p) * p]
    ensures r.Ok? ==>
      r.value.predicted == Forecasts(Chronological(series), c, p, forecast, WindowCount(|Chronological(series)|, c, p))
    ensures r.Ok? && Horizon(forecast, p) ==> |r.value.predicted| == |r.value.actual|
  {
    var data := Chronological(series);
    if |data| < c + p {
      return Err(InsufficientData);
    }
    var predValues, trueValues := SlideWindows(data, c, p, forecast);
    return Ok(Evaluation(predValues, trueValues));
  }

  /** A series exactly one window long yields one window. */
  lemma ExactFitIsOneWindow(n: int, c: int, p: int)
    requires 1 <= p && n == c + p
    ensures WindowCount(n, c, p) == 1
  {
    WindowCountUnique(n, c, p, 1);
  }
}
