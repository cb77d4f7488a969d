/** The forecast engine: a trailing-trend extrapolation with noise scaled by
    the history's volatility, a confidence score, and the construction of the
    record handed to the ledger. `Math.random()` draws, the clocks and
    `Math.sqrt` are inputs. */
module Engine {

  import opened Wrappers
  import opened Ledger
  import Seqs

  /** Symbols treated as stable blue chips. */
  const BlueChips: seq<string> := ["AAPL", "MSFT", "GOOGL"]
  /** Symbols treated as volatile. */
  const VolatileStocks: seq<string> := ["TSLA", "NVDA", "COIN"]

  /** The per-asset confidence adjustment chosen by `generatePrediction`'s
      `switch`: stable assets raise confidence, volatile ones lower it. */
  function ConfidenceAdjustment(kind: AssetType, symbol: string): (r: int)
    ensures -10 <= r <= 5
    ensures r > 0 <==> kind == NASDAQ || (kind == Stock && symbol in BlueChips)
    ensures r < 0 <==> kind == Bitcoin || (kind == Stock && symbol in VolatileStocks)
    ensures kind != Stock ==> r == (match kind case NASDAQ => 5 case Bitcoin => -10 case _ => 0)
    ensures kind == Stock ==> r in {3, -5, 0}
  {
    match kind
    case NASDAQ => 5
    case Bitcoin => -10
    case Stock =>
      if symbol in BlueChips then 3
      else if symbol in VolatileStocks then -5
      else 0
    case Portfolio => 0
  }

  /** The adjustment is fixed per type, and for stocks depends only on which
      profile list the symbol is in. */
  lemma AdjustmentTable(symbol: string, other: string)
    ensures ConfidenceAdjustment(NASDAQ, symbol) == 5
    ensures ConfidenceAdjustment(Bitcoin, symbol) == -10
    ensures ConfidenceAdjustment(Portfolio, symbol) == 0
    ensures symbol in BlueChips ==> ConfidenceAdjustment(Stock, symbol) == 3
    ensures symbol in VolatileStocks ==> ConfidenceAdjustment(Stock, symbol) == -5
    ensures symbol !in BlueChips && symbol !in VolatileStocks ==> ConfidenceAdjustment(Stock, symbol) == 0
    ensures BlueChips == ["AAPL", "MSFT", "GOOGL"] && VolatileStocks == ["TSLA", "NVDA", "COIN"]
  {
  }

  // Statistics

  /** `values.reduce((sum, val) => sum + val, 0)`. */
  function Sum(values: seq<real>): real
  {
    if values == [] then 0.0 else values[0] + Sum(values[1..])
  }

  function Mean(values: seq<real>): real
    requires values != []
  {
    Sum(values) / |values| as real
  }

  /** The sum of squared deviations from `m`. */
  function SquaredDeviations(values: seq<real>, m: real): real
  {
    if values == [] then 0.0 else (values[0] - m) * (values[0] - m) + SquaredDeviations(values[1..], m)
  }

  /** The population variance `Math.std` takes the root of. */
  function Variance(values: seq<real>): real
    requires values != []
  {
    SquaredDeviations(values, Mean(values)) / |values| as real
  }

  lemma {:induction false} SquaredDeviationsNonNegative(values: seq<real>, m: real)
    ensures SquaredDeviations(values, m) >= 0.0
  {
    if values != [] {
      SquaredDeviationsNonNegative(values[1..], m);
      assert (values[0] - m) * (values[0] - m) >= 0.0;
    }
  }

  predicate AllEqual(values: seq<real>, c: real)
  {
    forall i :: 0 <= i < |values| ==> values[i] == c
  }

  lemma {:induction false} SumOfConstant(values: seq<real>, c: real)
    requires AllEqual(values, c)
    ensures Sum(values) == |values| as real * c
  {
    if values != [] {
      SumOfConstant(values[1..], c);
    }
  }

  lemma {:induction false} SquaredDeviationsOfConstant(values: seq<real>, c: real)
    requires AllEqual(values, c)
    ensures SquaredDeviations(values, c) == 0.0
  {
    if values != [] {
      SquaredDeviationsOfConstant(values[1..], c);
    }
  }

  /** A constant series has mean equal to the constant and no variance. */
  lemma ConstantSeries(values: seq<real>, c: real)
    requires values != [] && AllEqual(values, c)
    ensures Mean(values) == c && Variance(values) == 0.0
  {
    SumOfConstant(values, c);
    SquaredDeviationsOfConstant(values, c);
  }

  /** `root` behaves as `Math.sqrt` on the non-negative reals. */
  ghost predicate IsRoot(root: real -> real)
  {
    root(0.0) == 0.0 &&
    forall x :: 0.0 <= x ==> 0.0 <= root(x) && root(x) * root(x) == x
  }

  /** `Math.std`: the population standard deviation; 0 for no values. */
  function Std(values: seq<real>, root: real -> real): (r: real)
    requires IsRoot(root)
    ensures r >= 0.0
    ensures values != [] ==> r * r == Variance(values)
  {
    if values == [] then 0.0
    else
      SquaredDeviationsNonNegative(values, Mean(values));
      root(Variance(values))
  }

  /** A constant series has standard deviation 0. */
  lemma StdOfConstant(values: seq<real>, c: real, root: real -> real)
    requires IsRoot(root) && AllEqual(values, c)
    ensures Std(values, root) == 0.0
  {
    if values != [] {
      ConstantSeries(values, c);
    }
  }

  // The forecast rule

  /** The number of trailing values the trend is taken over. */
  const WindowSize: nat := 5

  /** `historicalData.slice(-5)` for a history of at least five values. */
  function Window(history: seq<real>): (w: seq<real>)
    requires |history| >= WindowSize
    ensures |w| == WindowSize && w[WindowSize - 1] == history[|history| - 1]
  {
    history[|history| - WindowSize..]
  }

  /** The values the trend divides by are nonzero, and so is the window's
      mean, which the volatility divides by. */
  predicate TrendDefined(history: seq<real>)
  {
    |history| >= WindowSize ==>
      (forall k :: |history| - WindowSize <= k < |history| - 1 ==> history[k] != 0.0) &&
      Sum(Window(history)) != 0.0
  }

  /** The relative change from `w[i - 1]` to `w[i]`. */
  function Change(w: seq<real>, i: nat): real
    requires 0 < i < |w| && w[i - 1] != 0.0
  {
    (w[i] - w[i - 1]) / w[i - 1]
  }

  /** The four relative changes across the window (`trends`). */
  function Changes(w: seq<real>): (r: seq<real>)
    requires |w| == WindowSize && forall k :: 0 <= k < WindowSize - 1 ==> w[k] != 0.0
    ensures |r| == WindowSize - 1
  {
    seq(WindowSize - 1, k requires 0 <= k < WindowSize - 1 => Change(w, k + 1))
  }

  /** The last value moved by the average relative change. */
  function Baseline(history: seq<real>): (r: real)
    requires |history| >= WindowSize && TrendDefined(history)
    ensures Sum(Changes(Window(history))) == 0.0 ==> r == history[|history| - 1]
    ensures history[|history| - 1] > 0.0 ==>
      (r > history[|history| - 1] <==> Sum(Changes(Window(history))) > 0.0)
  {
    TrendScales(history[|history| - 1], Sum(Changes(Window(history))) / (WindowSize - 1) as real);
    var w := Window(history);
    w[WindowSize - 1] * (1.0 + Sum(Changes(w)) / (WindowSize - 1) as real)
  }

  /** Scaling a positive value by `1 + t` raises it exactly when `t` is
      positive. */
  lemma TrendScales(last: real, t: real)
    ensures last > 0.0 ==> (last * (1.0 + t) > last <==> t > 0.0)
  {
    assert last * (1.0 + t) - last == last * t;
  }

  /** `(Math.std(history) / mean) * 100 || 0.02`: a zero volatility falls
      back to 0.02. */
  function Volatility(history: seq<real>, root: real -> real): (v: real)
    requires IsRoot(root) && |history| >= WindowSize && TrendDefined(history)
    ensures v != 0.0
  {
    var raw := Std(history, root) / Mean(Window(history)) * 100.0;
    if raw == 0.0 then 0.02 else raw
  }

  /** `Math.min(95, Math.max(50, x))`. */
  function Clamp(x: real): (r: real)
    ensures 50.0 <= r <= 95.0
    ensures 50.0 <= x <= 95.0 ==> r == x
  {
    if x < 50.0 then 50.0 else if x > 95.0 then 95.0 else x
  }

  /** The `Math.random()` value scaled to `[-1, 1)`. */
  function Noise(unit: real): real
  {
    unit * 2.0 - 1.0
  }

  /** `((Math.random() * 2 - 1) * volatility * baselinePrediction) / 100`. */
  function MarketNoise(unit: real, volatility: real, baseline: real): (r: real)
    ensures unit == 0.5 || volatility == 0.0 || baseline == 0.0 ==> r == 0.0
  {
    Noise(unit) * volatility * baseline / 100.0
  }

  /** What `simulateTimeSeries` returns; the prediction is missing when the
      history is empty (`historicalData[-1]` is `undefined`). */
  datatype Forecast = Forecast(prediction: Option<real>, confidence: real)

  /** The forecast `simulateTimeSeries` computes for a history, a confidence
      adjustment, the random draw `unit` and a square root. */
  function ForecastOf(history: seq<real>, adjustment: int, unit: real, root: real -> real): (f: Forecast)
    requires IsRoot(root) && TrendDefined(history)
    ensures f.prediction.None? <==> history == []
    ensures 50.0 <= f.confidence <= 95.0
  {
    if |history| < WindowSize then
      Forecast(if history == [] then None else Some(history[|history| - 1]), 60.0)
    else
      var baseline := Baseline(history);
      var volatility := Volatility(history, root);
      Forecast(Some(baseline + MarketNoise(unit, volatility, baseline)), Clamp(90.0 - volatility * 200.0 + adjustment as real))
  }

  /** Fewer than five values: the last value with confidence 60, whatever
      the adjustment. */
  lemma ShortHistoryForecast(history: seq<real>, adjustment: int, unit: real, root: real -> real)
    requires IsRoot(root) && 0 < |history| < WindowSize
    ensures ForecastOf(history, adjustment, unit, root) == Forecast(Some(history[|history| - 1]), 60.0)
  {
  }

  /** With five or more values the confidence lies in [50, 95] whatever the
      adjustment, and the prediction lies within `|volatility|` percent of the
      baseline. */
  lemma LongHistoryForecast(history: seq<real>, adjustment: int, unit: real, root: real -> real)
    requires IsRoot(root) && |history| >= WindowSize && TrendDefined(history)
    requires 0.0 <= unit < 1.0
    ensures var f := ForecastOf(history, adjustment, unit, root);
      && 50.0 <= f.confidence <= 95.0
      && f.prediction.Some?
      && Abs(f.prediction.value - Baseline(history))
         <= Abs(Volatility(history, root)) * Abs(Baseline(history)) / 100.0
  {
    NoiseBound(unit, Volatility(history, root), Baseline(history));
  }

  /** The noise never moves the forecast by more than `|v|` percent of the
      baseline. */
  lemma NoiseBound(unit: real, v: real, b: real)
    requires 0.0 <= unit < 1.0
    ensures Abs(MarketNoise(unit, v, b)) <= Abs(v) * Abs(b) / 100.0
  {
    var n := Noise(unit);
    var m := v * b;
    var x := n * m;
    NoiseInRange(unit);
    AbsProduct(v, b);
    AbsProduct(n, m);
    Associate(n, v, b);
    AbsHundredth(x);
    assert MarketNoise(unit, v, b) == x / 100.0;
    ProductBound(Abs(x), Abs(n), Abs(m), Abs(v) * Abs(b));
  }

  /** `x = n * m` with `0 <= n <= 1` is at most `m`, and so is its
      hundredth at most `m / 100`. */
  lemma ProductBound(x: real, n: real, m: real, bound: real)
    requires x == n * m && 0.0 <= n <= 1.0 && 0.0 <= m && m == bound
    ensures x / 100.0 <= bound / 100.0
  {
    ScaledDown(n, m);
  }

  lemma NoiseInRange(unit: real)
    requires 0.0 <= unit < 1.0
    ensures 0.0 <= Abs(Noise(unit)) <= 1.0
  {
  }

  lemma AbsHundredth(x: real)
    ensures Abs(x / 100.0) == Abs(x) / 100.0
  {
  }

  lemma AbsProduct(x: real, y: real)
    ensures Abs(x * y) == Abs(x) * Abs(y)
  {
    if x < 0.0 && y < 0.0 {
      assert x * y == (-x) * (-y);
    } else if x < 0.0 {
      assert -(x * y) == (-x) * y;
    } else if y < 0.0 {
      assert -(x * y) == x * (-y);
    }
  }

  lemma ScaledDown(a: real, m: real)
    requires 0.0 <= a <= 1.0 && 0.0 <= m
    ensures a * m <= m
  {
    assert m - a * m == (1.0 - a) * m;
  }

  lemma Associate(n: real, v: real, b: real)
    ensures n * v * b / 100.0 == n * (v * b) / 100.0
  {
  }

  /** A constant nonzero history has no trend and no spread, so the
      volatility is the 0.02 fallback and the confidence is
      `min(95, max(50, 86 + adjustment))`. */
  lemma ConstantHistoryForecast(history: seq<real>, c: real, adjustment: int, unit: real, root: real -> real)
    requires IsRoot(root) && |history| >= WindowSize && AllEqual(history, c) && c != 0.0
    ensures TrendDefined(history)
    ensures Baseline(history) == c
    ensures Volatility(history, root) == 0.02
    ensures ForecastOf(history, adjustment, unit, root).confidence == Clamp(86.0 + adjustment as real)
  {
    var w := Window(history);
    assert AllEqual(w, c);
    SumOfConstant(w, c);
    assert TrendDefined(history);
    var changes := Changes(w);
    assert AllEqual(changes, 0.0) by {
      forall k | 0 <= k < |changes| ensures changes[k] == 0.0 {
        assert changes[k] == Change(w, k + 1);
      }
    }
    SumOfConstant(changes, 0.0);
    StdOfConstant(history, c, root);
  }

  /** `simulateTimeSeries`. */
  method SimulateTimeSeries(history: seq<real>, adjustment: int, unit: real, root: real -> real)
    returns (prediction: Option<real>, confidence: real)
    requires IsRoot(root) && TrendDefined(history)
    ensures Forecast(prediction, confidence) == ForecastOf(history, adjustment, unit, root)
  {
    if |history| < WindowSize {
      return if history == [] then None else Some(history[|history| - 1]), 60.0;
    }
    var lastValues := history[|history| - WindowSize..];
    var mean := Sum(lastValues) / |lastValues| as real;
    var trends: seq<real> := [];
    var i := 1;
    while i < |lastValues|
      invariant 1 <= i <= WindowSize
      invariant trends == Changes(lastValues)[..i - 1]
    {
      trends := trends + [(lastValues[i] - lastValues[i - 1]) / lastValues[i - 1]];
      i := i + 1;
    }
    assert trends == Changes(lastValues);
    var avgTrend := Sum(trends) / |trends| as real;
    var baselinePrediction := lastValues[|lastValues| - 1] * (1.0 + avgTrend);
    assert lastValues == Window(history);
    assert baselinePrediction == Baseline(history);
    var volatility := Std(history, root) / mean * 100.0;
    if volatility == 0.0 {
      volatility := 0.02;
    }
    assert volatility == Volatility(history, root);
    var marketNoise := MarketNoise(unit, volatility, baselinePrediction);
    prediction := Some(baselinePrediction + marketNoise);
    confidence := 90.0 - volatility * 200.0;
    confidence := Clamp(confidence + adjustment as real);
    assert prediction == ForecastOf(history, adjustment, unit, root).prediction;
    assert confidence == ForecastOf(history, adjustment, unit, root).confidence;
  }

  /** The history used when the caller has none: four points around the
      current value. */
  function EffectiveHistory(currentValue: real, history: seq<real>): (h: seq<real>)
    ensures h != []
    ensures history != [] ==> h == history
  {
    if |history| > 0 then history
    else [currentValue * 0.99, currentValue * 0.995, currentValue, currentValue * 1.005]
  }

  /** With no history the forecast is 0.5% above the current value, with
      confidence 60. */
  lemma EmptyHistoryForecast(currentValue: real, adjustment: int, unit: real, root: real -> real)
    requires IsRoot(root)
    ensures ForecastOf(EffectiveHistory(currentValue, []), adjustment, unit, root)
      == Forecast(Some(currentValue * 1.005), 60.0)
  {
  }

  /** The record `generatePrediction` hands to the ledger. */
  function RecordFor(kind: AssetType, symbol: string, timeframe: string, currentValue: real,
                     createdMs: int, f: Forecast): (d: Draft)
    requires f.prediction.Some?
    ensures d.kind == kind && d.currentValue == currentValue && d.timeframe == timeframe
    ensures d.timestamp == createdMs
    ensures d.predictedValue == f.prediction.value && d.confidenceScore == f.confidence
    ensures d.actualValue.None? && d.accuracy.None?
    ensures d.symbol.None? <==> symbol == TypeName(kind)
    ensures d.symbol.Some? ==> d.symbol.value == symbol
  {
    Draft(kind, if symbol != TypeName(kind) then Some(symbol) else None, createdMs,
          currentValue, f.prediction.value, f.confidence, timeframe, None, None)
  }

  /** `generatePrediction`: forecast from the history (or its substitute)
      with the asset's adjustment, and log the record. `createdMs` is the
      record's timestamp and `now` the later `Date.now()` reading. */
  method GeneratePrediction(store: Store, kind: AssetType, symbol: string, timeframe: string,
                            currentValue: real, historicalValues: seq<real>, unit: real,
                            root: real -> real, createdMs: int, now: int)
    returns (p: Prediction)
    requires store.Valid() && IsRoot(root)
    requires TrendDefined(EffectiveHistory(currentValue, historicalValues))
    modifies store
    ensures store.Valid()
    ensures ForecastOf(EffectiveHistory(currentValue, historicalValues),
                       ConfidenceAdjustment(kind, symbol), unit, root).prediction.Some?
    ensures p == WithId(RecordFor(kind, symbol, timeframe, currentValue, createdMs,
                                  ForecastOf(EffectiveHistory(currentValue, historicalValues),
                                             ConfidenceAdjustment(kind, symbol), unit, root)),
                        IdFor(kind, now))
    ensures store.predictions == Logged(old(store.predictions), p)
  {
    var adjustment := 0;
    match kind {
      case NASDAQ => adjustment := 5;
      case Bitcoin => adjustment := -10;
      case Stock =>
        if symbol in BlueChips {
          adjustment := 3;
        } else if symbol in VolatileStocks {
          adjustment := -5;
        }
      case Portfolio =>
    }
    assert adjustment == ConfidenceAdjustment(kind, symbol);
    var history := if |historicalValues| > 0 then historicalValues
                   else [currentValue * 0.99, currentValue * 0.995, currentValue, currentValue * 1.005];
    var prediction, confidence := SimulateTimeSeries(history, adjustment, unit, root);
    var draft := RecordFor(kind, symbol, timeframe, currentValue, createdMs, Forecast(prediction, confidence));
    p := store.Log(draft, now);
  }
}
