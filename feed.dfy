/** The NASDAQ feed's data handling: reading the loaded series (or the
    simulated fallback when it is too short), the five interpolated forecast
    points appended to the chart, and the up/down indicators. */
module Feed {

  import opened Wrappers
  import opened Text
  import Ledger

  /** A chart point; fetched points carry no prediction flag, which reads as
      `false`. */
  datatype ChartPoint = ChartPoint(time: string, value: real, isPrediction: bool)

  const PredictionHours: nat := 5
  const FallbackLength: nat := 20
  const FallbackError: string := "Using simulated NASDAQ data"

  /** JavaScript's `a % 24`: the remainder takes the dividend's sign. */
  function WrapHour(a: int): (r: int)
    ensures -24 < r < 24
    ensures 0 <= a ==> 0 <= r
    ensures a < 0 ==> r <= 0
    ensures (a - r) % 24 == 0
  {
    if 0 <= a then a % 24 else -((-a) % 24)
  }

  /** The hour read from a `"HH:MM"` label: `Number.parseInt(time.split(":")[0])`. */
  function ParseHour(time: string): (r: Option<int>)
    ensures Before(time, ':') == [] ==> r.None?
    ensures AllDigits(Before(time, ':')) && Before(time, ':') != [] ==> r.Some? && r.value >= 0
  {
    ParseInt(Before(time, ':'))
  }

  /** `${hour.toString().padStart(2, "0")}:00`, where a `NaN` hour renders as `NaN`. */
  function TimeLabel(hour: Option<int>): (r: string)
    ensures hour.None? ==> r == "NaN:00"
    ensures hour.Some? && 0 <= hour.value < 100 ==> |r| == 5 && r[2..] == ":00"
    ensures hour.Some? && 0 <= hour.value < 100 ==> AllDigits(r[..2])
  {
    match hour
    case None => "NaN:00"
    case Some(h) =>
      TwoDigitsAtMost(h);
      PaddedDigits(h);
      PadStart(IntToDecimal(h), 2, '0') + ":00"
  }

  /** A two-place zero-padded hour in 0..99 is made of two digits. */
  lemma PaddedDigits(h: int)
    ensures 0 <= h < 100 ==> |PadStart(IntToDecimal(h), 2, '0')| == 2
    ensures 0 <= h < 100 ==> AllDigits((PadStart(IntToDecimal(h), 2, '0') + ":00")[..2])
  {
    if 0 <= h < 100 {
      TwoDigitsAtMost(h);
      var d := IntToDecimal(h);
      var digits := PadStart(d, 2, '0');
      assert d == NatToDecimal(h);
      forall k | 0 <= k < |digits| ensures IsDigit(digits[k]) {
        if k >= |digits| - |d| {
          assert digits[k] == d[k - (|digits| - |d|)];
        }
      }
      assert (digits + ":00")[..2] == digits;
    }
  }

  lemma TwoDigitsAtMost(h: int)
    ensures 0 <= h < 100 ==> |IntToDecimal(h)| <= 2
  {
    if 10 <= h < 100 {
      assert NatToDecimal(h) == NatToDecimal(h / 10) + [DigitChar(h % 10)];
    }
  }

  /** The hour `i` steps after `hour`, wrapped at 24 (`NaN` stays `NaN`). */
  function NextHour(hour: Option<int>, i: int): (r: Option<int>)
    ensures r.Some? <==> hour.Some?
    ensures hour.Some? && 0 <= hour.value + i ==> 0 <= r.value < 24
  {
    match hour
    case None => None
    case Some(h) => Some(WrapHour(h + i))
  }

  /** A label's hour reads back as the hour it was made from. */
  lemma TimeLabelRoundTrip(h: int)
    ensures ParseHour(TimeLabel(Some(h))) == Some(h)
  {
    var digits := PadStart(IntToDecimal(h), 2, '0');
    NoSeparatorInNumber(h);
    BeforeOfPrefix(digits, ":00", ':');
    PaddedIntRoundTrip(h);
  }

  /** A padded rendered integer holds only digits and a sign. */
  lemma NoSeparatorInNumber(h: int)
    ensures ':' !in PadStart(IntToDecimal(h), 2, '0')
  {
    var s := IntToDecimal(h);
    assert ':' !in s;
    if |s| < 2 {
      assert PadStart(s, 2, '0') == "0" + s;
    }
  }

  lemma {:induction false} BeforeOfPrefix(a: string, b: string, sep: char)
    requires sep !in a && b != [] && b[0] == sep
    ensures Before(a + b, sep) == a
  {
    if a != [] {
      assert (a + b)[1..] == a[1..] + b;
      BeforeOfPrefix(a[1..], b, sep);
    }
  }

  /** `from + ((to - from) / steps) * i`: the `i`-th of `steps` even steps from `from` to `to`. */
  function Interpolate(from: real, to: real, i: int): (r: real)
    ensures i == 0 ==> r == from
    ensures i == PredictionHours ==> r == to
  {
    from + ((to - from) / PredictionHours as real) * i as real
  }

  /** The steps move strictly towards the target, or stay on it. */
  lemma InterpolateMonotone(from: real, to: real)
    ensures forall i: int, j: int :: i < j && from < to ==> Interpolate(from, to, i) < Interpolate(from, to, j)
    ensures forall i: int, j: int :: i < j && to < from ==> Interpolate(from, to, j) < Interpolate(from, to, i)
    ensures forall i: int :: from == to ==> Interpolate(from, to, i) == to
  {
    forall i: int, j: int | i < j
      ensures from < to ==> Interpolate(from, to, i) < Interpolate(from, to, j)
      ensures to < from ==> Interpolate(from, to, j) < Interpolate(from, to, i)
    {
      StepDifference(from, to, i, j);
    }
  }

  /** Two steps apart by `j - i` differ by that many increments. */
  lemma StepDifference(from: real, to: real, i: int, j: int)
    requires i < j
    ensures from < to ==> Interpolate(from, to, i) < Interpolate(from, to, j)
    ensures to < from ==> Interpolate(from, to, j) < Interpolate(from, to, i)
  {
    var step := (to - from) / PredictionHours as real;
    assert Interpolate(from, to, j) - Interpolate(from, to, i) == step * (j - i) as real;
    assert from < to ==> step > 0.0;
    assert to < from ==> step < 0.0;
  }

  /** The `i`-th forecast point (1-based) after `last`. */
  function PredictedPoint(last: ChartPoint, predictedValue: real, i: int): (r: ChartPoint)
    ensures r.isPrediction
    ensures i == PredictionHours ==> r.value == predictedValue
    ensures ParseHour(last.time).None? ==> r.time == "NaN:00"
  {
    ChartPoint(TimeLabel(NextHour(ParseHour(last.time), i)),
               Interpolate(last.value, predictedValue, i),
               true)
  }

  /** `generatePredictionDataPoints`: five hourly points, flagged as
      predictions, rising or falling evenly from the last point to the
      predicted value. */
  method GeneratePredictionDataPoints(marketData: seq<ChartPoint>, predictedValue: real)
    returns (predictionPoints: seq<ChartPoint>)
    requires |marketData| > 0
    ensures |predictionPoints| == PredictionHours
    ensures forall k :: 0 <= k < PredictionHours ==>
      predictionPoints[k] == PredictedPoint(marketData[|marketData| - 1], predictedValue, k + 1)
    ensures forall k :: 0 <= k < PredictionHours ==> predictionPoints[k].isPrediction
    ensures predictionPoints[PredictionHours - 1].value == predictedValue
  {
    var lastPoint := marketData[|marketData| - 1];
    var hour := ParseHour(lastPoint.time);
    predictionPoints := [];
    var i := 1;
    while i <= PredictionHours
      invariant 1 <= i <= PredictionHours + 1
      invariant |predictionPoints| == i - 1
      invariant forall k :: 0 <= k < i - 1 ==>
        predictionPoints[k] == PredictedPoint(lastPoint, predictedValue, k + 1)
    {
      var nextHour := NextHour(hour, i);
      var nextTime := TimeLabel(nextHour);
      var nextValue := Interpolate(lastPoint.value, predictedValue, i);
      predictionPoints := predictionPoints + [ChartPoint(nextTime, nextValue, true)];
      i := i + 1;
    }
    InterpolateMonotone(lastPoint.value, predictedValue);
  }

  /** When the last label's hour is a non-negative number, every forecast
      label is a two-digit hour in 00..23 that reads back as
      `(hour + i) mod 24`. */
  lemma ForecastLabels(last: ChartPoint, predictedValue: real, i: int)
    requires ParseHour(last.time).Some? && 0 <= ParseHour(last.time).value && 1 <= i
    ensures var h := (ParseHour(last.time).value + i) % 24;
      var p := PredictedPoint(last, predictedValue, i);
      |p.time| == 5 && AllDigits(p.time[..2]) && p.time[2..] == ":00" && ParseHour(p.time) == Some(h)
  {
    var hour := ParseHour(last.time);
    var h := (hour.value + i) % 24;
    assert NextHour(hour, i) == Some(h);
    TimeLabelRoundTrip(h);
  }

  /** `isUp`: strictly above the previous value. */
  function IsUp(currentValue: real, previousValue: real): bool
  {
    currentValue > previousValue
  }

  /** The header shows the arrow and `Math.abs(currentValue - previousValue)`:
      read together they give back the signed change, an unchanged value
      shows as down with magnitude 0, and the two readings of a pair never
      both point up. */
  lemma ArrowAndMagnitude(currentValue: real, previousValue: real)
    ensures (if IsUp(currentValue, previousValue) then 1.0 else -1.0)
      * Ledger.Abs(currentValue - previousValue) == currentValue - previousValue
    ensures !IsUp(currentValue, currentValue)
    ensures IsUp(currentValue, previousValue) ==> !IsUp(previousValue, currentValue)
  {
  }

  /** `isPredictionUp`: there is a prediction and it is above the current value. */
  function IsPredictionUp(predictionValue: Option<real>, currentValue: real): (r: bool)
    ensures r ==> predictionValue.Some?
  {
    predictionValue.Some? && predictionValue.value > currentValue
  }

  /** The percentage shown beside the forecast. */
  function PercentChange(predictionValue: real, currentValue: real): real
    requires currentValue != 0.0
  {
    ((predictionValue - currentValue) / currentValue) * 100.0
  }

  /** For a positive current value the arrow and the sign of the shown
      percentage agree. */
  lemma ArrowMatchesPercent(predictionValue: real, currentValue: real)
    requires currentValue > 0.0
    ensures IsPredictionUp(Some(predictionValue), currentValue) <==> PercentChange(predictionValue, currentValue) > 0.0
    ensures !IsPredictionUp(None, currentValue)
  {
    var d := predictionValue - currentValue;
    assert d / currentValue > 0.0 <==> d > 0.0;
  }

  /** The simulated series: base `16000 + r * 1000`, then twenty points
      `"i:00"` of value `base + r_i * 500 - 250 + i * 5`. */
  function FallbackSeries(baseDraw: real, draws: seq<real>): (r: seq<ChartPoint>)
    requires |draws| == FallbackLength
    ensures |r| == FallbackLength
    ensures forall i :: 0 <= i < FallbackLength ==>
      r[i].time == IntToDecimal(i) + ":00" && !r[i].isPrediction
    ensures 0.0 <= baseDraw < 1.0 && (forall i :: 0 <= i < FallbackLength ==> 0.0 <= draws[i] < 1.0) ==>
      forall i :: 0 <= i < FallbackLength ==>
        15750.0 + 5.0 * i as real <= r[i].value < 17250.0 + 5.0 * i as real
  {
    var baseValue := 16000.0 + baseDraw * 1000.0;
    seq(FallbackLength, i requires 0 <= i < FallbackLength =>
      ChartPoint(IntToDecimal(i) + ":00", baseValue + draws[i] * 500.0 - 250.0 + i as real * 5.0, false))
  }

  /** Each fallback point's label reads back as its index. */
  lemma FallbackHours(baseDraw: real, draws: seq<real>, i: nat)
    requires |draws| == FallbackLength && i < FallbackLength
    ensures ParseHour(FallbackSeries(baseDraw, draws)[i].time) == Some(i)
  {
    BeforeOfPrefix(IntToDecimal(i), ":00", ':');
    IntRoundTrip(i);
  }

  /** What the feed shows after a load. */
  datatype Reading = Reading(data: seq<ChartPoint>, currentValue: real, previousValue: real,
                             error: Option<string>)

  /** A load: the fetched series when it has a last and a second-to-last
      point; otherwise reading them fails and the simulated series is shown
      with a warning. */
  function Load(fetched: seq<ChartPoint>, baseDraw: real, draws: seq<real>): (r: Reading)
    requires |draws| == FallbackLength
    ensures |r.data| >= 2
    ensures r.currentValue == r.data[|r.data| - 1].value
    ensures r.previousValue == r.data[|r.data| - 2].value
    ensures r.error.None? <==> |fetched| >= 2
    ensures r.error.None? ==> r.data == fetched
    ensures r.error.Some? ==> r.error.value == FallbackError && r.data == FallbackSeries(baseDraw, draws)
  {
    if |fetched| >= 2 then
      Reading(fetched, fetched[|fetched| - 1].value, fetched[|fetched| - 2].value, None)
    else
      var simulated := FallbackSeries(baseDraw, draws);
      Reading(simulated, simulated[FallbackLength - 1].value, simulated[FallbackLength - 2].value,
              Some(FallbackError))
  }

  /** `[...data, ...predictionData]`. */
  function ChartData(data: seq<ChartPoint>, predictionData: seq<ChartPoint>): (r: seq<ChartPoint>)
    ensures |r| == |data| + |predictionData|
    ensures r[..|data|] == data && r[|data|..] == predictionData
  {
    data + predictionData
  }

  /** On the chart, a point is a forecast exactly when it comes after the
      loaded series. */
  lemma ChartSplitsAtHistory(data: seq<ChartPoint>, predictionData: seq<ChartPoint>)
    requires forall k :: 0 <= k < |data| ==> !data[k].isPrediction
    requires forall k :: 0 <= k < |predictionData| ==> predictionData[k].isPrediction
    ensures var chart := ChartData(data, predictionData);
      forall k :: 0 <= k < |chart| ==> (chart[k].isPrediction <==> k >= |data|)
  {
    var chart := ChartData(data, predictionData);
    forall k | 0 <= k < |chart| ensures chart[k].isPrediction <==> k >= |data| {
      if k < |data| {
        assert chart[k] == data[k];
      } else {
        assert chart[k] == predictionData[k - |data|];
      }
    }
  }
}
