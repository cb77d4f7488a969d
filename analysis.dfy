/** The analysis panel's metrics over the list of predictions it fetched:
    overall accuracy, direction hit counts, accuracy per asset type and the
    confidence histogram, plus the per-row direction verdict of its table. */
module Analysis {

  import opened Wrappers
  import opened Ledger
  import opened Seqs

  predicate HasAccuracy(p: Prediction)
  {
    p.accuracy.Some?
  }

  predicate HasActual(p: Prediction)
  {
    p.actualValue.Some?
  }

  /** `p.accuracy || 0`. */
  function AccuracyOrZero(p: Prediction): real
  {
    if p.accuracy.Some? then p.accuracy.value else 0.0
  }

  /** A record counted as a successful prediction: accuracy above 70. */
  predicate Successful(p: Prediction)
  {
    p.accuracy.Some? && p.accuracy.value > 70.0
  }

  datatype AccuracySummary = AccuracySummary(avg: real, correct: nat, total: nat)

  /** `accuracyMetrics`: the mean accuracy of the records that have one, how
      many of them exceed 70, and how many there are. */
  function AccuracyMetrics(ps: seq<Prediction>): (m: AccuracySummary)
    ensures m.total == |Select(ps, HasAccuracy)|
    ensures m.correct == |Select(ps, Successful)|
    ensures m.correct <= m.total
    ensures m.total == 0 ==> m == AccuracySummary(0.0, 0, 0)
  {
    var withAccuracy := Select(ps, HasAccuracy);
    SelectTwice(ps, HasAccuracy, Successful, Successful);
    if |ps| == 0 then AccuracySummary(0.0, 0, 0)
    else if |withAccuracy| == 0 then AccuracySummary(0.0, 0, 0)
    else
      AccuracySummary(SumOf(withAccuracy, AccuracyOrZero) / |withAccuracy| as real,
                      |Select(withAccuracy, Successful)|,
                      |withAccuracy|)
  }

  /** When no record is more than 100% accurate (as resolutions guarantee),
      neither is the average, and the average is at least the smallest
      accuracy bound `low` that all records meet. */
  lemma AverageAccuracyBounds(ps: seq<Prediction>, low: real)
    requires forall p :: p in ps && p.accuracy.Some? ==> low <= p.accuracy.value <= 100.0
    ensures var m := AccuracyMetrics(ps);
      m.total > 0 ==> low <= m.avg <= 100.0
  {
    var withAccuracy := Select(ps, HasAccuracy);
    if |withAccuracy| > 0 {
      forall x | x in withAccuracy
        ensures low <= AccuracyOrZero(x) <= 100.0
      {
        assert x in ps && HasAccuracy(x);
      }
      MeanBounds(withAccuracy, low);
      assert AccuracyMetrics(ps).avg == SumOf(withAccuracy, AccuracyOrZero) / |withAccuracy| as real;
    }
  }

  /** A mean of accuracies in [low, 100] lies in [low, 100]. */
  lemma MeanBounds(s: seq<Prediction>, low: real)
    requires |s| > 0 && forall x :: x in s ==> low <= AccuracyOrZero(x) <= 100.0
    ensures low <= SumOf(s, AccuracyOrZero) / |s| as real <= 100.0
  {
    var total := SumOf(s, AccuracyOrZero);
    var n := |s| as real;
    assert n * low <= total by {
      SumOfAtLeast(s, AccuracyOrZero, low);
    }
    assert total <= n * 100.0 by {
      SumOfAtMost(s, AccuracyOrZero, 100.0);
    }
    DivideBounds(total, n, low, 100.0);
  }

  lemma DivideBounds(total: real, n: real, low: real, high: real)
    requires n > 0.0 && n * low <= total <= n * high
    ensures low <= total / n <= high
  {
  }

  /** The success rate shown on the panel: 0 when nothing has an accuracy. */
  function SuccessRate(m: AccuracySummary): (r: real)
    ensures m.total == 0 ==> r == 0.0
    ensures 0.0 <= r && (m.correct <= m.total ==> r <= 100.0)
  {
    if m.total > 0 then Percent(m.correct, m.total) else 0.0
  }

  /** `part / whole * 100`: a share of a positive count, in percent. */
  function Percent(part: nat, whole: nat): (r: real)
    requires whole > 0
    ensures 0.0 <= r
    ensures part <= whole ==> r <= 100.0
  {
    Fraction(part as real, whole as real);
    part as real / whole as real * 100.0
  }

  /** A non-negative share of a positive whole is non-negative, and at most
      one when the part does not exceed the whole. */
  lemma Fraction(part: real, whole: real)
    requires 0.0 <= part && 0.0 < whole
    ensures 0.0 <= part / whole
    ensures part <= whole ==> part / whole <= 1.0
  {
    DivideBounds(part, whole, 0.0, if part <= whole then 1.0 else part / whole);
  }

  /** Predicted up: the forecast is above the value at prediction time. */
  predicate PredictsUp(p: Prediction)
  {
    p.predictedValue > p.currentValue
  }

  /** Predicted down (or flat). */
  predicate PredictsDown(p: Prediction)
  {
    p.predictedValue <= p.currentValue
  }

  /** Every record is predicted up or down, never both. */
  lemma UpDownPartition(p: Prediction)
    ensures PredictsUp(p) != PredictsDown(p)
  {
  }

  /** `(p.actualValue || 0) > p.currentValue`. */
  predicate RoseAfter(p: Prediction)
  {
    (if p.actualValue.Some? then p.actualValue.value else 0.0) > p.currentValue
  }

  predicate FellAfter(p: Prediction)
  {
    !RoseAfter(p)
  }

  datatype DirectionSummary = DirectionSummary(up: nat, down: nat, upCorrect: nat, downCorrect: nat)

  /** `directionMetrics`: among resolved records, how many were predicted up
      and down, and how many of each went the predicted way. */
  function DirectionMetrics(ps: seq<Prediction>): (d: DirectionSummary)
    ensures d.up + d.down == |Select(ps, HasActual)|
    ensures d.upCorrect <= d.up && d.downCorrect <= d.down
  {
    var withActual := Select(ps, HasActual);
    SelectPartition(withActual, PredictsUp, PredictsDown);
    if |ps| == 0 || |withActual| == 0 then DirectionSummary(0, 0, 0, 0)
    else
      var upPredictions := Select(withActual, PredictsUp);
      var downPredictions := Select(withActual, PredictsDown);
      DirectionSummary(|upPredictions|, |downPredictions|,
                       |Select(upPredictions, RoseAfter)|, |Select(downPredictions, FellAfter)|)
  }

  /** The direction total shown on the panel: 0 when nothing is resolved. */
  function DirectionRate(d: DirectionSummary): (r: real)
    ensures d.up + d.down == 0 ==> r == 0.0
    ensures 0.0 <= r
    ensures d.upCorrect <= d.up && d.downCorrect <= d.down ==> r <= 100.0
  {
    if d.up + d.down > 0 then Percent(d.upCorrect + d.downCorrect, d.up + d.down) else 0.0
  }

  /** The table's direction verdict for one row: resolved, and the actual
      move went the predicted way. */
  function DirectionCorrect(p: Prediction): (r: bool)
    ensures r <==> HasActual(p) && (UpHit(p) || DownHit(p))
  {
    var isPredictionUp := p.predictedValue > p.currentValue;
    var isActualUp := p.actualValue.Some? && p.actualValue.value > p.currentValue;
    p.actualValue.Some? && ((isPredictionUp && isActualUp) || (!isPredictionUp && !isActualUp))
  }

  /** The rows the table marks correct are exactly the hits the direction
      metrics count. */
  lemma {:induction false} DirectionCorrectCountsHits(ps: seq<Prediction>)
    ensures var d := DirectionMetrics(ps);
      |Select(ps, DirectionCorrect)| == d.upCorrect + d.downCorrect
  {
    var withActual := Select(ps, HasActual);
    SelectTwice(withActual, PredictsUp, RoseAfter, UpHit);
    SelectTwice(withActual, PredictsDown, FellAfter, DownHit);
    SelectTwice(ps, HasActual, DirectionCorrect, DirectionCorrect);
    HitsSplit(withActual);
  }

  predicate UpHit(p: Prediction)
  {
    PredictsUp(p) && RoseAfter(p)
  }

  predicate DownHit(p: Prediction)
  {
    PredictsDown(p) && FellAfter(p)
  }

  /** Among resolved records, the correct ones split into up-hits and
      down-hits. */
  lemma {:induction false} HitsSplit(s: seq<Prediction>)
    requires forall p :: p in s ==> HasActual(p)
    ensures |Select(s, DirectionCorrect)| == |Select(s, UpHit)| + |Select(s, DownHit)|
  {
    if s != [] {
      HitsSplit(s[1..]);
    }
  }

  // Accuracy by asset type

  /** The chart's categories, in order. */
  const AssetTypes: seq<AssetType> := [NASDAQ, Bitcoin, Stock, Portfolio]

  /** The records of one type that have an accuracy. */
  function ScoredOfType(t: AssetType): Prediction -> bool
  {
    (p: Prediction) => p.kind == t && p.accuracy.Some?
  }

  datatype AssetRow = AssetRow(name: string, accuracy: real, count: nat)

  /** One bar of the chart: the mean accuracy of the type's scored records,
      0 when there are none. */
  function RowFor(ps: seq<Prediction>, t: AssetType): (row: AssetRow)
    ensures row.name == TypeName(t)
    ensures row.count == |Select(ps, ScoredOfType(t))|
    ensures row.count == 0 ==> row.accuracy == 0.0
  {
    var typeData := Select(ps, ScoredOfType(t));
    var avg := if |typeData| > 0 then SumOf(typeData, AccuracyOrZero) / |typeData| as real else 0.0;
    AssetRow(TypeName(t), avg, |typeData|)
  }

  /** `accuracyByAssetType`: one row per type, in the order NASDAQ, Bitcoin,
      Stock, Portfolio. */
  function AccuracyByAssetType(ps: seq<Prediction>): (rows: seq<AssetRow>)
    ensures |rows| == 4
    ensures rows[0].name == "NASDAQ" && rows[1].name == "Bitcoin"
    ensures rows[2].name == "Stock" && rows[3].name == "Portfolio"
    ensures forall i :: 0 <= i < 4 ==>
      rows[i].count == |Select(ps, ScoredOfType(AssetTypes[i]))| &&
      (rows[i].count == 0 ==> rows[i].accuracy == 0.0)
  {
    seq(4, i requires 0 <= i < 4 => RowFor(ps, AssetTypes[i]))
  }

  /** Every scored record is counted in exactly one row. */
  lemma {:induction false} AssetRowsCoverScored(ps: seq<Prediction>)
    ensures var rows := AccuracyByAssetType(ps);
      rows[0].count + rows[1].count + rows[2].count + rows[3].count == |Select(ps, HasAccuracy)|
  {
    ScoredSplit(ps);
    var rows := AccuracyByAssetType(ps);
    assert AssetTypes[0] == NASDAQ && AssetTypes[1] == Bitcoin;
    assert AssetTypes[2] == Stock && AssetTypes[3] == Portfolio;
  }

  /** The scored records split by type into the four categories. */
  lemma {:induction false} ScoredSplit(ps: seq<Prediction>)
    ensures |Select(ps, ScoredOfType(NASDAQ))| + |Select(ps, ScoredOfType(Bitcoin))| +
            |Select(ps, ScoredOfType(Stock))| + |Select(ps, ScoredOfType(Portfolio))|
            == |Select(ps, HasAccuracy)|
  {
    if ps != [] {
      ScoredSplit(ps[1..]);
    }
  }

  // Confidence distribution

  /** A half-open confidence range `[min, max)`. */
  datatype Bucket = Bucket(name: string, min: real, max: real)

  const Buckets: seq<Bucket> := [
    Bucket("90-100%", 90.0, 100.0),
    Bucket("80-90%", 80.0, 90.0),
    Bucket("70-80%", 70.0, 80.0),
    Bucket("60-70%", 60.0, 70.0),
    Bucket("50-60%", 50.0, 60.0),
    Bucket("<50%", 0.0, 50.0)
  ]

  predicate InBucket(x: real, b: Bucket)
  {
    b.min <= x < b.max
  }

  /** No confidence falls into two buckets. */
  lemma BucketsDisjoint(x: real, i: nat, j: nat)
    requires i < j < |Buckets|
    ensures !(InBucket(x, Buckets[i]) && InBucket(x, Buckets[j]))
  {
  }

  /** A confidence falls into some bucket exactly when it lies in [0, 100). */
  lemma BucketsCover(x: real)
    ensures (exists i :: 0 <= i < |Buckets| && InBucket(x, Buckets[i])) <==> 0.0 <= x < 100.0
  {
    if 0.0 <= x < 100.0 {
      var i := if x >= 90.0 then 0 else if x >= 80.0 then 1 else if x >= 70.0 then 2
               else if x >= 60.0 then 3 else if x >= 50.0 then 4 else 5;
      assert InBucket(x, Buckets[i]);
    }
  }

  function InBucketTest(b: Bucket): Prediction -> bool
  {
    (p: Prediction) => InBucket(p.confidenceScore, b)
  }

  predicate Bucketed(p: Prediction)
  {
    0.0 <= p.confidenceScore < 100.0
  }

  datatype Slice = Slice(name: string, value: nat)

  /** The bucket a confidence falls into, read off the thresholds from the
      top down: none outside [0, 100), otherwise exactly one. */
  function BucketIndex(x: real): (r: Option<nat>)
    ensures r.Some? <==> 0.0 <= x < 100.0
    ensures forall i :: 0 <= i < |Buckets| ==> (InBucket(x, Buckets[i]) <==> r == Some(i))
  {
    if x < 0.0 || x >= 100.0 then None
    else if x >= 90.0 then Some(0) else if x >= 80.0 then Some(1) else if x >= 70.0 then Some(2)
    else if x >= 60.0 then Some(3) else if x >= 50.0 then Some(4) else Some(5)
  }

  /** `confidenceDistribution`: how many records fall into each bucket. The
      six values add up to the number of records whose confidence lies in
      [0, 100), so each of those is counted once (in the slice
      `BucketIndex` names) and nothing else is shown. */
  function ConfidenceDistribution(ps: seq<Prediction>): (r: seq<Slice>)
    ensures |r| == |Buckets|
    ensures forall i :: 0 <= i < |Buckets| ==>
      r[i].name == Buckets[i].name && r[i].value == |Select(ps, InBucketTest(Buckets[i]))|
    ensures r[0].value + r[1].value + r[2].value + r[3].value + r[4].value + r[5].value
      == |Select(ps, Bucketed)|
  {
    BucketSplit(ps);
    seq(|Buckets|, i requires 0 <= i < |Buckets| =>
      Slice(Buckets[i].name, |Select(ps, InBucketTest(Buckets[i]))|))
  }

  /** The records with a confidence in [0, 100) split over the six buckets. */
  lemma {:induction false} BucketSplit(ps: seq<Prediction>)
    ensures |Select(ps, InBucketTest(Buckets[0]))| + |Select(ps, InBucketTest(Buckets[1]))| +
            |Select(ps, InBucketTest(Buckets[2]))| + |Select(ps, InBucketTest(Buckets[3]))| +
            |Select(ps, InBucketTest(Buckets[4]))| + |Select(ps, InBucketTest(Buckets[5]))|
            == |Select(ps, Bucketed)|
  {
    if ps != [] {
      BucketSplit(ps[1..]);
    }
  }
}
