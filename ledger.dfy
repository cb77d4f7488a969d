/** The prediction ledger: the server-side list of prediction records that
    the forecast engine appends to and the dashboard reads back. The list is
    kept newest first and bounded to the 1000 most recent records; a record
    can later be resolved with the value that was actually observed. */
module Ledger {

  import opened Wrappers
  import Text
  import Seqs

  datatype AssetType = NASDAQ | Bitcoin | Stock | Portfolio

  /** The type's name as the source spells it (`PredictionType`). */
  function TypeName(t: AssetType): string
  {
    match t
    case NASDAQ => "NASDAQ"
    case Bitcoin => "Bitcoin"
    case Stock => "Stock"
    case Portfolio => "Portfolio"
  }

  /** A stored prediction. `timestamp` is the creation time in milliseconds
      since the epoch (the source keeps its ISO rendering). */
  datatype Prediction = Prediction(
    id: string,
    kind: AssetType,
    symbol: Option<string>,
    timestamp: int,
    currentValue: real,
    predictedValue: real,
    confidenceScore: real,
    timeframe: string,
    actualValue: Option<real>,
    accuracy: Option<real>)

  /** A prediction before the ledger has given it an id
      (`Omit<Prediction, "id">`). */
  datatype Draft = Draft(
    kind: AssetType,
    symbol: Option<string>,
    timestamp: int,
    currentValue: real,
    predictedValue: real,
    confidenceScore: real,
    timeframe: string,
    actualValue: Option<real>,
    accuracy: Option<real>)

  /** The most records the ledger keeps. */
  const Capacity: nat := 1000

  /** `{ ...prediction, id }`. */
  function WithId(d: Draft, id: string): (p: Prediction)
    ensures p.id == id && WithoutId(p) == d
  {
    Prediction(id, d.kind, d.symbol, d.timestamp, d.currentValue, d.predictedValue,
               d.confidenceScore, d.timeframe, d.actualValue, d.accuracy)
  }

  /** Every field of a prediction except its id. */
  function WithoutId(p: Prediction): Draft
  {
    Draft(p.kind, p.symbol, p.timestamp, p.currentValue, p.predictedValue,
          p.confidenceScore, p.timeframe, p.actualValue, p.accuracy)
  }

  /** Adding an id and taking it away again gives back the draft, and a
      prediction is its draft plus its id. */
  lemma IdRoundTrip(d: Draft, p: Prediction, id: string)
    ensures WithoutId(WithId(d, id)) == d
    ensures WithId(WithoutId(p), p.id) == p
  {
  }

  /** The id `logPrediction` assigns: the lower-cased type, a dash and the
      clock reading in milliseconds. */
  function IdFor(t: AssetType, now: int): (r: string)
    ensures |r| > |TypeName(t)| && r[|TypeName(t)|] == '-'
    ensures r[..|TypeName(t)|] == Text.Lower(TypeName(t))
    ensures r[|TypeName(t)| + 1..] == Text.IntToDecimal(now)
    ensures Text.ParseInt(r[|TypeName(t)| + 1..]) == Some(now)
  {
    var r := Text.Lower(TypeName(t)) + "-" + Text.IntToDecimal(now);
    assert r[..|TypeName(t)|] == Text.Lower(TypeName(t));
    assert r[|TypeName(t)| + 1..] == Text.IntToDecimal(now);
    Text.IntRoundTrip(now);
    r
  }

  /** Ids are equal exactly when both the type and the clock reading are:
      ids of different types never collide, while two records of one type
      logged in the same millisecond share an id. */
  lemma SameIdIff(t: AssetType, u: AssetType, now: int, later: int)
    ensures IdFor(t, now) == IdFor(u, later) <==> t == u && now == later
  {
    if IdFor(t, now) == IdFor(u, later) {
      assert IdFor(t, now)[0] == IdFor(u, later)[0];
    }
  }

  function Abs(x: real): real
  {
    if x < 0.0 then -x else x
  }

  /** The accuracy of a resolved prediction, in percent: 100 minus the
      absolute relative error. It is unbounded below. */
  function Accuracy(actual: real, predicted: real): (r: real)
    requires predicted != 0.0
    ensures r <= 100.0
    ensures r == 100.0 <==> actual == predicted
  {
    100.0 - Abs((actual - predicted) / predicted * 100.0)
  }

  /** A forecast of 100 that turns out to be 110 is 90% accurate. */
  lemma AccuracyExample()
    ensures Accuracy(110.0, 100.0) == 90.0
  {
  }

  /** An accuracy is recorded exactly when an actual value is. */
  predicate Consistent(p: Prediction)
  {
    p.accuracy.Some? <==> p.actualValue.Some?
  }

  predicate AllConsistent(s: seq<Prediction>)
  {
    forall i :: 0 <= i < |s| ==> Consistent(s[i])
  }

  /** The record with its actual value and accuracy filled in; nothing else
      about it changes. */
  function Resolve(p: Prediction, actual: real): (r: Prediction)
    requires p.predictedValue != 0.0
    ensures Consistent(r)
    ensures r.actualValue == Some(actual) && r.accuracy.Some?
    ensures r.accuracy.value <= 100.0
    ensures r.accuracy.value == 100.0 <==> actual == p.predictedValue
    ensures r.(actualValue := p.actualValue, accuracy := p.accuracy) == p
  {
    p.(actualValue := Some(actual), accuracy := Some(Accuracy(actual, p.predictedValue)))
  }

  /** The ledger after `unshift(p)` and the truncation to `Capacity`. */
  function Logged(s: seq<Prediction>, p: Prediction): (r: seq<Prediction>)
    requires |s| <= Capacity
    ensures |r| == Seqs.Min(|s| + 1, Capacity)
    ensures r[0] == p
    ensures forall i :: 1 <= i < |r| ==> r[i] == s[i - 1]
  {
    var grown := [p] + s;
    if |grown| > Capacity then grown[..Capacity] else grown
  }

  function Take(s: seq<Prediction>, n: nat): (r: seq<Prediction>)
    ensures |r| == Seqs.Min(|s|, n) && r == s[..|r|]
  {
    if |s| > n then s[..n] else s
  }

  function Reversed(s: seq<Prediction>): (r: seq<Prediction>)
    ensures |r| == |s|
  {
    if s == [] then [] else Reversed(s[1..]) + [s[0]]
  }

  /** Logging each of `ps` in turn. */
  function LoggedAll(s: seq<Prediction>, ps: seq<Prediction>): (r: seq<Prediction>)
    requires |s| <= Capacity
    ensures |r| <= Capacity
    decreases |ps|
  {
    if ps == [] then s else LoggedAll(Logged(s, ps[0]), ps[1..])
  }

  lemma TakeOfTake(a: seq<Prediction>, b: seq<Prediction>, n: nat)
    ensures Take(a + Take(b, n), n) == Take(a + b, n)
  {
    if |b| > n {
      assert (a + b)[..|Take(a + b, n)|] == (a + b[..n])[..|Take(a + b, n)|];
    }
  }

  /** However many records are logged, the ledger holds the most recent
      ones, newest first, up to `Capacity` of them. */
  lemma {:induction false} LoggedAllKeepsNewest(s: seq<Prediction>, ps: seq<Prediction>)
    requires |s| <= Capacity
    ensures LoggedAll(s, ps) == Take(Reversed(ps) + s, Capacity)
    decreases |ps|
  {
    if ps == [] {
      assert Reversed(ps) + s == s;
    } else {
      var p := ps[0];
      LoggedAllKeepsNewest(Logged(s, p), ps[1..]);
      assert Logged(s, p) == Take([p] + s, Capacity);
      TakeOfTake(Reversed(ps[1..]), [p] + s, Capacity);
      assert Reversed(ps[1..]) + ([p] + s) == Reversed(ps) + s;
    }
  }

  /** The position of the first record with the given id (`find`). */
  function FirstIndex(s: seq<Prediction>, id: string): (r: Option<nat>)
    ensures r.Some? ==> r.value < |s| && s[r.value].id == id
    ensures r.Some? ==> forall j :: 0 <= j < r.value ==> s[j].id != id
    ensures r.None? ==> forall j :: 0 <= j < |s| ==> s[j].id != id
  {
    if s == [] then None
    else if s[0].id == id then Some(0)
    else match FirstIndex(s[1..], id)
      case None => None
      case Some(i) => Some(i + 1)
  }

  /** The record `find` returns, if any. */
  function FirstWithId(s: seq<Prediction>, id: string): (r: Option<Prediction>)
    ensures r.None? <==> forall p :: p in s ==> p.id != id
    ensures r.Some? ==> r.value.id == id
    ensures r.Some? ==> exists i :: 0 <= i < |s| && s[i] == r.value && forall j :: 0 <= j < i ==> s[j].id != id
  {
    match FirstIndex(s, id)
    case None => None
    case Some(i) => Some(s[i])
  }

  /** The resolution can be carried out: the first record with the id, if
      any, has a nonzero forecast to divide by. */
  predicate Resolvable(s: seq<Prediction>, id: string)
  {
    match FirstIndex(s, id)
    case None => true
    case Some(i) => s[i].predictedValue != 0.0
  }

  /** `updatePredictionActual` on a list of records. */
  function ResolvedIn(s: seq<Prediction>, id: string, actual: real): (r: seq<Prediction>)
    requires Resolvable(s, id)
    ensures |r| == |s|
    ensures FirstIndex(s, id).None? ==> r == s
    ensures FirstIndex(s, id).Some? ==>
      var i := FirstIndex(s, id).value;
      r[i] == Resolve(s[i], actual) && forall j :: 0 <= j < |s| && j != i ==> r[j] == s[j]
  {
    match FirstIndex(s, id)
    case None => s
    case Some(i) => s[i := Resolve(s[i], actual)]
  }

  /** Resolving a record keeps it the first match for its id, so looking the
      id up afterwards returns the resolved record. */
  lemma {:induction false} ResolveThenLookup(s: seq<Prediction>, id: string, actual: real)
    requires Resolvable(s, id) && FirstIndex(s, id).Some?
    ensures FirstIndex(ResolvedIn(s, id, actual), id) == FirstIndex(s, id)
    ensures FirstWithId(ResolvedIn(s, id, actual), id) == Some(Resolve(s[FirstIndex(s, id).value], actual))
  {
    var r := ResolvedIn(s, id, actual);
    var i := FirstIndex(s, id).value;
    var k := FirstIndex(r, id);
    assert r[i].id == id;
    assert k.Some?;
    assert !(k.value < i) && !(i < k.value);
  }

  /** A freshly logged record is the one a lookup of its id finds, shadowing
      any older record that carries the same id. */
  lemma LoggedIsFound(s: seq<Prediction>, p: Prediction)
    requires |s| <= Capacity
    ensures FirstWithId(Logged(s, p), p.id) == Some(p)
  {
  }

  /** Logging a consistent record into a consistent ledger keeps it consistent. */
  lemma LoggedKeepsConsistent(s: seq<Prediction>, p: Prediction)
    requires |s| <= Capacity && AllConsistent(s) && Consistent(p)
    ensures AllConsistent(Logged(s, p))
  {
  }

  /** Resolving a record keeps a consistent ledger consistent, and the
      resolved record, if any, now has both its actual value and accuracy. */
  lemma ResolvedKeepsConsistent(s: seq<Prediction>, id: string, actual: real)
    requires Resolvable(s, id) && AllConsistent(s)
    ensures AllConsistent(ResolvedIn(s, id, actual))
    ensures FirstIndex(s, id).Some? ==> ResolvedIn(s, id, actual)[FirstIndex(s, id).value].accuracy.Some?
  {
  }

  /** The records of the requested type, in ledger order (`filter`). */
  function OfType(s: seq<Prediction>, kind: Option<AssetType>): (r: seq<Prediction>)
    ensures kind.None? ==> r == s
    ensures forall p :: p in r <==> p in s && (kind.Some? ==> p.kind == kind.value)
    ensures forall p :: multiset(r)[p] == if kind.None? || p.kind == kind.value then multiset(s)[p] else 0
    ensures Seqs.IsSubsequence(r, s)
  {
    match kind
    case None =>
      Seqs.SelectIsSubsequence(s, (p: Prediction) => true);
      assert Seqs.IsSubsequence(s, s) by {
        assert Seqs.Select(s, (p: Prediction) => true) == s by { SelectAll(s); }
      }
      s
    case Some(t) =>
      var keep := (p: Prediction) => p.kind == t;
      Seqs.SelectIsSubsequence(s, keep);
      forall p ensures multiset(Seqs.Select(s, keep))[p] == if keep(p) then multiset(s)[p] else 0 {
        Seqs.SelectMultiplicity(s, keep, p);
      }
      forall p | p in s && keep(p) ensures p in Seqs.Select(s, keep) {
        Seqs.SelectKeepsMatches(s, keep, p);
      }
      Seqs.Select(s, keep)
  }

  lemma {:induction false} SelectAll(s: seq<Prediction>)
    ensures Seqs.Select(s, (p: Prediction) => true) == s
  {
    if s != [] {
      SelectAll(s[1..]);
    }
  }

  // Seed block: thirty days of resolved history plus today's open record
  // for NASDAQ and for Bitcoin.

  /** Days of history before today in the seed block. */
  const SeedDays: nat := 30
  const DayMs: int := 86_400_000

  /** The four `Math.random()` draws behind one seeded record. */
  datatype SeedDraw = SeedDraw(level: real, forecastMove: real, actualMove: real, confidence: real)

  predicate ValidDraw(d: SeedDraw)
  {
    0.0 <= d.level < 1.0 && 0.0 <= d.forecastMove < 1.0 &&
    0.0 <= d.actualMove < 1.0 && 0.0 <= d.confidence < 1.0
  }

  /** One draw per seeded day, each in range. */
  predicate ValidDraws(draws: seq<SeedDraw>)
  {
    |draws| == SeedDays + 1 && forall k :: 0 <= k < |draws| ==> ValidDraw(draws[k])
  }

  predicate SeededType(kind: AssetType)
  {
    kind == NASDAQ || kind == Bitcoin
  }

  /** The id prefix the seed block writes out literally. */
  function SeedPrefix(kind: AssetType): string
    requires SeededType(kind)
  {
    if kind == NASDAQ then "nasdaq-" else "bitcoin-"
  }

  /** Seeded ids follow the same scheme as ids assigned when logging. */
  lemma SeedIdsMatchLogIds(kind: AssetType, time: int)
    requires SeededType(kind)
    ensures SeedPrefix(kind) + Text.IntToDecimal(time) == IdFor(kind, time)
  {
    LowerSeededName(kind);
    assert SeedPrefix(kind) == Text.Lower(TypeName(kind)) + "-";
  }

  /** The lower-cased names of the two seeded types. */
  lemma LowerSeededName(kind: AssetType)
    requires SeededType(kind)
    ensures Text.Lower(TypeName(kind)) == if kind == NASDAQ then "nasdaq" else "bitcoin"
  {
    var name := Text.Lower(TypeName(kind));
    if kind == NASDAQ {
      assert name[0] == 'n' && name[1] == 'a' && name[2] == 's' && name[3] == 'd' && name[4] == 'a' && name[5] == 'q';
    } else {
      assert name[0] == 'b' && name[1] == 'i' && name[2] == 't' && name[3] == 'c' && name[4] == 'o' && name[5] == 'i' && name[6] == 'n';
    }
  }

  /** The record the seed block makes for `kind`, `daysAgo` days before
      `baseMs`: of the seeding type, with no symbol and timeframe "24h", and
      resolved (actual value and accuracy) exactly when it is not today's. */
  function SeedRecord(kind: AssetType, daysAgo: nat, baseMs: int, d: SeedDraw): (r: Prediction)
    requires SeededType(kind) && ValidDraw(d)
    ensures r.kind == kind && r.symbol.None? && r.timeframe == "24h"
    ensures Consistent(r) && (r.actualValue.Some? <==> daysAgo > 0)
  {
    var time := baseMs - daysAgo * DayMs;
    var current := if kind == NASDAQ then 16000.0 + d.level * 1000.0 else 60000.0 + d.level * 5000.0;
    var factor := if kind == NASDAQ then 1.0 + (d.forecastMove * 0.1 - 0.03) else 1.0 + (d.forecastMove * 0.15 - 0.05);
    var predicted := current * factor;
    var actual := if kind == NASDAQ then current * (1.0 + (d.actualMove * 0.08 - 0.03))
                  else current * (1.0 + (d.actualMove * 0.12 - 0.06));
    var confidence := if kind == NASDAQ then 70.0 + d.confidence * 25.0 else 65.0 + d.confidence * 25.0;
    assert predicted > 0.0 by { assert current > 0.0 && factor > 0.0; }
    Prediction(SeedPrefix(kind) + Text.IntToDecimal(time), kind, None, time, current, predicted,
               confidence, "24h",
               if daysAgo > 0 then Some(actual) else None,
               if daysAgo > 0 then Some(Accuracy(actual, predicted)) else None)
  }

  /** A seeded record carries the time of its day and the id `logPrediction`
      would give a record of its type logged at that time. */
  lemma SeedRecordId(kind: AssetType, daysAgo: nat, baseMs: int, d: SeedDraw)
    requires SeededType(kind) && ValidDraw(d)
    ensures var r := SeedRecord(kind, daysAgo, baseMs, d);
      && r.timestamp == baseMs - daysAgo * DayMs
      && r.id == IdFor(kind, baseMs - daysAgo * DayMs)
  {
    SeedIdsMatchLogIds(kind, baseMs - daysAgo * DayMs);
  }

  /** The seeded values: positive levels, confidence in [70, 95) for NASDAQ
      and [65, 90) for Bitcoin, and an accuracy of at most 100. */
  lemma SeedRecordValues(kind: AssetType, daysAgo: nat, baseMs: int, d: SeedDraw)
    requires SeededType(kind) && ValidDraw(d)
    ensures var r := SeedRecord(kind, daysAgo, baseMs, d);
      && r.currentValue > 0.0 && r.predictedValue > 0.0
      && (kind == NASDAQ ==> 70.0 <= r.confidenceScore < 95.0)
      && (kind == Bitcoin ==> 65.0 <= r.confidenceScore < 90.0)
      && (r.accuracy.Some? ==> r.accuracy.value <= 100.0)
  {
    var r := SeedRecord(kind, daysAgo, baseMs, d);
    assert r.currentValue > 0.0;
    var factor := if kind == NASDAQ then 1.0 + (d.forecastMove * 0.1 - 0.03) else 1.0 + (d.forecastMove * 0.15 - 0.05);
    assert r.predictedValue == r.currentValue * factor && factor > 0.0;
  }

  /** The 31 records one seed loop pushes, oldest first. */
  function SeedSeries(kind: AssetType, baseMs: int, draws: seq<SeedDraw>): (r: seq<Prediction>)
    requires SeededType(kind) && ValidDraws(draws)
    ensures |r| == SeedDays + 1
  {
    SeedDownTo(kind, baseMs, draws, 0)
  }

  /** The records pushed once the loop has reached `i` days ago: those from
      `SeedDays` days ago down to `i` days ago, oldest first. The record of
      `i` days ago is made from draw `SeedDays - i`. */
  function SeedDownTo(kind: AssetType, baseMs: int, draws: seq<SeedDraw>, i: nat): (r: seq<Prediction>)
    requires SeededType(kind) && ValidDraws(draws) && i <= |draws|
    ensures |r| == |draws| - i
    decreases |draws| - i
  {
    if i == |draws| then []
    else SeedDownTo(kind, baseMs, draws, i + 1) + [SeedRecord(kind, i, baseMs, draws[|draws| - 1 - i])]
  }

  /** A seeded record's shape: consistent, of the seeding type, and
      unresolved exactly when it is today's. */
  predicate SeedShaped(p: Prediction, kind: AssetType, today: bool)
  {
    Consistent(p) && p.kind == kind && (p.actualValue.None? <==> today)
  }

  /** Every record pushed down to `i` days ago is consistent and of the
      seeding type, and one is unresolved only if it is today's. */
  lemma {:induction false} SeedDownToShape(kind: AssetType, baseMs: int, draws: seq<SeedDraw>, i: nat)
    requires SeededType(kind) && ValidDraws(draws) && i <= |draws|
    ensures forall k :: 0 <= k < |draws| - i ==>
      SeedShaped(SeedDownTo(kind, baseMs, draws, i)[k], kind, i == 0 && k == |draws| - 1)
    decreases |draws| - i
  {
    if i < |draws| {
      var r := SeedDownTo(kind, baseMs, draws, i);
      var prev := SeedDownTo(kind, baseMs, draws, i + 1);
      var record := SeedRecord(kind, i, baseMs, draws[|draws| - 1 - i]);
      assert r == prev + [record];
      assert SeedShaped(record, kind, i == 0);
      SeedDownToShape(kind, baseMs, draws, i + 1);
      forall k | 0 <= k < |r|
        ensures SeedShaped(r[k], kind, i == 0 && k == |draws| - 1)
      {
        if k < |prev| {
          assert r[k] == prev[k];
          assert SeedShaped(prev[k], kind, false);
        } else {
          assert r[k] == record;
        }
      }
    }
  }

  /** One `for` loop of the seed block: the records from `SeedDays` days
      ago up to today, in the order they are pushed. */
  method SeedLoop(kind: AssetType, baseMs: int, draws: seq<SeedDraw>) returns (pushed: seq<Prediction>)
    requires SeededType(kind) && ValidDraws(draws)
    ensures pushed == SeedSeries(kind, baseMs, draws)
  {
    pushed := [];
    var i: int := SeedDays;
    while i >= 0
      invariant -1 <= i <= SeedDays
      invariant pushed == SeedDownTo(kind, baseMs, draws, i + 1)
    {
      var record := SeedRecord(kind, i, baseMs, draws[SeedDays - i]);
      pushed := pushed + [record];
      i := i - 1;
    }
  }

  /** The seeded ledger has 62 records: 31 NASDAQ then 31 Bitcoin, each
      resolved exactly when it is not the last (today's) of its type. */
  lemma {:induction false} SeedLedgerShape(baseMs: int, nasdaq: seq<SeedDraw>, bitcoin: seq<SeedDraw>)
    requires ValidDraws(nasdaq) && ValidDraws(bitcoin)
    ensures var s := SeedSeries(NASDAQ, baseMs, nasdaq) + SeedSeries(Bitcoin, baseMs, bitcoin);
      |s| == 62 && AllConsistent(s) &&
      (forall k :: 0 <= k < 31 ==> s[k].kind == NASDAQ) &&
      (forall k :: 31 <= k < 62 ==> s[k].kind == Bitcoin) &&
      (forall k :: 0 <= k < 62 ==> (s[k].actualValue.None? <==> k == 30 || k == 61))
  {
    SeedDownToShape(NASDAQ, baseMs, nasdaq, 0);
    SeedDownToShape(Bitcoin, baseMs, bitcoin, 0);
    var a := SeedSeries(NASDAQ, baseMs, nasdaq);
    var b := SeedSeries(Bitcoin, baseMs, bitcoin);
    var s := a + b;
    assert a == SeedDownTo(NASDAQ, baseMs, nasdaq, 0);
    assert b == SeedDownTo(Bitcoin, baseMs, bitcoin, 0);
    forall k | 0 <= k < 62
      ensures Consistent(s[k])
      ensures k < 31 ==> s[k].kind == NASDAQ
      ensures 31 <= k ==> s[k].kind == Bitcoin
      ensures s[k].actualValue.None? <==> k == 30 || k == 61
    {
      if k < 31 {
        assert s[k] == a[k];
        assert SeedShaped(a[k], NASDAQ, k == 30);
      } else {
        assert s[k] == b[k - 31];
        assert SeedShaped(b[k - 31], Bitcoin, k == 61);
      }
    }
  }

  /** The ledger: the module-level `predictions` array and the server
      actions that read and change it. */
  class Store {
    var predictions: seq<Prediction>

    ghost predicate Valid()
      reads this
    {
      |predictions| <= Capacity
    }

    /** The module's initialisation: the seed block run on an empty list,
        with the clock reading `baseMs` and the random draws as inputs. */
    constructor Seeded(baseMs: int, nasdaq: seq<SeedDraw>, bitcoin: seq<SeedDraw>)
      requires ValidDraws(nasdaq) && ValidDraws(bitcoin)
      ensures Valid()
      ensures predictions == SeedSeries(NASDAQ, baseMs, nasdaq) + SeedSeries(Bitcoin, baseMs, bitcoin)
    {
      var nasdaqSeries := SeedLoop(NASDAQ, baseMs, nasdaq);
      var bitcoinSeries := SeedLoop(Bitcoin, baseMs, bitcoin);
      predictions := nasdaqSeries + bitcoinSeries;
    }

    /** `logPrediction`: give the draft its id, put it in front and drop
        whatever no longer fits. `now` is the `Date.now()` reading. */
    method Log(d: Draft, now: int) returns (p: Prediction)
      requires Valid()
      modifies this
      ensures Valid()
      ensures p == WithId(d, IdFor(d.kind, now))
      ensures predictions == Logged(old(predictions), p)
    {
      p := WithId(d, IdFor(d.kind, now));
      predictions := [p] + predictions;
      if |predictions| > Capacity {
        predictions := predictions[..Capacity];
      }
    }

    /** `updatePredictionActual`: resolve the first record with the id in
        place and return it, or change nothing when no record has the id. */
    method UpdateActual(id: string, actual: real) returns (r: Option<Prediction>)
      requires Valid() && Resolvable(predictions, id)
      modifies this
      ensures Valid()
      ensures predictions == ResolvedIn(old(predictions), id, actual)
      ensures r.None? <==> FirstIndex(old(predictions), id).None?
      ensures r.Some? ==> r == Some(Resolve(old(predictions)[FirstIndex(old(predictions), id).value], actual))
    {
      match FirstIndex(predictions, id)
      case None =>
        r := None;
      case Some(i) =>
        var resolved := Resolve(predictions[i], actual);
        predictions := predictions[i := resolved];
        r := Some(resolved);
    }

    /** `getPredictions(type, limit, offset)`: the `[offset, offset + limit)`
        window of the records of the requested type. */
    function GetPredictions(kind: Option<AssetType>, limit: int, offset: int): (r: seq<Prediction>)
      reads this
      ensures 0 <= limit ==> |r| <= limit
      ensures forall p :: p in r ==> p in predictions && (kind.Some? ==> p.kind == kind.value)
      ensures 0 <= offset ==> forall k :: 0 <= k < |r| ==>
        offset + k < |OfType(predictions, kind)| && r[k] == OfType(predictions, kind)[offset + k]
      ensures 0 <= offset && 0 <= limit ==>
        |r| == if offset < |OfType(predictions, kind)| then Seqs.Min(offset + limit, |OfType(predictions, kind)|) - offset else 0
    {
      var matching := OfType(predictions, kind);
      var r := Seqs.JsSlice(matching, offset, offset + limit);
      assert 0 <= limit ==> |r| <= limit by {
        if 0 <= limit {
          Seqs.SliceWindowBounded(matching, offset, limit);
        }
      }
      r
    }

    /** `getPredictionById`: the first record with the id. */
    function GetPredictionById(id: string): (r: Option<Prediction>)
      reads this
      ensures r.None? <==> forall p :: p in predictions ==> p.id != id
      ensures r.Some? ==> r.value.id == id && exists i :: (0 <= i < |predictions| && predictions[i] == r.value &&
        forall j :: 0 <= j < i ==> predictions[j].id != id)
    {
      FirstWithId(predictions, id)
    }
  }
}
