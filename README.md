# AI Prophet Trader — verified model of the dashboard's logic

This project models, in Dafny, the parts of the AI Prophet Trader demo
dashboard that carry logic rather than layout:

- the **prediction ledger** (`app/actions/prediction-logger.ts`): an in-memory
  list of prediction records, newest first and capped at 1000, with logging,
  resolution against an actual value, filtered/paged reads, lookup by id and
  the 62 seeded historical records;
- the **forecast engine** (`app/ml/prediction-engine.ts`): the per-asset
  confidence adjustment, the trailing-five trend forecast with its noise,
  volatility fallback and confidence clamp, the substitute history used when
  none is given, and the record handed to the ledger;
- the **analysis panel** metrics (`components/analysis-panel.tsx`): overall
  accuracy, direction hit counts, accuracy per asset type, the confidence
  histogram and the table's per-row direction verdict;
- the **NASDAQ feed** helpers (`components/nasdaq-feed.tsx`): the five
  interpolated forecast points, hour labels, the up/down indicators, the
  simulated fallback series and the chart's concatenation;
- the **chat assistant** (`components/chat-interface.tsx`): the keyword
  priority that picks a canned reply and the send sequence on the
  conversation state;
- the **stock list** filter (`components/stock-list.tsx`).

Files: `wrappers.dfy` (Option), `seqs.dfy` (JavaScript `filter`, `reduce`
sums, `slice`), `text.dfy` (`toLowerCase`, `includes`, `trim`, `String(n)`,
`parseInt`, `padStart`), `ledger.dfy`, `engine.dfy`, `analysis.dfy`,
`feed.dfy`, `chat.dfy`, `stocks.dfy`.

Numbers are Dafny `real`s (exact arithmetic), clock readings are integer
milliseconds, and `Math.random()` draws and `Math.sqrt` are parameters:
a draw is a real in `[0, 1)`, and the square root is any function `root`
satisfying `IsRoot` (non-negative, squares back to its argument, `root(0) = 0`).
The ledger and the chat keep their state in classes (`Ledger.Store`,
`Chat.ChatSession`) whose methods are proved against specification
functions (`Logged`, `ResolvedIn`, `SeedSeries`, `TopicOf`). The engine's
and the feed's loops are module-level methods (`Engine.SimulateTimeSeries`,
`Engine.GeneratePrediction`, `Feed.GeneratePredictionDataPoints`), proved
against `ForecastOf`, `RecordFor` and `PredictedPoint`.

Points of the code that the model keeps as written:

- The per-asset adjustment is added to `90 - volatility * 200` before a
  single clamp to [50, 95] (`app/ml/prediction-engine.ts:49-52`);
  `Engine.Clamp` is applied once.
- The accuracy of a resolved record divides by the predicted value with no
  guard (`app/actions/prediction-logger.ts:94`). The model asks the caller of
  `Store.UpdateActual` for a nonzero predicted value on the record it hits.
- `(Math.std(history) / mean) * 100 || 0.02`
  (`app/ml/prediction-engine.ts:42`) replaces only a zero (or NaN)
  volatility by 0.02. The model covers the zero case and asks for a nonzero
  window mean, since a zero mean makes the division produce NaN or an
  infinity.

## Model

| member | source | states |
|---|---|---|
| Seqs.JsSlice | app/actions/prediction-logger.ts:103-106 | `slice(start, end)` with non-negative bounds yields exactly `min(end, len) - start` elements (none past the end), element `k` being `s[start + k]`; for any bounds it only yields elements of the input |
| Seqs.SliceWindowBounded | app/actions/prediction-logger.ts:101-107 | a page of size `limit >= 0` never holds more than `limit` records, whatever the offset's sign |
| Text.Lower | app/actions/prediction-logger.ts:75 | lower-casing keeps the length and maps each letter to its lower-case form, leaving other characters alone |
| Text.LowerIdempotent | components/chat-interface.tsx:68 | lower-casing an already lower-cased text changes nothing |
| Text.ContainsIffOccurs | components/chat-interface.tsx:74-91 | `includes` holds exactly when the keyword occurs at some position of the text |
| Text.TrimEmptyIffBlank | components/chat-interface.tsx:48 | a text trims to the empty string exactly when all its characters are white space |
| Text.IntToDecimal | app/actions/prediction-logger.ts:75 | a rendered integer starts with a digit exactly when it is non-negative and holds only digits and a minus sign |
| Text.DecimalRoundTrip | app/actions/prediction-logger.ts:75 | reading back the digits of a rendered natural number gives the number |
| Text.ParseInt | components/nasdaq-feed.tsx:115 | `parseInt` of a non-empty all-digit text is the decimal value of the digits |
| Text.IntRoundTrip | components/nasdaq-feed.tsx:115-126 | `parseInt` of a rendered integer, negative ones included, gives the integer back |
| Text.PadStart | components/nasdaq-feed.tsx:126 | the padded text is `width` long (or unchanged when already that long), ends with the original text and is filled in front with the pad character |
| Text.PaddedIntRoundTrip | components/nasdaq-feed.tsx:115-126 | zero-padding a rendered integer to two places does not change what `parseInt` reads from it |
| Ledger.WithId | app/actions/prediction-logger.ts:76 | the logged record is the draft with exactly one field added, the id |
| Ledger.IdRoundTrip | app/actions/prediction-logger.ts:74-76 | dropping the id of a logged record gives back the draft, and re-adding a record's own id gives back the record |
| Ledger.IdFor | app/actions/prediction-logger.ts:75 | an id is the lower-cased type name, a dash, and the decimal rendering of the clock reading, which `parseInt` reads back exactly |
| Ledger.SameIdIff | app/actions/prediction-logger.ts:75 | two ids are equal exactly when they have the same type and the same millisecond, so ids of one type logged in the same millisecond collide |
| Ledger.Accuracy | app/actions/prediction-logger.ts:94 | the accuracy is at most 100 and equals 100 exactly when the actual value equals the prediction |
| Ledger.AccuracyExample | app/actions/prediction-logger.ts:94 | an actual value 10% above the prediction scores 90 |
| Ledger.Resolve | app/actions/prediction-logger.ts:92-95 | resolving sets the actual value and an accuracy of at most 100 (100 exactly on a hit) and leaves every other field as it was |
| Ledger.Logged | app/actions/prediction-logger.ts:79-84 | after logging, the new record is first, the previous records follow in their order, and the length is `min(old + 1, 1000)` so only the oldest record can be dropped |
| Ledger.Take | app/actions/prediction-logger.ts:83 | `slice(0, n)` keeps the first `min(len, n)` records |
| Ledger.TakeOfTake | app/actions/prediction-logger.ts:79-84 | truncating before prepending and truncating after give the same list |
| Ledger.LoggedAllKeepsNewest | app/actions/prediction-logger.ts:79-84 | any run of logs leaves the 1000 newest records, newest first, ahead of the older contents |
| Ledger.FirstIndex | app/actions/prediction-logger.ts:91 | the search returns the position of the first record with the id, or nothing exactly when no record has it |
| Ledger.FirstWithId | app/actions/prediction-logger.ts:110 | the lookup finds nothing exactly when no record has the id, and otherwise the record with that id at a position no earlier record with the id precedes, i.e. the first match as `find` returns it |
| Ledger.ResolvedIn | app/actions/prediction-logger.ts:90-95 | an update changes only the first record with the id, to its resolution; the length and all other records are unchanged, and an unknown id changes nothing |
| Ledger.ResolveThenLookup | app/actions/prediction-logger.ts:90-111 | after an update the id still finds the same position, and looking it up returns the resolved record |
| Ledger.LoggedIsFound | app/actions/prediction-logger.ts:74-111 | looking up the id of a just-logged record returns that record |
| Ledger.ResolvedKeepsConsistent | app/actions/prediction-logger.ts:90-95 | resolving a record keeps "accuracy present exactly when the actual value is" true of the whole list, and the resolved record has both |
| Ledger.LoggedKeepsConsistent | app/actions/prediction-logger.ts:79-84 | logging a record whose accuracy is present exactly when its actual value is keeps that true of the whole list |
| Ledger.OfType | app/actions/prediction-logger.ts:102-106 | without a type every record is kept; with one, exactly the records of that type are kept, each as many times as it occurs in the ledger, in ledger order |
| Ledger.SelectAll | app/actions/prediction-logger.ts:106 | a filter that keeps everything returns the list unchanged |
| Ledger.SeedIdsMatchLogIds | app/actions/prediction-logger.ts:39-75 | the seeded `nasdaq-`/`bitcoin-` ids have the same shape as the ids `logPrediction` makes |
| Ledger.SeedRecord | app/actions/prediction-logger.ts:31-48 | a seeded record has the seeding type, no symbol, timeframe `24h`, and an actual value with its accuracy exactly when it is not today's |
| Ledger.SeedRecordId | app/actions/prediction-logger.ts:31-39 | a seeded record carries the time of its day and the id `logPrediction` would give a record of its type logged at that time |
| Ledger.SeedRecordValues | app/actions/prediction-logger.ts:33-44 | a seeded record has positive current and predicted values, confidence in [70, 95) for NASDAQ or [65, 90) for Bitcoin, and an accuracy of at most 100 |
| Ledger.SeedSeries | app/actions/prediction-logger.ts:30-49 | one series has 31 records |
| Ledger.SeedDownToShape | app/actions/prediction-logger.ts:30-49 | every record a seeding loop has pushed is consistent and of the loop's type, and only today's is unresolved |
| Ledger.SeedLedgerShape | app/actions/prediction-logger.ts:25-72 | the seeded ledger has 62 records, 31 NASDAQ then 31 Bitcoin, all with accuracy present exactly when the actual value is, and only the last of each type (today's) unresolved |
| Ledger.Store.Seeded | app/actions/prediction-logger.ts:22-72 | the initial ledger is the NASDAQ series followed by the Bitcoin series |
| Ledger.SeedLoop | app/actions/prediction-logger.ts:30-49 | the seeding loop, counting down from 30 days ago to today, pushes exactly the series, oldest day first |
| Ledger.Store.Log | app/actions/prediction-logger.ts:74-88 | logging returns the draft with id `lower(type)-now` and the ledger becomes `Logged` of the old ledger and that record |
| Ledger.Store.UpdateActual | app/actions/prediction-logger.ts:90-99 | the ledger becomes `ResolvedIn` of the old one; the result is nothing exactly when the id is unknown, otherwise the resolved record |
| Ledger.Store.GetPredictions | app/actions/prediction-logger.ts:101-107 | a page holds at most `limit` records, all of the requested type and from the ledger, and is exactly the `[offset, offset + limit)` window of the type-filtered list |
| Ledger.Store.GetPredictionById | app/actions/prediction-logger.ts:109-111 | the lookup finds nothing exactly when no record has the id, and otherwise the first record with it |
| Engine.ConfidenceAdjustment | app/ml/prediction-engine.ts:82-98 | the adjustment is positive exactly for NASDAQ and the blue chips, negative exactly for Bitcoin and the volatile stocks, and within [-10, 5] |
| Engine.AdjustmentTable | app/ml/prediction-engine.ts:82-98 | NASDAQ +5, Bitcoin -10, AAPL/MSFT/GOOGL +3, TSLA/NVDA/COIN -5, any other stock and Portfolio 0 |
| Engine.SquaredDeviationsNonNegative | app/ml/prediction-engine.ts:68-69 | the summed squared deviations are never negative |
| Engine.ConstantSeries | app/ml/prediction-engine.ts:64-70 | a constant series has that constant as mean and zero variance |
| Engine.Std | app/ml/prediction-engine.ts:64-72 | the standard deviation is non-negative and, for a non-empty series, squares to the variance |
| Engine.StdOfConstant | app/ml/prediction-engine.ts:64-72 | a constant (or empty) series has standard deviation 0 |
| Engine.ForecastOf | app/ml/prediction-engine.ts:12-55 | the forecast has no prediction exactly when the history is empty, and its confidence always lies in [50, 95] |
| Engine.Window | app/ml/prediction-engine.ts:24 | the trailing window has five values and ends with the last observation |
| Engine.Baseline | app/ml/prediction-engine.ts:24-39 | with no average change the baseline is the last value; for a positive last value it lies above it exactly when the summed trend is positive |
| Engine.Changes | app/ml/prediction-engine.ts:30-33 | the trend list has four entries |
| Engine.Volatility | app/ml/prediction-engine.ts:42 | the volatility used is never 0, because 0 is replaced by 0.02 |
| Engine.Clamp | app/ml/prediction-engine.ts:52 | the clamped confidence lies in [50, 95] and values already in range are untouched |
| Engine.ShortHistoryForecast | app/ml/prediction-engine.ts:19-21 | with one to four values the forecast is the last value with confidence exactly 60, whatever the adjustment |
| Engine.LongHistoryForecast | app/ml/prediction-engine.ts:24-52 | with five or more values the confidence lies in [50, 95] for every adjustment and the prediction is within `volatility * abs(baseline) / 100` of the baseline |
| Engine.MarketNoise | app/ml/prediction-engine.ts:43 | the middle draw 0.5, a zero volatility or a zero baseline adds no noise |
| Engine.NoiseBound | app/ml/prediction-engine.ts:43 | for a draw in [0, 1) the market noise is at most `abs(volatility) * abs(baseline) / 100` in size |
| Engine.ConstantHistoryForecast | app/ml/prediction-engine.ts:24-52 | a constant nonzero history has baseline equal to the constant, volatility 0.02 from the fallback, and confidence `min(95, max(50, 86 + adjustment))` |
| Engine.SimulateTimeSeries | app/ml/prediction-engine.ts:12-55 | the loop-and-reduce computation returns exactly the forecast `ForecastOf` specifies |
| Engine.EffectiveHistory | app/ml/prediction-engine.ts:101-105 | a non-empty history is used as given, and the series used is never empty |
| Engine.EmptyHistoryForecast | app/ml/prediction-engine.ts:101-105 | with no history the prediction is `1.005 * currentValue` with confidence 60 |
| Engine.RecordFor | app/ml/prediction-engine.ts:109-117 | the record copies type, current value and timeframe, takes prediction and confidence from the forecast, carries no actual value or accuracy, and omits the symbol exactly when it equals the type |
| Engine.GeneratePrediction | app/ml/prediction-engine.ts:74-120 | the forecast has a prediction; the returned record is the built record with its ledger id, and the ledger becomes `Logged` of the old ledger and that record |
| Analysis.AccuracyMetrics | components/analysis-panel.tsx:49-62 | `total` counts the records with an accuracy, `correct` those above 70, `correct <= total`, and all is zero when no record has an accuracy |
| Analysis.AverageAccuracyBounds | components/analysis-panel.tsx:55 | when every accuracy lies in [low, 100], so does the average |
| Analysis.SuccessRate | components/analysis-panel.tsx:257 | the success rate is 0 without scored records and otherwise within [0, 100] |
| Analysis.UpDownPartition | components/analysis-panel.tsx:72-73 | every record is predicted up or predicted down, never both |
| Analysis.DirectionMetrics | components/analysis-panel.tsx:66-84 | `up + down` is the number of resolved records, `upCorrect <= up` and `downCorrect <= down` |
| Analysis.DirectionRate | components/analysis-panel.tsx:236-241 | the direction total is 0 without resolved records, never negative, and at most 100 for metrics that respect the bounds |
| Analysis.DirectionCorrect | components/analysis-panel.tsx:355-360 | a row is direction-correct exactly when it is resolved and is an up-hit or a down-hit as the direction metrics count them |
| Analysis.DirectionCorrectCountsHits | components/analysis-panel.tsx:66-84 | over the whole ledger, the records the per-row test accepts number `upCorrect + downCorrect` |
| Analysis.RowFor | components/analysis-panel.tsx:90-98 | a chart row is named by the type, counts that type's scored records, and shows accuracy 0 when there are none |
| Analysis.AccuracyByAssetType | components/analysis-panel.tsx:87-100 | exactly four rows, NASDAQ, Bitcoin, Stock, Portfolio in that order, each counting its type's scored records with accuracy 0 when the count is 0 |
| Analysis.AssetRowsCoverScored | components/analysis-panel.tsx:87-100 | the four counts add up to the number of scored records |
| Analysis.BucketsDisjoint | components/analysis-panel.tsx:104-111 | no confidence falls into two buckets |
| Analysis.BucketsCover | components/analysis-panel.tsx:104-114 | a confidence falls into some bucket exactly when it lies in [0, 100) |
| Analysis.BucketIndex | components/analysis-panel.tsx:104-114 | a confidence lies in exactly one bucket when it is in [0, 100) and in none otherwise; the bucket is the first threshold from the top it reaches |
| Analysis.ConfidenceDistribution | components/analysis-panel.tsx:103-121 | six slices, named as the buckets, each counting the records whose confidence is in that bucket; the six counts add up to the number of records with confidence in [0, 100), so each such record is counted in exactly one slice and records outside are not shown |
| Feed.WrapHour | components/nasdaq-feed.tsx:125 | JavaScript's `% 24`: the result lies strictly between -24 and 24, takes the sign of the dividend, and differs from it by a multiple of 24 |
| Feed.TimeLabel | components/nasdaq-feed.tsx:126 | a missing (NaN) hour renders as `NaN:00`; an hour in 0..99 renders as two digits (zero-padded) followed by `:00` |
| Feed.NextHour | components/nasdaq-feed.tsx:125 | the next hour exists exactly when the parsed hour does, and lies in 0..23 when the sum is non-negative |
| Feed.ParseHour | components/nasdaq-feed.tsx:115 | an empty hour field reads as `NaN`; a non-empty all-digit one reads as a non-negative hour |
| Feed.TimeLabelRoundTrip | components/nasdaq-feed.tsx:115-126 | reading the hour of a label gives back the hour it was made from |
| Feed.Interpolate | components/nasdaq-feed.tsx:122-127 | step 0 is the last value and step 5 the predicted value |
| Feed.InterpolateMonotone | components/nasdaq-feed.tsx:122-127 | the steps move strictly towards the predicted value, or stay on it when it equals the last value |
| Feed.PredictedPoint | components/nasdaq-feed.tsx:115-133 | a forecast point is flagged as a prediction, the fifth lands on the predicted value, and a `NaN` hour labels it `NaN:00` |
| Feed.GeneratePredictionDataPoints | components/nasdaq-feed.tsx:110-137 | exactly five points, all flagged as predictions, the i-th being `PredictedPoint(last, predicted, i)`, and the fifth's value is the predicted value |
| Feed.ForecastLabels | components/nasdaq-feed.tsx:115-126 | for a non-negative parsed hour every forecast label is two digits followed by `:00`, whose hour reads back as `(hour + i) mod 24` |
| Feed.ArrowAndMagnitude | components/nasdaq-feed.tsx:139-169 | the header's arrow (`isUp`, strictly above the previous value) and the magnitude it shows (`Math.abs(currentValue - previousValue)`) together give back the signed change; an unchanged value shows as down; a pair and its reverse never both show up |
| Feed.IsPredictionUp | components/nasdaq-feed.tsx:140 | without a prediction the forecast never shows as up |
| Feed.ArrowMatchesPercent | components/nasdaq-feed.tsx:174-177 | for a positive current value the forecast arrow is up exactly when the shown percentage is positive |
| Feed.FallbackSeries | components/nasdaq-feed.tsx:51-58 | the simulated series has 20 points labelled `i:00`, none a prediction, each within the range the draws allow |
| Feed.FallbackHours | components/nasdaq-feed.tsx:55 | the hour read from the i-th simulated label is i |
| Feed.Load | components/nasdaq-feed.tsx:33-62 | a load with two or more fetched points shows them as fetched and raises no warning of its own; otherwise the simulated series is shown with the warning; current and previous are always the last and second-to-last values |
| Feed.ChartData | components/nasdaq-feed.tsx:156 | the chart is the loaded series followed by the forecast points, in order |
| Feed.ChartSplitsAtHistory | components/nasdaq-feed.tsx:132-156 | a chart point is a forecast exactly when it comes after the loaded series |
| Chat.TopicOf | components/chat-interface.tsx:68-95 | a subject other than the general one is chosen only when the lower-cased message mentions one of its two keywords |
| Chat.TopicIsFirstMention | components/chat-interface.tsx:68-91 | a message gets the i-th canned reply exactly when its lower-cased text mentions a keyword of group i and none of an earlier group |
| Chat.GeneralIffNoMention | components/chat-interface.tsx:92-95 | the general reply is given exactly when no keyword group is mentioned |
| Chat.TopicIgnoresCase | components/chat-interface.tsx:68 | the reply does not depend on letter case |
| Chat.CanSend | components/chat-interface.tsx:48 | a send goes ahead exactly when the input is not all white space and no reply is pending |
| Chat.ChatSession.constructor | components/chat-interface.tsx:19-27 | the conversation starts with exactly the greeting, an empty input and nothing pending |
| Chat.ChatSession.SetInput | components/chat-interface.tsx:231 | typing replaces the input and nothing else |
| Chat.ChatSession.Submit | components/chat-interface.tsx:47-62 | a refused send changes nothing; an accepted one appends one user message with the untrimmed input, clears the input and marks a reply pending |
| Chat.ChatSession.Respond | components/chat-interface.tsx:68-118 | the reply chosen from the sent text is appended as one assistant message and the pending mark is cleared |
| Chat.ChatSession.HandleSend | components/chat-interface.tsx:47-119 | a whole send either changes nothing or appends exactly the user message and its reply, leaving the input empty and nothing pending; the conversation stays greeting-then-alternating |
| Chat.ChatSession.HandleKeyDown | components/chat-interface.tsx:121-126 | only Enter without Shift sends, and then exactly when the send guard allows; a send appends the user message and its reply and clears the box; every other key changes nothing |
| Stocks.Keep | components/stock-list.tsx:24-28 | a stock passes exactly when it is rising under "gainers", falling under "losers", forecast up under "predictions", and always under any other filter |
| Stocks.FilteredStocks | components/stock-list.tsx:24-29 | the listing only holds stocks of the table, and each named filter only lets through stocks meeting its test |
| Stocks.FilterMembership | components/stock-list.tsx:24-29 | a stock is listed exactly when it is in the table and passes the filter, as many times as it occurs in the table, and the listing keeps the table's order |
| Stocks.NamedFilters | components/stock-list.tsx:25-27 | "gainers" lists exactly the rising stocks, "losers" exactly the falling ones (an unchanged stock is in neither), "predictions" exactly those forecast up |
| Stocks.OtherFiltersKeepAll | components/stock-list.tsx:22-28 | any other filter, the initial "all" included, lists every stock in order |
| Stocks.InitialListing | components/stock-list.tsx:9-22 | with the initial filter "all" the list shows the whole nine-quote table |

## Left out

- `revalidatePath` (`app/actions/prediction-logger.ts:86, 97`) is a cache invalidation side effect of the framework; the model treats it as doing nothing.
- Timestamps are kept as integer milliseconds; their ISO-8601 rendering (`toISOString`) and the calendar arithmetic of `setDate` (daylight-saving shifts) are not modelled: a seeded day is exactly 86 400 000 ms.
- Ledger.Store.Log and Ledger.Store.UpdateActual: the returned record and the stored one are the same object in the source, so a later update is visible through an earlier return value; the model returns values and does not capture that aliasing.
- Ledger.Store.UpdateActual: requires the first record with the id to have a nonzero predicted value; the source's division by zero (an infinite or NaN accuracy) is not modelled.
- Engine.SimulateTimeSeries: requires the four divisors of the trend and the window mean to be nonzero; the NaN and Infinity values the source produces otherwise (and `|| 0.02` replacing NaN) are not modelled.
- `Math.sqrt` is the parameter `root` with its defining property, not a floating-point routine; all arithmetic is exact, so rounding, `toFixed` and `toLocaleString` formatting are not modelled (the simulated series' two-decimal rounding in `components/nasdaq-feed.tsx:56` included).
- `Math.random()` draws are inputs; `fetchNasdaqData` and other network calls are inputs (`Feed.Load` receives the fetched series).
- Text.Lower and Text.Trim: `toLowerCase` is modelled on ASCII letters and `trim` on ASCII white space and the no-break space; other Unicode case mappings and space characters are not.
- Text.ParseInt: reads a sign and decimal digits after white space; `parseInt`'s hexadecimal `0x` prefix is not modelled (labels here never carry one).
- Feed.ForecastLabels: the two-digit 00..23 label is proved only for a non-negative parsed hour; a `NaN` hour gives `NaN:00` and a negative one a negative label, as `TimeLabel` and `WrapHour` state.
- Feed.GeneratePredictionDataPoints: requires a non-empty series; the source's caller has already read its last point by then (`components/nasdaq-feed.tsx:91`).
- The React state plumbing of the feed (loading flags, `predictionGenerated`, the five-minute refresh timer) and of the panel (fetching) is left out; the operations are modelled as sequential calls.
- Feed.Load: models one load. The source never clears `error` (it is only set, at `components/nasdaq-feed.tsx:48` and `:103`), so once a refresh has fallen back to the simulated series the warning stays on every later refresh, even when real data arrives; the model does not carry `error` across refreshes.
- Analysis.DirectionCorrectCountsHits: counts over the whole ledger; the table shows only the first ten records (`predictions.slice(0, 10)`, `components/analysis-panel.tsx:354`), and that truncation is not modelled.
- Chat.ReplyText: the canned texts are verbatim literals with no contract of their own; that each subject has a different text is not proved, because comparing the long literals is beyond the solver budget.
- Chat.ChatSession.HandleSend: the reply delay (`setTimeout`) is the split between `Submit` and `Respond`; the error reply (`components/chat-interface.tsx:106-115`) is unreachable because nothing in the try block can fail, so it is not modelled; message timestamps and scrolling are display-only.
- Chat.ChatSession: an assistant reply is stored as its topic (`Reply(topic)`), whose wording is `ReplyText(topic)`; the texts are kept verbatim in `ReplyText`.
- The remaining UI files (page layout, portfolio and top-prediction widgets, news feed, background animation, install prompt, splash screen, navigation, icons) hold no logic beyond rendering and are not part of this model.
