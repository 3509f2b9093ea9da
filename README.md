# Stock screener: a Dafny model of the screening core

This project models the screening core of `stock_screener.py`. The screener
takes a list of ticker symbols and works through it in batches of 50. For
each batch it downloads a year of daily bars, retrying while the provider is
rate limited. Each ticker then goes through the gates below, in this order:

1. it has at least 200 rows;
2. it is priced above 10;
3. it is liquid, meaning its 50-day average close times its 50-day average
   volume is at least 20 000 000.

A ticker that passes all three is searched for a 50/200-day moving-average
crossover in its last six rows. A golden cross is the bullish case, a death
cross the bearish one. Each match is confirmed or left speculative by a
three-quarter revenue and EPS trend check on the quarterly financials. The
result is one record per match.

Modules, one or two per concern of the source:

- `Wrappers` holds `Option` (which models pandas' NaN) and `Min`.
- `Config` holds the constants: batch size, lookback, sleep, retries,
  the gates, the windows and the back-off unit.
- `Strings` holds substring search. It is used for the rate-limit test and
  for the EPS line-item test.
- `Tickers` holds the symbol rewrite every scraper applies (`.` becomes `-`).
- `MovingAverage` models `get_sma`: the trailing rolling mean, undefined for
  the first `window - 1` rows.
- `Crossover` / `CrossoverFacts` model the per-ticker part of `analyze_batch`:
  - the gates;
  - the dropping of all-NaN rows;
  - the crossover scan, as a specification function `FirstCrossFrom` and as
    the loop `ScanCrossover`;
  - the match record.
- `Fundamentals` / `FundamentalsFacts` model `check_fundamentals`:
  - the transposed table sorted newest first;
  - duplicate dates dropped, keeping the first;
  - the three-quarter revenue and EPS trends;
  - every failure reason.
- `Records` models the output record: category, signal and fundamentals
  labels.
- `Download` models `download_data_with_retry`. The provider is a function
  from attempt number to outcome. The model records the waits it would sleep
  and the number of calls.
- `Screener` / `ScreenerFacts` model the rest of `analyze_batch` and the batch
  loop shared by `run_auto_screener` and `main`:
  - the technical stage with its statistics;
  - the fundamentals stage, with the thread pool's completion order as a
    parameter;
  - the concatenation of batch results with a pause between batches.

Facts about the code that the model keeps:

- The back-off is linear: 60·(k+1) seconds after the rate limit of the
  0-based attempt k (stock_screener.py:288).
- The 200-row gate counts rows before all-NaN rows are dropped
  (stock_screener.py:314-315).
- A crossover scan step with an undefined average is not skipped. It compares
  NaN, which is false both ways, so such a step is never a cross.
- The `len(subset) < 2` exit cannot be taken once the liquidity gate has
  passed (`CrossoverFacts.WindowNeverShort`).
- A ticker left with no rows after dropping all-NaN rows makes reading its
  last close raise `IndexError` (stock_screener.py:317). The per-ticker
  `except` (stock_screener.py:373) skips it without counting it. The model
  gives this outcome its own screen, `NoData`, which no counter records.
- `run_auto_screener` (stock_screener.py:433-438) and `main`
  (stock_screener.py:460-465) run the same batch loop, so both are modelled
  by `Screener.RunScan`.

## Model

| member | source | states |
|---|---|---|
| MovingAverage.Sma | stock_screener.py:193-194 | the rolling series has the input's length; entry i is defined exactly when at least `window` rows end at i |
| MovingAverage.SumBounds | stock_screener.py:193-194 | a sum of values between lo and hi lies between len·lo and len·hi |
| MovingAverage.SmaWithinWindowBounds | stock_screener.py:193-194 | a rolling mean whose window values all lie between lo and hi is defined and lies between lo and hi |
| MovingAverage.SmaOfConstant | stock_screener.py:193-194 | the rolling mean of a constant series is that constant wherever it is defined |
| MovingAverage.SmaSlide | stock_screener.py:193-194 | consecutive rolling means differ by (entering value − leaving value) / window |
| Strings.ContainsIff | stock_screener.py:261 | the substring test holds exactly when the pattern occurs at some position |
| Tickers.Normalize | stock_screener.py:205 | the rewritten symbol has the same length, contains no `.`, has `-` at every position where the input had `.` and keeps every other character |
| Tickers.NormalizeIdempotent | stock_screener.py:205 | rewriting twice equals rewriting once |
| Crossover.DropNa | stock_screener.py:315 | a bar is kept exactly when its row was present, and the result is no longer than the input |
| CrossoverFacts.DropNaSingle | stock_screener.py:315 | one present row is kept as its bar; one all-NaN row is dropped |
| CrossoverFacts.DropNaAppend | stock_screener.py:315 | dropping all-NaN rows from two stretches of history, one after the other, gives the bars of each in order, so order and repeats are kept |
| Crossover.CrossAt | stock_screener.py:341-352 | a step crosses only when both averages are defined on both days; golden means previous 50 ≤ 200 and current 50 > 200, death means previous 50 ≥ 200 and current 50 < 200 |
| Crossover.FirstCrossFrom | stock_screener.py:341-356 | the result is the earliest step i ≥ from where the averages cross, golden when previous 50 ≤ 200 and current 50 > 200, otherwise death when previous ≥ and current <; none when no step crosses |
| Crossover.ScanCrossover | stock_screener.py:341-356 | the loop with its early exit returns the earliest crossing of the window |
| Crossover.YearChange | stock_screener.py:359-360 | the 1-year change is defined exactly when the first close is not 0 |
| Crossover.ScreenSpec | stock_screener.py:308-314 | the outcome is `Absent` exactly when the ticker was not downloaded, and `TooShort` exactly when it was but has fewer than 200 rows |
| Crossover.ScreenRows | stock_screener.py:315-318 | on the rows left after dropping NaN rows: `NoData` exactly when none is left, `PennyStock` exactly when some are and the last close is at most 10 |
| Crossover.LiquidityGate | stock_screener.py:324-329 | `Illiquid` exactly when a last-row 50-day mean is undefined or their product is below 20 000 000; otherwise the outcome of the scan |
| Crossover.WindowOutcome | stock_screener.py:331-332 | `WindowTooShort` exactly when fewer than 2 rows exist; otherwise no cross or a match that carries the ticker and the liquidity |
| Crossover.ScanOutcome | stock_screener.py:358-371 | no cross exactly when the scan found nothing; otherwise a match in the crossing's direction, dated on the crossing row |
| Crossover.ScreenTicker | stock_screener.py:308-371 | the imperative per-ticker screening returns exactly the gate and scan outcome of the specification |
| Crossover.ScreenBars | stock_screener.py:317-371 | on the rows left after dropping NaN rows, the price gate, the three rolling means and the rest of the screening agree with the specification |
| Crossover.CheckLiquidity | stock_screener.py:324-371 | the liquidity gate and what follows it agree with the specification on the given rolling means |
| Crossover.ScanWindow | stock_screener.py:331-371 | the window of the last six rows, the scan over it and the match it builds agree with the specification |
| CrossoverFacts.SignalPassedEveryGate | stock_screener.py:309-369 | a signal means the ticker was downloaded, had ≥ 200 rows, a last close above 10 and liquidity ≥ 20 000 000; the match carries that ticker, that close, that liquidity and the 1-year change from the first to the last close |
| CrossoverFacts.RowsSignal | stock_screener.py:317-369 | the same facts as `SignalPassedEveryGate`, for any rows left after dropping NaN rows |
| CrossoverFacts.GateSignal | stock_screener.py:324-369 | a signal out of the liquidity gate means both 50-day means of the last row are defined, their product is at least 20 000 000, and the match carries the ticker, the last close, that product and the 1-year change |
| CrossoverFacts.IlliquidIff | stock_screener.py:324-329 | a ticker that passed the row and price gates fails liquidity exactly when it has fewer than 50 rows after dropping NaN rows or the product of its two 50-day averages is below 20 000 000 |
| CrossoverFacts.RowsIlliquidIff | stock_screener.py:317-329 | the same equivalence as `IlliquidIff`, for any rows left after dropping NaN rows |
| CrossoverFacts.WindowNeverShort | stock_screener.py:331-332 | a ticker that passed the liquidity gate is never rejected for a window shorter than two rows |
| CrossoverFacts.SignalIsEarliestCross | stock_screener.py:331-356 | a signal's bar is in the last six rows, crosses in the signal's direction, and no earlier step of that window crosses either way |
| CrossoverFacts.RowsEarliestCross | stock_screener.py:331-356 | the same facts as `SignalIsEarliestCross`, for any rows left after dropping NaN rows |
| CrossoverFacts.GateEarliestCross | stock_screener.py:331-369 | a signal out of the liquidity gate is dated on a window step that crosses in its direction, with no earlier step of the window crossing, whatever the averages |
| CrossoverFacts.ScanOutcomeIff | stock_screener.py:308-371 | a ticker is a signal exactly when it passes the row, price and liquidity gates and some step of its window crosses; it is counted as no cross exactly when it passes the gates and no step crosses |
| CrossoverFacts.GateScanIff | stock_screener.py:324-371 | out of the liquidity gate: a signal exactly when the last row is liquid and some window step crosses; no cross exactly when it is liquid, has 2 rows or more, and no step crosses |
| CrossoverFacts.SignalNeedsLongAverage | stock_screener.py:314-356 | a signal requires more than 200 non-NaN rows, because the 200-day average must be defined on both sides of the crossing step |
| CrossoverFacts.RowsNeedLongAverage | stock_screener.py:317-356 | the same bound as `SignalNeedsLongAverage`, for any rows left after dropping NaN rows |
| CrossoverFacts.EqualityTieBreaks | stock_screener.py:347-352 | when the averages were equal on the previous day, a rise is golden and a fall is death |
| CrossoverFacts.FlatWindowNoCross | stock_screener.py:341-356 | if the two averages are equal throughout the window there is no cross |
| CrossoverFacts.UndefinedLongAverageNoCross | stock_screener.py:341-356 | if the 200-day average is undefined throughout the window there is no cross |
| Fundamentals.InsertSorted | stock_screener.py:242 | inserting into a newest-first table keeps it newest first |
| Fundamentals.SortDesc | stock_screener.py:242 | the sorted table is a permutation of the periods, newest first |
| Fundamentals.DedupeDates | stock_screener.py:243 | dropping repeated dates keeps the same set of dates, each once |
| Fundamentals.DedupeMembers | stock_screener.py:243 | every kept period is one of the input's periods |
| Fundamentals.DedupeStrictlyDesc | stock_screener.py:243 | after dropping repeats from a newest-first table the dates strictly decrease |
| Fundamentals.Latest | stock_screener.py:241-245 | the cleaned table holds one period per distinct date, strictly newest first, every period taken from the original |
| Fundamentals.FirstEpsItem | stock_screener.py:261-263 | the chosen EPS line is the first line item whose label contains `Basic EPS` or `Diluted EPS`; none when there is no such line |
| Fundamentals.TrendVerdict | stock_screener.py:254-276 | on the three most recent quarters the reason is one of `Passed`, the revenue failure, `EPS Key Missing` and the EPS failure; `Rev Not Growing`/`Rev Not Declining` exactly when revenue does not move strictly in the mode's direction, `EPS Key Missing` exactly when revenue does and no EPS line exists, `EPS Not Growing`/`EPS Not Declining` exactly when revenue does and the first EPS line does not |
| Fundamentals.CheckTable | stock_screener.py:239-276 | passes exactly when the reason is `Passed`; `No Financial Data` exactly when the table is empty; `Insufficient Quarters` exactly when it has fewer than 3 distinct dates; `Revenue Data Missing` exactly when it has 3 and no revenue line; otherwise the trend verdict on the three most recent cleaned quarters |
| Fundamentals.CheckFundamentals | stock_screener.py:233-279 | a fetched table gets the table's verdict; a failed fetch never passes and reports `Error: ` followed by the message |
| FundamentalsFacts.TrendIsStrict | stock_screener.py:254-259 | a trend holds exactly when all three values are defined and strictly increase (bullish) or strictly decrease (bearish) towards the current quarter |
| FundamentalsFacts.LatestAreMostRecent | stock_screener.py:241-250 | the first three cleaned periods carry the three most recent distinct dates, in order |
| FundamentalsFacts.MostRecentUnique | stock_screener.py:241-250 | when no two periods share a date, any three periods that are the three most recent are exactly the first three periods of the cleaned table |
| FundamentalsFacts.PassedIffMostRecent | stock_screener.py:239-276 | for a table with distinct dates, the check passes exactly when it has at least 3 periods, revenue strictly moves in the mode's direction over the three most recent quarters, an EPS line exists, and the first EPS line moves the same way |
| FundamentalsFacts.FewQuartersFail | stock_screener.py:245 | a table with fewer than three distinct dates fails |
| FundamentalsFacts.FailureNamesMetric | stock_screener.py:241-274 | for a table with three dated quarters and a revenue line, the reason is the revenue failure exactly when revenue over the three most recent cleaned quarters does not move in the mode's direction, `EPS Key Missing` exactly when it does and no EPS line exists, and the EPS failure exactly when it does and the first EPS line does not |
| Records.Category | stock_screener.py:387-390 | the category string decodes back to the mode and the verdict it was built from |
| Records.CategoryParses | stock_screener.py:387-390 | each of the four category strings decodes to its mode and verdict |
| Records.ParseCategoryInverse | stock_screener.py:387-390 | a category string that decodes is the category of what it decodes to |
| Records.SignalLabel | stock_screener.py:395 | the signal is `GOLDEN` exactly for bullish and `DEATH` exactly for bearish |
| Records.FundamentalsLabel | stock_screener.py:396 | the label is `PASSED` exactly when the check passed; otherwise it is `FAIL (`, the reason, and `)` |
| Records.FundamentalsLabelInjective | stock_screener.py:396 | two verdicts with the same label agree on passing, and failing ones on their reason |
| Records.MakeRecord | stock_screener.py:387-401 | the record keeps the match's ticker, price, 1-year change, liquidity and date; the category decodes to the mode and the verdict; the signal is `GOLDEN` for bullish and `DEATH` for bearish; the label is `PASSED` or `FAIL (` reason `)` |
| Download.RateLimitIff | stock_screener.py:287 | an error is a rate limit exactly when `Rate limited` or `Too Many Requests` occurs somewhere in its message |
| Download.RetryFrom | stock_screener.py:282-294 | from attempt k on, at most the remaining attempts are made and at least one if any remain, with no more waits than calls |
| Download.RetryShape | stock_screener.py:281-294 | the retry result is: the first delivered frame when every earlier attempt was rate limited, otherwise an empty frame; waits are 60·(k+1) per rate limit; there is one call per attempt, at most 3 |
| Download.RetryStep | stock_screener.py:282-293 | one attempt: a delivery or another error ends the run with its frame or the empty frame after one call; a rate limit adds its wait and a call and hands over to the next attempt |
| Download.DownloadWithRetry | stock_screener.py:281-294 | the loop returns the same frame, waits and call count as the retry specification |
| Download.ReturnsFirstDelivery | stock_screener.py:282-290 | when attempts 0 to k − 1 were rate limited and attempt k delivers, its frame is returned after waits of 60·1, …, 60·k seconds and k + 1 calls |
| Download.AbortsOnOtherError | stock_screener.py:282-293 | when attempts 0 to k − 1 were rate limited and attempt k raises anything else, the empty frame is returned after waits of 60·1, …, 60·k seconds and k + 1 calls |
| Download.ExhaustedAfterThreeRateLimits | stock_screener.py:282-294 | three rate limits give an empty frame after waits of 60, 120 and 180 seconds and three calls |
| Screener.Screens | stock_screener.py:305-371 | one outcome per ticker of the batch, in batch order |
| Screener.Count | stock_screener.py:327-371 | at most one counter goes up, by one; `liquid_fail` exactly for an illiquid ticker, `no_cross` exactly for no cross, `bull_cross` and `bear_cross` exactly for a golden and a death signal; none decreases |
| Screener.TallyOf | stock_screener.py:303-371 | the counters of a batch add up to no more than its number of tickers |
| Screener.MatchesOf | stock_screener.py:358-369 | a batch has no more technical matches than tickers |
| Screener.TechnicalStage | stock_screener.py:305-371 | the loop over the batch returns the matches and statistics of screening each ticker in order |
| Screener.ConfirmAll | stock_screener.py:380 | one record per match, in submission order, each the confirmation of its match |
| Screener.MapPermutation | stock_screener.py:382-401 | mapping one function over two permutations of the same items gives permutations of each other |
| Screener.InCompletionOrder | stock_screener.py:382-385 | the k-th result gathered is the result of the k-th future to complete |
| Screener.PermutedCompletion | stock_screener.py:380-401 | results gathered in any completion order hold the same elements as the results in submission order |
| Screener.CollectCompleted | stock_screener.py:377-401 | in any completion order, one record per match, the k-th record belongs to the k-th completed match, and the records are a permutation of confirming every match |
| Screener.BatchRecords | stock_screener.py:296-406 | a batch yields no more records than it has tickers |
| Screener.AnalyzeBatch | stock_screener.py:296-406 | the batch returns the records of its confirmed matches (nothing when the download is empty), the technical statistics and the retry waits |
| Screener.RunScan | stock_screener.py:433-438 | the run returns the concatenated results of its batches in order, with one pause of 2 seconds between consecutive batches and none after the last |
| ScreenerFacts.TallyPartition | stock_screener.py:324-371 | `liquid_fail` is the number of illiquid tickers; the golden, death and no-cross counts add up to the number of tickers that reached the crossover scan; the number of matches is the golden count plus the death count |
| ScreenerFacts.MatchesAreSignals | stock_screener.py:358-371 | the technical matches are exactly the matches of the tickers whose outcome was a signal |
| ScreenerFacts.RecordsComeFromMatches | stock_screener.py:377-401 | a batch with a non-empty download has one record per technical match, and every record is the confirmation of the signal of one of the batch's tickers |
| ScreenerFacts.ConfirmedSignals | stock_screener.py:358-401 | every confirmed record is the confirmation of the match of some ticker whose outcome was a signal |
| ScreenerFacts.MappedSignals | stock_screener.py:358-401 | anything computed from each technical match, one result per match, is the result for the match of some ticker whose outcome was a signal |
| ScreenerFacts.SignalCarriesTicker | stock_screener.py:363-369 | a match's ticker is the ticker that was screened |
| ScreenerFacts.BatchesPartition | stock_screener.py:433-434 | the batches concatenate back to the ticker list, and each holds 1 to 50 tickers |
| ScreenerFacts.BatchAt | stock_screener.py:433-434 | batch j is the slice from 50·j to min(50·j + 50, n) |
| ScreenerFacts.BatchCount | stock_screener.py:433-438 | there are ⌈n / 50⌉ batches, and none exactly when the list is empty |

## Left out

- The HTML template, the dashboard writer and the console menu are output and
  interaction only.
- The index scrapers (Wikipedia, NASDAQ Trader): only the symbol rewrite they
  all apply is modelled, because fetching and parsing HTML or pipe files is
  network I/O.
- Calls to yfinance (`yf.download`, `quarterly_financials`) become inputs. The
  market is a function from (batch, attempt) to a delivered frame or a raised
  message. The financials are a function from ticker to a fetched table or a
  failure message.
- Sleeping is not performed. The retry waits and the pauses between batches
  are returned as values. The 0.5 s sleep in `check_fundamentals` is not
  recorded at all.
- `print` output is left out: progress lines, the batch statistics banner and
  the "no stocks met criteria" message.
- Screener.CollectCompleted: the thread pool's completion order is a
  parameter, and any permutation is allowed. `MAX_WORKERS` and real
  concurrency are not modelled.
- Screener.AnalyzeBatch: it passes the submission order to
  `CollectCompleted`, so its records are in match order. The source only
  guarantees a permutation of them.
- Screener.AnalyzeBatch: the batch-level `except` and the per-fundamentals
  `except` are not modelled, because outside the data provider nothing in the
  model can raise. Provider failures are modelled as `Raised` attempts and
  `FetchFailed` tables. Of the per-ticker `except`, only the case it catches
  for an empty table is modelled, as the `NoData` screen.
- Records.MakeRecord: the price is not rounded to 2 decimals. The 1-year
  change and the liquidity are not formatted as text. The record keeps the
  exact numbers, because floating point printing is outside the model.
- Crossover: prices and volumes are exact reals, not IEEE doubles. The model
  does not capture the rounding of the rolling sum.
- Crossover: a row is either entirely NaN or fully present. Rows with only
  some columns NaN are not modelled.
- Crossover: the single-ticker `data.copy()` branch is modelled as the same
  lookup by ticker as the multi-ticker case. An empty download is an empty
  map.
- Crossover.YearChange: when the first close of the year is 0, pandas gives
  an infinite or NaN 1-year change. The model gives `None`.
- Fundamentals.Latest: pandas' `sort_index` is not guaranteed stable, so it
  is not determined which of two periods with the same date survives. The
  model's sort is stable. The proved properties do not depend on which
  duplicate survives, except FundamentalsFacts.PassedIffMostRecent, which is
  stated only for tables with distinct dates.
- Fundamentals: a table with two line items of the same label is not
  modelled. Line item labels are unique keys.
- MovingAverage.Sma: its contract states where the mean is defined. The value
  is its definition (the mean of the trailing window), and its properties are
  the lemmas beside it.
