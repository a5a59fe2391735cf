# stockgpt in Dafny

A Dafny model of the deterministic core of stockgpt, a command-line tool
that fetches a stock's daily price history and news, computes technical
indicators, ranks several stocks against each other, and asks a language
model for insights, caching its answers on disk.

The model covers the following parts:

- **The indicator engine** (`analyze_data` in `src/analysis.py`). A table
  of daily bars (open, high, low, close, volume) becomes one flat record:
  - the mean price and volume;
  - the first-to-last change and its percentage;
  - the largest daily gain and loss;
  - a binary trend label;
  - MACD and its signal line;
  - RSI over 14 bars;
  - stochastic %K and %D;
  - Bollinger bands;
  - the volatility;
  - static metadata copied from the table.

  It also covers the helpers `_determine_trend`, `_calculate_atr` and
  `_calculate_support_resistance`.
- **The reduced duplicate** of that engine in `src/utils/analysis.py`, and a
  proof that it agrees with the full engine on every field they share.
- **The comparison** in `src/comparison.py`. `StockComparison` projects
  five fields per symbol, then ranks the symbols three ways by a stable
  descending sort.
- **The in-memory steps of `src/data_fetcher.py`:**
  - the indicator columns `fetch_stock_data` assigns into the price table;
  - the title de-duplication and truncation in `fetch_news`.
- **The decisions of `src/stockgpt.py`:**
  - symbol validation;
  - the timeframe table of `get_date_range`;
  - the cache file name;
  - the cache-hit test of `generate_insights`.

The model works over exact reals. Pandas semantics are modelled as follows:

- A cell that pandas would hold as NaN (or as an infinity, after a division
  by zero) is `None` in an `Option<real>`.
- `rolling(k)` is first defined at index k−1.
- `pct_change` and `diff` are undefined at index 0.
- `max` and `min` skip undefined cells. pandas skips only NaN and keeps
  the infinities, so the two differ when a cell is infinite (see
  "Left out").
- `ewm(span=s)` uses α = 2/(s+1). It is modelled in both of its forms:
  `adjust=False` for MACD, and the default `adjust=True` for the fetcher's
  EMA columns.
- Standard deviations use the sample variance (ddof 1). The square root is
  a parameter `root`; the lemmas that need it assume `IsSqrt(root)`, i.e.
  non-negative, squaring back to its argument, and `root(0) = 0`.

Modules, one per file:

| file | module | models |
|---|---|---|
| wrappers.dfy | Wrappers | `Option` and `Result` |
| series.dfy | Series | the pandas series operations used by the engine |
| indicators.dfy | Indicators | the indicator formulas shared by both engines |
| analysis.dfy | Analysis | `src/analysis.py` |
| utils_analysis.dfy | UtilsAnalysis | `src/utils/analysis.py` |
| sorting.dfy | StableSort | `sorted(..., key=..., reverse=True)` |
| comparison.dfy | Comparison | `src/comparison.py` |
| data_fetcher.dfy | DataFetcher | the in-memory part of `src/data_fetcher.py` |
| stockgpt.dfy | StockGpt | the decisions of `src/stockgpt.py` |

The code is followed where it differs from the documented intent:

- **RSI with no losses.** When the 14-bar mean loss is 0 and the mean gain
  is positive, RSI is exactly 100 (`100/(1+inf)` is 0 in floating point).
  When both means are 0, RSI is undefined.
- **Where RSI starts.** `delta.where(delta > 0, 0)` replaces the undefined
  first difference by 0, so RSI is defined from the 14th bar on, not the
  15th.
- **ATR at the first bar.** The row-wise maximum of the three true-range
  terms skips NaN, so the first bar's true range is its high minus its low.
- **Empty tables.** An empty table makes `iloc[-1]` raise, so every
  operation on one returns an error rather than requiring non-empty input.

## Model

| member | source | states |
|---|---|---|
| Series.Diff | stockgpt-cli/src/analysis.py:35 | `diff` has one cell per entry and is undefined at index 0 |
| Series.RollingMin | stockgpt-cli/src/analysis.py:42 | a k-row rolling minimum is defined exactly from index k−1 on |
| Series.RollingMax | stockgpt-cli/src/analysis.py:43 | a k-row rolling maximum is defined exactly from index k−1 on |
| Series.RollingMeanOpt | stockgpt-cli/src/analysis.py:46 | a k-row rolling mean over a column with gaps is defined exactly when its whole window is |
| Series.StdDefined | stockgpt-cli/src/analysis.py:13 | a gap-skipping standard deviation is defined exactly when at least two cells are |
| Series.RollingStd | stockgpt-cli/src/analysis.py:50 | a k-row rolling std is defined exactly from index k−1 on |
| Series.Ewm | stockgpt-cli/src/analysis.py:27-28 | the adjust=False EMA has one value per entry and starts at the first entry |
| Series.EwmAdjusted | stockgpt-cli/src/data_fetcher.py:28-29 | the adjust=True EMA has one value per entry |
| Series.EwmLags | stockgpt-cli/src/analysis.py:27-28 | on a rising series the EMA never exceeds the current entry |
| Series.FasterEwmAbove | stockgpt-cli/src/analysis.py:27-29 | on a rising series the EMA with the larger α is at least the other, strictly from the second entry |
| Series.RisingOrdered | stockgpt-cli/src/analysis.py:17 | a series rising step by step is ordered between any two positions |
| Series.PctChange | stockgpt-cli/src/analysis.py:10 | `pct_change` is defined at i exactly when i > 0 and the previous close is non-zero |
| Series.RollingMean | stockgpt-cli/src/analysis.py:49 | a k-row rolling mean is defined exactly from index k−1 on |
| Series.MaxDefined | stockgpt-cli/src/analysis.py:20 | the NaN-skipping maximum is undefined only when every cell is; otherwise it bounds every defined cell and is one of them |
| Series.MinDefined | stockgpt-cli/src/analysis.py:21 | the NaN-skipping minimum is undefined only when every cell is; otherwise it bounds every defined cell from below and is one of them |
| Series.MinDefinedAtMostMaxDefined | stockgpt-cli/src/analysis.py:20-21 | the skipping minimum never exceeds the skipping maximum |
| Series.ScaleMax | stockgpt-cli/src/utils/analysis.py:19 | the maximum of a column times a positive factor is the factor times the maximum |
| Series.ScaleMin | stockgpt-cli/src/utils/analysis.py:20 | the same for the minimum |
| Series.MeanBetweenMinMax | stockgpt-cli/src/analysis.py:16 | a mean lies between the minimum and the maximum |
| Series.EwmStep | stockgpt-cli/src/analysis.py:27-28 | the adjust=False EMA satisfies y(t) = (1−α)·y(t−1) + α·x(t) |
| Series.EwmConstant | stockgpt-cli/src/analysis.py:27-30 | the adjust=False EMA of a constant series is that constant |
| Series.EwmWithin | stockgpt-cli/src/analysis.py:27-28 | the adjust=False EMA stays within any bounds of its input |
| Series.EwmAdjustedConstant | stockgpt-cli/src/data_fetcher.py:28-29 | the adjust=True EMA of a constant series is that constant |
| Series.VarianceConstant | stockgpt-cli/src/analysis.py:50 | the sample variance of a constant window is 0 |
| Series.RollingStdOpt | stockgpt-cli/src/data_fetcher.py:33 | a rolling std over a column with gaps is defined exactly when its whole window is |
| Indicators.DailyReturns | stockgpt-cli/src/analysis.py:10 | the daily returns have one cell per close |
| Indicators.Volatility | stockgpt-cli/src/analysis.py:13 | the volatility is defined exactly when at least two daily returns are |
| Indicators.MacdLine | stockgpt-cli/src/analysis.py:27-29 | the MACD line has one value per close |
| Indicators.MacdSignal | stockgpt-cli/src/analysis.py:30 | the signal line has one value per close |
| Indicators.MacdPositiveWhenRising | stockgpt-cli/src/analysis.py:27-29 | on a rising close series the MACD line is 0 at the first bar and positive at every later one |
| Indicators.RsiFromMeans | stockgpt-cli/src/analysis.py:38-39 | undefined iff both means are 0; exactly 100 with no loss; otherwise RSI·(gain + loss) = 100·gain |
| Indicators.Rsi | stockgpt-cli/src/analysis.py:35-39 | RSI is undefined with fewer than 14 closes |
| Indicators.StochK | stockgpt-cli/src/analysis.py:42-44 | %K has one cell per bar |
| Indicators.StochD | stockgpt-cli/src/analysis.py:46 | %D has one cell per bar |
| Indicators.PriceChangePct | stockgpt-cli/src/analysis.py:18 | the percentage is defined exactly when the first close is non-zero |
| Indicators.PriceChangePctSign | stockgpt-cli/src/analysis.py:17-18 | with a positive first close the percentage has the sign of the change |
| Indicators.VolatilityNonNegative | stockgpt-cli/src/analysis.py:13 | the annualised volatility is never negative |
| Indicators.MacdOfConstant | stockgpt-cli/src/analysis.py:27-30 | for a constant close series the MACD line and the signal line are 0 everywhere |
| Indicators.Gains | stockgpt-cli/src/analysis.py:36 | the gain series is non-negative |
| Indicators.Losses | stockgpt-cli/src/analysis.py:37 | the loss series is non-negative |
| Indicators.RsiFromMeansBounds | stockgpt-cli/src/analysis.py:38-39 | RSI from non-negative mean gain and loss lies in [0, 100] |
| Indicators.RsiBounds | stockgpt-cli/src/analysis.py:35-39 | RSI is undefined with fewer than 14 bars and otherwise, when defined, in [0, 100] |
| Indicators.RsiOfConstant | stockgpt-cli/src/analysis.py:35-39 | a constant series has no RSI (0/0) |
| Indicators.StochCellBounds | stockgpt-cli/src/analysis.py:44 | with low ≤ close ≤ high, %K, when defined, lies in [0, 100] |
| Indicators.StochKBounds | stockgpt-cli/src/analysis.py:42-45 | %K is undefined before bar 13 and, for well-formed bars, within [0, 100] |
| Indicators.StochDBounds | stockgpt-cli/src/analysis.py:46 | %D is undefined before bar 15 and, for well-formed bars, within [0, 100] |
| Indicators.Bollinger | stockgpt-cli/src/utils/analysis.py:39-43 | the three band columns are as long as the close series |
| Indicators.BollingerShape | stockgpt-cli/src/analysis.py:49-53 | the bands are defined exactly from bar 19 on, lower ≤ middle ≤ upper, and symmetric about the middle |
| Indicators.BollingerOfConstant | stockgpt-cli/src/analysis.py:49-53 | on a constant series all three bands equal the constant |
| Analysis.CopiedMetadata | stockgpt-cli/src/analysis.py:56-58 | exactly the listed keys the table carries are copied, with their values |
| Analysis.Analyze | stockgpt-cli/src/analysis.py:5-60 | the engine fails exactly on an empty table |
| Analysis.CopyMetadata | stockgpt-cli/src/analysis.py:56-58 | the loop over the metadata keys builds the copied metadata |
| Analysis.AnalyzeData | stockgpt-cli/src/analysis.py:5-60 | the field-by-field method computes the engine's record, with exactly the present metadata keys |
| Analysis.TrendFollowsPriceChange | stockgpt-cli/src/analysis.py:17-24 | the change is last close − first close, and the trend is Upward iff the change is positive |
| Analysis.PriceChangePctHasSignOfChange | stockgpt-cli/src/analysis.py:17-18 | with a positive first close the percentage is defined and has the sign of the change |
| Analysis.ReturnExtremes | stockgpt-cli/src/analysis.py:10-21 | the daily extremes exist exactly when some close before the last is non-zero, and the minimum is at most the maximum |
| Analysis.DailyExtremesOrdered | stockgpt-cli/src/analysis.py:20-21 | max daily loss ≤ max daily gain, both defined under the same condition |
| Analysis.AvgPriceWithinCloseRange | stockgpt-cli/src/analysis.py:16 | the average price lies between the lowest and highest close |
| Analysis.ConstantSeries | stockgpt-cli/src/analysis.py:17-53 | a constant series gives change 0, trend Downward, MACD and signal 0, no RSI, and bands equal to the constant from 20 bars on |
| Analysis.RsiWithinBounds | stockgpt-cli/src/analysis.py:35-39 | the record's RSI is undefined below 14 bars and otherwise within [0, 100] |
| Analysis.StochasticWithinBounds | stockgpt-cli/src/analysis.py:42-46 | the record's %K and %D are undefined below 14 and 16 bars and within [0, 100] for well-formed bars |
| Analysis.BollingerAtLastBar | stockgpt-cli/src/analysis.py:49-53 | the record's bands are defined iff there are ≥ 20 bars, and then ordered and symmetric |
| Analysis.VolatilityIsNonNegative | stockgpt-cli/src/analysis.py:13 | the record's volatility is never negative |
| Analysis.DetermineTrend | stockgpt-cli/src/analysis.py:62-79 | `_determine_trend` fails exactly on an empty table |
| Analysis.TrendLabels | stockgpt-cli/src/analysis.py:68-79 | Strong Upward iff ≥ 50 bars and price > SMA20 > SMA50; Moderate Upward iff price > SMA20 but not that; the same for the downward labels; Sideways iff fewer than 20 bars or price = SMA20 |
| Analysis.RisingSeriesIsStrongUpward | stockgpt-cli/src/analysis.py:62-71 | a strictly rising series of at least 50 closes is Strong Upward |
| Analysis.RisingCloseRecord | stockgpt-cli/src/analysis.py:17-31 | a rising close series of ≥ 2 bars has a positive change, trend Upward, positive MACD and, with a positive first close, a positive percentage |
| Analysis.TrueRange | stockgpt-cli/src/analysis.py:116-119 | the true-range column holds the true range of every bar |
| Analysis.Atr | stockgpt-cli/src/analysis.py:110-121 | `_calculate_atr` fails exactly on an empty table |
| Analysis.SupportResistance | stockgpt-cli/src/analysis.py:123-128 | `_calculate_support_resistance` fails exactly on an empty table |
| Analysis.TrueRangeAt | stockgpt-cli/src/analysis.py:116-119 | the true range is at least each of its three terms, and high − low at the first bar |
| Analysis.AtrNonNegative | stockgpt-cli/src/analysis.py:110-121 | ATR is defined from 14 bars and never negative |
| Analysis.SupportBelowResistance | stockgpt-cli/src/analysis.py:123-128 | support and resistance are defined from 20 bars and support ≤ resistance |
| UtilsAnalysis.ChangeOverFirst | stockgpt-cli/src/utils/analysis.py:11 | the percentage times the first close is 100 × the change, defined iff the first close is non-zero |
| UtilsAnalysis.AnalyzeBasic | stockgpt-cli/src/utils/analysis.py:4-52 | the reduced engine fails exactly on an empty table; its band columns span the whole series |
| UtilsAnalysis.AgreesWithFullEngine | stockgpt-cli/src/utils/analysis.py:9-50 | the reduced record equals the full record on every shared field, with the bands at the last bar |
| UtilsAnalysis.PercentFormulasAgree | stockgpt-cli/src/utils/analysis.py:11 | change / first × 100 equals (last / first − 1) × 100 |
| UtilsAnalysis.BasicTrendFollowsPriceChange | stockgpt-cli/src/utils/analysis.py:10-15 | the trend is Upward iff the change (last − first) is positive |
| UtilsAnalysis.BasicDailyExtremes | stockgpt-cli/src/utils/analysis.py:18-20 | the daily gain and loss are 100 × the max and min of `pct_change`, and loss ≤ gain |
| UtilsAnalysis.BasicConstantSeries | stockgpt-cli/src/utils/analysis.py:24-36 | a constant series has MACD and signal 0 and no RSI |
| UtilsAnalysis.BasicBandsSymmetric | stockgpt-cli/src/utils/analysis.py:39-43 | at every index the band columns are defined from 19 on, ordered, and upper − middle = middle − lower |
| UtilsAnalysis.BasicOscillatorBounds | stockgpt-cli/src/utils/analysis.py:31-50 | RSI, %K and %D stay within [0, 100] |
| StableSort.Insert | stockgpt-cli/src/comparison.py:42-46 | inserting adds exactly one element |
| StableSort.SortDesc | stockgpt-cli/src/comparison.py:42-60 | the sorted list is as long as its input |
| StableSort.InsertPermutes | stockgpt-cli/src/comparison.py:42-46 | inserting adds exactly the new element to the multiset of elements |
| StableSort.SortDescPermutes | stockgpt-cli/src/comparison.py:42-60 | the sort is a permutation of its input |
| StableSort.InsertLast | stockgpt-cli/src/comparison.py:42-46 | an element ranking no higher than all others is placed after them |
| StableSort.SortDescSorted | stockgpt-cli/src/comparison.py:42-60 | with finite keys the output is in non-increasing key order |
| StableSort.KeyClassInsert | stockgpt-cli/src/comparison.py:42-60 | an inserted element goes after every element sharing its key |
| StableSort.SortDescStable | stockgpt-cli/src/comparison.py:42-60 | for every key value, the elements with that key keep their input order |
| StableSort.TieOrder | stockgpt-cli/src/comparison.py:42-46 | keys 5, 5, 3 keep their order |
| StableSort.MixedOrder | stockgpt-cli/src/comparison.py:42-46 | keys 10, −2, 4 sort as first, third, second |
| Comparison.Project | stockgpt-cli/src/comparison.py:16-22 | a row holds the record's percentage change, average volume, volatility, RSI and trend |
| Comparison.PerformanceOf | stockgpt-cli/src/comparison.py:11-23 | the table exists iff every symbol's analysis succeeds, and then its keys are exactly the symbols |
| Comparison.PerformanceFailurePersists | stockgpt-cli/src/comparison.py:14-15 | once one symbol's analysis fails, the whole comparison fails |
| Comparison.PerformanceTable | stockgpt-cli/src/comparison.py:14-22 | each symbol maps to the projection of its own analysis |
| Comparison.EngineRow | stockgpt-cli/src/comparison.py:15-22 | a row's trend is Upward iff the last close exceeds the first, and its RSI is in [0, 100] |
| Comparison.PerformanceRows | stockgpt-cli/src/comparison.py:11-23 | the comparison fails iff some table is empty; every row keeps the engine's trend and RSI promises |
| Comparison.EngineKeepsPromises | stockgpt-cli/src/comparison.py:15-22 | the engine fails exactly on empty tables and keeps the row promises on every other one |
| Comparison.PromisedRows | stockgpt-cli/src/comparison.py:11-23 | for any such engine the comparison fails iff some table is empty, and every row keeps the promises |
| Comparison.Rankings | stockgpt-cli/src/comparison.py:35-60 | the result has exactly the keys return, volume, momentum |
| Comparison.RankingsArePermutations | stockgpt-cli/src/comparison.py:42-60 | each of the three rankings is a permutation of the symbols |
| Comparison.VolumeRankingOrdered | stockgpt-cli/src/comparison.py:49-53 | the volume ranking lists table symbols in non-increasing average volume, with no precondition on the keys |
| Comparison.RankingOrdered | stockgpt-cli/src/comparison.py:42-60 | with finite keys each ranking is non-increasing in its key |
| Comparison.RankingStable | stockgpt-cli/src/comparison.py:42-60 | symbols with equal keys keep their insertion order in each ranking |
| Comparison.RankingsCoverSymbols | stockgpt-cli/src/comparison.py:42-60 | each ranking has as many entries as there are symbols and lists exactly the symbols |
| Comparison.ReturnTieExample | stockgpt-cli/src/comparison.py:42-46 | returns {A: 5, B: 5, C: 3} rank A, B, C |
| Comparison.ReturnOrderExample | stockgpt-cli/src/comparison.py:42-46 | returns {AAA: 10, BBB: −2, CCC: 4} rank AAA, CCC, BBB |
| Comparison.StockComparison.constructor | stockgpt-cli/src/comparison.py:7-9 | stores the tables and starts with no comparisons |
| Comparison.StockComparison.ComparePerformance | stockgpt-cli/src/comparison.py:11-23 | the loop builds exactly the performance table, or the first failure |
| Comparison.StockComparison.RankStocks | stockgpt-cli/src/comparison.py:32-62 | returns the three rankings of the performance table, or its failure |
| DataFetcher.ValueTraded | stockgpt-cli/src/data_fetcher.py:36 | the traded value of a row is close × volume |
| DataFetcher.InfoColumns | stockgpt-cli/src/data_fetcher.py:20-23 | three company columns, with defaults 0 and "Unknown" |
| DataFetcher.IndicatorColumns | stockgpt-cli/src/data_fetcher.py:26-37 | eight computed columns, each as long as the table |
| DataFetcher.StockTable.constructor | stockgpt-cli/src/data_fetcher.py:15 | the fetched table starts with no added columns |
| DataFetcher.StockTable.AddCompanyInfo | stockgpt-cli/src/data_fetcher.py:20-23 | the three company columns are added, nothing else changes |
| DataFetcher.StockTable.AddIndicators | stockgpt-cli/src/data_fetcher.py:26-37 | the eight indicator columns are added, nothing else changes |
| DataFetcher.FetchStockData | stockgpt-cli/src/data_fetcher.py:9-42 | an empty history fails with the no-data message; otherwise a new table carries all eleven columns |
| DataFetcher.MovingAverageWindows | stockgpt-cli/src/data_fetcher.py:26-27 | SMA_20/SMA_50 are undefined before bar 19/49 and lie between the window's lowest and highest close |
| DataFetcher.TradedValueColumns | stockgpt-cli/src/data_fetcher.py:36-37 | Value_Traded is close × volume; Avg_Value_Traded is defined from row 4, the mean of five rows, and non-negative for non-negative prices and volumes |
| DataFetcher.ExponentialAveragesOfConstant | stockgpt-cli/src/data_fetcher.py:28-29 | on a constant series EMA_12 and EMA_26 equal the constant |
| DataFetcher.FetchedTableHasAllMetadata | stockgpt-cli/src/analysis.py:56-58 | a fetched table supplies all nine keys the engine copies |
| DataFetcher.InfoGet | stockgpt-cli/src/data_fetcher.py:21-23 | `info.get(key, default)`: the stored value when present, the default otherwise |
| DataFetcher.Deduplicated | stockgpt-cli/src/data_fetcher.py:59-64 | de-duplication never adds items |
| DataFetcher.DedupNews | stockgpt-cli/src/data_fetcher.py:59-66 | the loop returns the first occurrences, truncated Python-style |
| DataFetcher.PyPrefix | stockgpt-cli/src/data_fetcher.py:66 | `xs[:limit]` keeps min(limit, n) items, or drops −limit from the end when negative; it is a prefix |
| DataFetcher.DeduplicatedIsSubsequence | stockgpt-cli/src/data_fetcher.py:61-64 | the kept items are input items at increasing positions, exactly the first occurrences of their titles |
| DataFetcher.DeduplicatedTitlesDistinct | stockgpt-cli/src/data_fetcher.py:59-64 | no two kept items share a title |
| DataFetcher.DeduplicatedKeepsFirst | stockgpt-cli/src/data_fetcher.py:61-64 | every input title survives, carried by its first item |
| StockGpt.ValidateInputs | stockgpt-cli/src/stockgpt.py:24-27 | a symbol is accepted iff it is non-empty and all letters |
| StockGpt.DayOffset | stockgpt-cli/src/stockgpt.py:32-45 | 1d, 5d, 1mo, 3mo, 6mo, 1y give 1, 5, 30, 90, 180, 365 days; every other timeframe gets the invalid-timeframe error |
| StockGpt.GetDateRange | stockgpt-cli/src/stockgpt.py:29-46 | the range ends today and starts strictly earlier; unknown timeframes fail |
| StockGpt.LongerTimeframesStartEarlier | stockgpt-cli/src/stockgpt.py:32-43 | a later timeframe in the list starts strictly earlier |
| StockGpt.CacheKeyInjective | stockgpt-cli/src/stockgpt.py:59 | for validated symbols, equal cache file names mean equal symbol and timeframe |
| StockGpt.CacheKey | stockgpt-cli/src/stockgpt.py:59 | the file name is the symbol and timeframe joined by `_`, inside `cache/`, with `.json` appended: its length is theirs plus 12 |
| StockGpt.UnvalidatedKeysCollide | stockgpt-cli/src/stockgpt.py:59 | without validation, "A_B"/"1d" and "A"/"B_1d" share a file |
| StockGpt.CacheHit | stockgpt-cli/src/stockgpt.py:62-70 | a stored entry answers iff its analysis and news equal the current ones |
| StockGpt.GenerateInsights | stockgpt-cli/src/stockgpt.py:58-121 | a hit returns the stored answer and keeps the cache; a miss returns and stores the new answer; other files are untouched |
| StockGpt.RepeatedRequestIsCached | stockgpt-cli/src/stockgpt.py:62-119 | a repeated request is served from the cache with the first answer |
| StockGpt.OtherRequestsKeepEntry | stockgpt-cli/src/stockgpt.py:59-119 | a request for another validated symbol or timeframe leaves a cached entry alone |

## Left out

- Network access (the market-data service, news services, page scraping, `get_market_context`, all of `src/utils/data_fetcher.py`): the fetched bars, company information and news items are parameters.
- The language-model call in `generate_insights` and the prompt it builds: the reply is a parameter.
- Console output (`print_beautified_analysis`, `src/ui/console_ui.py`), `parse_arguments` and `main`.
- Cache file reads and writes and `os.makedirs`: the cache is a map from file name to file state; a stored entry always holds its three keys, so the KeyError path is not modelled.
- `datetime.now()` and date formatting: dates are day numbers and today's is a parameter.
- Floating point: everything is over exact reals. NaN and the infinities are one undefined value, and `.2f` stringification is not modelled (the stringified record is a map of strings).
- Series.MaxDefined: skips infinite cells, which pandas keeps. With a zero close followed by a non-zero one, `pct_change` holds ±inf, and pandas' maximum (or minimum) of the daily returns is that infinity while the model's is the largest finite return.
- Series.MinDefined: skips infinite cells, which pandas keeps, as for Series.MaxDefined.
- Series.StdDefined: skips infinite cells, which pandas keeps; pandas' standard deviation of a column holding an infinity is NaN, the model's is that of the finite cells.
- Indicators.Volatility: inherits the Series.StdDefined difference for daily returns with an infinite cell.
- Analysis.DailyExtremesOrdered: its "both defined under the same condition" is about the model's encoding; with infinite returns pandas may give a finite minimum and an infinite maximum.
- Comparison.Rankings: a first close of 0 makes pandas' percentage change +inf, which Python ranks first; the model holds it as undefined, and an undefined key compares false with every number, so that symbol is not ranked first.
- The square root: a parameter that the lemmas constrain to be one.
- StockGpt.ValidateInputs: accepts ASCII letters only, whereas `str.isalpha` also accepts other Unicode letters.
- StableSort.SortDesc: matches Python's `sorted` only for finite keys; with NaN keys Python's result depends on the comparison sequence of its merge sort.
- `_calculate_trend_strength` (ADX): unused and dominated by divisions by zero.
- `_calculate_technical_indicators`: an empty stub.
- `calculate_correlations`: pandas correlation needs square roots of sums of products and is unused by the rankings.
- The `comparisons` field of `StockComparison` is stored but never read or written after construction.
- `fetch_news`'s error result and the news services' own truncation: only the de-duplication and final slice are modelled.
- The `Daily_Return` and `Volatility` columns of the fetched table are modelled as formulas with no further properties.
