# INVEST_MODEL core in Dafny

INVEST_MODEL is a portfolio tool built around Modern Portfolio Theory. Its server downloads
price histories from Yahoo Finance and the risk-free rate from FRED. It computes annualised
returns, volatilities and correlations, and searches random weight vectors for the best Sharpe
ratio. It also reports the realised Sharpe ratio of a given allocation. Its web client keeps the
request parameters, the asset list and a per-symbol table of analysed content in a store. Small
controls read and write that store. "Cached" controls forward a request only when the store
lacks its answer.

This project models that core:

- **Numerical pipeline.** The return/mu/sigma/correlation calculator, the Monte-Carlo allocator,
  and the realised-Sharpe resolver. Arithmetic is over `real`; `Math.sqrt` and `Math.pow` are
  uninterpreted functions. The random draws and the downloaded data are parameters.
- **Parsers and validators.** The period and interval grammars and the symbol check (server and
  client copies). Choosing the first usable FRED observation. Null-filtering of Yahoo closes.
  Stripping the HTML fence from LLM answers. The `LanguageE` codes and names.
- **Client state.** `StoreControl` is a class whose fields the setters overwrite. The form,
  asset-picker, metrics and cached controls are classes holding the store; a request they forward
  or emit is appended to a request log.

Layout:

- **Shared helpers.** `wrappers.dfy` (Option/Result), `numeric.dfy` (sums, rounding, square
  root), `records.dfy` (JavaScript objects as ordered key/value lists), `js_text.dfy` (`trim`,
  `toUpperCase`, number text), `string_order.dfy` (the default string sort), `null_filter.dfy`.
- **Server.** `types.dfy`, `metrics_calculator.dfy`, `asset_allocator.dfy`,
  `fred_chart_resolver.dfy`, `fred_rf_resolver.dfy`, `grammar.dfy`, `portfolio_data_fetcher.dfy`,
  `opinion_text.dfy`.
- **Shared and client.** `language.dfy`, `metrics_api.dfy`, `store.dfy`, `form_ui_control.dfy`,
  `assets_ui_control.dfy`, `metrics_data_control.dfy`, `cached_controls.dfy`,
  `grid_ui_control.dfy`.

Where the code and the project's prose disagree, the model follows the code:

- The calculator has no `n − 1 → 1` fallback. With exactly two prices its variance is 0/0,
  which is NaN. Only `statsMeanStd` in the realised-Sharpe resolver has the fallback.
- The calculator does not clamp non-finite returns.
- `allocate` always passes 10000 iterations, so the size-dependent default count never applies
  on that path.
- `resetAllAnalyzedContents` resets the parameters first. Both "reset all" loops then run over
  the empty default symbol list, so the analysed-content table is left exactly as it was.

## Model

| member | source | states |
|---|---|---|
| PortfolioMetricsCalculator.DailyReturns | model_web/api/src/PortfolioMetricsCalculator.ts:26-31 | one return fewer than prices; each return compounds its base price into the next price |
| PortfolioMetricsCalculator.AnnualSigma | model_web/api/src/PortfolioMetricsCalculator.ts:40-45 | the sample deviation is NaN exactly when there is a single return (divisor len − 1 = 0), and is non-negative otherwise |
| PortfolioMetricsCalculator.PearsonSymmetric | model_web/api/src/PortfolioMetricsCalculator.ts:73-102 | the Pearson coefficient does not depend on the order of the two series |
| PortfolioMetricsCalculator.PairCorrelationSymmetric | model_web/api/src/PortfolioMetricsCalculator.ts:64-102 | the pair correlation, over the common prefix or 0 below two returns, is symmetric |
| PortfolioMetricsCalculator.CorrEntrySymmetric | model_web/api/src/PortfolioMetricsCalculator.ts:58-104 | matrix entry (i, j) equals entry (j, i) |
| PortfolioMetricsCalculator.ConstantReturnsUncorrelated | model_web/api/src/PortfolioMetricsCalculator.ts:93-102 | an asset with zero variance over the overlap gets correlation 0 with every asset |
| PortfolioMetricsCalculator.CalculateCorrelation | model_web/api/src/PortfolioMetricsCalculator.ts:54-107 | the nested loops give an n×n matrix with diagonal 1, off-diagonal entries the pair correlation, and symmetry |
| PortfolioMetricsCalculator.CalculateFromPrices | model_web/api/src/PortfolioMetricsCalculator.ts:11-52 | the "at least one asset" error occurs exactly for an empty list; any other failure is the first asset with fewer than 2 prices, naming its index and count; otherwise mu, sigma and corr have n entries, and mu[i], sigma[i], corr[i][j] are the statistics of asset i's daily returns |
| PortfolioMetricsCalculator.ConstantPrices | model_web/api/src/PortfolioMetricsCalculator.ts:27-45 | two or more constant prices give mu 0 and, from three prices on, sigma 0 |
| PortfolioMetricsCalculator.TwoPrices | model_web/api/src/PortfolioMetricsCalculator.ts:36-45 | prices [100, 110] give mu 25.2 and a NaN sigma |
| AssetAllocator.DynamicIterations | model_web/api/src/AssetAllocator.ts:35 | a non-zero iteration count is used as given; 0 gives a count between 10000 and 50000 |
| AssetAllocator.DefaultCount | model_web/api/src/AssetAllocator.ts:35 | the default count is 10000 + 1000n up to 40 assets and 50000 beyond |
| AssetAllocator.Covariance | model_web/api/src/AssetAllocator.ts:37-39 | the covariance matrix has the shape of the correlation matrix |
| AssetAllocator.CovarianceSymmetric | model_web/api/src/AssetAllocator.ts:37-39 | a symmetric correlation matrix gives a symmetric covariance matrix |
| AssetAllocator.CovarianceOfZeroSigma | model_web/api/src/AssetAllocator.ts:37-39 | zero volatilities give the zero covariance matrix |
| AssetAllocator.NormalizeOnSimplex | model_web/api/src/AssetAllocator.ts:47-49 | positive draws divided by their sum are weights in (0, 1] that sum to 1 |
| AssetAllocator.RiskOf | model_web/api/src/AssetAllocator.ts:64 | the risk is a number exactly when the variance is a non-negative number; it is then non-negative, and 0 for variance 0 |
| AssetAllocator.SharpeOf | model_web/api/src/AssetAllocator.ts:67 | the Sharpe ratio is 0 unless the risk is positive; otherwise it is (return − rf) / risk, or NaN for a NaN rate |
| AssetAllocator.SampleOf | model_web/api/src/AssetAllocator.ts:45-67 | one sample has one weight per asset |
| AssetAllocator.Samples | model_web/api/src/AssetAllocator.ts:45-73 | the k-th sample of the loop is computed from the k-th row of draws |
| AssetAllocator.SamplesGrow | model_web/api/src/AssetAllocator.ts:45-73 | each pass of the loop appends the sample of the next row of draws |
| AssetAllocator.BestOfStep | model_web/api/src/AssetAllocator.ts:69-72 | a new sample replaces the best pick exactly when its Sharpe ratio is a number above the best so far |
| AssetAllocator.BestIsMaximum | model_web/api/src/AssetAllocator.ts:42-73 | the scan with strict `>` from −Infinity finds nothing exactly when every Sharpe ratio is NaN; otherwise its pick is at least every numeric ratio |
| AssetAllocator.BestIsFirst | model_web/api/src/AssetAllocator.ts:69-72 | the pick is the first sample attaining the maximum: every earlier sample is NaN or strictly smaller |
| AssetAllocator.Percentages | model_web/api/src/AssetAllocator.ts:94 | one percentage per weight |
| AssetAllocator.Amounts | model_web/api/src/AssetAllocator.ts:78 | one amount per weight |
| AssetAllocator.PercentageBounds | model_web/api/src/AssetAllocator.ts:94 | a weight in [0, 1] rounds to between 0 and 10000 hundredths of a percent |
| AssetAllocator.AmountBounds | model_web/api/src/AssetAllocator.ts:78 | a weight in [0, 1] of a non-negative total gives an amount between 0 and the rounded total |
| AssetAllocator.RoundedShares | model_web/api/src/AssetAllocator.ts:78-94 | weights in [0, 1] give percentages in [0, 100] and amounts in [0, round(total)] |
| AssetAllocator.Summarize | model_web/api/src/AssetAllocator.ts:77-99 | the summary has one weight and one amount per asset and carries the best Sharpe ratio |
| AssetAllocator.OptimizeOutcome | model_web/api/src/AssetAllocator.ts:33-75 | "No assets" exactly for an empty mu; "No valid allocation" when the loop never runs; any run with a numeric rate and at least one iteration succeeds |
| AssetAllocator.OptimizeMaximises | model_web/api/src/AssetAllocator.ts:42-99 | the reported Sharpe ratio is the largest numeric sample ratio, and the weights are those of the first sample reaching it, in percent |
| AssetAllocator.ZeroVolatilityPicksFirst | model_web/api/src/AssetAllocator.ts:64-72 | with all volatilities 0 every Sharpe ratio is 0 and the first draw wins the tie |
| AssetAllocator.ZeroVolatilitySample | model_web/api/src/AssetAllocator.ts:58-67 | with all volatilities 0 a sample's risk is 0 and its Sharpe ratio is 0 |
| AssetAllocator.Scan | model_web/api/src/AssetAllocator.ts:42-73 | the sampling loop returns the specified best pick of its samples, whose weights have one entry per asset |
| AssetAllocator.DrawSample | model_web/api/src/AssetAllocator.ts:46-67 | one loop iteration computes exactly the specified sample of its draw |
| AssetAllocator.Summary | model_web/api/src/AssetAllocator.ts:77-99 | the lines after the loop compute exactly the specified summary of the winning weights |
| AssetAllocator.PortfolioVariance | model_web/api/src/AssetAllocator.ts:85-90 | the nested loops compute the quadratic form wᵀ·cov·w |
| AssetAllocator.Optimize | model_web/api/src/AssetAllocator.ts:26-100 | the sampling loop and the summary compute exactly the specified search result |
| AssetAllocator.KeyBySymbolsDistinct | model_web/api/src/AssetAllocator.ts:129-136 | with distinct symbols, symbol i holds value i and no other key appears |
| AssetAllocator.KeyBySymbolsLastWins | model_web/api/src/AssetAllocator.ts:129-136 | every requested symbol holds the value at its last position, undefined when that position is past the array; unrequested symbols are absent; no key appears twice |
| AssetAllocator.ValidParamsTotal | model_web/api/src/AssetAllocator.ts:102-110 | any whole total, including 0 and negatives, passes; a fractional total fails |
| AssetAllocator.Allocate | model_web/api/src/AssetAllocator.ts:112-141 | the result is the 10000-iteration search, with weights and amounts keyed by symbol; a failed search fails |
| AssetAllocator.AllocateSampleCount | model_web/api/src/AssetAllocator.ts:124 | allocate always draws 10000 samples, whatever the number of assets |
| NullFilter.PresentLength | model_web/api/src/PortfolioDataFetcher.ts:190-192 | the filtered closes have one entry per non-null close |
| NullFilter.PresentMembers | model_web/api/src/PortfolioDataFetcher.ts:190-192 | a value is kept exactly when it occurs as a non-null close |
| NullFilter.PresentWithoutNulls | model_web/api/src/PortfolioDataFetcher.ts:190-192 | without nulls every close is kept in place |
| NullFilter.PresentAppend | model_web/api/src/PortfolioDataFetcher.ts:190-192 | filtering distributes over concatenation, so the order is preserved |
| FredChartResolver.KeptLengths | model_web/api/src/FredChartResolver.ts:85-94 | dropping null prices keeps one date per kept price |
| FredChartResolver.StepReturn | model_web/api/src/FredChartResolver.ts:98-99 | a previous price of 0, whose quotient is not finite, gives return 0 |
| FredChartResolver.StepCompounds | model_web/api/src/FredChartResolver.ts:98-99 | a return over a non-zero price compounds that price into the next one |
| FredChartResolver.StepReturns | model_web/api/src/FredChartResolver.ts:96-100 | one return per price after the first, each over its predecessor |
| FredChartResolver.ToReturnSeries | model_web/api/src/FredChartResolver.ts:77-108 | an empty result and unequal timestamp and price arrays are errors; otherwise dates, prices and returns are those of the non-null prices from the second on |
| FredChartResolver.SeriesShape | model_web/api/src/FredChartResolver.ts:85-107 | dates, prices and returns each have k − 1 entries for k non-null prices |
| FredChartResolver.Compounding | model_web/api/src/FredChartResolver.ts:97-105 | each kept price after the first is its predecessor compounded by its return, unless the predecessor is 0 |
| FredChartResolver.FilterCommonMembers | model_web/api/src/FredChartResolver.ts:117-120 | a date survives the filter exactly when it is listed and every series has it |
| FredChartResolver.CommonDatesSpec | model_web/api/src/FredChartResolver.ts:117-121 | the common dates are sorted and are exactly the dates every series has |
| FredChartResolver.ReturnIndexSpec | model_web/api/src/FredChartResolver.ts:127-131 | the per-series map has exactly the series' dates as keys, each holding the return at its last occurrence |
| FredChartResolver.BuildReturnIndex | model_web/api/src/FredChartResolver.ts:127-131 | the loop builds that date-to-return map |
| FredChartResolver.IntersectDates | model_web/api/src/FredChartResolver.ts:112-142 | the dates are the sorted common dates and the matrix has one row per date and one column per series |
| FredChartResolver.MatrixEntry | model_web/api/src/FredChartResolver.ts:133-139 | entry (t, j) is series j's return on the t-th common date, or 0 when missing |
| FredChartResolver.StatsMeanStd | model_web/api/src/FredChartResolver.ts:144-151 | the deviation is non-negative and the mean times n is the sum |
| FredChartResolver.StatsEdgeCases | model_web/api/src/FredChartResolver.ts:144-151 | no values give (0, 0); one value gives itself with deviation 0 (divisor 1); constant values give deviation 0 |
| FredChartResolver.PositiveEntries | model_web/api/src/FredChartResolver.ts:160 | every kept entry has a positive amount |
| FredChartResolver.PositiveEntriesMembers | model_web/api/src/FredChartResolver.ts:160 | an entry is kept exactly when its amount is positive |
| FredChartResolver.PositiveTotal | model_web/api/src/FredChartResolver.ts:162 | the total is the sum of the positive amounts, and positive when there is one |
| FredChartResolver.Proportions | model_web/api/src/FredChartResolver.ts:163-165 | each weight keeps its symbol, and weight times total is its amount |
| FredChartResolver.NormalizeAllocationsFails | model_web/api/src/FredChartResolver.ts:160-161 | "Empty allocations" exactly when no amount is positive |
| FredChartResolver.ProportionsKeys | model_web/api/src/FredChartResolver.ts:163-165 | the weights keep the entries' keys in order |
| FredChartResolver.ProportionsAmounts | model_web/api/src/FredChartResolver.ts:163-165 | the weights are the amounts divided by the total |
| FredChartResolver.ProportionsInUnit | model_web/api/src/FredChartResolver.ts:160-165 | positive amounts over their total lie in (0, 1] |
| FredChartResolver.ProportionsSumToOne | model_web/api/src/FredChartResolver.ts:162-165 | amounts over their own total sum to 1 |
| FredChartResolver.NormalizeAllocationsWeights | model_web/api/src/FredChartResolver.ts:160-165 | the weights keep the positive entries' keys, are each in (0, 1], are amount / total, and sum to 1 |
| FredChartResolver.WeightVector | model_web/api/src/FredChartResolver.ts:180 | one weight per series |
| FredChartResolver.PortfolioReturns | model_web/api/src/FredChartResolver.ts:183-185 | one portfolio return per matrix row |
| FredChartResolver.SharpeReportSpec | model_web/api/src/FredChartResolver.ts:192-210 | nObs and windowDays are the date count, start and end the first and last dates, the daily ratio is 0 for zero deviation, and the annual ratio is the daily one times √N |
| FredChartResolver.SortedBounds | model_web/api/src/FredChartResolver.ts:207-208 | start and end are the earliest and latest common dates |
| FredChartResolver.SingleAssetWeight | model_web/api/src/FredChartResolver.ts:160-165 | a single positive allocation carries weight 1 |
| FredChartResolver.SingleAssetReturns | model_web/api/src/FredChartResolver.ts:180-185 | with one series of weight 1 the portfolio return is that series' return |
| FredChartResolver.WeightVectorInUnit | model_web/api/src/FredChartResolver.ts:160-180 | with one series per positive allocation in allocation order, every series' weight is its own share in (0, 1], never the `?? 0` fallback |
| FredChartResolver.Resolve | model_web/api/src/FredChartResolver.ts:153-213 | no positive amount is an error, fewer than 30 common dates is an error, otherwise the report on the aligned series with N = 252 unless given |
| StringOrder.Sort | model_web/api/src/FredChartResolver.ts:121 | the sorted dates are in order and a permutation of the input |
| StringOrder.SortedUnique | model_web/api/src/FredChartResolver.ts:121 | any two sorted arrangements of the same dates are equal |
| FredRfDataResolver.Observations | model_web/api/src/FredRFDataResolver.ts:31-32 | missing observations default to the empty list |
| FredRfDataResolver.FirstUsable | model_web/api/src/FredRFDataResolver.ts:66 | the index found is the first observation whose value is not "."; none when every value is "." |
| FredRfDataResolver.RateOf | model_web/api/src/FredRFDataResolver.ts:69-75 | rf times 100 is the yield, the value is the yield's text followed by "%", the date is the observation's |
| FredRfDataResolver.Resolve | model_web/api/src/FredRFDataResolver.ts:65-76 | failure exactly when no observation is usable; otherwise the rate of the first usable one |
| FredRfDataResolver.ResolveMissing | model_web/api/src/FredRFDataResolver.ts:31-33 | a response without observations fails |
| FredRfDataResolver.FirstUsableSkipsDots | model_web/api/src/FredRFDataResolver.ts:66 | leading "." observations only shift the index found |
| FredRfDataResolver.ResolveSkipsDots | model_web/api/src/FredRFDataResolver.ts:66-76 | leading "." observations do not change the outcome |
| FredRfDataResolver.WholeYieldText | model_web/api/src/FredRFDataResolver.ts:73 | a whole yield's text is its digits, which read back as the yield |
| Grammar.LeadingDigits | model_web/api/src/PortfolioDataFetcher.ts:162 | the leading run of digits is maximal |
| Grammar.DigitSplitUnique | model_web/api/src/PortfolioDataFetcher.ts:162 | digits followed by a non-digit can be split only one way |
| Grammar.MatchDynamicPeriod | model_web/api/src/PortfolioDataFetcher.ts:162 | the capture matches exactly the dynamic periods, splitting them into digits and a unit that concatenate back |
| Grammar.MatchInterval | model_web/api/src/PortfolioDataFetcher.ts:22 | the scan matches exactly the intervals, splitting them into digits and a unit |
| Grammar.PeriodRoundTrip | model_web/api/src/PortfolioDataFetcher.ts:21 | a number's digits followed by a period unit form a period and are captured back |
| Grammar.IntervalRoundTrip | model_web/api/src/PortfolioDataFetcher.ts:22 | a number's digits followed by an interval unit form an interval and are split back |
| Grammar.Rejected | model_web/api/src/PortfolioDataFetcher.ts:21-22 | bare units, bare numbers, unlisted units and upper-case units are rejected |
| PortfolioDataFetcher.ValidSymbolsIff | model_web/api/src/PortfolioDataFetcher.ts:35-41 | the symbols are valid exactly when there is one and each holds a non-white-space character |
| PortfolioDataFetcher.ValidPeriodIff | model_web/api/src/PortfolioDataFetcher.ts:27-29 | a valid period is a captured dynamic period, "ytd" or "max" |
| PortfolioDataFetcher.UnitOf | model_web/api/src/PortfolioDataFetcher.ts:166-175 | y, mo and d name years, months and days |
| PortfolioDataFetcher.PeriodStart | model_web/api/src/PortfolioDataFetcher.ts:153-178 | "ytd" gives the start of the year, "max" gives 0, any invalid period gives now − 31536000 |
| PortfolioDataFetcher.PeriodStartDynamic | model_web/api/src/PortfolioDataFetcher.ts:162-176 | N y, N mo and N d look back N years, months or days |
| PortfolioDataFetcher.ChartUrl | model_web/api/src/PortfolioDataFetcher.ts:180-181 | the URL is the chart base, the symbol, period1 = the start, then period2 = now and the interval |
| PortfolioDataFetcher.ExtractClosed | model_web/api/src/PortfolioDataFetcher.ts:184-194 | [] without a first quote's closes; otherwise exactly its non-null closes |
| PortfolioDataFetcher.GetChart | model_web/api/src/PortfolioDataFetcher.ts:227-254 | success exactly for an OK parsed response without an error object and with at least 2 closes; each failure names its cause: a rejected fetch, a non-2xx status, an unparsed body, an API error object, or fewer than 2 closes for the URL |
| PortfolioDataFetcher.AllCloses | model_web/api/src/PortfolioDataFetcher.ts:202-213 | one closes list per symbol, each with at least 2 prices |
| PortfolioDataFetcher.Resolve | model_web/api/src/PortfolioDataFetcher.ts:196-225 | any failed download gives the empty record |
| PortfolioDataFetcher.ResolveRecord | model_web/api/src/PortfolioDataFetcher.ts:215-218 | with every download successful, each symbol holds the closes of its last request, no other key appears and no key repeats |
| MetricsApi.SameAsServer | model_web/app/src/api/metrics.ts:25-42 | the client's three validators accept exactly what the server's accept |
| MetricsApi.ClientPeriodRecognised | model_web/app/src/api/metrics.ts:28-30 | a period the client accepts is fixed or captured as a count and a unit |
| Language.ValidityIff | model_web/shared/LanguageE.ts:92-98 | only UNKNOWN is invalid, and isInvalid negates isValid |
| Language.Values | model_web/shared/LanguageE.ts:21-27 | values lists each valid language once and never UNKNOWN |
| Language.FromCode | model_web/shared/LanguageE.ts:29-40 | a valid result carries the given code; UNKNOWN exactly for codes other than en, ja and zh-TW |
| Language.FromName | model_web/shared/LanguageE.ts:42-53 | a valid result's name is the upper-cased text; UNKNOWN exactly when no language has that name |
| Language.Parse | model_web/shared/LanguageE.ts:55-64 | absent or empty text is UNKNOWN; a valid result matches the trimmed text as a code or as a name |
| Language.CodeRoundTrip | model_web/shared/LanguageE.ts:29-40 | fromCode(l.code()) == l for every valid l |
| Language.NameRoundTrip | model_web/shared/LanguageE.ts:42-77 | fromName(l.name()) == l for every valid l |
| Language.ParseSteps | model_web/shared/LanguageE.ts:59-63 | parse tries the trimmed text as a code first and then as a name |
| Language.ParseCodeRoundTrip | model_web/shared/LanguageE.ts:55-90 | parse(l.code()) == l for every valid l |
| Language.ParseNameRoundTrip | model_web/shared/LanguageE.ts:55-77 | parse(l.name()) == l for every valid l |
| Language.NamesIgnoreCase | model_web/shared/LanguageE.ts:43-49 | names are matched whatever their case |
| Language.ParseTrimmed | model_web/shared/LanguageE.ts:59-61 | parse reads text and its trimmed form alike |
| Language.ParseBlank | model_web/shared/LanguageE.ts:55-63 | blank text is UNKNOWN |
| Language.UnknownName | model_web/shared/LanguageE.ts:42-53 | the name "UNKNOWN" does not name a language |
| OpinionText.StripOpening | model_web/api/src/PublicOpinionDataResolver.ts:98 | a leading `ws* ```html ws*` is removed; text without it is unchanged |
| OpinionText.StripClosing | model_web/api/src/PublicOpinionDataResolver.ts:99 | a trailing `ws* ``` ws*` is removed; text without it is unchanged |
| OpinionText.StripFences | model_web/api/src/PublicOpinionDataResolver.ts:93-100 | an absent answer gives ""; stripping never lengthens the text |
| OpinionText.NoFenceUnchanged | model_web/api/src/PublicOpinionDataResolver.ts:97-99 | text with neither fence is returned unchanged |
| OpinionText.FenceRoundTrip | model_web/api/src/PublicOpinionDataResolver.ts:97-99 | a body fenced on its own lines is returned exactly |
| Store.SurpapiContent | model_web/app/src/store.ts:109-115 | "" for a symbol without an entry; undefined only for an entry without a digest |
| Store.Opinions | model_web/app/src/store.ts:142-147 | undefined for a symbol without an entry; otherwise the entry's opinions |
| Store.OpiIndex | model_web/app/src/store.ts:185-191 | 0 for a symbol without an entry; otherwise the entry's index |
| Store.WithSerpapi | model_web/app/src/store.ts:117-124 | only the symbol's digest is set; its other fields and every other symbol are kept |
| Store.WithOpinions | model_web/app/src/store.ts:149-156 | only the symbol's opinions are set; everything else is kept |
| Store.OmitOpinions | model_web/app/src/store.ts:172-173 | the symbol's opinions are dropped; an absent symbol gets an empty entry |
| Store.WithoutOpinions | model_web/app/src/store.ts:158-166 | an existing entry loses its opinions; an absent symbol changes nothing |
| Store.WithOpiIdx | model_web/app/src/store.ts:193-203 | a negative or NaN index changes nothing; otherwise only the symbol's index is set |
| Store.ResetSerpapiAllSpec | model_web/app/src/store.ts:130-140 | every selected symbol gets digest "" (entries created as needed, other fields kept); other symbols are untouched |
| Store.OmitOpinionsAllSpec | model_web/app/src/store.ts:168-177 | every selected symbol loses its opinions (absent ones get an empty entry); other symbols are untouched |
| Store.SerpapiSetGet | model_web/app/src/store.ts:109-124 | a digest that was set reads back; other symbols read as before |
| Store.OpinionsSetReset | model_web/app/src/store.ts:142-166 | opinions that were set read back, and read as undefined once reset |
| Store.OpiIdxLeavesDigestUndefined | model_web/app/src/store.ts:193-203 | an index set on a new symbol leaves its digest undefined rather than "" |
| Store.FocusedTab | model_web/app/src/store.ts:205-207 | the first asset with the tab's symbol, or none when no asset has it |
| Store.StoreControl.constructor | model_web/app/src/store.ts:20-39 | every slice starts at its default |
| Store.StoreControl.GetMetrics | model_web/app/src/store.ts:41-43 | the current metrics |
| Store.StoreControl.SetMetrics | model_web/app/src/store.ts:45-47 | only the metrics change |
| Store.StoreControl.ResetMetrics | model_web/app/src/store.ts:49-51 | only the metrics change, back to the default |
| Store.StoreControl.GetParams | model_web/app/src/store.ts:53-55 | the current parameters |
| Store.StoreControl.SetParams | model_web/app/src/store.ts:57-59 | only the parameters change |
| Store.StoreControl.ResetParams | model_web/app/src/store.ts:61-63 | only the parameters change, back to no symbols, 1y, 1d and 1000000 |
| Store.StoreControl.GetAssets | model_web/app/src/store.ts:65-67 | the current asset list |
| Store.StoreControl.HasAssets | model_web/app/src/store.ts:69-71 | true exactly when the asset list is not empty |
| Store.StoreControl.SetAssets | model_web/app/src/store.ts:73-75 | only the asset list changes |
| Store.StoreControl.ResetAssets | model_web/app/src/store.ts:77-79 | only the asset list changes, to empty |
| Store.StoreControl.SetLoading | model_web/app/src/store.ts:81-83 | only the loading flag changes |
| Store.StoreControl.IsLoading | model_web/app/src/store.ts:85-87 | the current loading flag |
| Store.StoreControl.ResetLoading | model_web/app/src/store.ts:89-91 | only the loading flag changes, to false |
| Store.StoreControl.GetTab | model_web/app/src/store.ts:93-95 | the current tab |
| Store.StoreControl.SetTab | model_web/app/src/store.ts:97-99 | only the tab changes |
| Store.StoreControl.GetAnalyzedContents | model_web/app/src/store.ts:101-103 | the current analysed-content table |
| Store.StoreControl.SetAnalyzedContents | model_web/app/src/store.ts:105-107 | only the table changes |
| Store.StoreControl.GetSurpapiContent | model_web/app/src/store.ts:109-115 | reads the digest as specified |
| Store.StoreControl.SetSurpapiContent | model_web/app/src/store.ts:117-124 | the copied table with only the symbol's digest set is written back; nothing else changes |
| Store.StoreControl.ResetSurpapiContent | model_web/app/src/store.ts:126-128 | the symbol's digest becomes "" |
| Store.StoreControl.ResetSurpapiContentAll | model_web/app/src/store.ts:130-140 | the loop resets the digest of every selected symbol, one by one |
| Store.StoreControl.GetPublicOpinions | model_web/app/src/store.ts:142-147 | reads the opinions as specified |
| Store.StoreControl.SetPublicOpinions | model_web/app/src/store.ts:149-156 | only the symbol's opinions are set; nothing else changes |
| Store.StoreControl.ResetPublicOpinions | model_web/app/src/store.ts:158-166 | an existing entry loses its opinions; otherwise nothing changes |
| Store.StoreControl.ResetPublicOpinionsAll | model_web/app/src/store.ts:168-177 | the loop drops the opinions of every selected symbol, one by one |
| Store.StoreControl.ResetAllAnalyzedContents | model_web/app/src/store.ts:179-183 | the parameters return to their default and the analysed-content table is left exactly as it was |
| Store.StoreControl.GetOpiIndex | model_web/app/src/store.ts:185-191 | reads the opinion index as specified |
| Store.StoreControl.SetOpiIndex | model_web/app/src/store.ts:193-203 | a negative or NaN index changes nothing; otherwise only the symbol's index is set |
| Store.StoreControl.GetFocusedTab | model_web/app/src/store.ts:205-207 | the focused asset of the current assets and tab |
| Store.StoreControl.GetLanguage | model_web/app/src/store.ts:209-211 | the current language |
| Store.StoreControl.SetLanguage | model_web/app/src/store.ts:213-215 | only the language changes |
| Store.StoreControl.ResetLanguage | model_web/app/src/store.ts:217-219 | only the language changes, back to English |
| FormUi.IsValidTotalAssets | model_web/app/src/dashboard/form/formUIControl.ts:22-25 | accepted exactly for a number (not NaN) of at least 1 |
| FormUi.FormTotalPassesRequest | model_web/app/src/dashboard/form/formUIControl.ts:8 | a total the form accepts passes the request check; totals in (0, 1) pass the request check but not the form |
| FormUi.FormUIControl.GetPeriod | model_web/app/src/dashboard/form/formUIControl.ts:27-29 | the stored period |
| FormUi.FormUIControl.SetPeriod | model_web/app/src/dashboard/form/formUIControl.ts:31-36 | only the parameters' period changes |
| FormUi.FormUIControl.GetInterval | model_web/app/src/dashboard/form/formUIControl.ts:38-40 | the stored interval |
| FormUi.FormUIControl.SetInterval | model_web/app/src/dashboard/form/formUIControl.ts:42-47 | only the parameters' interval changes |
| FormUi.FormUIControl.GetTotalAssets | model_web/app/src/dashboard/form/formUIControl.ts:49-51 | the stored total |
| FormUi.FormUIControl.SetTotalAssets | model_web/app/src/dashboard/form/formUIControl.ts:53-58 | only the parameters' total changes |
| AssetsUi.Symbols | model_web/app/src/dashboard/form/select/assetsUIControl.ts:7-9 | one symbol per asset, in order |
| AssetsUi.SymbolsAppend | model_web/app/src/dashboard/form/select/assetsUIControl.ts:7-9 | listing symbols distributes over concatenation |
| AssetsUi.AssetsUIControl.GetSymbols | model_web/app/src/dashboard/form/select/assetsUIControl.ts:7-9 | the symbols of the given assets, or of the stored ones by default |
| AssetsUi.AssetsUIControl.SetSelectedSymbols | model_web/app/src/dashboard/form/select/assetsUIControl.ts:11-16 | only the parameters' symbols change |
| AssetsUi.AssetsUIControl.GetSelectedSymbols | model_web/app/src/dashboard/form/select/assetsUIControl.ts:18-20 | the symbols of the given parameters, or of the stored ones by default |
| AssetsUi.AssetsUIControl.GetMultiSelectEventListener | model_web/app/src/dashboard/form/select/assetsUIControl.ts:22-27 | the first call makes a listener bound to this control; every later call returns that same listener |
| AssetsUi.SelectionListener.Handle | model_web/app/src/dashboard/form/select/assetsUIControl.ts:23-25 | the selection replaces only the stored symbols |
| MetricsControl.ClientServerGap | model_web/app/src/controllers/metricsDataControl.ts:28-35 | fractional positive totals pass the client and fail the server; whole totals ≤ 0 pass the server and fail the client; positive whole totals pass both |
| MetricsControl.MetricsDataControl.Invoke | model_web/app/src/controllers/metricsDataControl.ts:37-43 | the parameters default to the stored ones; invalid ones change nothing; valid ones set loading and emit exactly one request |
| CachedControls.DigestMissingIff | model_web/app/src/controllers/cachedPapiSurDataControl.ts:20-21 | the digest is empty exactly when there is no entry or its digest is undefined or "" |
| CachedControls.CleanedDigestForwards | model_web/app/src/controllers/cachedPapiSurDataControl.ts:19-32 | after cleaning a symbol, a request for it is forwarded; other symbols are unaffected |
| CachedControls.CleanedAllDigestsForward | model_web/app/src/controllers/cachedPapiSurDataControl.ts:19-32 | after cleaning all, a request for any selected symbol is forwarded |
| CachedControls.CleanedOpinionsForward | model_web/app/src/controllers/cachedPublicOpinionDataControl.ts:20-35 | after cleaning a symbol, a request for it is forwarded; other symbols are unaffected |
| CachedControls.CleanedAllOpinionsForward | model_web/app/src/controllers/cachedPublicOpinionDataControl.ts:20-35 | after cleaning all, a request for any selected symbol is forwarded |
| CachedControls.CachedPapiSurDataControl.Invoke | model_web/app/src/controllers/cachedPapiSurDataControl.ts:19-24 | forwards exactly when the stored digest is empty; otherwise nothing changes |
| CachedControls.CachedPapiSurDataControl.CleanData | model_web/app/src/controllers/cachedPapiSurDataControl.ts:26-33 | with an asset only its digest becomes ""; without, every selected symbol's does; returns the control itself |
| CachedControls.CachedPublicOpinionDataControl.Invoke | model_web/app/src/controllers/cachedPublicOpinionDataControl.ts:30-35 | forwards exactly when no opinions are stored |
| CachedControls.CachedPublicOpinionDataControl.CleanData | model_web/app/src/controllers/cachedPublicOpinionDataControl.ts:20-28 | with an asset only its opinions go; without, every selected symbol's do; returns the control itself |
| CachedControls.CachedAssetDataControl.Invoke | model_web/app/src/controllers/cachedAssetDataControl.ts:23-28 | does nothing when assets are stored and forwards when the list is empty |
| CachedControls.CachedAssetDataControl.CleanData | model_web/app/src/controllers/cachedAssetDataControl.ts:18-21 | the asset list becomes empty, so the next invoke forwards; returns the control itself |
| GridUi.ToMetricsRows | model_web/app/src/dashboard/grid/gridUIControl.ts:41-48 | one row per weights key in key order, with the key, its weight and the amount looked up by key |
| GridUi.RowsLookUp | model_web/app/src/dashboard/grid/gridUIControl.ts:44-46 | a row's weight is its key's weight, and a key missing from the amounts gives an undefined amount |
| GridUi.DefaultRowsEmpty | model_web/app/src/dashboard/grid/gridUIControl.ts:41-48 | the default metrics show no rows |
| GridUi.MetricsGridUIControl.Rows | model_web/app/src/dashboard/grid/gridUIControl.ts:50-52 | the rows of the given metrics, or of the stored ones by default |

## Left out

- Network I/O is not modelled: every `fetch`, the FRED and Yahoo URLs with API keys (`makeFredURL`), and the HTTP status checks of FredChartResolver and FredRFDataResolver. Downloaded content is a parameter.
- The zod schemas are not modelled; only the logic after a successful parse is. Untyped request bodies (`Array.isArray`, `typeof`) are represented by typed values.
- RxJS pipelines (`syncData`, `Subject` triggers, `concat`, `forkJoin`, `catchError` logging) are not modelled. A forwarded or emitted request is an entry in a request log.
- The subscriptions, abort handling and zero-vector fallback of PortfolioMetricsProvider are not part of this model.
- The Finnhub, SerpApi and Google LLM resolvers, the LLM prompt templates, the Python service, React components, hooks and i18n are not part of this model.
- IEEE-754 behaviour is not modelled. `Math.sqrt` is an uninterpreted non-negative function (0 for non-positive input) and `Math.pow` is uninterpreted. `Math.round` is floor(x + 0.5). Overflow to Infinity is not modelled.
- PortfolioMetricsCalculator.CalculateFromPrices requires non-zero base prices. A zero price makes the source produce unclamped Infinity/NaN returns, which real arithmetic cannot express.
- PortfolioMetricsCalculator.CalculateCorrelation does not model the `isFinite` guard on the quotient. With non-zero deviations the quotient is finite over the reals.
- AssetAllocator.Optimize takes the random draws as a parameter and assumes each draw is positive. A row of all-zero `Math.random()` values (0/0 weights) is not modelled.
- The correlation bound [-1, 1] is not proved (it needs Cauchy–Schwarz over an uninterpreted square root).
- FredChartResolver.Resolve takes a numeric risk-free rate and a positive N, and requires the series to come one per positive allocation in allocation order, as the `forkJoin` over the entries delivers them. The unused `symbolToIndex` map is not modelled.
- FredChartResolver.ToReturnSeries turns a timestamp into a date with an uninterpreted calendar function. The model does not compute `toISOString`.
- PortfolioDataFetcher.PeriodStart reads "now", the start of the year and dayjs's calendar subtraction from one Clock value. The source calls `dayjs()` several times, which could straddle a second.
- PortfolioDataFetcher.ChartUrl renders `parseInt` of the digits exactly. Precision loss for digit strings beyond 2^53 is not modelled.
- The ordering of integer-like keys in JavaScript objects (they are enumerated first, in ascending order) is not modelled. Records keep insertion order.
- JsText.ToUpper folds only a–z and the two non-ASCII letters that upper-case to I and S. Other Unicode case mappings are not modelled. String order is by character code, as UTF-16 comparison is for the characters used.
- FredRfDataResolver.RateOf renders a non-whole yield through an uninterpreted number-to-text function.
- JSON serialisation dropping undefined values is not modelled.
- The unmodelled FinnhubAsset fields (currency, figi, mic, …) are dropped from Store.Asset; no modelled code reads them.
- GridUi.RowsLookUp requires the weights record to have distinct keys. Every JavaScript object has them, and the server builds its records that way (AssetAllocator.KeyBySymbolsLastWins). Store.Metrics does not carry this as an invariant, because the store accepts whatever response it is given.
