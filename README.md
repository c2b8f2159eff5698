# Value-investing analysts of the Indian AI hedge fund, in Dafny

This project models the deterministic core of a tool that scores NSE-listed
stocks in the manner of Warren Buffett and Benjamin Graham:

- the metrics loader (`tools/finance.py`): the `FinancialMetrics` record with
  every figure optional, the `.NS` symbol normalisation, the two label lookups
  (`safe_get`) over the provider's statements, and the ratios derived for the
  latest snapshot and for each yearly period;
- the Buffett analyst (`analysts/warren_buffet.py`): fundamentals, earnings
  consistency, moat and management scores, owner earnings, the ten-year
  discounted-cash-flow intrinsic value, the margin of safety and the signal;
- the Graham analyst (`analysts/ben_graham.py`): earnings stability, financial
  strength, the net-net and Graham-number valuation, and the signal;
- the fan-in both analysts run over a ticker list (`FanIn.Collect`);
- the progress tracker `AgentProgress` (`utils/progress.py`) as a class.

Optional figures are `Option<real>`. Python truthiness is written out
(`Finance.Truthy`: present and nonzero), because many guards treat `0` like
`None` while others test only `is not None`. An exception the loader can raise
(an `IndexError` on a row with no cells, a `TypeError` from subtracting `None`)
is a `Result` error. Explanatory strings become `Note` tags. The market-data
provider and the language model are function parameters of the analysts.

Modules: `Wrappers` (Option, Result), `Text` (the string operations used),
`Finance`, `Verdict` (the three-way signal and its thresholds), `FanIn`,
`Buffett`, `Graham`, `Progress`.

Where the source's comments and its stated maximum disagree with its code, the
model follows the code:

- Graham's three checks can give 4 + 5 + 7 = 16 points. The code still divides
  by a stated maximum of 15, and `Graham.ScoreCanExceedStatedMaximum` exhibits a
  score of 16.
- Provider columns come newest first. So the Graham checks read
  `historical_metrics[-1]`, which is the oldest period. Buffett's consistency
  test gives its points when net income strictly decreases in list order, that
  is when it grew over time.
- The historical loader passes `dividends_paid` and `debt_to_equity`, which
  are not fields of the record. The record ignores unknown keywords, so those
  two fields are always `None` in a loaded history. It also writes shares,
  operating margin and market cap on the first record only. Consequences proved
  on a loaded history: the Buffett moat scores at most 1
  (`Buffett.MoatOfFetchedHistory`), so the Buffett total is at most 13. With two
  or more periods, Graham's valuation and dividend credits are 0 and the signal
  is never bullish (`Graham.NeverBullishOnFetchedHistory`).

## Model

| member | source | states |
|---|---|---|
| `Finance.NormalizeSymbol` | src/indian_ai_hedge_fund/tools/finance.py:33-34 | the result ends with `.NS`, starts with the symbol, and is longer only when the symbol lacked the suffix, by exactly the suffix |
| `Finance.NormalizeIdempotent` | src/indian_ai_hedge_fund/tools/finance.py:100-101 | normalising twice equals normalising once |
| `Finance.FindRow` | src/indian_ai_hedge_fund/tools/finance.py:42-46 | the index found is the first row whose label contains the key ignoring case, or the row count exactly when no label does |
| `Finance.LatestGetSpec` | src/indian_ai_hedge_fund/tools/finance.py:42-46 | the latest lookup yields `None` when no label matches, else the first cell of the first matching row, raising `IndexError` on a row without cells |
| `Finance.HistoryGetSpec` | src/indian_ai_hedge_fund/tools/finance.py:121-125 | the historical lookup yields the whole first matching row, or one `None` per column when nothing matches |
| `Finance.OrFallbackNeedsNoColumns` | src/indian_ai_hedge_fund/tools/finance.py:128-130 | on a rectangular table the lookup has one entry per column, so the `or` fallback is taken only when there are zero columns |
| `Finance.Truncate` | src/indian_ai_hedge_fund/tools/finance.py:117-119 | keeps the first `periods` columns when there are at least that many, else all of them; every row keeps its label and its first `periods` cells (all cells when the table is narrower) |
| `Finance.Present` | src/indian_ai_hedge_fund/analysts/ben_graham.py:244 | the present values of a field: all of them when every record has one, none when no record does, each a value some record carries |
| `Finance.PresentAppend` | src/indian_ai_hedge_fund/analysts/ben_graham.py:244 | collecting over two histories in a row is collecting over each in turn, and one record contributes its value exactly when present, which fixes every present value, once each, in record order |
| `Finance.PresentMembers` | src/indian_ai_hedge_fund/analysts/ben_graham.py:244 | a value is collected exactly when some record carries it |
| `Finance.Nonzero` | src/indian_ai_hedge_fund/analysts/warren_buffet.py:239 | the truthy values of a field: all nonzero, at most one per record, all of them when every record's value is truthy |
| `Finance.NonzeroAppend` | src/indian_ai_hedge_fund/analysts/warren_buffet.py:239 | collecting over two histories in a row is collecting over each in turn, and one record contributes its value exactly when it is truthy |
| `Finance.NonzeroMembers` | src/indian_ai_hedge_fund/analysts/warren_buffet.py:239 | a value is collected exactly when some record carries it truthily |
| `Finance.Quotient` | src/indian_ai_hedge_fund/tools/finance.py:58-69 | a ratio is present exactly when numerator and denominator are both truthy, and then times the denominator gives the numerator |
| `Finance.Difference` | src/indian_ai_hedge_fund/tools/finance.py:54 | working capital is present exactly when both operands are truthy, and then adds back to the current assets |
| `Finance.EquityRatio` | src/indian_ai_hedge_fund/tools/finance.py:67-68 | raises `TypeError` exactly when the numerator is truthy and assets or liabilities are `None`; otherwise `None` unless the numerator is truthy and equity nonzero, and then the ratio times equity is the numerator |
| `Finance.LatestBalance` | src/indian_ai_hedge_fund/tools/finance.py:48-53 | succeeds exactly when every lookup it makes succeeds (the continuing-operations lookup only counts when net income is not truthy), else fails with `IndexError`; each balance figure is its lookup's value, net income falling back to continuing operations only when the first lookup is not truthy |
| `Finance.LatestCashFlow` | src/indian_ai_hedge_fund/tools/finance.py:74-81 | succeeds exactly when all four cash-flow lookups succeed, else fails with `IndexError`; each figure is its lookup's value |
| `Finance.LatestRecord` | src/indian_ai_hedge_fund/tools/finance.py:54-95 | every field of the snapshot: working capital and current ratio only over truthy current figures, EPS and book value per share only over truthy shares, P/E and P/B `None` over a missing or zero denominator |
| `Finance.LatestMetrics` | src/indian_ai_hedge_fund/tools/finance.py:31-95 | a failing balance lookup gives `IndexError`; then a failing equity ratio gives `TypeError`; then the snapshot succeeds exactly when the cash-flow lookups do, and is the record over the looked-up figures and the two equity ratios |
| `Finance.LatestFailsOnIncomeWithoutAssets` | src/indian_ai_hedge_fund/tools/finance.py:67 | a truthy net income with no total-assets row makes the snapshot raise `TypeError` |
| `Finance.PeriodRecord` | src/indian_ai_hedge_fund/tools/finance.py:144-172 | a period's record: the period label; net income, assets, liabilities, current assets and liabilities, long-term debt, capital expenditure and depreciation are column `i` of their rows; ROE is net income over `ta - tl if ta and tl`, BVPS that equity over the shares, EPS net income over the shares, current ratio and working capital over the current figures; dividends, debt-to-equity, issuance and the market fields `None` |
| `Finance.EquityQuotients` | src/indian_ai_hedge_fund/tools/finance.py:146-153 | ROE is present exactly when net income, assets and liabilities are truthy and equity is nonzero, and then times equity gives net income; BVPS is present exactly when equity and shares are truthy, and then times shares gives equity |
| `Finance.PeriodRecords` | src/indian_ai_hedge_fund/tools/finance.py:142-172 | one record per column, in column order |
| `Finance.WithMarketData` | src/indian_ai_hedge_fund/tools/finance.py:174-183 | the first record gets the quote's shares, margin and market cap; P/E and P/B become price over EPS and BVPS when price and that figure are truthy, else stay as they were; nothing else changes |
| `Finance.HistoricalMetrics` | src/indian_ai_hedge_fund/tools/finance.py:98-185 | fails with `IndexError` exactly when no column is kept or some looked-up row is shorter than the kept income columns; otherwise one record per kept column: record `i > 0` is `PeriodRecord` of column `i`, record 0 that record with the quote fields written in |
| `Finance.HistoricalShape` | src/indian_ai_hedge_fund/tools/finance.py:155-183 | a loaded history has between 1 and `periods` records, never dividends or debt-to-equity, and market fields on the first record only |
| `Finance.RecordsShape` | src/indian_ai_hedge_fund/tools/finance.py:142-183 | in records built one per column with the quote written into the first, dividends and debt-to-equity are `None`, each record carries its column's label, and only the first carries market fields |
| `Finance.CollectRecords` | src/indian_ai_hedge_fund/tools/finance.py:140-172 | the loop builds the records of all columns, or raises `IndexError` when a looked-up row is shorter than the column list |
| `Finance.GetHistoricalMetrics` | src/indian_ai_hedge_fund/tools/finance.py:98-185 | the loop followed by the update of the first record computes `HistoricalMetrics` |
| `Verdict.ThresholdsOnFifteen` | src/indian_ai_hedge_fund/analysts/ben_graham.py:66-71 | on a maximum of 15 the bullish threshold means at least 11, the bearish one at most 4, and they never both hold |
| `FanIn.PoolSize` | src/indian_ai_hedge_fund/analysts/warren_buffet.py:139 | the pool size is the smaller of the cap and the ticker count |
| `FanIn.Collect` | src/indian_ai_hedge_fund/analysts/warren_buffet.py:134-172 | a zero-size pool yields the empty map; otherwise a ticker is a key exactly when it is listed and its pipeline returned a value, and it maps to that value |
| `FanIn.FailedTickersOmitted` | src/indian_ai_hedge_fund/analysts/ben_graham.py:129-134 | a listed ticker missing from the map had a failed pipeline; the map has no more keys than tickers |
| `Buffett.Fundamentals` | src/indian_ai_hedge_fund/analysts/warren_buffet.py:186-228 | score in [0, 7] with exactly one note per check; 7 exactly when all four checks pass, 0 exactly when none does, odd exactly when liquidity passes; each passing note exactly when its check passes, "not available" exactly when the figure is missing or zero |
| `Buffett.FundamentalsRoeWeight` | src/indian_ai_hedge_fund/analysts/warren_buffet.py:192-199 | whatever the other figures, an ROE of any value `v` gives 2 points more than a missing one when `v` > 0.15 and the same otherwise; with the all-failing case this fixes the score |
| `Buffett.FundamentalsDebtWeight` | src/indian_ai_hedge_fund/analysts/warren_buffet.py:201-208 | whatever the other figures, a debt-to-equity `v` gives 2 points more than a missing one when `v` is nonzero and below 0.5, the same otherwise |
| `Buffett.FundamentalsMarginWeight` | src/indian_ai_hedge_fund/analysts/warren_buffet.py:210-217 | whatever the other figures, an operating margin `v` gives 2 points more than a missing one when `v` > 0.15, the same otherwise |
| `Buffett.FundamentalsLiquidityWeight` | src/indian_ai_hedge_fund/analysts/warren_buffet.py:219-226 | whatever the other figures, a current ratio `v` gives 1 point more than a missing one when `v` > 1.5, the same otherwise |
| `Buffett.FundamentalsDebtEdges` | src/indian_ai_hedge_fund/analysts/warren_buffet.py:201-208 | a debt-to-equity of exactly 0 is reported unavailable; a negative one passes as conservative |
| `Buffett.Consistency` | src/indian_ai_hedge_fund/analysts/warren_buffet.py:230-260 | under 4 records gives 0 and "insufficient history"; the score is 3 exactly when there are at least 4 nonzero net incomes strictly decreasing in list order, else 0 |
| `Buffett.ConsistencyOfSteadyGrowth` | src/indian_ai_hedge_fund/analysts/warren_buffet.py:239-246 | at least four periods with truthy, strictly decreasing net incomes score 3 |
| `Buffett.ConsistencyOfOneRise` | src/indian_ai_hedge_fund/analysts/warren_buffet.py:242-248 | one rise between consecutive truthy net incomes scores 0 |
| `Buffett.MoatOfLists` | src/indian_ai_hedge_fund/analysts/warren_buffet.py:286-313 | maximum 3; score in {0, 1, 3}; 3 exactly when ROEs and margins are both at least three values all above 15%, 0 exactly when neither is |
| `Buffett.MoatOf` | src/indian_ai_hedge_fund/analysts/warren_buffet.py:262-313 | under 3 records gives 0 of 3; otherwise the list scoring over the present ROEs and margins |
| `Buffett.AnalyzeMoat` | src/indian_ai_hedge_fund/analysts/warren_buffet.py:262-313 | the loop collecting the non-`None` ROEs and margins computes `MoatOf` |
| `Buffett.PresentOnlyFirst` | src/indian_ai_hedge_fund/analysts/warren_buffet.py:276-280 | a field present on the first record only yields at most one collected value |
| `Buffett.MoatWithMarginOnFirstOnly` | src/indian_ai_hedge_fund/analysts/warren_buffet.py:275-307 | when only the first record can carry an operating margin, the margin test never passes and the moat scores at most 1 |
| `Buffett.MoatOfFetchedHistory` | src/indian_ai_hedge_fund/analysts/warren_buffet.py:296-307 | on a loaded history the margin test never passes, so the moat scores at most 1 |
| `Buffett.ManagementQuality` | src/indian_ai_hedge_fund/analysts/warren_buffet.py:315-350 | maximum 2, score = [buyback] + [dividends paid], both negative and truthy; exactly one of the dilution and no-issuance notes; exactly one dividend note |
| `Buffett.OwnerEarnings` | src/indian_ai_hedge_fund/analysts/warren_buffet.py:352-374 | `None` exactly when net income, depreciation or capex is missing or zero; else net income + depreciation − 0.75 capex |
| `Buffett.DiscountedSumLinear` | src/indian_ai_hedge_fund/analysts/warren_buffet.py:400-405 | the discounted sum of the projected years is linear in owner earnings |
| `Buffett.PresentValueLinear` | src/indian_ai_hedge_fund/analysts/warren_buffet.py:403-404 | one year's present value is linear in owner earnings |
| `Buffett.TerminalValueLinear` | src/indian_ai_hedge_fund/analysts/warren_buffet.py:408 | the terminal value is linear in owner earnings |
| `Buffett.DiscountedSumPositive` | src/indian_ai_hedge_fund/analysts/warren_buffet.py:400-405 | the per-unit discounted sum is non-negative, and positive for at least one year |
| `Buffett.DcfLinear` | src/indian_ai_hedge_fund/analysts/warren_buffet.py:400-410 | the ten discounted years plus the terminal value equal owner earnings times one fixed factor |
| `Buffett.DcfFactorPositive` | src/indian_ai_hedge_fund/analysts/warren_buffet.py:400-410 | the factor applied to owner earnings is positive |
| `Buffett.IntrinsicValueOf` | src/indian_ai_hedge_fund/analysts/warren_buffet.py:376-422 | a value exactly when owner earnings and shares are truthy; then it is owner earnings times the positive DCF factor, so it has the same sign |
| `Buffett.CalculateIntrinsicValue` | src/indian_ai_hedge_fund/analysts/warren_buffet.py:376-422 | the year-by-year loop computes `IntrinsicValueOf` |
| `Buffett.MarginOfSafety` | src/indian_ai_hedge_fund/analysts/warren_buffet.py:82-86 | set exactly when intrinsic value and market cap are truthy; then intrinsic value = market cap × (1 + margin) |
| `Buffett.SignalOf` | src/indian_ai_hedge_fund/analysts/warren_buffet.py:88-94 | bullish exactly when the score is high and the margin is truthy and at least 0.3; bearish exactly when not bullish and the score is low or a margin is below −0.3 |
| `Buffett.SignalConditionsDisjoint` | src/indian_ai_hedge_fund/analysts/warren_buffet.py:89-91 | on a positive maximum the bullish and bearish conditions never both hold |
| `Buffett.HighScoreNeedsMargin` | src/indian_ai_hedge_fund/analysts/warren_buffet.py:89-94 | 12 of 15 with a 10% margin or no margin is neutral; with 30% it is bullish; with −31% bearish |
| `Buffett.BullishNeedsEleven` | src/indian_ai_hedge_fund/analysts/warren_buffet.py:89-90 | bullish on 15 needs at least 11 points and a margin of at least 0.3 |
| `Buffett.Analyze` | src/indian_ai_hedge_fund/analysts/warren_buffet.py:77-108 | maximum 15, total = sum of the four scores ≤ 15, each score and the intrinsic-value analysis handed on are those of the checks, the margin and the signal as above; bullish implies at least 11 points, a truthy market cap and truthy owner earnings |
| `Buffett.ScoreOnFetchedHistory` | src/indian_ai_hedge_fund/analysts/warren_buffet.py:78 | on a loaded history the total is at most 13 |
| `Buffett.ProcessTicker` | src/indian_ai_hedge_fund/analysts/warren_buffet.py:15-122 | when the provider answers for the normalised symbol and both loaders succeed, the narrative of the analysis of the two; otherwise no result |
| `Buffett.WarrenBuffettAnalyst` | src/indian_ai_hedge_fund/analysts/warren_buffet.py:124-172 | the keys are exactly the listed tickers whose pipeline returned a value, mapped to that value |
| `Graham.CountPositive` | src/indian_ai_hedge_fund/analysts/ben_graham.py:178 | at most the list length, and equal to it exactly when every value is positive |
| `Graham.CountPositiveAppend` | src/indian_ai_hedge_fund/analysts/ben_graham.py:178 | the count over two lists in a row is the sum of their counts, and one value counts exactly when positive, which fixes the count of every list |
| `Graham.PositivityPoints` | src/indian_ai_hedge_fund/analysts/ben_graham.py:177-187 | 3 exactly when all EPS are positive, at least 2 exactly when at least 80% are, else 0 |
| `Graham.StabilityOfEps` | src/indian_ai_hedge_fund/analysts/ben_graham.py:177-196 | the positivity points (3, 2 or 0) plus 1 exactly when the last EPS exceeds the first, with the matching growth note; so 4 exactly when all positive and growing, 0 exactly when under 80% positive and not growing |
| `Graham.EarningsStabilityOf` | src/indian_ai_hedge_fund/analysts/ben_graham.py:155-196 | empty history or fewer than 2 present EPS give 0 with its note; otherwise the stability score of the present EPS |
| `Graham.AnalyzeEarningsStability` | src/indian_ai_hedge_fund/analysts/ben_graham.py:155-196 | the loop collecting non-`None` EPS computes `EarningsStabilityOf` |
| `Graham.EarningsOfRisingSeries` | src/indian_ai_hedge_fund/analysts/ben_graham.py:177-194 | EPS 1, 2, 3, 4, 5 score 4 |
| `Graham.EarningsNeedTwoPeriods` | src/indian_ai_hedge_fund/analysts/ben_graham.py:173-175 | a one-record history gives 0 with "not enough EPS data" |
| `Graham.CurrentRatioPoints` | src/indian_ai_hedge_fund/analysts/ben_graham.py:215-227 | 2 exactly when liabilities are positive and the ratio is at least 2; at least 1 exactly when it is at least 1.5 |
| `Graham.DebtRatioPoints` | src/indian_ai_hedge_fund/analysts/ben_graham.py:229-241 | 2 exactly when assets are positive and the ratio is below 0.5; at least 1 exactly when below 0.8 |
| `Graham.RatioScaling` | src/indian_ai_hedge_fund/analysts/ben_graham.py:217-235 | over a positive denominator, a ratio compared with a bound equals the numerator compared with the scaled bound |
| `Graham.DividendPoints` | src/indian_ai_hedge_fund/analysts/ben_graham.py:243-259 | 1 exactly when the negative entries are a strict majority, i.e. at least n//2 + 1 of them |
| `Graham.FinancialStrength` | src/indian_ai_hedge_fund/analysts/ben_graham.py:198-261 | score ≤ 5; empty history gives 0; otherwise the current-ratio and debt-ratio credits of the last record (missing read as 0) plus the dividend credit of all present dividend entries |
| `Graham.NetNetPoints` | src/indian_ai_hedge_fund/analysts/ben_graham.py:283-304 | 4 exactly when NCAV and shares are positive and NCAV exceeds the market cap; 2 exactly when instead NCAV reaches 0.67 of the market cap; else 0 |
| `Graham.PerShareScaling` | src/indian_ai_hedge_fund/analysts/ben_graham.py:288-300 | the per-share comparison equals NCAV ≥ 0.67 × market cap |
| `Graham.GrahamPoints` | src/indian_ai_hedge_fund/analysts/ben_graham.py:306-330 | 0, 1 or 3; positive only with positive EPS, BVPS and shares; 3 exactly when 22.5·EPS·BVPS exceeds (1.5 × price)², at least 1 exactly when it exceeds (1.2 × price)² |
| `Graham.SquareMonotone` | src/indian_ai_hedge_fund/analysts/ben_graham.py:312 | on non-negative numbers, the order of squares is the order of the numbers |
| `Graham.MarginTestsAgreeWithGrahamNumber` | src/indian_ai_hedge_fund/analysts/ben_graham.py:310-330 | for every non-negative square root of 22.5·EPS·BVPS, the source's margin tests against 0.5 and 0.2 agree with the squared tests |
| `Graham.ValuationGraham` | src/indian_ai_hedge_fund/analysts/ben_graham.py:263-334 | score ≤ 7; empty history or a missing, zero or negative market cap gives 0; otherwise the net-net credit plus the Graham-number credit of the last record |
| `Graham.DeepValueScenario` | src/indian_ai_hedge_fund/analysts/ben_graham.py:295-302 | NCAV 300 against a market cap of 250 earns 4; 200 earns 2; 100 earns nothing |
| `Graham.SignalOf` | src/indian_ai_hedge_fund/analysts/ben_graham.py:61-71 | bullish exactly when the total is at least 11, bearish exactly when at most 4, neutral otherwise |
| `Graham.Analyze` | src/indian_ai_hedge_fund/analysts/ben_graham.py:45-81 | the total is the sum of the three scores, at most 16, against a stated maximum of 15; the signal depends on the total only |
| `Graham.FullEarningsOfTwoPeriods` | src/indian_ai_hedge_fund/analysts/ben_graham.py:177-194 | two periods with positive, growing EPS earn the full 4 stability points |
| `Graham.FullStrengthOfTwoPeriods` | src/indian_ai_hedge_fund/analysts/ben_graham.py:209-259 | a current ratio of 10, a debt ratio of 0.1 and dividends in both periods earn the full 5 strength points |
| `Graham.FullValuationOfTwoPeriods` | src/indian_ai_hedge_fund/analysts/ben_graham.py:283-330 | net current assets above the market cap and a Graham number far above the price earn the full 7 valuation points |
| `Graham.ScoreCanExceedStatedMaximum` | src/indian_ai_hedge_fund/analysts/ben_graham.py:61-63 | a two-period history scores 16, above the stated maximum |
| `Graham.NoValuationWithoutSharesOrDividends` | src/indian_ai_hedge_fund/analysts/ben_graham.py:244-278 | when the last record has no share count and no record has a dividend figure, the valuation and the dividend credit are 0 |
| `Graham.NeverBullishWithoutSharesOrDividends` | src/indian_ai_hedge_fund/analysts/ben_graham.py:62-71 | such a history totals at most 8 points and is never bullish |
| `Graham.NeverBullishOnFetchedHistory` | src/indian_ai_hedge_fund/analysts/ben_graham.py:270-278 | on a loaded history of two or more periods the valuation and dividend credits are 0, the total is at most 8 and the signal is never bullish |
| `Graham.ProcessTicker` | src/indian_ai_hedge_fund/analysts/ben_graham.py:19-91 | when the provider answers for the normalised symbol and both loaders succeed, the narrative of the analysis of the two; otherwise no result |
| `Graham.BenGrahamAnalyst` | src/indian_ai_hedge_fund/analysts/ben_graham.py:93-153 | the keys are exactly the listed tickers whose pipeline returned a value, mapped to that value |
| `Progress.Merged` | src/indian_ai_hedge_fund/utils/progress.py:52-61 | the ticker is the given one unless `None`, the status the given one unless empty |
| `Progress.Updated` | src/indian_ai_hedge_fund/utils/progress.py:46-61 | the agent gains an entry, it holds the merged record, and every other agent's entry is unchanged |
| `Progress.UpdateIdempotent` | src/indian_ai_hedge_fund/utils/progress.py:39-64 | repeating an update gives the state of one update |
| `Progress.UpdatesCommute` | src/indian_ai_hedge_fund/utils/progress.py:39-64 | updates of two different agents commute |
| `Progress.EmptyUpdateRegisters` | src/indian_ai_hedge_fund/utils/progress.py:47-49 | an update with no ticker and no status only creates the blank entry when absent |
| `Progress.Classify` | src/indian_ai_hedge_fund/utils/progress.py:80-90 | empty status: nothing; success exactly for "done" in any case or a status containing "complete"; otherwise "error" means failure, anything else pending |
| `Progress.ClassifyFinalStatuses` | src/indian_ai_hedge_fund/utils/progress.py:85-90 | "Done", "DONE" and "Analysis complete" are success; "Error" is failure |
| `Progress.LineFor` | src/indian_ai_hedge_fund/utils/progress.py:70-104 | a line is printed exactly for a non-empty status, for the given agent, styled by its classification, showing the ticker exactly when it is present and non-empty |
| `Progress.AgentProgress.constructor` | src/indian_ai_hedge_fund/utils/progress.py:14-19 | no statuses, not started, no remembered lines |
| `Progress.AgentProgress.Start` | src/indian_ai_hedge_fund/utils/progress.py:21-26 | afterwards started; the statuses are unchanged, so starting twice is starting once |
| `Progress.AgentProgress.Stop` | src/indian_ai_hedge_fund/utils/progress.py:28-37 | afterwards stopped with no statuses and no remembered lines; when not started nothing changes |
| `Progress.AgentProgress.UpdateStatus` | src/indian_ai_hedge_fund/utils/progress.py:39-64 | ignored before `start`; otherwise the statuses become `Updated(...)`, and a line is printed exactly when the agent's record changed |
| `Progress.DoneIsPrintedAsSuccess` | src/indian_ai_hedge_fund/utils/progress.py:58-90 | after "Analyzing", reporting "Done" prints a success line, and reporting it again prints nothing |

## Left out

- Network access: the Yahoo Finance fetches are one `TickerData` value per symbol, returned by a function parameter. The latest and historical loaders read the same snapshot. `tools/zerodha.py` is not part of this model.
- The language-model narrative (`generate_buffett_output`, `generate_graham_output`), its prompts and the retry decorator with its backoff. The narrative step is an opaque function returning an optional result, where `None` stands for an exception after the retries or a `None` response.
- Thread-pool parallelism and the tracker's lock. The fan-in is a sequential loop. Since each pipeline is a function of its ticker, completion order cannot change the map.
- The analysts' `progress.update_status` calls and all logging. These are side effects that do not change the results.
- Floating point: figures are mathematical reals. IEEE rounding, NaN (which Python treats as truthy) and infinities are not modelled.
- The number formatting of the explanatory strings. Each string is a `Note` tag carrying the figures it interpolates.
- `math.sqrt`: the Graham number is never computed. `Graham.MarginTestsAgreeWithGrahamNumber` shows that the squared comparisons used give the answers of the source's tests for any non-negative square root.
- `str.lower()` is modelled on ASCII letters only.
- The console output of `_print_status`: the display name, padding, colours and symbols. A printed line is a `Line` value of styling, agent, ticker and status.
- The `_last_lines` overwrite logic, which the source leaves commented out. The field exists and is always empty.
- `Progress.AgentProgress.UpdateStatus`: the `try/except` around the update is not modelled. Nothing in the modelled update can raise.
- pandas details: duplicate row labels, and columns that are dates. Statements are tables of labelled rows of reals, and a period is a string.
- The Streamlit UI, CLI wiring, report rendering and configuration, which lie outside this core.
