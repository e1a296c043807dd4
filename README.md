# kite_trade core, modelled in Dafny

This project models the decision logic of the kite_trade repository. That repository trains price-forecast models on Zerodha Kite market data and runs a simulated BankNifty iron-fly trader.

The model covers these parts:

- **The walk-forward training engine.**
  - The fold plan and the walk-forward splitter.
  - Which feature rows survive `dropna`.
  - The metric evaluator, whose MAPE skips zero targets.
  - The job orchestrator, with its ordered progress events and its per-model results.
  - Fold and result serialisation.
- **The analytics indicators:** moving average, RSI, ATR and the price summary, over bars whose values may be missing.
- **The REST API:**
  - the SQL text and parameter lists that `list_instruments` and `get_price_bars` build;
  - the in-place reversal of the bars;
  - the 404 and 400 error paths;
  - the mapping of a fold's MAPE in `run_training`.
- **The iron-fly trader:**
  - clamp, nearest-strike rounding and the ATR-based wing distance;
  - expiry and leg selection;
  - the pre-trade guards and the LLM gate;
  - the simulated orders and the ENTRY line written to the event log. The trader's fields are a Dafny `class` whose methods update them.
- **The iron-fly dashboard generator:**
  - the event-log line parser, proved to read back the line the trader writes;
  - the latest-entry lookup and strike extraction;
  - the mark-to-market series and the expiry payoff curve.
- **The dashboard server:** entry listing, sorting, normalisation and the default position, and the record converters for frames, series and dicts.
- **The price-history fetcher:** instrument resolution, chunk sizes, the request windows and the upsert keyed by (instrument, interval, timestamp).
- **The `.env` loader and `get_kite_config`.** Variables already set are never overwritten.
- **The two Kite check scripts:**
  - the key-format check and the quick suite;
  - the interactive command shell;
  - the flag dispatch of `main`;
  - the minimal authenticated checks.

One module per file:

| file | module |
|---|---|
| `wrappers.dfy`, `text.dfy`, `stats.dfy`, `price_data.dfy`, `dict.dfy` | shared helpers: Option/Result, string functions, sums and means, price bars, the insertion-ordered dict |
| `training_folds.dfy`, `training_metrics.dfy`, `training_features.dfy`, `training_job.dfy` | the training service |
| `analytics.dfy` | the analytics service |
| `api.dfy` | the REST API |
| `ironfly_trader.dfy`, `ironfly_dashboard.dfy` | the trader and the dashboard generator |
| `dashboard_server.dfy` | the dashboard server |
| `fetch_price_history.dfy` | the price-history fetcher |
| `env_loader.dfy` | the `.env` loader |
| `kite_checks.dfy`, `kite_api_test.dfy`, `quick_kite_test.dfy` | the Kite check scripts |

Conventions:

- **Numbers.** Prices and metrics are `real`.
- **Missing values.** A missing value (NaN or `None`) is an `Option`. Training MAPE uses `Float = NaN | Finite(real)`, so that the serialiser's NaN-to-`None` step is visible.
- **Parameters.** Everything the code reads from the outside world is a parameter of the model:
  - clocks, the database, files;
  - the broker, OpenAI and HTTP replies;
  - JSON encoding and decoding;
  - model fitting and prediction, and `sqrt`.
- **Imperative code.** Loops in the source are Dafny methods with loop invariants, each proved equal to a specification function. The properties are proved about those functions.

Behaviour of the code worth noting:

- The evaluator's MAPE drops only the entries whose ratio is not finite, that is, zero targets.
- With horizon 1 and the default 200-bar lookback, 250 complete bars give 50 feature rows.
- The "not enough history" check counts raw bars, before feature engineering.
- `step2_get_access_token` stores the access token before it reads `user_id`. A reply without `user_id` therefore leaves the token set but returns False.
- `run_minimal_authenticated_tests` returns True whenever the endpoint calls do not raise, whatever the quote contains (`ok or True`).

## Model

| member | source | states |
|---|---|---|
| TrainingFolds.BuildFoldPlan | backend/app/services/training.py:178-195 | the loop's plan equals the closed-form fold plan for the effective step (`step_size or test_bars`) |
| TrainingFolds.PlanFromClosedForm | backend/app/services/training.py:186-194 | the k-th window emitted from a start is the candidate at start + k·step; none iff the first candidate overflows; the last fits and the next overflows |
| TrainingFolds.FoldPlanShape | backend/app/services/training.py:185-194 | fold k is (k·step, k·step+train, k·step+train+test); every test end is within the table; the plan is empty iff train+test > total; the candidate after the last fold overflows |
| TrainingFolds.SliceBound | backend/app/services/training.py:102-103 | Python's slice-bound normalisation never exceeds the length |
| TrainingFolds.SplitFromMatchesPlan | backend/app/services/training.py:88-107 | from any start, the generator yields exactly the slices of the plan's windows, in order |
| TrainingFolds.SplitWalkForwardMatchesPlan | backend/app/services/training.py:88-107 | with positive widths `split_walk_forward` yields the same folds as `_build_fold_plan`, as (train, test) slices |
| TrainingFolds.SplitWalkForward | backend/app/services/training.py:88-107 | the walk-forward (train, test) slices of the data (stated by SplitWalkForwardMatchesPlan) |
| TrainingMetrics.SquaredErrors | backend/app/services/training.py:111 | one squared error per pair |
| TrainingMetrics.AbsErrors | backend/app/services/training.py:112 | one absolute error per pair |
| TrainingMetrics.PercentErrors | backend/app/services/training.py:113-115 | the finite percentage errors abs(t−p)/abs(t) are non-negative, and there are none iff every target is zero; which entries are kept, and in what order, is stated by PercentErrorsSnoc and PercentErrorsTotals |
| TrainingMetrics.PercentErrorsSnoc | backend/app/services/training.py:113-115 | appending a target and prediction appends its percentage error iff the target is non-zero |
| TrainingMetrics.PercentErrorsTotals | backend/app/services/training.py:113-115 | the errors' sum is the index-wise sum of abs(t−p)/abs(t) over non-zero targets, and their number is the number of non-zero targets |
| TrainingMetrics.Mape | backend/app/services/training.py:113-116 | NaN iff every target is zero; otherwise 100 × (sum over non-zero targets of abs(t−p)/abs(t)) / (number of non-zero targets), which is non-negative |
| TrainingMetrics.Evaluate | backend/app/services/training.py:110-117 | rmse ≥ 0 with rmse² = mean squared error; mae = mean absolute error ≥ 0; mape NaN iff all targets are zero, otherwise 100 × the mean of abs(t−p)/abs(t) over the non-zero targets |
| TrainingMetrics.Rmse | backend/app/services/training.py:111 | non-negative, and its square is the mean squared error |
| TrainingMetrics.SumZeroIffAllZero | backend/app/services/training.py:112 | a sum of non-negative terms is zero iff every term is |
| TrainingMetrics.MeanAbsErrorZeroIff | backend/app/services/training.py:112 | the mean absolute error is zero iff predictions equal targets |
| TrainingMetrics.MaeZeroIffPerfect | backend/app/services/training.py:110-117 | the evaluator's mae is zero iff the predictions are perfect |
| TrainingMetrics.RmseZeroWhenPerfect | backend/app/services/training.py:111 | perfect predictions have rmse 0 |
| TrainingMetrics.MapeSkipsZeroTargets | backend/app/services/training.py:113-116 | targets [0, 10] against predictions [1, 12] give MAPE 20: the zero target is skipped |
| TrainingFeatures.SurvivorBounds | backend/app/services/training.py:75-84 | a surviving row has index ≥ 199 (sma_200 warm-up) and its target row i+h inside the data |
| TrainingFeatures.CollectSound | backend/app/services/training.py:84 | every collected row comes from a surviving index below the bound and is that index's row |
| TrainingFeatures.CollectComplete | backend/app/services/training.py:84 | every surviving index below the bound is collected |
| TrainingFeatures.EngineerFeaturesRows | backend/app/services/training.py:67-85 | the output is exactly the surviving rows, in bar order, each with target = close[i+h] |
| TrainingFeatures.EngineerFeatures | backend/app/services/training.py:67-85 | the feature rows of the bars for a horizon (stated by EngineerFeaturesRows) |
| TrainingFeatures.LookbackUnused | backend/app/services/training.py:67-85 | `lookback_window` does not affect the output |
| TrainingFeatures.CollectLengthBound | backend/app/services/training.py:75-84 | at most k − 199 rows below index k, and at most n − h − 199 overall |
| TrainingFeatures.EngineerFeaturesLengthBound | backend/app/services/training.py:67-85 | the output has at most n − 199 − h rows |
| TrainingFeatures.SurvivesOnCompleteData | backend/app/services/training.py:72-84 | on complete data whose closes move, every index from 199 to n − h − 1 survives |
| TrainingFeatures.CollectCountOnCompleteData | backend/app/services/training.py:72-84 | on such data exactly k − 199 rows are collected below k |
| TrainingFeatures.EngineerFeaturesCountOnCompleteData | backend/app/services/training.py:67-85 | on such data the output has exactly n − 199 − h rows (250 bars, h = 1: 50 rows) |
| TrainingFeatures.CollectMonotone | backend/app/services/training.py:84 | more bars never yield fewer rows |
| TrainingJob.ResolveAdapter | backend/app/services/training.py:246-262 | dispatch fails iff the name is neither random_forest nor prophet, and is not xgboost with xgboost installed; reasons "xgboost not installed" or "unknown model"; Prophet's frequency is T for minute intervals, else D |
| TrainingJob.FoldPlanFits | backend/app/services/training.py:237-239 | every planned window slices inside the feature table |
| TrainingJob.Targets | backend/app/services/training.py:242-244 | the targets of the rows, one per row |
| TrainingJob.FoldsUpTo | backend/app/services/training.py:237-277 | one fold record per fold visited |
| TrainingJob.SerializeFold | backend/app/services/training.py:317-325 | every field is kept, and a NaN mape becomes None |
| TrainingJob.SerializeFolds | backend/app/services/training.py:300 | one serialised fold per fold, in order |
| TrainingJob.FoldEvents | backend/app/services/training.py:279 | one `fold` event per fold record, carrying the serialised fold |
| TrainingJob.DefinedMapes | backend/app/services/training.py:289 | never more defined mapes than folds |
| TrainingJob.DefinedMapesTotals | backend/app/services/training.py:289-290 | the defined mapes sum to the fold-wise sum of finite mapes, and their number is the number of folds with a finite mape |
| TrainingJob.DefinedMapesMembers | backend/app/services/training.py:289 | a value is a defined mape iff some fold has it as its finite mape |
| TrainingJob.OverallOf | backend/app/services/training.py:287-296 | the mean rmse and mae over the folds and the mean of the defined mapes, NaN when there are none (stated by OverallShape) |
| TrainingJob.Rmses | backend/app/services/training.py:287 | the per-fold rmse values, in order |
| TrainingJob.Maes | backend/app/services/training.py:288 | the per-fold mae values, in order |
| TrainingJob.SerializeResults | backend/app/services/training.py:328-349 | one formatted model entry per stored result, in result order, with its name, metrics and folds |
| TrainingJob.FoldsUpToSnoc | backend/app/services/training.py:237-277 | the folds up to k+1 are those up to k plus fold k+1 |
| TrainingJob.FoldEventsSnoc | backend/app/services/training.py:279 | appending a fold appends its event |
| TrainingJob.ResolvedModel | backend/app/services/training.py:235-305 | a model whose dispatch succeeds emits model_start, its fold events and model_complete, and stores its result |
| TrainingJob.RunFold | backend/app/services/training.py:238-277 | the fold loop body fits on the train slice and computes the fold record of the fold's metrics |
| TrainingJob.RunModel | backend/app/services/training.py:230-305 | one model's pass yields its event block and its stored result, as the specification functions define them |
| TrainingJob.ModelsStep | backend/app/services/training.py:230-305 | one more model appends its block to the events and stores its result |
| TrainingJob.RunModels | backend/app/services/training.py:228-305 | the model loop yields the concatenated blocks and the results dict |
| TrainingJob.RunTrainingJob | backend/app/services/training.py:198-314 | the job's events and results equal the specification of the whole run |
| TrainingJob.DefinedMapesEmptyIff | backend/app/services/training.py:289-290 | no defined mape iff every fold's mape is NaN |
| TrainingJob.TrainingJobErrors | backend/app/services/training.py:209-218 | the job fails, before any event, iff the raw bars are fewer than train+test+10 (not-enough-history) or the feature rows are too few for one fold (no folds) |
| TrainingJob.ModelBlockShape | backend/app/services/training.py:235-305 | a block starts with model_start; it is model_start, model_skipped when dispatch fails; otherwise folds 1..n of that model in order, then model_complete |
| TrainingJob.ModelEventsInner | backend/app/services/training.py:235-305 | a model block holds neither a start nor a complete event |
| TrainingJob.ModelsEventsInner | backend/app/services/training.py:230-305 | neither do all the blocks together |
| TrainingJob.EventStreamBrackets | backend/app/services/training.py:226-312 | a successful run's events begin with the one start event and end with the one complete event, which carries the serialised results |
| TrainingJob.ResultsAfterLookup | backend/app/services/training.py:228-303 | a name is a results key iff it was requested and dispatched, each key once, holding that model's result |
| TrainingJob.FoldsFacts | backend/app/services/training.py:237-277 | fold numbers run 1, 2, … with the total folds; per-fold rmse, mae and any mape are non-negative |
| TrainingJob.DefinedMapesNonNegative | backend/app/services/training.py:289 | the defined mapes are non-negative |
| TrainingJob.OverallShape | backend/app/services/training.py:287-296 | overall rmse and mae are non-negative; overall mape is NaN iff no fold has a defined mape, otherwise the mean of the folds' defined mapes (sum of defined mapes / their number), non-negative |
| TrainingJob.ModelResultShape | backend/app/services/training.py:281-303 | a result is stored iff dispatch succeeds; it has non-negative metrics, a NaN mape iff no serialised fold has one, one fold per planned fold numbered in order, and the artifact fitted on the last fold's training rows |
| TrainingJob.SummaryShape | backend/app/services/training.py:287-300 | the summary and the serialised folds of valid fold records agree on mape definedness and fold numbering |
| OrderedDict.Lookup | backend/app/services/training.py:298 | a lookup misses iff the key is absent |
| OrderedDict.Put | backend/app/services/training.py:298 | assignment changes only the key's value; an existing key keeps its place, a new key goes last |
| OrderedDict.Stored | backend/app/services/training.py:281-298 | a missing value stores nothing |
| OrderedDict.PutDistinct | backend/app/services/training.py:298 | assignment keeps keys distinct |
| OrderedDict.StoredAllLookup | backend/app/services/training.py:230-303 | after the loop a key holds its value iff it was listed, and keys are distinct |
| Analytics.MovingAverageSpec | backend/app/services/analytics.py:92-96 | absent iff fewer than `window` closes are present; otherwise window × average = the sum of the last `window` closes, and the average lies within any bounds of the closes |
| Analytics.MovingAverage | backend/app/services/analytics.py:92-96 | the mean of the last `window` present closes, absent when there are fewer (stated by MovingAverageSpec) |
| Analytics.ClosesConcat | backend/app/services/analytics.py:93 | the present closes of two runs of bars are those of each, in order |
| Analytics.MovingAverageIgnoresOlder | backend/app/services/analytics.py:92-96 | bars older than the last `window` present closes do not change the moving average |
| Analytics.GainsUpTo | backend/app/services/analytics.py:106-109 | gains are non-negative |
| Analytics.LossesUpTo | backend/app/services/analytics.py:110-111 | losses are positive |
| Analytics.AverageOrZero | backend/app/services/analytics.py:113-114 | the average is non-negative; for positive terms it is zero iff there are none |
| Analytics.RsiFrom | backend/app/services/analytics.py:115-118 | 100 without losses, otherwise in [0, 100) |
| Analytics.CollectChanges | backend/app/services/analytics.py:104-111 | the loop's gains and losses are those of the last `period` changes |
| Analytics.ComputeRsi | backend/app/services/analytics.py:99-118 | the method equals the RSI specification |
| Analytics.LossesEmptyIff | backend/app/services/analytics.py:106-111 | no losses iff no change is negative |
| Analytics.RsiRange | backend/app/services/analytics.py:99-118 | absent iff fewer than period+1 closes; 100 iff no recent change is negative; 0 iff some recent change is negative and none is positive; always in [0, 100] |
| Analytics.GainsZeroIff | backend/app/services/analytics.py:106-112 | the gains sum to zero iff no recent change is positive |
| Analytics.RsiFromZeroIff | backend/app/services/analytics.py:117-118 | with a positive average loss the formula gives 0 iff the average gain is 0 |
| Analytics.AverageZeroIff | backend/app/services/analytics.py:113-114 | `mean(xs) if xs else 0.0` is 0 iff the terms sum to 0 |
| Analytics.Rsi | backend/app/services/analytics.py:99-118 | the RSI from the mean gain and loss of the last `period` changes; its value is this definition, which ComputeRsi is proved equal to; RsiRange states when it is absent, 0 or 100, and its range |
| Analytics.TrueRange | backend/app/services/analytics.py:131-134 | a true range is non-negative |
| Analytics.TrueRangesUpTo | backend/app/services/analytics.py:125-135 | the collected true ranges are non-negative |
| Analytics.ComputeAtr | backend/app/services/analytics.py:121-139 | the method equals the ATR specification |
| Analytics.TrueRangesEmptyIff | backend/app/services/analytics.py:129-137 | no true range iff every visited pair lacks a value |
| Analytics.AtrSpec | backend/app/services/analytics.py:121-139 | absent iff too few bars or no usable pair in the last `period`; otherwise the mean of the collected true ranges (times their number it is their sum) and non-negative |
| Analytics.TrueRangesFrom | backend/app/services/analytics.py:126-136 | every collected true range is that of a usable pair among the last `period` |
| Analytics.AtrBetween | backend/app/services/analytics.py:121-139 | the ATR lies between any bounds of the usable pairs' true ranges |
| Analytics.Atr | backend/app/services/analytics.py:121-139 | the mean true range over the usable pairs among the last `period`; its value is this definition, which ComputeAtr is proved equal to; AtrSpec and AtrBetween state its absence, its sum and its bounds |
| Analytics.Volumes | backend/app/services/analytics.py:77 | at most one volume per bar |
| Analytics.VolumesSpec | backend/app/services/analytics.py:77 | no volumes iff no bar has one; each lies within the bounds |
| Analytics.SummaryChangeSpec | backend/app/services/analytics.py:57-89 | fails iff fewer than 2 bars; change present iff both closes are, and is their difference; percent change present iff the previous close is also non-zero, and is change/previous·100 |
| Analytics.SummaryVolumeSpec | backend/app/services/analytics.py:77-78 | the volume window is the last min(20, n) bars; average volume present iff one of them has a volume, and then it is the sum of their volumes divided by the number of bars with one, within the volumes' bounds |
| Analytics.VolumesTotals | backend/app/services/analytics.py:77-78 | the present volumes sum to the bar-wise sum of volumes, and their number is the number of bars with one |
| Analytics.ComputeSummary | backend/app/services/analytics.py:57-89 | the latest and previous closes, change, percent change and average volume (stated by SummaryChangeSpec and SummaryVolumeSpec) |
| Api.ListInstrumentsQuery | backend/app/api.py:53-75 | the step-by-step query building yields the specified count and page queries with their parameters |
| Api.InstrumentsPlaceholders | backend/app/api.py:53-75 | every `?` of both queries has exactly one parameter |
| Api.InstrumentsWhere | backend/app/api.py:67-71 | the WHERE clause is present iff some filter is given |
| Api.InstrumentsParams | backend/app/api.py:57-75 | parameters in the order segment, exchange, two search patterns; limit and offset last on the page query |
| Api.ConditionParams | backend/app/api.py:57-65 | the filters' parameters in the order they are appended |
| Api.InstrumentClausesBound | backend/app/api.py:57-65 | each filter binds one parameter per placeholder |
| Api.InstrumentsPageBound | backend/app/api.py:71 | the page suffix holds two placeholders |
| Api.WherePlaceholders | backend/app/api.py:67-68 | the WHERE clause's placeholders are those of its filters |
| Api.JoinedConditions | backend/app/api.py:68 | joining bound filters with AND keeps placeholders and parameters in step |
| Api.BuildPriceBarsQuery | backend/app/api.py:95-105 | the query text grown one condition at a time equals the specified query |
| Api.PriceBarsPlaceholders | backend/app/api.py:95-105 | every `?` of the bars query has its parameter |
| Api.PriceBarsParams | backend/app/api.py:96-105 | token and interval first, one parameter per given bound, the limit last |
| Api.PriceBarsClausesBound | backend/app/api.py:95-102 | each condition binds one parameter per placeholder |
| Api.Reversed | backend/app/api.py:110 | element i of the reversal is element n−1−i |
| Api.ReversedTwice | backend/app/api.py:110 | reversing twice is the identity |
| Api.ReversedAscending | backend/app/api.py:104-110 | rows fetched newest first come out oldest first |
| Api.ReverseInPlace | backend/app/api.py:110 | the array afterwards holds its old contents reversed |
| Api.GetPriceBars | backend/app/api.py:81-118 | 404 iff the instrument is unknown; otherwise the query's rows reversed, with their count, and the token, interval, start and end echoed |
| Api.ApiMape | backend/app/api.py:179 | None iff the mape is None or NaN, otherwise the same value |
| Api.RunTrainingSpec | backend/app/api.py:150-194 | a failing job gives 400 with its message; otherwise the response echoes the request's token, interval and horizon and has one model per result, with name and overall metrics unchanged and every fold's number, train and test bounds, rmse, mae and mape unchanged |
| Api.RunTraining | backend/app/api.py:150-194 | the handler of a training request with the NumPy import in place (stated by RunTrainingSpec) |
| Api.RunTrainingAsWritten | backend/app/api.py:150-194 | the handler as written, where line 179 names an unimported `np` (stated by RunTrainingAsWrittenFails) |
| Api.ApiMapeNaN | backend/app/api.py:179 | NaN becomes None, a number stays |
| Api.RunTrainingAsWrittenFails | backend/app/api.py:179 | as written, any run with a float fold mape fails with the NameError, while the intended handler succeeds |
| IronFlyTrading.Clamp | scripts/iron_fly_trader.py:73-74 | in range when min ≤ max, unchanged when already in range, min when min > max |
| IronFlyTrading.RoundHalfEven | scripts/iron_fly_trader.py:69 | the rounded integer is within ½ of its argument, strictly nearer when the fraction is not ½, and even when it is ½ |
| IronFlyTrading.RoundBetween | scripts/iron_fly_trader.py:67-70 | rounding a value between two integers stays between them |
| IronFlyTrading.NearestStrike | scripts/iron_fly_trader.py:70 | a listed strike no farther from the value than any other |
| IronFlyTrading.RoundToNearestStrike | scripts/iron_fly_trader.py:67-70 | the nearest listed strike, or with none listed a multiple of 100 within 50 of the value |
| IronFlyTrading.CandleTrueRange | scripts/iron_fly_trader.py:282-285 | a candle's true range is non-negative |
| IronFlyTrading.TrueRangeSum | scripts/iron_fly_trader.py:286 | sums of true ranges are non-negative |
| IronFlyTrading.Atr14 | scripts/iron_fly_trader.py:286 | the 14-candle ATR is non-negative |
| IronFlyTrading.WingDistanceSpec | scripts/iron_fly_trader.py:261-298 | the default distance without sigma wings or with fewer than 15 candles; otherwise a multiple of 100 within 50 of clamp(0.8 × ATR14, min, max), within 50 of the bounds, and inside them when they are multiples of 100 |
| IronFlyTrading.WingDistance | scripts/iron_fly_trader.py:261-298 | the default without sigma wings or 15 candles, otherwise clamp(0.8 × ATR14) rounded to a hundred (stated by WingDistanceSpec) |
| IronFlyTrading.RoundedHundreds | scripts/iron_fly_trader.py:292 | rounding a clamped value to hundreds stays within the rounded limits |
| IronFlyTrading.HundredsNear | scripts/iron_fly_trader.py:292 | rounding to hundreds gives a multiple of 100 within 50 |
| IronFlyTrading.BankNiftyOptions | scripts/iron_fly_trader.py:303-306 | exactly the BANKNIFTY rows of the configured segment |
| IronFlyTrading.FutureExpiries | scripts/iron_fly_trader.py:313-314 | exactly the expiries on or after today |
| IronFlyTrading.MinMonth | scripts/iron_fly_trader.py:318-319 | the earliest month among the expiries |
| IronFlyTrading.MaxInMonth | scripts/iron_fly_trader.py:319 | the last expiry of a month, absent iff the month has none |
| IronFlyTrading.LaterMonths | scripts/iron_fly_trader.py:319 | exactly the expiries of later months |
| IronFlyTrading.FirstMonthlySpec | scripts/iron_fly_trader.py:316-325 | absent iff no expiry; otherwise the last expiry of the earliest month |
| IronFlyTrading.FirstMonthly | scripts/iron_fly_trader.py:316-325 | the monthly expiry of the nearest month (stated by FirstMonthlySpec) |
| IronFlyTrading.TargetExpiry | scripts/iron_fly_trader.py:313-338 | the expiry the contracts are taken at (stated by TargetExpirySpec) |
| IronFlyTrading.TargetExpirySpec | scripts/iron_fly_trader.py:313-338 | the first monthly expiry, or the next monthly one when the first is today and the market has closed; none if there is no next one |
| IronFlyTrading.FirstSymbol | scripts/iron_fly_trader.py:345-352 | a listed option's symbol of that expiry, strike and type, absent iff none is listed |
| IronFlyTrading.ContractsFor | scripts/iron_fly_trader.py:300-372 | the plan for an ATM strike and wing distance (stated by ContractsSpec and ContractsFoundIff) |
| IronFlyTrading.ContractsSpec | scripts/iron_fly_trader.py:300-372 | a found plan sells call and put at the ATM strike and buys the call at ATM+wing and the put at ATM−wing, all listed at the target expiry, with the lot size and wing recorded (converse: ContractsFoundIff) |
| IronFlyTrading.ContractsFoundIff | scripts/iron_fly_trader.py:300-372 | a plan is found iff there is a target expiry and all four legs are offered at it |
| IronFlyTrading.OfferedIff | scripts/iron_fly_trader.py:342-350 | a leg is offered iff the symbol lookup finds it |
| IronFlyTrading.LegsAtListed | scripts/iron_fly_trader.py:345-352 | each of the four legs is a listed option of its strike and type |
| IronFlyTrading.OptionStrikes | scripts/iron_fly_trader.py:238-241 | exactly the strikes present among the options |
| IronFlyTrading.AtmStrike | scripts/iron_fly_trader.py:232-247 | the ATM strike from the spot price (stated by AtmStrikeSpec) |
| IronFlyTrading.AtmStrikeSpec | scripts/iron_fly_trader.py:232-247 | known iff the spot is; then a listed BankNifty strike that no listed strike is strictly closer to the spot than, or the multiple of 100 within 50 of the spot when none is listed |
| IronFlyTrading.FirstIndex | scripts/iron_fly_trader.py:200-208 | the token of the first NIFTY BANK index row in file order, absent iff there is none |
| IronFlyTrading.FirstLotSize | scripts/iron_fly_trader.py:219-221 | the lot size of the first option that lists one, in order; absent iff none lists one |
| IronFlyTrading.LoadInstruments | scripts/iron_fly_trader.py:194-230 | fails iff the index row or the BankNifty options are missing; the index token is that of the first index row; the lot size is the first listed one, else the fallback |
| IronFlyTrading.IsTradingWindowOpen | scripts/iron_fly_trader.py:96-115 | always open with after-hours simulation; otherwise open iff between the open time and the close minus the blocked minutes |
| IronFlyTrading.ShippedWindow | scripts/iron_fly_trader.py:96-115 | with the shipped settings the window is always open, and without the simulation switch it is 09:25 to 14:30 |
| IronFlyTrading.InEventBlackout | scripts/iron_fly_trader.py:130-143 | active iff some configured window covers the instant |
| IronFlyTrading.MarginOk | scripts/iron_fly_trader.py:117-128 | passes iff the margin call succeeds and the available margin reaches per-set margin × sets × buffer |
| IronFlyTrading.LlmApproves | scripts/iron_fly_trader.py:148-193 | the gate's verdict for a reply (stated by LlmGateSpec) |
| IronFlyTrading.LlmGateSpec | scripts/iron_fly_trader.py:148-193 | disabled gate always passes; a decision passes iff it says enter with confidence absent or at the threshold; a missing client or key blocks |
| IronFlyTrading.EntryLine | scripts/iron_fly_trader.py:421-429 | the ENTRY line: timestamp, position id, ENTRY, the quoted details JSON, 0 and the comma-joined order ids (stated by IronFlyDashboard.EntryLineFields and TraderEntryRoundTrip, which read it back) |
| IronFlyTrading.PositionId | scripts/iron_fly_trader.py:421 | the position id `BNF_IFLY_` and the clock's stamp (stated by LogEntryEvent, which records it as the open position) |
| IronFlyTrading.DetailsFor | scripts/iron_fly_trader.py:409-419 | the ENTRY details of a plan: the reason by the LLM switch, the plan's strike, wing, lot size, expiry and legs, the last LLM confidence, credit and profit "N/A" (stated by PlaceIronFlyOrders, which logs them, and TraderEntryRoundTrip, which reads them back) |
| IronFlyTrading.SimOrderId | scripts/iron_fly_trader.py:391 | a simulated id is "SIM_" and the clock's milliseconds |
| IronFlyTrading.OrdersFor | scripts/iron_fly_trader.py:377-382 | four orders: sells on the short call and short put, then buys on the long call and long put |
| IronFlyTrading.OrdersSellAtmBuyWings | scripts/iron_fly_trader.py:377-382 | for a found plan the sells are on the listed ATM call and put and the buys on the listed call at ATM+wing and put at ATM−wing |
| IronFlyTrading.SimOrderIds | scripts/iron_fly_trader.py:386-392 | four ids, the k-th `SIM_` followed by the k-th clock reading |
| IronFlyTrading.IronFlyTrader.constructor | scripts/iron_fly_trader.py:78-91 | the loaded index token and lot size; no position, plan, snapshot time or confidence; an empty log |
| IronFlyTrading.IronFlyTrader.FindIronFlyContracts | scripts/iron_fly_trader.py:300-372 | returns the specified plan; a found plan becomes the current plan; nothing else changes |
| IronFlyTrading.IronFlyTrader.ShouldEnterViaLlm | scripts/iron_fly_trader.py:148-193 | returns the gate's verdict and records the reply's confidence; nothing else changes |
| IronFlyTrading.IronFlyTrader.LogEntryEvent | scripts/iron_fly_trader.py:407-433 | appends the ENTRY line, sets the new position id and clears the last snapshot time |
| IronFlyTrading.IronFlyTrader.PlaceIronFlyOrders | scripts/iron_fly_trader.py:374-405 | four simulated ids from successive clock readings, then the ENTRY line with the plan's details |
| IronFlyTrading.IronFlyTrader.EvaluateAndExecuteEntry | scripts/iron_fly_trader.py:463-493 | enters iff window open, no blackout, margin ok, spot known and the gate passes; an entry appends exactly the ENTRY line (timestamp, new position id, details with the gate's confidence, the four SIM order ids), sets the position and clears the state-log time; the gate's confidence is recorded iff the four pre-gate checks pass; a refusal changes no log, position or state-log time |
| IronFlyDashboard.NonEmpty | scripts/generate_ironfly_dashboard.py:46 | keeps exactly the non-empty tokens (with NonEmptySnoc: in their order) |
| IronFlyDashboard.NonEmptySnoc | scripts/generate_ironfly_dashboard.py:46 | appending a token appends it unless it is empty, so the kept tokens stay in order |
| IronFlyDashboard.ParseEventLog | scripts/generate_ironfly_dashboard.py:23-61 | the loop's entries are the parsed lines after the header, in order |
| IronFlyDashboard.SkippedLines | scripts/generate_ironfly_dashboard.py:28-51 | blank lines and lines with fewer than four fields are skipped; a kept entry has realised P&L 0 |
| IronFlyDashboard.ParseLine | scripts/generate_ironfly_dashboard.py:28-60 | one event-log line read as an entry, or skipped (stated by SkippedLines, ParseLineFields and EntryLineRoundTrip) |
| IronFlyDashboard.SplitJoin | scripts/generate_ironfly_dashboard.py:46 | splitting comma-joined comma-free ids gives them back |
| IronFlyDashboard.IdsRoundTrip | scripts/generate_ironfly_dashboard.py:43-46 | the order-id tail parses back to the ids |
| IronFlyDashboard.MarkerIsLast | scripts/generate_ironfly_dashboard.py:39 | the closing `",0` marker is the last one in the field |
| IronFlyDashboard.RestRoundTrip | scripts/generate_ironfly_dashboard.py:36-51 | the quoted-details field of an ENTRY line parses back to the details and the ids |
| IronFlyDashboard.ParseRestFound | scripts/generate_ironfly_dashboard.py:36-51 | once the marker is found, the field parses to the decoded details and the ids after it |
| IronFlyDashboard.RestLayout | scripts/generate_ironfly_dashboard.py:39-45 | where the parser finds the details and the id text in the field |
| IronFlyDashboard.EntryLineStripped | scripts/generate_ironfly_dashboard.py:28 | stripping leaves an ENTRY line unchanged |
| IronFlyDashboard.EntryLineFields | scripts/generate_ironfly_dashboard.py:31-34 | an ENTRY line splits into timestamp, id, type and the rest |
| IronFlyDashboard.EntryLineRoundTrip | scripts/generate_ironfly_dashboard.py:23-61 | an ENTRY line parses back to its timestamp, id, ENTRY type, details and ids, with P&L 0 |
| IronFlyDashboard.ParseLineFields | scripts/generate_ironfly_dashboard.py:28-60 | a line with four fields parses to those fields and what the fourth holds |
| IronFlyDashboard.TraderEntryRoundTrip | scripts/generate_ironfly_dashboard.py:23-61 | the line the trader writes (scripts/iron_fly_trader.py:421-429) reads back as the entry it records |
| IronFlyDashboard.Filtered | scripts/generate_ironfly_dashboard.py:69-76 | exactly the wanted rows: ENTRY rows of the given position, if one is given |
| IronFlyDashboard.LastWanted | scripts/generate_ironfly_dashboard.py:78 | the index of the last wanted row, absent iff none is wanted |
| IronFlyDashboard.FilteredLast | scripts/generate_ironfly_dashboard.py:69-78 | the last filtered row is the last wanted row |
| IronFlyDashboard.LoadLatestEntrySpec | scripts/generate_ironfly_dashboard.py:64-83 | fails on an empty log, with no wanted row, or with the TypeError when the last wanted row's details are not an object; otherwise that row's details, with its timestamp, id and the log path |
| IronFlyDashboard.LoadLatestEntry | scripts/generate_ironfly_dashboard.py:64-83 | the latest ENTRY of the log, optionally of one position, or the error that stops the dashboard (stated by LoadLatestEntrySpec) |
| IronFlyDashboard.DropNonDigitTail | scripts/generate_ironfly_dashboard.py:119 | removes exactly the trailing non-digits |
| IronFlyDashboard.TrailingDigits | scripts/generate_ironfly_dashboard.py:119 | the digit run that ends the text |
| IronFlyDashboard.LastDigitRun | scripts/generate_ironfly_dashboard.py:119 | the last run of digits |
| IronFlyDashboard.ExtractStrikeFromSymbol | scripts/generate_ironfly_dashboard.py:116-122 | the corrected extraction reads the strike back from a monthly symbol |
| IronFlyDashboard.ExtractStrikeAsWritten | scripts/generate_ironfly_dashboard.py:116-122 | as written: an int passes through, a float is truncated, a text fails iff it has no digit, else all its digits are read |
| IronFlyDashboard.ExtractStrike | scripts/generate_ironfly_dashboard.py:116-122 | corrected: the same, reading the last run of digits of a text |
| IronFlyDashboard.ExtractStrikeAsWrittenReadsYear | scripts/generate_ironfly_dashboard.py:116-122 | as written, the year digits are read before the strike (25, NOV, 48000 → 2548000) and any year but 0 gives a wrong strike |
| IronFlyDashboard.SymbolDigits | scripts/generate_ironfly_dashboard.py:119 | the digits of a monthly symbol are the year's followed by the strike's |
| IronFlyDashboard.DigitsValueConcat | scripts/generate_ironfly_dashboard.py:122 | reading two digit strings together shifts the first by the second's length |
| IronFlyDashboard.DigitsConcat | scripts/generate_ironfly_dashboard.py:119 | the digits of a concatenation are concatenated digits |
| IronFlyDashboard.ComputeMtm | scripts/generate_ironfly_dashboard.py:125-128 | one point per price |
| IronFlyDashboard.MtmSides | scripts/generate_ironfly_dashboard.py:125-128 | a short leg's MTM is the negation of the long one's |
| IronFlyDashboard.BuildMtmSeries | scripts/generate_ironfly_dashboard.py:131-136 | one point per state row |
| IronFlyDashboard.MtmSeriesSpec | scripts/generate_ironfly_dashboard.py:106-136 | a point is present iff its row and the entry prices are complete, and is lot size × per-unit MTM; the first row's MTM is 0 |
| IronFlyDashboard.RangeCountSpec | scripts/generate_ironfly_dashboard.py:151 | `range(lo, hi, 100)` is empty iff lo ≥ hi, and its last point is the last one below hi |
| IronFlyDashboard.ComputePayoffCurve | scripts/generate_ironfly_dashboard.py:139-160 | with the strike reader as a parameter (the all-digits reader is the code as written): fails iff a strike cannot be read; otherwise points every 100 from min(put strikes) − wing to max(call strikes) + wing, each with the four legs' expiry payoff |
| IronFlyDashboard.PayoffStrikesOfSymbols | scripts/generate_ironfly_dashboard.py:116-160 | for the trader's trading symbols the corrected reader gives the four strikes, and the reader as written prefixes each with the year digits |
| IronFlyDashboard.IronFlyPayoffBounds | scripts/generate_ironfly_dashboard.py:154-158 | an iron fly's expiry payoff per unit never exceeds the net credit nor loses more than wing − credit |
| IronFlyDashboard.PayoffScales | scripts/generate_ironfly_dashboard.py:154-158 | the payoff is lot size × the per-unit payoff |
| DashboardServer.Renamed | dashboard/server.py:61-67 | the four leg keys, each holding its legacy key's value |
| DashboardServer.StrikesIn | dashboard/server.py:59 | the strikes, or an empty dict when missing or falsy |
| DashboardServer.NormalDetails | dashboard/server.py:58-71 | adds exactly strikes, wing_distance and lot_size; keeps every other key; wing 500 and lot 15 by default |
| DashboardServer.DictOfPairs | dashboard/server.py:58 | `dict()` of a list of pairs (stated by DictOfPairsDefined, DictOfPairsKeys and DictOfPairsLastWins) |
| DashboardServer.DictOfPairsDefined | dashboard/server.py:58 | `dict()` of a list succeeds iff every element is a pair with a hashable key |
| DashboardServer.DictOfPairsKeys | dashboard/server.py:58 | the keys are exactly the text keys of the pairs |
| DashboardServer.DictOfPairsLastWins | dashboard/server.py:58 | each key holds the value of the last pair with that key |
| DashboardServer.DetailsRead | dashboard/server.py:58 | the details as `dict(details or {})` reads them (stated by NormaliseEntrySpec) |
| DashboardServer.NormaliseEntrySpec | dashboard/server.py:57-75 | the details read succeeds iff they are falsy, a mapping or a list of pairs, and gives the empty dict, the mapping or `dict()` of the pairs; the entry fails iff that read fails or the strikes are a bool, number or timestamp, a text containing `sell_ce` but not `short_call`, or a list holding `sell_ce` but not `short_call`; otherwise only the details change, and the strikes are renamed iff they are a mapping with `sell_ce` and without `short_call` |
| DashboardServer.NormaliseEntry | dashboard/server.py:57-75 | a copy with normalised details, or the error `dict()`, `in` or `get` raises (stated by NormaliseEntrySpec) |
| DashboardServer.NormaliseKeepsRow | dashboard/server.py:73-75 | a normalised entry differs from its row only in the details |
| DashboardServer.NormalisedStable | dashboard/server.py:59-69 | normalised strikes need no renaming and read back unchanged |
| DashboardServer.NormalDetailsIdempotent | dashboard/server.py:58-71 | normalising details twice is normalising once |
| DashboardServer.NormaliseIdempotent | dashboard/server.py:57-75 | normalising an entry twice is normalising once |
| DashboardServer.InsertByTime | dashboard/server.py:53 | insertion adds exactly the element |
| DashboardServer.InsertSorted | dashboard/server.py:53 | insertion keeps the list sorted by timestamp |
| DashboardServer.SortByTime | dashboard/server.py:53 | the sort is a permutation |
| DashboardServer.SortByTimeSorted | dashboard/server.py:53 | the result is ordered by timestamp and a permutation of the input |
| DashboardServer.EntryRows | dashboard/server.py:52 | exactly the ENTRY rows |
| DashboardServer.NormaliseAll | dashboard/server.py:54 | every entry normalised in order, or a failure of one of them |
| DashboardServer.ListEntryEventsSpec | dashboard/server.py:50-54 | the log's ENTRY rows, each once, sorted by time and normalised; fails iff `normalise_entry` fails on some ENTRY row |
| DashboardServer.ListingFails | dashboard/server.py:50-54 | the listing fails iff some ENTRY row of the log fails to normalise |
| DashboardServer.ListEntryEvents | dashboard/server.py:50-54 | the ENTRY rows, sorted by time and normalised, or the first normalisation error (stated by ListEntryEventsSpec) |
| DashboardServer.Positions | dashboard/server.py:156-166 | one position row per listed entry, in order |
| DashboardServer.ListedEntry | dashboard/server.py:50-54 | each listed entry is a normalised ENTRY row of the log |
| DashboardServer.DefaultPositionIsLatest | dashboard/server.py:168 | the default position is that of an ENTRY row no other ENTRY row follows in time, present iff the log has one |
| DashboardServer.LatestFollows | dashboard/server.py:50-54 | no ENTRY row is later than the last sorted one |
| DashboardServer.FloatOf | dashboard/server.py:127-133 | a float or None |
| DashboardServer.FloatOfIdempotent | dashboard/server.py:127-133 | converting twice is converting once; None exactly for None and unconvertible values |
| DashboardServer.DictFloatify | dashboard/server.py:124-134 | the same keys, each value converted |
| DashboardServer.DictFloatifyStable | dashboard/server.py:124-134 | the result holds only floats and None and converts to itself |
| DashboardServer.Clean | dashboard/server.py:95-102 | no timestamp or NaN remains; other values are kept |
| DashboardServer.CleanRow | dashboard/server.py:93-102 | the same keys |
| DashboardServer.CleanRowIdempotent | dashboard/server.py:93-102 | cleaning twice is cleaning once |
| DashboardServer.CleanRecord | dashboard/server.py:93-102 | the loop builds the cleaned row |
| DashboardServer.DataframeToRecords | dashboard/server.py:90-104 | one cleaned record per row, in order |
| DashboardServer.SeriesToRecords | dashboard/server.py:107-121 | zip of values and timestamps, cut at the shorter, each with its time text |
| FetchPriceHistory.ResolveInstrument | scripts/fetch_price_history.py:146-177 | fails iff no item matches; otherwise the first matching item |
| FetchPriceHistory.UpperIdempotent | scripts/fetch_price_history.py:152-156 | upper-casing twice is once |
| FetchPriceHistory.MatchesIgnoresCase | scripts/fetch_price_history.py:152-157 | the identifier's case does not matter |
| FetchPriceHistory.DefaultChunkDays | scripts/fetch_price_history.py:184-193 | the default chunk is positive |
| FetchPriceHistory.ResolveChunkDaysSpec | scripts/fetch_price_history.py:180-193 | positive; a positive override wins; 365 for day; the interval's case does not matter |
| FetchPriceHistory.ResolveChunkDays | scripts/fetch_price_history.py:180-193 | the days per request window for an interval (stated by ResolveChunkDaysSpec) |
| FetchPriceHistory.HistoricalDataChunked | scripts/fetch_price_history.py:196-226 | the loop's results are the batches of the specified windows, in order |
| FetchPriceHistory.WindowsSpec | scripts/fetch_price_history.py:205-225 | none iff the range is empty; the first starts at from, each at most a chunk, the next a minute later, the last reaching the end |
| FetchPriceHistory.Windows | scripts/fetch_price_history.py:205-225 | the request windows that tile the range (stated by WindowsSpec) |
| FetchPriceHistory.Payload | scripts/fetch_price_history.py:104-123 | one payload tuple per fetched row, in order |
| FetchPriceHistory.AppliedKeys | scripts/fetch_price_history.py:128-142 | a key is stored afterwards iff stored before or in the payload |
| FetchPriceHistory.Applied | scripts/fetch_price_history.py:128-142 | the bar store after upserting a payload (stated by AppliedKeys, AppliedLast and AppliedUnchanged) |
| FetchPriceHistory.AppliedLast | scripts/fetch_price_history.py:128-142 | a payload key holds its last row's values |
| FetchPriceHistory.AppliedUnchanged | scripts/fetch_price_history.py:128-142 | other keys keep their values |
| FetchPriceHistory.UpsertIdempotent | scripts/fetch_price_history.py:128-142 | upserting the same rows twice equals once |
| FetchPriceHistory.PriceStore.constructor | scripts/fetch_price_history.py:62 | an empty table |
| FetchPriceHistory.PriceStore.UpsertPriceBars | scripts/fetch_price_history.py:98-143 | the table after the upsert of the payload, and the row count |
| EnvLoader.ParseEnvLineSpec | env_loader.py:36-43 | skips blank, comment and `=`-less lines; the key has no `=`; quotes are stripped from the value |
| EnvLoader.ParseEnvLine | env_loader.py:36-43 | a stripped `key=value` line, quotes removed from the value (stated by ParseEnvLineSpec) |
| EnvLoader.ParseWrittenLine | env_loader.py:36-43 | a line written `KEY=value` reads back as that key and value |
| EnvLoader.ParsedLines | env_loader.py:35 | one parse per line |
| EnvLoader.LoopStep | env_loader.py:35-45 | one loop turn applies one line |
| EnvLoader.AssignedKeepsExisting | env_loader.py:44-45 | existing variables are never overwritten |
| EnvLoader.AssignedKeys | env_loader.py:44-45 | a key is set afterwards iff before or some line sets it |
| EnvLoader.AssignedFirstWins | env_loader.py:44-45 | the first line defining a new key wins |
| EnvLoader.LoadedKeepsExisting | env_loader.py:35-45 | the fallback parser never overwrites a variable |
| EnvLoader.LoadedFirstWins | env_loader.py:35-45 | a new key takes its first definition |
| EnvLoader.LoadedKeys | env_loader.py:35-45 | a key is present iff before or some line defines it |
| EnvLoader.UnderExisting | env_loader.py:25 | dotenv adds keys without overriding existing ones |
| EnvLoader.Environment.constructor | env_loader.py:5 | the initial environment and an unused dotenv flag |
| EnvLoader.Environment.LoadEnv | env_loader.py:7-47 | dotenv once when available, else the file's lines parsed without overwriting; a missing file changes nothing |
| EnvLoader.Environment.GetKiteConfig | env_loader.py:50-65 | loads the environment as LoadEnv does (dotenv on first use, under the existing variables; otherwise the file parsed without overwriting), then the config read from it |
| EnvLoader.MissingRequired | env_loader.py:62 | exactly the blank required settings, in order |
| EnvLoader.KiteConfigSpec | env_loader.py:55-64 | fails iff a required setting is blank, with the message "Missing required environment variables: " followed by the blank settings joined by ", " in order; otherwise the three settings, the postback URL as set (or None), and debug iff KITE_DEBUG lower-cases to "true" |
| EnvLoader.KiteConfigOf | env_loader.py:55-64 | the config, or the RuntimeError message listing the blank required settings (stated by KiteConfigSpec) |
| KiteChecks.CheckKeyFormat | kite_api_test.py:54-63 | bad length iff not 16 or 32; bad characters iff right length but not alphanumeric; valid otherwise |
| KiteChecks.QuickResults | kite_api_test.py:112-117 | four results, all passing iff every check passes |
| KiteChecks.SummarizeQuickSuite | kite_api_test.py:120-131 | true iff every result passed |
| KiteChecks.RunQuickSuite | quick_kite_test.py:81-109 | true iff key format, init, login URL and redirect all pass |
| KiteApiTest.QuoteSymbol | kite_api_test.py:311-313 | upper-cased symbol, prefixed NSE: when it has no colon |
| KiteApiTest.CommandOf | kite_api_test.py:296-320 | the command a typed line names: quit/exit, help, the six calls, or unknown (stated by QuoteCommand, UnknownIgnored and EndingInput) |
| KiteApiTest.ParseCommand | kite_api_test.py:294 | the command of a typed line, stripped and lower-cased (stated by QuoteLine and UnknownLineIgnored) |
| KiteApiTest.QuoteCommand | kite_api_test.py:310-314 | a quote command issues the quote of the normalised symbol |
| KiteApiTest.QuoteLine | kite_api_test.py:294-314 | a typed quote line parses to the quote of its argument |
| KiteApiTest.NormalizedQuoteLine | kite_api_test.py:294 | stripping and lower-casing a quote line keeps its prefix |
| KiteApiTest.QuoteSymbolLower | kite_api_test.py:294-313 | the lower-cased argument yields the upper-cased symbol |
| KiteApiTest.Commands | kite_api_test.py:292-294 | one command per input |
| KiteApiTest.Session | kite_api_test.py:292-326 | at most one effect per command |
| KiteApiTest.SessionStep | kite_api_test.py:292-326 | quit ends the session; any other command adds its effect |
| KiteApiTest.UnknownIgnored | kite_api_test.py:319-320 | an unknown command has no effect |
| KiteApiTest.QuitEndsSession | kite_api_test.py:296-297 | nothing after quit takes effect |
| KiteApiTest.UnknownLineIgnored | kite_api_test.py:294-320 | an unknown typed line has no effect |
| KiteApiTest.EndingInput | kite_api_test.py:296-324 | a quit, exit or Ctrl-C input ends the session |
| KiteApiTest.SpinsAtEndOfInput | kite_api_test.py:292-326 | as written, an input that runs out without a quit never ends the loop, for any fuel |
| KiteApiTest.SessionAsWritten | kite_api_test.py:292-326 | the loop as written, where end of input is swallowed and the loop repeats (stated by SpinsAtEndOfInput and AsWrittenAgrees) |
| KiteApiTest.AsWrittenAgrees | kite_api_test.py:292-326 | with a quit ahead, the loop as written gives the corrected session |
| KiteApiTest.KiteClient.constructor | kite_api_test.py:50 | no access token |
| KiteApiTest.KiteApiTester.constructor | kite_api_test.py:134-136 | no access token and no user id |
| KiteApiTest.KiteApiTester.Step2GetAccessToken | kite_api_test.py:159-182 | true iff the session has both keys, and then both are stored and the client token set; on failure the token is still stored when present |
| KiteApiTest.KiteApiTester.NextCommand | kite_api_test.py:294 | the k-th command of the input |
| KiteApiTest.KiteApiTester.InteractiveMode | kite_api_test.py:287-326 | the loop's effects are the session of the typed commands |
| KiteApiTest.Main | kite_api_test.py:346-397 | quick suite iff --quick; stop after it iff --quick without --full; exchange iff token and secret given; the shell iff exchange ok and --interactive or "y" |
| KiteApiTest.NothingExecuted | kite_api_test.py:396-397 | the "Nothing executed" notice: a failed exchange without `--quick` (stated by NothingExecutedIff) |
| KiteApiTest.NothingExecutedIff | kite_api_test.py:353-397 | the notice is printed iff `--quick` is absent, a request token and a secret were given, and the exchange failed |
| QuickKiteTest.Main | quick_kite_test.py:151-161 | the quick suite always; the authenticated checks iff --full; a warning iff --full and the quick suite failed |
| QuickKiteTest.MinimalAuthenticatedTests | quick_kite_test.py:112-148 | true iff token and secret given, session has an access token, and no endpoint raised, whatever the quote holds |

## Left out

- Database, files, network and the broker. The Kite, OpenAI and HTTP calls, SQLite and the log files are not modelled; their outcomes are parameters of the model.
- Printing and logging, except the event-log ENTRY line, which is modelled as text.
- The sklearn, xgboost and Prophet adapters and `save_model`. Fitting is the value `FittedModel(adapter, trainRows)`, and prediction is an opaque function returning one value per row. This is why a fitted model is not written to disk and no artifact path is produced.
- `training_time_seconds`, `datetime.now()` and `time.time()`. These are omitted or passed in as parameters.
- Floating point. Values are `real`, NaN and `None` are `Option`, and `sqrt` is an abstract function satisfying `sqrt(x)² = x` for x ≥ 0.
- TrainingFeatures.EngineerFeaturesRows: the input is taken to be already in timestamp order, because `load_price_frame` orders it. The `sort_values` at backend/app/services/training.py:71 is not modelled.
- TrainingJob.RunTrainingJob: requires positive train bars, test bars and step. With a zero step the source loops forever, and with empty windows the fitting libraries raise.
- The `compute_technicals` service and the `analytics_summary`/`analytics_technicals` endpoints. They only combine the modelled indicators and map ValueError to 400.
- The FastAPI and Flask routing, the plotly dashboard (`build_dashboard`), `load_state_log`, `derive_state_log_path` and `api_position`.
- In `iron_fly_trader.py`: `log_state_snapshot`, `get_spot_price`, `setup_logging` and `main`. `main` only wires together the modelled steps after authentication.
- In `fetch_price_history.py`: `fetch_and_store`, argument parsing and `main`.
- In the Kite scripts: the step-1 and step-3 endpoint tests, `show_help` and the output of the shell commands. A shell command is modelled by the effect it issues.
- FetchPriceHistory.HistoricalDataChunked: requires a non-negative chunk length. A negative one moves the start backwards, and the source loop never ends.
- DashboardServer.NormaliseEntry: details are a map keyed by text. In a list of pairs given to `dict()`, a pair whose key is None, a bool, a number or a timestamp is dropped, although Python keeps it under that key. An element that is a dict with two keys is taken to raise, although Python reads its two keys as a pair; the model's dicts have no key order to read them in.
- IronFlyTrading.IronFlyTrader.ShouldEnterViaLlm: the request, the prompt and the JSON decoding are one reply parameter. A reply that raises after the confidence was read is treated as a failed call.
- Unicode case mapping and digits: `upper`/`lower`/`isalnum`/`isdigit` are modelled for ASCII letters and digits. Text.IsDigit is ASCII only, so `extract_strike` (scripts/generate_ironfly_dashboard.py:119), which keeps any character Python's `isdigit` accepts, would also keep non-ASCII digits, such as Devanagari digits, that the model drops.
- Text.IsSpace: only the six ASCII whitespace characters are spaces. `str.strip()` also removes Unicode whitespace such as \x1c-\x1f, \x85 and \xa0, so a `.env` line or a reply padded with those is trimmed differently.
- An exception raised inside a model adapter is not caught, so the whole training job fails. Adapters are not modelled, so the model has no such failure.

## Findings

| source | as written | input that shows it | evidently intended | confidence | as-written member | corrected member |
|---|---|---|---|---|---|---|
| scripts/generate_ironfly_dashboard.py:116-122 | `extract_strike` joins every digit of a trading symbol | "BANKNIFTY25NOV48000CE" gives 2548000 | the strike 48000 | not executed | IronFlyDashboard.ExtractStrikeAsWrittenReadsYear | IronFlyDashboard.ExtractStrikeFromSymbol |
| backend/app/api.py:179 | `np.isnan` is called, but `api.py` never imports `np` | any run with a fold whose mape is a float raises NameError, served as HTTP 500; only non-NaN floats reach this line, because backend/app/services/training.py:323 has already turned NaN into None | NaN becomes None, other values are kept | not executed | Api.RunTrainingAsWrittenFails | Api.RunTrainingSpec |
| kite_api_test.py:292-326 | `input()` at end of input raises EOFError, which `except Exception` swallows, and the loop repeats | piped input with no `quit` line, e.g. "profile" then EOF | the shell ends when input ends | not executed | KiteApiTest.SpinsAtEndOfInput | KiteApiTest.KiteApiTester.InteractiveMode |
