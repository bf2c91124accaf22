# Zerith (CarbMine) emission logic in Dafny

Zerith is a carbon-emissions web application for Indian coal mines. A FastAPI backend estimates emissions with an IPCC-style formula and regional emission factors. It classifies the result into low, medium and high bands, runs the legacy per-activity calculator and the neutralisation chain, and forecasts future years. It also ranks decarbonisation strategies. The React front end validates and coerces form input and summarises forecasts. It pins forecasts to localStorage, filters and counts recommendations, searches saved reports, and splits a report image across PDF pages.

This project models that business logic and proves what it promises. The modules follow the program's structure:

| module | file | models |
|---|---|---|
| `Wrappers`, `Text`, `Numbers` | wrappers.dfy, text.dfy, numbers.dfy | Option/Result; ASCII `lower()`, `strip()`, `in`/`includes`; the decimal literals `float()`, `int()`, `Number()`, `parseFloat()` and `parseInt()` accept |
| `Seqs`, `Series`, `Sorting` | seqs.dfy, series.dfy, sorting.dfy | filter, de-duplication, sum/min/max/mean, percent change, a stable sort by a key |
| `Services` | services.dfy | `CarbMine/backend/app/services.py` |
| `Recommend` | recommend.dfy | `ml/recommend.py` |
| `Api` | api.dfy | the handlers of `CarbMine/backend/app/main.py` |
| `DataIngest` | data_ingest.dfy | `ml/data_ingest.py` |
| `Analysis` | analysis.dfy | `CarbMine/frontend/src/pages/Analysis.js` |
| `Pins`, `Predict`, `Dashboard` | pins.dfy, predict.dfy, dashboard.dfy | the pinned-forecast storage, `Predict.js` and `Dashboard.js` |
| `RecommendationsPage` | recommendations.dfy | `CarbMine/frontend/src/pages/Recommendations.js` |
| `ReportView` | view.dfy | `CarbMine/frontend/src/components/View.js` |
| `Brief` | decarbonization.dfy | `CarbMine/frontend/src/components/DecarbonizationBrief.js` |

Floats are modelled as `real`. A JavaScript number is `JsNum`, which is either `NaN` or a finite value. A decoded JSON request body is a `map<string, Json>`. A Python conversion that raises is a `Failure`.

The code is modelled in the form it is written in:
- Loops become methods with `while` loops that are proved against a specification function:
  - `_score`'s running `+=`;
  - the appending loops of `recommend_strategies`, `generate_recommendations` and `heuristic_predict_years`;
  - `impactCounts`' `forEach`;
  - the PDF paging loop.
- State that the pages keep becomes classes:
  - localStorage (`Pins.LocalStore`);
  - the forecast page (`Predict.PredictPage`);
  - the dashboard's pinned list (`Dashboard.DashboardPins`).

Behaviours of the code that the model keeps, and that a reader might not expect:
- The keyword ranking of `ml/recommend.py` (a fixed score, not a trained model) lists "carbon capture" among the high band's keywords, but the backend fallback (`services.py`) does not. `Recommend.AgreesWithFallback` proves that the two scores agree on every other row. `Recommend.CarbonCaptureEarnsBonus` shows where they differ.
- The three hard-coded fallback strategies already hold tonnages (0.2, 0.1 and 0.15 × emission value). The calibration step still treats any estimate ≤ 1 as a ratio. So for an emission value of at most 5, the solar row reports 0.2 × value² (`Services.DefaultRowsScaledTwice`).
- The forecast prices grid electricity at 0.8 tCO2/MWh, while the estimate uses 0.82.
- In `validate_csv` the column check comes before the row count, so a small file with missing columns is reported for its columns (`DataIngest.ColumnCheckFirst`).

## Model

| member | source | states |
|---|---|---|
| Services.EstimateIpcc | CarbMine/backend/app/services.py:19-32 | non-negative inputs give a non-negative total; with no production and no energy the total is methane plus other gases |
| Services.EstimateIpccMonotone | CarbMine/backend/app/services.py:28-31 | with a non-negative factor, raising any quantity never lowers the total |
| Services.EstimateIpccSplits | CarbMine/backend/app/services.py:28-31 | the total is production × factor / 1000 plus energy × 0.82 plus methane plus other gases |
| Services.RegionalFactor | CarbMine/backend/app/services.py:35-47 | the factor is one of the table's values, lies in [1950, 2100], and is 2000 for a missing or empty region |
| Services.RegionalFactorIgnoresCase | CarbMine/backend/app/services.py:44-47 | region names equal up to letter case get the same factor |
| Services.RegionalFactorUnknown | CarbMine/backend/app/services.py:44-47 | a region outside the table gets the default 2000 |
| Services.RegionalFactorNamed | CarbMine/backend/app/services.py:37-47 | any capitalisation of a named region gets that region's factor |
| Services.Classify | CarbMine/backend/app/services.py:50-57 | high iff value ≥ 500000, medium iff 50000 ≤ value < 500000, low iff value < 50000 |
| Services.ClassifyMonotone | CarbMine/backend/app/services.py:50-57 | a larger value never gets a lower band |
| Services.Get | CarbMine/backend/app/services.py:479 | `dict.get` returns the stored value for a present key and the default for an absent one |
| Services.ReadLegacyPayload | CarbMine/backend/app/services.py:479-486 | succeeds iff every conversion succeeds, in the handler's order; each value is its converted field, workers is the converted count if at least 1 and 1 otherwise, output likewise with 1.0 |
| Services.ReadLegacyPayloadClamps | CarbMine/backend/app/services.py:483-484 | workers ≥ 1 and output ≥ 1.0, so both divisions are defined; values already above 1 pass through unchanged |
| Services.FuelFactor | CarbMine/backend/app/services.py:501 | a known fuel type gets its factor; an unknown string gets 2.2; only an unhashable value fails |
| Services.LegacyFigures | CarbMine/backend/app/services.py:488-526 | excavation = quantity × 94.6, transportation = quantity × 74.1 × 0.5, equipment = quantity × 73.3; each per-capita field is its emission over the workers and each per-output field its emission over the output; total = the three emissions' sum, and the per-capita and per-output totals multiply back to it; baseline = output × 2.2 + fuel × factor; credits = baseline − reduced; worth = credits × 42; the shares of non-negative emissions stay within the total |
| Services.DivisionSplits | CarbMine/backend/app/services.py:493-495 | dividing a sum splits into the sum of the divided parts and multiplies back |
| Services.ShareAtMostWhole | CarbMine/backend/app/services.py:493-499 | a non-negative quantity shared among at least one worker or unit is at most the whole |
| Services.LegacyCalculate | CarbMine/backend/app/services.py:478-526 | succeeds iff the payload reads and the fuel factor resolves; its result is the figures of the read inputs |
| Services.ReadNeutralisePayload | CarbMine/backend/app/services.py:535-541 | succeeds iff all six conversions succeed; each of the six values is the conversion of its field, with 0 for an absent key |
| Services.NeutraliseFigures | CarbMine/backend/app/services.py:543-561 | neutralised = emissions × percentage/100; transport reduction = transportation × 0.20 × EV share/100; fuel reduction = fuel × 0.50 × green share/100; neutralised + remaining = emissions; land × 2.2 = remaining after reduction; electricity savings = neutralised × 0.3 |
| Services.NeutraliseBounds | CarbMine/backend/app/services.py:540-549 | with a percentage in [0, 100] and non-negative emissions, both the neutralised part and the remainder lie in [0, emissions] |
| Services.LegacyNeutralise | CarbMine/backend/app/services.py:529-561 | succeeds iff the payload reads; its result is the chain applied to the read inputs |
| Services.BandBonus | CarbMine/backend/app/services.py:425-434 | +3 exactly when the lower-cased category contains one of the band's words |
| Services.ImpactBonus | CarbMine/backend/app/services.py:424-439 | an empty impact counts as medium; +2 iff high, +1 iff medium, ignoring case |
| Services.SectorBonus | CarbMine/backend/app/services.py:440-443 | +0.5 exactly when the row names a sector found, ignoring case, in the requested sector |
| Services.ScoreWith | CarbMine/backend/app/services.py:421-444 | every score lies in [0, 5.5] |
| Services.FallbackScore | CarbMine/backend/app/services.py:421-444 | the fallback score of a row lies in [0, 5.5] and is at least 3 iff the row earns its band's keyword bonus |
| Services.StaticRows | CarbMine/backend/app/services.py:407-414 | the table rows when there are any, otherwise the three hard-coded rows; never empty |
| Services.RankFallback | CarbMine/backend/app/services.py:446 | the ranking is a permutation of the rows |
| Services.CalibratedReduction | CarbMine/backend/app/services.py:450-457 | never negative; an estimate above 1 is kept, one of at most 1 is multiplied by the emission value, clamped at 0 |
| Services.CalibratedFractionBounded | CarbMine/backend/app/services.py:450-457 | a fractional estimate of non-negative emissions never exceeds the emissions |
| Services.ToRecommendation | CarbMine/backend/app/services.py:450-461 | the row's fields are copied, the estimate is calibrated, and the request's sector and region are written on |
| Services.RankFallbackProperties | CarbMine/backend/app/services.py:446 | the ranking is a permutation of the rows, in non-increasing score order, and rows with equal scores keep table order |
| Services.DefaultRowsScaledTwice | CarbMine/backend/app/services.py:410-414 | for an emission value in [0, 5] the hard-coded solar row is calibrated to 0.2 × value², since its tonnage is read as a ratio |
| Services.TopTen | CarbMine/backend/app/services.py:449-462 | min(10, n) recommendations, the i-th being the i-th ranked row converted |
| Services.FallbackRecommendations | CarbMine/backend/app/services.py:446-463 | min(10, n) recommendations, the i-th being the i-th row of the fallback ranking converted |
| Services.FallbackRecommendationsShape | CarbMine/backend/app/services.py:405-462 | with table rows, the fallback is non-empty, at most 10 long, and carries the sector and region |
| Services.Relabel | CarbMine/backend/app/services.py:386-404 | the learned rows keep their order and fields, with the request's sector and region written over each |
| Services.RelabelRanked | CarbMine/backend/app/services.py:386-404 | the coercion loop produces exactly the relabelled list |
| Services.CalibrateTopTen | CarbMine/backend/app/services.py:449-462 | the calibration loop over `ranked[:10]` produces exactly the first ten converted rows |
| Services.Recommendations | CarbMine/backend/app/services.py:384-463 | a non-empty learned answer is returned relabelled with the request's sector and region; otherwise the fallback ranking of the table rows (or the built-in rows when the table is empty), at most ten, non-empty, non-negative estimates |
| Services.GenerateRecommendations | CarbMine/backend/app/services.py:384-463 | the method computes exactly `Recommendations` |
| Services.AtLeastTiny | CarbMine/backend/app/services.py:310-311 | the clamp is at least 1e-9 and leaves larger values alone |
| Services.YearTotal | CarbMine/backend/app/services.py:325-327 | with no production and no energy a year's total is methane plus other gases |
| Services.YearTotalAgainstIpcc | CarbMine/backend/app/services.py:325-327 | a year's total is the IPCC estimate with the baseline's factor less 0.02 × energy, so it is below that estimate whenever energy is positive (0.8 against 0.82 tCO2/MWh) |
| Services.Horizon | CarbMine/backend/app/services.py:305 | at least 1, and the year span when the range is longer than one year |
| Services.HeuristicForecast | CarbMine/backend/app/services.py:305-329 | end − start + 1 predictions (none for an empty range), the i-th for year start + i |
| Services.Trajectory | CarbMine/backend/app/services.py:309-323 | without an override the quantity compounds the baseline's CAGR; with one, the clamped baseline compounds the numYears-th root of target over baseline |
| Services.PredictionAt | CarbMine/backend/app/services.py:307-328 | the idx-th prediction is for year start + idx, with the year total of both quantities' trajectories at idx |
| Services.HeuristicPredictYears | CarbMine/backend/app/services.py:305-329 | the loop appends exactly the forecast: one prediction per year of the range, first and last year at the ends |
| Services.TrajectoryEndpoints | CarbMine/backend/app/services.py:309-321 | an overridden quantity starts at the clamped baseline and reaches the clamped target in the last year, when `**` behaves as exponentiation |
| Services.FlatForecast | CarbMine/backend/app/services.py:271-272 | with zero growth and no overrides every year repeats the baseline total |
| Recommend.Score | ml/recommend.py:32-64 | the running `+=` gives the band, impact and sector bonuses' sum, in [0, 5.5], and it is ≥ 3 iff the band bonus was earned |
| Recommend.ScoreOf | ml/recommend.py:32-64 | the keyword score of a row lies in [0, 5.5] |
| Recommend.CarbonCaptureEarnsBonus | ml/recommend.py:43-45 | in the high band a "carbon capture" category earns the band bonus, even where the backend fallback's words would not |
| Recommend.AgreesWithFallback | ml/recommend.py:38-45 | for a category without "carbon capture" the keyword ranking's score equals the backend fallback's |
| Recommend.ImpactIgnoresCase | ml/recommend.py:35 | impact levels equal up to case get the same bonus |
| Recommend.RankRowsProperties | ml/recommend.py:69-71 | the ranking is a permutation of the rows, in non-increasing score order, and stable among equal scores |
| Recommend.RankRows | ml/recommend.py:69 | the ranking is a permutation of the rows |
| Recommend.RecommendStrategies | ml/recommend.py:67-83 | min(10, n) outputs, each a calibrated ranked row, with a non-negative estimate and the caller's sector and region |
| Api.EstimateEmissions | CarbMine/backend/app/main.py:31-40 | status 422 iff a field is out of bounds; otherwise the year is echoed and the total is the IPCC estimate with the caller's factor, which is non-negative |
| Api.CalculateLegacy | CarbMine/backend/app/main.py:86-91 | the report when the calculation succeeds, otherwise status 400 |
| Api.NeutraliseLegacy | CarbMine/backend/app/main.py:94-99 | the report when the chain succeeds, otherwise status 400 |
| Api.PredictEmissions | CarbMine/backend/app/main.py:102-124 | 422 for out-of-bound fields; then 400 with its message iff end < start, before any prediction; otherwise the model's answer or the heuristic forecast |
| Api.PredictEmissionsFallbackCoversRange | CarbMine/backend/app/main.py:102-124 | without a trained model a valid range yields one prediction per year in order |
| Api.PredictTwoYears | CarbMine/backend/tests/test_endpoints.py:33 | a request for 2025–2026 yields two predictions, for 2025 and 2026 |
| Api.RecommendStrategies | CarbMine/backend/app/main.py:193-205 | 400 iff the emission value is negative; otherwise the body is the service's recommendations, every row carrying the request's sector and region |
| Api.EstimateIndian | CarbMine/backend/app/main.py:209-238 | 422 iff a field is out of bounds; otherwise the reported factor is the regional lookup, the total is the formula with that factor, the level classifies that total, the grid factor is 0.82, and year and region are echoed |
| Api.EstimateIndianLevel | CarbMine/backend/app/main.py:227-231 | the reported level is high iff the reported total is ≥ 500000, and low iff it is < 50000 |
| Api.StripTrailingSlashes | CarbMine/backend/app/main.py:164 | the result is a prefix of the input that does not end in '/', and everything removed is '/' |
| Api.UploadPdf | CarbMine/backend/app/main.py:157-173 | accepted iff the uid is non-empty and the lower-cased name ends in ".pdf"; an empty uid is a 422, a wrong name a 400; the URL is the base URL without its trailing slashes, then "/uploads/" and the name |
| Api.UploadPdfIgnoresCase | CarbMine/backend/app/main.py:159-160 | names equal up to case are accepted or refused together |
| DataIngest.Missing | ml/data_ingest.py:26 | exactly the absent required columns, in required order, and empty iff all are present |
| DataIngest.ValidateCsv | ml/data_ingest.py:22-30 | passes iff the file exists, all 7 columns are present and there are ≥ 50 rows; a missing file, missing columns (listed) and a small file are reported in that order |
| DataIngest.ColumnCheckFirst | ml/data_ingest.py:26-30 | a small file with missing columns is reported for its columns |
| Analysis.FloatOrZero | CarbMine/frontend/src/pages/Analysis.js:67-70 | a field without a leading number becomes 0, otherwise the number it starts with |
| Analysis.YearOrCurrent | CarbMine/frontend/src/pages/Analysis.js:66 | a year that parses to nothing or to 0 becomes the current year |
| Analysis.FormPayload | CarbMine/frontend/src/pages/Analysis.js:84-85 | the legacy body holds exactly the nine backend keys, each mapped to its form field's string unchanged |
| Analysis.HandleSubmit | CarbMine/frontend/src/pages/Analysis.js:55-92 | in Indian mode no request iff production or energy is blank, otherwise the coerced request; in legacy mode the form's body |
| Analysis.BlankOptionalFieldsSendZero | CarbMine/frontend/src/pages/Analysis.js:69-70 | blank methane and other-gas fields are sent as 0 |
| Analysis.LegacyBlankFieldRejected | CarbMine/frontend/src/pages/Analysis.js:84-85 | a blank excavation field is posted and the backend refuses it with 400 |
| Analysis.HandleNeutralise | CarbMine/frontend/src/pages/Analysis.js:101-114 | nothing is sent iff there are no results; otherwise the sliders, the results' total and the two form fields |
| Analysis.NeutraliseAfterCalculate | CarbMine/frontend/src/pages/Analysis.js:101-114 | after a successful calculation, the neutralisation request it sends is accepted |
| Analysis.NeutraliseRequestAccepted | CarbMine/frontend/src/pages/Analysis.js:105-112 | a request whose two resent fields convert is accepted |
| Analysis.Strip | CarbMine/frontend/src/pages/Analysis.js:179-188 | n page copies take 2n − 1 calls |
| Analysis.PageCount | CarbMine/frontend/src/pages/Analysis.js:179-188 | none for a non-positive height, else the least n with height ≤ n × pageHeight |
| Analysis.StripAddsPages | CarbMine/frontend/src/pages/Analysis.js:179-188 | a strip of n pages adds n − 1 pages |
| Analysis.SplitAcrossPages | CarbMine/frontend/src/pages/Analysis.js:175-188 | the loop terminates, draws copy k at −k × pageHeight with a new page between copies, for ceil(height / pageHeight) copies, and ends at positionY = 0 |
| Analysis.SplitAddsPages | CarbMine/frontend/src/pages/Analysis.js:179-188 | a positive height adds ceil(h / pageHeight) − 1 pages, and a capture that fits is drawn once at the top |
| Analysis.ChartSize | CarbMine/frontend/src/pages/Analysis.js:196-203 | the drawn height never exceeds the page, equals it for a taller chart, and the aspect ratio is kept |
| Analysis.SourceDistribution | CarbMine/frontend/src/pages/Analysis.js:1127-1134 | no chart iff the total is missing or 0; the four shares sum to the total and are non-negative for a positive total |
| Analysis.ScenarioValues | CarbMine/frontend/src/pages/Analysis.js:1364-1382 | current is the total or 0; 0 ≤ 0.45 × total ≤ 0.75 × total ≤ total for a non-negative total |
| Pins.LocalStore.Save | CarbMine/frontend/src/pages/Dashboard.js:32-34 | the stored entry becomes the saved list |
| Pins.Totals | CarbMine/frontend/src/pages/Predict.js:84 | one value per point, NaN read as 0 |
| Predict.ValidatePredict | CarbMine/frontend/src/pages/Predict.js:32-57 | refuses with the not-a-number message iff a year is NaN, the range message iff a year is outside [2000, 2100], the order message iff end < start; otherwise the payload, with each override present iff its field is non-empty |
| Predict.PredictPage.HandlePredict | CarbMine/frontend/src/pages/Predict.js:27-67 | a refused form sends nothing and sets its error; an accepted one sends the payload and stores the reply's predictions or its error; loading ends false |
| Predict.JsSub | CarbMine/frontend/src/pages/Predict.js:93 | NaN absorbs; finite operands subtract |
| Predict.ComputeStats | CarbMine/frontend/src/pages/Predict.js:82-98 | null iff no predictions; min, max and avg are the minimum, maximum and mean of the totals, first and last the first and last totals, and the years those of the first and last points; pctChange is 0 when first is 0; cagr is non-zero only if first > 0, last > 0 and the year span n > 0, and then it is (pow(last / first, 1 / n) − 1) × 100, which is `Cagr` of first, last and the span |
| Predict.Cagr | CarbMine/frontend/src/pages/Predict.js:92-96 | (pow(last / first, 1 / n) − 1) × 100 when first, last and the span n are positive, 0 otherwise |
| Predict.CagrCompoundsToLast | CarbMine/frontend/src/pages/Predict.js:92-96 | with a `pow` for which (r ** (1/n)) ** n == r on last / first, first × (1 + Cagr / 100) ** n is the last total, so the rate `computeStats` reports compounds the first year's total into the last |
| Predict.NextPinned | CarbMine/frontend/src/pages/Predict.js:116 | the new item first, then the old list's prefix, min(10, n + 1) long |
| Predict.NewPin | CarbMine/frontend/src/pages/Predict.js:107-115 | the id is the decimal rendering of the clock's first reading and createdAt its second, the title is 'Forecast ' and the rendered time, the predictions and the year fields are kept, each override is its field's text iff that field was filled |
| Predict.PinForecast | CarbMine/frontend/src/pages/Predict.js:101-119 | no write for empty predictions or a stored non-array; otherwise the store holds the new item before the old list, capped at 10 |
| Predict.PinKeepsNewest | CarbMine/frontend/src/pages/Predict.js:116 | the old list's first nine items follow the new pin in order |
| Dashboard.LoadPinned | CarbMine/frontend/src/pages/Dashboard.js:21-30 | a stored array is returned; a missing key, invalid JSON or a non-array gives [] |
| Dashboard.WithoutIdProperties | CarbMine/frontend/src/pages/Dashboard.js:48 | no kept pin has the id, every other pin is kept, order is preserved, and an absent id changes nothing |
| Dashboard.WithoutId | CarbMine/frontend/src/pages/Dashboard.js:48 | no kept pin has the id, and every kept pin comes from the list |
| Dashboard.DashboardPins.constructor | CarbMine/frontend/src/pages/Dashboard.js:39 | the pinned state starts as the loaded list |
| Dashboard.DashboardPins.RemovePin | CarbMine/frontend/src/pages/Dashboard.js:47-51 | the state becomes the list without the id, and storage holds the new state |
| Dashboard.DatasetOf | CarbMine/frontend/src/pages/Dashboard.js:80-88 | colour index = position mod 7; the label, else "Forecast n"; one value per prediction |
| Dashboard.Datasets | CarbMine/frontend/src/pages/Dashboard.js:78-90 | one dataset per pin, in pin order |
| Dashboard.FallbackLabelsDistinct | CarbMine/frontend/src/pages/Dashboard.js:83 | unlabelled pins get distinct captions |
| Dashboard.Labels | CarbMine/frontend/src/pages/Dashboard.js:92-96 | none without pins, else one label per prediction of the first pin |
| Dashboard.PinStats | CarbMine/frontend/src/pages/Dashboard.js:612-619 | all 0 without predictions; otherwise avg, min and max are the mean, minimum and maximum of the totals, first and last the first and last totals, and pct their percent change (0 when first is 0) |
| Dashboard.TrendFor | CarbMine/frontend/src/pages/Dashboard.js:109-138 | a known range gets its data; any other falls back to '6m'; labels and data have equal length |
| RecommendationsPage.Filtered | CarbMine/frontend/src/pages/Recommendations.js:90-98 | an order-preserving subsequence of the items holding exactly those that pass all three filters |
| RecommendationsPage.Keep | CarbMine/frontend/src/pages/Recommendations.js:90-97 | both filters 'all' and no search keep every item; a kept item has the chosen impact and category, ignoring case |
| RecommendationsPage.FilteredAllKeepsEverything | CarbMine/frontend/src/pages/Recommendations.js:90-98 | with both filters 'all' and no search the list is unchanged |
| RecommendationsPage.Categories | CarbMine/frontend/src/pages/Recommendations.js:100-103 | 'all' first, then distinct non-empty lower-cased categories in order of first appearance, each taken from some item, and every item's category among them |
| RecommendationsPage.TotalReduction | CarbMine/frontend/src/pages/Recommendations.js:105-107 | the total is the sum of the items' reductions, and non-negative when each reduction is |
| RecommendationsPage.TotalOfSubsequence | CarbMine/frontend/src/pages/Recommendations.js:105-107 | the total over any sub-list of non-negative reductions is between 0 and the whole total |
| RecommendationsPage.FilteredTotalBounded | CarbMine/frontend/src/pages/Recommendations.js:105-107 | filtering never raises the total reduction |
| RecommendationsPage.CountImpacts | CarbMine/frontend/src/pages/Recommendations.js:109-116 | each counter is the number of items with that lower-cased impact, and the three sum to at most the list's length |
| RecommendationsPage.CountLevel | CarbMine/frontend/src/pages/Recommendations.js:109-116 | a level's count never exceeds the number of items |
| RecommendationsPage.BadgeClass | CarbMine/frontend/src/pages/Recommendations.js:4-12 | the first keyword present in the order renewable, efficiency, capture, offset, policy/behavior decides; the default iff none occurs |
| RecommendationsPage.ImpactClass | CarbMine/frontend/src/pages/Recommendations.js:14-19 | red iff high, orange iff medium, green otherwise, ignoring case |
| ReportView.Stamp | CarbMine/frontend/src/components/View.js:76 | `createdAt` when present, else `created_at` |
| ReportView.FormatWhen | CarbMine/frontend/src/components/View.js:30-46 | '' iff the stamp is missing; a timestamp's seconds × 1000, a date's own milliseconds |
| ReportView.TimestampMatchesInstant | CarbMine/frontend/src/components/View.js:34-42 | a timestamp and the date at the same instant format alike |
| ReportView.FormatDate | CarbMine/frontend/src/components/View.js:48-58 | "Unknown date" for a missing stamp, else the locale text of its instant |
| ReportView.RelativeTime | CarbMine/frontend/src/components/View.js:60-71 | "Unknown" iff missing; < 60 s just now, < 3600 minutes, < 86400 hours, < 2592000 days, otherwise a date |
| ReportView.ElapsedSeconds | CarbMine/frontend/src/components/View.js:64 | the floor of the elapsed milliseconds over 1000 |
| ReportView.RelativeTimeCounts | CarbMine/frontend/src/components/View.js:67-69 | the count shown is the floor of elapsed time in its unit: 1–59 minutes, 1–23 hours, 1–29 days |
| ReportView.FutureIsJustNow | CarbMine/frontend/src/components/View.js:64-66 | a stamp in the future reads as just now |
| ReportView.Kept | CarbMine/frontend/src/components/View.js:73-80 | an order-preserving subsequence of the reports holding exactly those whose date, name or mine name contains the search, ignoring case |
| ReportView.Matches | CarbMine/frontend/src/components/View.js:75-79 | an empty search matches every report |
| ReportView.SortKey | CarbMine/frontend/src/components/View.js:82-89 | 0 for a missing stamp (as `'' - date` gives), seconds × 1000 for a timestamp, the milliseconds of a date |
| ReportView.FilteredAndSorted | CarbMine/frontend/src/components/View.js:73-90 | a permutation of the kept reports, never longer than the input, newest first for 'newest' and oldest first otherwise |
| ReportView.EmptySearchKeepsAll | CarbMine/frontend/src/components/View.js:73-80 | an empty search keeps every report |
| ReportView.SameInstantKeepsOrder | CarbMine/frontend/src/components/View.js:81-90 | reports with the same instant keep their saved order |
| Brief.TotalOrZero | CarbMine/frontend/src/components/DecarbonizationBrief.js:34 | a missing or NaN total counts as 0 |
| Brief.BandFor | CarbMine/frontend/src/components/DecarbonizationBrief.js:120-214 | exactly one band for a numeric target (≤ 25, (25, 50], (50, 75], > 75), none for NaN |
| Brief.BandMonotone | CarbMine/frontend/src/components/DecarbonizationBrief.js:120-214 | a higher target never selects a lower band |
| Brief.Coverage | CarbMine/frontend/src/components/DecarbonizationBrief.js:281 | min(75, target), NaN for NaN |
| Brief.DecarbonizationBrief | CarbMine/frontend/src/components/DecarbonizationBrief.js:4-281 | nothing iff no results; tonnes × 1000 = the total; reduction × 100000 = total × target |
| Brief.TargetReductionBounded | CarbMine/frontend/src/components/DecarbonizationBrief.js:274 | for a target in [0, 100] and a non-negative total, 0 ≤ reduction ≤ tonnes |
| Brief.MissingTotalIsZero | CarbMine/frontend/src/components/DecarbonizationBrief.js:34 | no recorded total shows 0 tonnes and a 0 reduction |
| Numbers.PyFloat | CarbMine/backend/app/services.py:479 | a number converts to itself and a boolean to 1 or 0; a string converts iff its stripped text is a decimal literal, to that literal's value; null and containers fail |
| Numbers.PyInt | CarbMine/backend/app/services.py:483 | a number truncates toward zero and a boolean is 1 or 0; a string converts iff its stripped text is an integer literal, to that literal's value |
| Numbers.JsNumber | CarbMine/frontend/src/pages/Predict.js:32-33 | a blank string is 0; otherwise finite iff the trimmed text is a decimal literal, with that literal's value |
| Numbers.ParseDecimalLiteral | CarbMine/backend/app/services.py:479 | `[+-] digits . digits` reads as all its digits taken as one whole number, over ten to the number of fraction digits, under its sign |
| Numbers.ParseDecimalWhole | CarbMine/backend/app/services.py:479 | `[+-] digits` reads as its digits' value under its sign |
| Numbers.ParseIntegerLiteral | CarbMine/backend/app/services.py:483 | `int()` reads `[+-] digits` as its digits' value, negated after '-' |
| Numbers.JsParseIntDigits | CarbMine/frontend/src/pages/Analysis.js:66 | `parseInt` reads a string of digits as its value |
| Numbers.JsParseFloat | CarbMine/frontend/src/pages/Analysis.js:67-70 | finite iff a decimal literal starts the text after leading blanks |
| Numbers.JsParseFloatPointed | CarbMine/frontend/src/pages/Analysis.js:67-70 | a `[+-] digits . digits` literal after blanks and before text not starting with a digit reads as its reference value (all digits as one number over ten to the fraction's length) |
| Numbers.JsParseFloatWhole | CarbMine/frontend/src/pages/Analysis.js:67-70 | a `[+-] digits` literal before text starting with neither a digit nor a point reads as its signed value, so "12px" gives 12 |
| Numbers.JsParseInt | CarbMine/frontend/src/pages/Analysis.js:66 | a number iff a digit starts the text after leading blanks and one optional sign; negative only after a '-' |
| Numbers.JsParseIntShowNat | CarbMine/frontend/src/pages/Analysis.js:66 | `parseInt` reads back a rendered year |
| Seqs.DedupFirstOccurrenceOrder | CarbMine/frontend/src/pages/Recommendations.js:101-102 | distinct values come out in first-occurrence order, as a `Set` keeps them |
| Series.MinMeanMax | CarbMine/frontend/src/pages/Predict.js:88-90 | the mean of a non-empty list lies between its minimum and its maximum |
| Series.PctChange | CarbMine/frontend/src/pages/Predict.js:91 | 0 when first is 0; otherwise its sign is that of last − first and it scales to (last − first) × 100 over abs(first) |
| Sorting.SortByKeyStable | ml/recommend.py:69-71 | for every key the elements with that key come out in input order |
| Sorting.SortByKeySorted | ml/recommend.py:69-71 | the result is ordered by the key in the chosen direction |
| Sorting.SortByKey | ml/recommend.py:69 | the sorted list is a permutation of the input |

## Left out

- Floating-point rounding, `toFixed`, `Math.round` and `toLocaleString` are left out: `real` is exact.
- Real exponentiation (`**`, `Math.pow`) is an uninterpreted parameter `pow`. The growth-rate lemmas assume only the laws they name.
- The learned model is left out: `load_or_train_model`, `predict_years`, `_rank_with_ml` and sklearn training. Their answers enter as `Option` parameters: a learned forecast for `predict_emissions`, learned rows for `generate_recommendations`.
- `heuristic_predict_years` reading its baseline from `coal_emissions.csv` (services.py:274-303) is left out. The baseline and its growth rates are a `Baseline` parameter.
- `_load_static_strategies`, `_load_strategies` and `csv.DictReader`/`pd.read_csv` are left out. The parsed rows arrive as a sequence.
- `ml/data_ingest.py` `main` and its retraining subprocess are left out. `validate_csv` takes the file's existence, its columns and its row count as inputs.
- `get_strategies`, `fetch_pdfs` and `store_pdf_and_metadata` are left out. They are database and file I/O.
- FastAPI's exact 422 bodies and the 500 paths (main.py:205 and 238) are left out. Validation failures carry a placeholder detail, and an internal exception is not modelled.
- Case folding and whitespace are ASCII only. Python's and JavaScript's Unicode `lower()`/`trim()` are not modelled.
- Number syntax is decimal literals only (`[+-]digits[.digits]`). Exponents, hexadecimal, `Infinity`, `inf`/`nan` and underscores are not modelled.
- A JSON `NaN` in a request body is not modelled.
- Storage and JSON are not modelled byte for byte:
  - `localStorage` is a slot holding one of: no entry, text that is not JSON, a JSON value that is not an array, or an array of pins.
  - A stored JSON string would be spread into characters by `[item, ...existing]`. The model takes that case, like any other non-array, as a throw with nothing written.
- Dates are modelled abstractly:
  - The clock is a parameter. Each separate reading is its own parameter, as with `pinForecast`'s id and `createdAt`.
  - Locale date text is an uninterpreted function.
  - A date string is represented by the instant it parses to. An unparseable date string (an Invalid Date) is not modelled.
- ReportView.When: a Firestore timestamp of exactly 0 seconds is excluded by its type. Its `seconds` field is then 0, which JavaScript treats as falsy, so the page would pass the timestamp object itself to `new Date` and get an Invalid Date.
- ReportView.FilteredAndSorted: a missing stamp sorts as instant 0, as `'' - date` does. NaN comparator results cannot arise, since invalid dates are not modelled.
- Analysis.ChartSize: requires a canvas width > 0 and a page height > 0. The source divides by the image width and, for a chart taller than the page, by the scaled height h; pageHeight > 0 keeps h non-zero in that branch.
- The PDF capture is left out: jsPDF, html2canvas and image loading. Only the paging and scaling arithmetic is modelled.
- RecommendationsPage.TotalReduction: the `|| 0` fallback is not modelled. The response schema (schemas.py:40) makes the reduction a required float, so the fallback never applies to a well-formed reply.
- The `timeRange` lookup on inherited object keys (for example `constructor`) is not modelled. Only the table's own keys and the `'6m'` fallback are.
- Error message texts are modelled only as distinct constants where the page shows them.
- Rendering, styling, animations, routing, authentication and the HTTP client are left out.
