# Load-test projection verdicts, modelled in Dafny

The repository runs k6 load tests against the ENEM participant portal. k6
itself drives the virtual users and aggregates percentiles and failure rates;
what the scripts add is a small decision layer in each `handleSummary`,
written three times with variations. This project models that layer over
`real` and proves its properties:

- **Regional comparison** (`Regional`, k6-caso3.js). The p95 latency, failure
  rate and request count of the Nordeste and Sudeste scenarios are read from
  the k6 summary with JavaScript `||` defaults. A guarded relative difference
  `|a - b| / ((a + b) / 2) * 100` (100 when the average is not positive)
  compares times and failure rates. Threshold booleans (`< 10`, `< 15`,
  `< 0.03`) decide EQUIVALENTE/DIVERGENTE and the report's conclusion.
- **Fixed-constant USL projection** (`UslProjection`, test-215.js). Gunther's
  capacity `N / (1 + alpha(N-1) + beta N(N-1))` with alpha = 0.0008 and
  beta = 0.00002 rescales a 147 ms baseline from 1000 to 215 000 users. The
  projected error is clamped by `min(1, .)`, confidence is
  `max(0.7, 1 - 0.3 * simulated/target)`, and the verdict is a conjunction.
- **Logarithmic projection** (`LogProjection`, k6-caso2.1.js). Latency is
  projected as `p95 * ln(200000/users + 1)`, failure rate as
  `min(1, e * (200000/users)^1.2)`, and three thresholds are checked.

Shared modules: `Wrappers` (Option, Result), `JsMath` (`Math.abs/min/max`,
the `||` default, and the assumptions about `Math.log` and `Math.pow`) and
`K6Summary` (the `data.metrics` map and optional-chaining lookup).

`Math.log` and `Math.pow` have no closed form over the reals. They enter the
model as function-valued parameters `ln` and `pow`, and only the predicates
`IsLn` and `IsPow` constrain them:
- `ln(1) = 0`, and `ln` is strictly increasing on positive reals;
- `pow(b, e) > 0` for `b > 0`;
- `pow` does not decrease in `b` when `e > 0`.

Two lemmas exhibit functions satisfying each predicate, so the assumptions
are consistent. No numeric value of a logarithm or power is claimed.

Behaviour of the code that the proofs make explicit:
- A scenario whose summary records a failure rate of exactly 0 is read as
  rate 1, because `0 || 1` is 1. Its region then fails the low-error
  requirement (`MeasuredZeroErrorFailsLowError`).
- `projectTo215k` never reads its argument. It does not read `pow` in any
  way that matters either, since the baseline error is 0
  (`ProjectionIgnoresArgument`).
- The 215k projection is exactly 84953936739/2926580 ms (about 29 028 ms),
  so the "Suporte a 215k" verdict is false (`ProjectedTimeValue`).
- Confidence has no 0.85 cap, whatever the "70-85%" comment says. For
  10 000/215 000 it is 212/215, about 0.986 (`ConfidenceOfProjection`).

The confidence does not increase as `simulated/target` grows, so it does not
fall as the extrapolation distance `target/simulated` grows; the "70-85%" comment at
test-215.js:144 promises a cap the code lacks (`ConfidenceNonIncreasing`).

## Model

| member | source | states |
|---|---|---|
| `JsMath.OrElse` | k6-caso3.js:147-155 | the logical-or default on a possibly undefined number picks `d` exactly when `x` is undefined or 0, and `x` otherwise |
| `JsMath.Abs` | k6-caso3.js:174-178 | `Math.abs` is non-negative and is the argument or its negation |
| `JsMath.Min` | k6-caso2.1.js:114 | `Math.min` is at most each argument and equals one of them (also test-215.js:129) |
| `JsMath.Max` | test-215.js:144 | `Math.max` is at least each argument and equals one of them |
| `K6Summary.Value` | k6-caso3.js:147-155 | a statistic is present exactly when both the metric and the field exist, and is then the recorded number; the same lookup serves the unguarded `metrics.X.values.Y` reads at k6-caso2.1.js:79-82, where an absent peak load, p95 or rate makes the analysis fail, while an absent request count does not |
| `Regional.ExtractRegion` | k6-caso3.js:146-156 | a missing p95 or count reads as 0; a missing or zero failure rate reads as 1, so the extracted rate is never 0; any other recorded rate is kept |
| `Regional.RelativeDifference` | k6-caso3.js:174-180 | the guarded difference is never negative; it is the sentinel 100 when the average is not positive; otherwise it times `a + b` equals `200 * abs(a - b)` |
| `Regional.RelativeDifferenceSymmetric` | k6-caso3.js:174-180 | swapping the operands leaves the relative difference unchanged |
| `Regional.RelativeDifferenceBounded` | k6-caso3.js:174-180 | for non-negative operands the relative difference lies in [0, 200] |
| `Regional.RelativeDifferenceOfEqual` | k6-caso3.js:174-176 | equal positive operands are 0% apart |
| `Regional.CompareRegions` | k6-caso3.js:173-188 | times and failure rates use the same guarded difference; both differences are non-negative; the conclusion is EQUIVALENTE exactly when the performance difference is below 10 |
| `Regional.CompareRegionsSymmetric` | k6-caso3.js:173-188 | swapping the regions leaves every field of the comparison, the conclusion included, unchanged |
| `Regional.CompareRegionsBounded` | k6-caso3.js:174-180 | with non-negative measurements both percentage differences lie in [0, 200] |
| `Regional.ZeroAverageIsDivergent` | k6-caso3.js:175-186 | a non-positive time sum gives performance difference 100 and DIVERGENTE; a non-positive error sum gives error difference 100 |
| `Regional.EqualTimesAreEquivalent` | k6-caso3.js:174-186 | equal positive response times give performance difference 0 and EQUIVALENTE |
| `Regional.Requirements` | k6-caso3.js:164-168 | the three booleans are the thresholds below 10, below 0.03 for both regions, and below 15; equivalent performance implies effective balancing |
| `Regional.RegionalReport` | k6-caso3.js:190-223 | the report's performance, error and balancing booleans are the same thresholds, and the ADEQUADA conclusion is printed exactly when performance and error both hold |
| `Regional.AnalyzeRegionalPerformance` | k6-caso3.js:142-171 | the analysis extracts both scenarios by name and feeds those same records to comparison, requirements and report |
| `Regional.VerdictsAgree` | k6-caso3.js:164-222 | the conclusion string, the requirements record and the report verdicts agree for every summary; ADEQUADA holds exactly when both requirements do |
| `Regional.MeasuredZeroErrorFailsLowError` | k6-caso3.js:146-166 | a scenario whose summary records failure rate 0 is read as rate 1, so low error in both regions and the ADEQUADA conclusion are false |
| `Regional.MissingLatencyIsDivergent` | k6-caso3.js:147-186 | when neither scenario reports a p95, the regions are 100% apart, DIVERGENTE, and not ADEQUADA |
| `UslProjection.UslDenominator` | test-215.js:125-126 | the denominator is 1 for a single user, and 1 for every load when both coefficients are 0 (linear scaling) |
| `UslProjection.UslDenominatorAtLeastOne` | test-215.js:125-126 | from one user upwards, with non-negative coefficients, the USL denominator is at least 1 |
| `UslProjection.UslCapacity` | test-215.js:125-126 | the capacity times the denominator is N; one user has capacity 1; from one user upwards with non-negative coefficients it is positive and at most N |
| `UslProjection.ProjectTo215k` | test-215.js:112-139 | the projected time is positive; the projected error is exactly 0, since the zero baseline error keeps the `min(1, .)` clamp from ever applying; the loads are 10 000 and 215 000; the verdict holds exactly when time < 5000 and error < 0.02 |
| `UslProjection.ProjectionIgnoresArgument` | test-215.js:112-129 | the projection is identical for every table of load levels and every power function |
| `UslProjection.ProjectedTimeValue` | test-215.js:116-136 | the projected time is exactly 84953936739/2926580 ms, between 29 028 and 29 029, so the verdict is false |
| `UslProjection.ConfidenceFromRatio` | test-215.js:141-145 | confidence is at least 0.7; at most 1 for a non-negative ratio; `1 - 0.3 ratio` up to ratio 1 and 0.7 beyond |
| `UslProjection.CalculateConfidence` | test-215.js:141-145 | the confidence of a projection is at least 0.7, and at most 1 when simulated/target is non-negative |
| `UslProjection.ConfidenceNonIncreasing` | test-215.js:143-144 | confidence does not increase as simulated/target increases |
| `UslProjection.ConfidenceOfProjection` | test-215.js:134-144 | for the hard-coded 10 000/215 000 the confidence is 212/215, above 0.85 |
| `UslProjection.GenerateReport` | test-215.js:155-158 | the time line reads SIM iff time < 5000, the error line iff error < 0.02, the 215k line iff the projection's verdict |
| `UslProjection.Analyze` | test-215.js:91-110 | the analysis keeps the given table, and its projection, confidence and report come from that one projection |
| `UslProjection.ReportLinesAgree` | test-215.js:136-158 | the 215k line reads SIM exactly when both other lines do; with the fixed constants the time and 215k lines read NAO and the error line SIM |
| `LogProjection.ProjectTo200k` | k6-caso2.1.js:109-121 | the projected error is at most 1; it is non-negative for a non-negative rate and 0 for a zero rate; the projected latency is non-negative for a non-negative p95 and positive for a positive one |
| `LogProjection.ProjectionAtTarget` | k6-caso2.1.js:113 | when the observed load equals the target, the projected latency is `p95 * ln 2` |
| `LogProjection.ResponseTimeLinearInP95` | k6-caso2.1.js:113 | the projected latency is linear in the measured p95 |
| `LogProjection.ErrorRateMonotoneInRate` | k6-caso2.1.js:114 | the projected error does not decrease as the measured rate increases |
| `LogProjection.ProjectionNonIncreasingInUsers` | k6-caso2.1.js:113-114 | for non-negative measurements a larger observed load projects no larger latency and no larger error |
| `LogProjection.Requirements` | k6-caso2.1.js:96-100 | the response-time, error-rate and no-outage booleans are the thresholds below 8000, 0.03 and 0.10; error-rate implies no-outage |
| `LogProjection.GenerateReport` | k6-caso2.1.js:123-154 | the report's time, error and outage booleans are the same thresholds, and ATENDE is printed exactly when time and error both hold |
| `LogProjection.ReportAgreesWithRequirements` | k6-caso2.1.js:96-126 | the report's `meetsAll` is `response_time && error_rate`, and each report boolean equals its requirements counterpart |
| `LogProjection.AnalyzeForCase2` | k6-caso2.1.js:77-107 | an analysis is produced exactly when the peak load, p95 and failure rate are present, the `http_reqs` metric exists and the load is positive; the count field inside `http_reqs` is kept as read, possibly absent; it then projects from those values and derives both verdict records from that projection |
| `LogProjection.MissingRequestMetricFails` | k6-caso2.1.js:82 | every summary lacking the `http_reqs` metric yields no analysis |
| `LogProjection.MissingCountFieldSucceeds` | k6-caso2.1.js:79-92 | every summary with a positive peak load, a p95 and a failure rate whose `http_reqs` record lacks `count` yields an analysis, with the count absent |
| `LogProjection.ZeroErrorRunVerdict` | k6-caso2.1.js:96-126 | a run recording failure rate 0 projects failure rate 0, meets the error and outage thresholds, and is ATENDE exactly when projected latency is below 8000 |

## Left out

- k6 `options` (scenarios, ramp stages, thresholds), the virtual-user functions, HTTP requests, `check`, `sleep` and the `Trend`/`Rate`/`Counter` metrics: load generation done by k6, not logic of the scripts. k6-caso1.js, k6-caso2.js, teste-enem.js and test-simple.js contain only such code and are not part of this model.
- Percentile and rate aggregation: k6 computes them; the model takes the summary as given.
- The `testLevels` table of test-215.js: its entries past the first are null placeholders that are never filled, and no computation reads it; it is only copied into the analysis (test-215.js:105) and serialised. `UslProjection.Analyze` takes the table as a parameter instead.
- Report text: template strings, `toFixed`, `console.log`, `JSON.stringify`, the `handleSummary` return maps and the remote `textSummary` import. Only the booleans that choose the text are modelled. The `service_availability` string of k6-caso2.1.js is presentation only.
- IEEE-754 behaviour: numbers are `real`, so NaN, Infinity and rounding are not modelled. NaN is also falsy under `||`, which `JsMath.OrElse` does not cover.
- Numeric values of `Math.log` and `Math.pow`: only the axioms `IsLn` and `IsPow` are assumed, so no concrete latency or verdict of the logarithmic projection is computed.
- `LogProjection.ProjectTo200k`: requires a positive `currentUsers`. The script has no guard, and a zero load divides by zero.
- `LogProjection.AnalyzeForCase2`: returns `Failure(MissingMetric)` when the peak load, p95 or failure rate is absent, and `Failure(NonPositiveUsers)` when the peak load is not positive. In the script a missing metric object, or a missing p95 (its `toFixed` at k6-caso2.1.js:133), throws a TypeError; a missing peak load or failure rate propagates `undefined` into NaN projections and verdicts; a zero load yields Infinity. A missing `http_reqs` metric throws too (k6-caso2.1.js:82) and gives `Failure(MissingMetric)`; a missing `count` field inside it does not affect any verdict and is modelled as an absent `totalRequests`.
- `UslProjection.UslCapacity`: requires a non-zero denominator. The script evaluates the formula only at the fixed constants, where the denominator is positive.
- `Regional.ExtractRegion`: reads only numeric statistics; a summary value of another JavaScript type is not modelled.
