/** Regional comparison of two concurrently loaded scenarios (Nordeste and
    Sudeste): metric extraction with JavaScript `||` defaults, the relative
    difference with a zero-average guard, and the verdict booleans of the
    report. */
module Regional {
  import opened Wrappers
  import opened JsMath
  import opened K6Summary

  const NordesteScenario: string := "nordeste_users"
  const SudesteScenario: string := "sudeste_users"

  /** Relative difference (percent) below which two regions are equivalent. */
  const EquivalenceLimit: real := 10.0
  /** Relative difference (percent) below which load balancing is effective. */
  const BalancingLimit: real := 15.0
  /** Failure rate below which a region has low error. */
  const LowErrorLimit: real := 0.03
  /** The relative difference reported when the average is not positive. */
  const GuardSentinel: real := 100.0

  /** The numbers extracted for one region. */
  datatype RegionMetrics = RegionMetrics(responseTime: real, errorRate: real, totalRequests: real)

  datatype Conclusion = Equivalente | Divergente

  datatype Comparison = Comparison(
    performanceDifference: real,
    errorDifferencePercent: real,
    timeDifference: real,
    conclusion: Conclusion)

  /** The `requirements_met` record of the analysis. */
  datatype RequirementsMet = RequirementsMet(
    equivalentPerformance: bool,
    lowErrorBothRegions: bool,
    loadBalancingEffective: bool)

  /** The booleans that choose the text of the regional report. */
  datatype ReportVerdicts = ReportVerdicts(
    meetsPerformance: bool,
    meetsError: bool,
    balancingEffective: bool,
    adequate: bool)

  datatype RegionalAnalysis = RegionalAnalysis(
    nordeste: RegionMetrics,
    sudeste: RegionMetrics,
    comparison: Comparison,
    requirementsMet: RequirementsMet,
    report: ReportVerdicts)

  /** The p95 duration, failure rate and request count of one scenario, as
      the summary records them (absent when missing). */
  function P95Of(metrics: Metrics, scenario: string): (v: Option<real>) {
    Value(metrics, ScenarioKey("http_req_duration", scenario), "p(95)")
  }

  function RateOf(metrics: Metrics, scenario: string): (v: Option<real>) {
    Value(metrics, ScenarioKey("http_req_failed", scenario), "rate")
  }

  function CountOf(metrics: Metrics, scenario: string): (v: Option<real>) {
    Value(metrics, ScenarioKey("http_reqs", scenario), "count")
  }

  /** Extraction of one region: a missing p95 or count reads as 0, and a
      failure rate that is missing or exactly 0 reads as 1, so the extracted
      rate is never 0. */
  function ExtractRegion(metrics: Metrics, scenario: string): (r: RegionMetrics)
    ensures r.responseTime == P95Of(metrics, scenario).GetOr(0.0)
    ensures r.totalRequests == CountOf(metrics, scenario).GetOr(0.0)
    ensures r.errorRate != 0.0
    ensures RateOf(metrics, scenario).None? ==> r.errorRate == 1.0
    ensures RateOf(metrics, scenario) == Some(0.0) ==> r.errorRate == 1.0
    ensures RateOf(metrics, scenario).Some? && RateOf(metrics, scenario).value != 0.0 ==>
              r.errorRate == RateOf(metrics, scenario).value
  {
    RegionMetrics(
      OrElse(P95Of(metrics, scenario), 0.0),
      OrElse(RateOf(metrics, scenario), 1.0),
      OrElse(CountOf(metrics, scenario), 0.0))
  }

  /** `|a - b| / ((a + b) / 2) * 100`, or the sentinel 100 when the average
      is not positive. */
  function RelativeDifference(a: real, b: real): (r: real)
    ensures r >= 0.0
    ensures (a + b) / 2.0 <= 0.0 ==> r == GuardSentinel
    ensures (a + b) / 2.0 > 0.0 ==> r * (a + b) == 200.0 * Abs(a - b)
  {
    var diff := Abs(a - b);
    var avg := (a + b) / 2.0;
    if avg > 0.0 then (diff / avg) * 100.0 else GuardSentinel
  }

  /** Swapping the operands does not change the relative difference. */
  lemma RelativeDifferenceSymmetric(a: real, b: real)
    ensures RelativeDifference(a, b) == RelativeDifference(b, a)
  {
  }

  /** For non-negative operands the relative difference is at most 200. */
  lemma RelativeDifferenceBounded(a: real, b: real)
    requires 0.0 <= a && 0.0 <= b
    ensures 0.0 <= RelativeDifference(a, b) <= 200.0
  {
    var avg := (a + b) / 2.0;
    if avg > 0.0 {
      var diff := Abs(a - b);
      assert diff <= 2.0 * avg;
      var q := diff / avg;
      assert q * avg == diff;
      assert q <= 2.0;
    }
  }

  /** Equal positive operands differ by exactly 0 percent. */
  lemma RelativeDifferenceOfEqual(a: real)
    requires a > 0.0
    ensures RelativeDifference(a, a) == 0.0
  {
  }

  /** `compareRegions`: the same guarded relative difference for times and
      for failure rates; the conclusion reads EQUIVALENTE exactly below 10%. */
  function CompareRegions(nordeste: RegionMetrics, sudeste: RegionMetrics): (c: Comparison)
    ensures c.timeDifference == Abs(nordeste.responseTime - sudeste.responseTime)
    ensures c.performanceDifference == RelativeDifference(nordeste.responseTime, sudeste.responseTime)
    ensures c.errorDifferencePercent == RelativeDifference(nordeste.errorRate, sudeste.errorRate)
    ensures c.conclusion == Equivalente <==> c.performanceDifference < EquivalenceLimit
    ensures c.performanceDifference >= 0.0 && c.errorDifferencePercent >= 0.0
  {
    var timeDifference := Abs(nordeste.responseTime - sudeste.responseTime);
    var performanceDifference := RelativeDifference(nordeste.responseTime, sudeste.responseTime);
    var errorDifferencePercent := RelativeDifference(nordeste.errorRate, sudeste.errorRate);
    Comparison(
      performanceDifference,
      errorDifferencePercent,
      timeDifference,
      if performanceDifference < EquivalenceLimit then Equivalente else Divergente)
  }

  /** The comparison does not depend on which region is named first. */
  lemma CompareRegionsSymmetric(nordeste: RegionMetrics, sudeste: RegionMetrics)
    ensures CompareRegions(nordeste, sudeste) == CompareRegions(sudeste, nordeste)
  {
    RelativeDifferenceSymmetric(nordeste.responseTime, sudeste.responseTime);
    RelativeDifferenceSymmetric(nordeste.errorRate, sudeste.errorRate);
  }

  /** Both differences stay within [0, 200] for non-negative measurements. */
  lemma CompareRegionsBounded(nordeste: RegionMetrics, sudeste: RegionMetrics)
    requires 0.0 <= nordeste.responseTime && 0.0 <= sudeste.responseTime
    requires 0.0 <= nordeste.errorRate && 0.0 <= sudeste.errorRate
    ensures 0.0 <= CompareRegions(nordeste, sudeste).performanceDifference <= 200.0
    ensures 0.0 <= CompareRegions(nordeste, sudeste).errorDifferencePercent <= 200.0
  {
    RelativeDifferenceBounded(nordeste.responseTime, sudeste.responseTime);
    RelativeDifferenceBounded(nordeste.errorRate, sudeste.errorRate);
  }

  /** Zero-average guard: a non-positive average time yields the sentinel
      100 and the conclusion DIVERGENTE; likewise 100 for errors. */
  lemma ZeroAverageIsDivergent(nordeste: RegionMetrics, sudeste: RegionMetrics)
    ensures nordeste.responseTime + sudeste.responseTime <= 0.0 ==>
              CompareRegions(nordeste, sudeste).performanceDifference == 100.0 &&
              CompareRegions(nordeste, sudeste).conclusion == Divergente
    ensures nordeste.errorRate + sudeste.errorRate <= 0.0 ==>
              CompareRegions(nordeste, sudeste).errorDifferencePercent == 100.0
  {
  }

  /** Equal positive response times are 0% apart and EQUIVALENTE. */
  lemma EqualTimesAreEquivalent(nordeste: RegionMetrics, sudeste: RegionMetrics)
    requires nordeste.responseTime == sudeste.responseTime > 0.0
    ensures CompareRegions(nordeste, sudeste).performanceDifference == 0.0
    ensures CompareRegions(nordeste, sudeste).conclusion == Equivalente
  {
    RelativeDifferenceOfEqual(nordeste.responseTime);
  }

  /** The `requirements_met` block of `analyzeRegionalPerformance`. */
  function Requirements(nordeste: RegionMetrics, sudeste: RegionMetrics, c: Comparison): (q: RequirementsMet)
    ensures q.equivalentPerformance <==> c.performanceDifference < 10.0
    ensures q.lowErrorBothRegions <==> nordeste.errorRate < 0.03 && sudeste.errorRate < 0.03
    ensures q.loadBalancingEffective <==> c.performanceDifference < 15.0
    ensures q.equivalentPerformance ==> q.loadBalancingEffective
  {
    RequirementsMet(
      c.performanceDifference < EquivalenceLimit,
      nordeste.errorRate < LowErrorLimit && sudeste.errorRate < LowErrorLimit,
      c.performanceDifference < BalancingLimit)
  }

  /** The booleans `generateRegionalReport` computes to choose its text. */
  function RegionalReport(nordeste: RegionMetrics, sudeste: RegionMetrics, c: Comparison): (v: ReportVerdicts)
    ensures v.adequate <==> v.meetsPerformance && v.meetsError
    ensures v.meetsPerformance <==> c.performanceDifference < 10.0
    ensures v.meetsError <==> nordeste.errorRate < 0.03 && sudeste.errorRate < 0.03
    ensures v.balancingEffective <==> c.performanceDifference < 15.0
  {
    var meetsPerformance := c.performanceDifference < EquivalenceLimit;
    var meetsError := nordeste.errorRate < LowErrorLimit && sudeste.errorRate < LowErrorLimit;
    ReportVerdicts(
      meetsPerformance,
      meetsError,
      c.performanceDifference < BalancingLimit,
      meetsPerformance && meetsError)
  }

  /** `analyzeRegionalPerformance`: extraction, comparison, requirements and
      report verdicts for the two scenarios. */
  function AnalyzeRegionalPerformance(metrics: Metrics): (a: RegionalAnalysis)
    ensures a.nordeste == ExtractRegion(metrics, NordesteScenario)
    ensures a.sudeste == ExtractRegion(metrics, SudesteScenario)
    ensures a.comparison == CompareRegions(a.nordeste, a.sudeste)
    ensures a.requirementsMet == Requirements(a.nordeste, a.sudeste, a.comparison)
    ensures a.report == RegionalReport(a.nordeste, a.sudeste, a.comparison)
  {
    var nordeste := ExtractRegion(metrics, NordesteScenario);
    var sudeste := ExtractRegion(metrics, SudesteScenario);
    var comparison := CompareRegions(nordeste, sudeste);
    RegionalAnalysis(
      nordeste, sudeste, comparison,
      Requirements(nordeste, sudeste, comparison),
      RegionalReport(nordeste, sudeste, comparison))
  }

  /** The report and the `requirements_met` record agree, the conclusion
      string agrees with `equivalent_performance`, and "ADEQUADA" is printed
      exactly when both performance and error requirements hold. */
  lemma VerdictsAgree(metrics: Metrics)
    ensures var a := AnalyzeRegionalPerformance(metrics);
      && (a.comparison.conclusion == Equivalente <==> a.requirementsMet.equivalentPerformance)
      && (a.requirementsMet.equivalentPerformance ==> a.requirementsMet.loadBalancingEffective)
      && a.report.meetsPerformance == a.requirementsMet.equivalentPerformance
      && a.report.meetsError == a.requirementsMet.lowErrorBothRegions
      && a.report.balancingEffective == a.requirementsMet.loadBalancingEffective
      && (a.report.adequate <==> a.requirementsMet.equivalentPerformance && a.requirementsMet.lowErrorBothRegions)
  {
  }

  /** A region whose summary records a failure rate of exactly 0 is read as
      failing every request, so the low-error requirement and the "ADEQUADA"
      conclusion are both lost. */
  lemma MeasuredZeroErrorFailsLowError(metrics: Metrics, scenario: string)
    requires scenario == NordesteScenario || scenario == SudesteScenario
    requires RateOf(metrics, scenario) == Some(0.0)
    ensures ExtractRegion(metrics, scenario).errorRate == 1.0
    ensures !AnalyzeRegionalPerformance(metrics).requirementsMet.lowErrorBothRegions
    ensures !AnalyzeRegionalPerformance(metrics).report.adequate
  {
  }

  /** When neither region reports a p95, both read as 0 and the comparison
      falls into the zero-average guard: 100% apart, DIVERGENTE. */
  lemma MissingLatencyIsDivergent(metrics: Metrics)
    requires P95Of(metrics, NordesteScenario).None? && P95Of(metrics, SudesteScenario).None?
    ensures AnalyzeRegionalPerformance(metrics).comparison.performanceDifference == 100.0
    ensures AnalyzeRegionalPerformance(metrics).comparison.conclusion == Divergente
    ensures !AnalyzeRegionalPerformance(metrics).report.adequate
  {
    var a := AnalyzeRegionalPerformance(metrics);
    ZeroAverageIsDivergent(a.nordeste, a.sudeste);
  }
}
