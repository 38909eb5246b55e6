/** The 200 000-user projection from one measured run: latency grows with
    `ln(target / users + 1)`, the failure rate with `(target / users)^1.2`
    clamped at 1, and three requirement thresholds are checked. */
module LogProjection {
  import opened Wrappers
  import opened JsMath
  import opened K6Summary

  const TargetUsers: real := 200000.0
  const ErrorExponent: real := 1.2
  /** Requirement ceilings: p95 in milliseconds, failure rate, outage rate. */
  const TimeLimit: real := 8000.0
  const ErrorLimit: real := 0.03
  const OutageLimit: real := 0.10

  datatype Projection = Projection(responseTime: real, errorRate: real)

  /** The `requirements_met` record of `analyzeForCase2`. */
  datatype RequirementsMet = RequirementsMet(responseTime: bool, errorRate: bool, noOutage: bool)

  /** The booleans `generateCase2Report` computes to choose its text. */
  datatype ReportVerdicts = ReportVerdicts(meetsTime: bool, meetsError: bool, noOutage: bool, meetsAll: bool)

  /** The numbers `analyzeForCase2` reads from the summary. */
  datatype TestData = TestData(maxUsers: real, responseTimeP95: real, errorRate: real, totalRequests: Option<real>)

  datatype Case2Analysis = Case2Analysis(
    testData: TestData,
    projection: Projection,
    requirementsMet: RequirementsMet,
    report: ReportVerdicts)

  /** Why no analysis is produced: a metric or statistic the script reads is
      absent, or the peak load is not positive. */
  datatype Case2Error = MissingMetric(name: string, field: string) | NonPositiveUsers

  /** `projectTo200k`. The script does not guard `currentUsers`; a zero load
      would divide by zero, so the model requires a positive one. */
  function ProjectTo200k(currentP95: real, currentErrorRate: real, currentUsers: real,
                         ln: real -> real, pow: (real, real) -> real): (p: Projection)
    requires currentUsers > 0.0
    requires IsLn(ln) && IsPow(pow)
    ensures p.errorRate <= 1.0
    ensures currentErrorRate >= 0.0 ==> p.errorRate >= 0.0
    ensures currentErrorRate == 0.0 ==> p.errorRate == 0.0
    ensures currentP95 >= 0.0 ==> p.responseTime >= 0.0
    ensures currentP95 > 0.0 ==> p.responseTime > 0.0
  {
    var ratio := TargetUsers / currentUsers;
    LnPositiveAboveOne(ln, ratio + 1.0);
    var responseTimeProjected := currentP95 * ln(ratio + 1.0);
    var errorRateProjected := Min(1.0, currentErrorRate * pow(ratio, ErrorExponent));
    Projection(responseTimeProjected, errorRateProjected)
  }

  /** At the observed load (users equal to the target) the latency is
      `p95 * ln 2`. */
  lemma ProjectionAtTarget(currentP95: real, currentErrorRate: real,
                           ln: real -> real, pow: (real, real) -> real)
    requires IsLn(ln) && IsPow(pow)
    ensures ProjectTo200k(currentP95, currentErrorRate, TargetUsers, ln, pow).responseTime
              == currentP95 * ln(2.0)
  {
  }

  /** The projected latency is linear in the measured p95. */
  lemma ResponseTimeLinearInP95(k: real, p95a: real, p95b: real, currentErrorRate: real,
                                currentUsers: real, ln: real -> real, pow: (real, real) -> real)
    requires currentUsers > 0.0
    requires IsLn(ln) && IsPow(pow)
    ensures ProjectTo200k(k * p95a + p95b, currentErrorRate, currentUsers, ln, pow).responseTime
              == k * ProjectTo200k(p95a, currentErrorRate, currentUsers, ln, pow).responseTime
                 + ProjectTo200k(p95b, currentErrorRate, currentUsers, ln, pow).responseTime
  {
  }

  /** The projected failure rate never decreases with the measured one. */
  lemma ErrorRateMonotoneInRate(e1: real, e2: real, currentP95: real, currentUsers: real,
                                ln: real -> real, pow: (real, real) -> real)
    requires e1 <= e2
    requires currentUsers > 0.0
    requires IsLn(ln) && IsPow(pow)
    ensures ProjectTo200k(currentP95, e1, currentUsers, ln, pow).errorRate
              <= ProjectTo200k(currentP95, e2, currentUsers, ln, pow).errorRate
  {
    var x := pow(TargetUsers / currentUsers, ErrorExponent);
    assert 0.0 < x;
    ScaleMonotone(e1, e2, x);
  }

  lemma ScaleMonotone(e1: real, e2: real, x: real)
    requires e1 <= e2 && 0.0 < x
    ensures Min(1.0, e1 * x) <= Min(1.0, e2 * x)
  {
    assert e1 * x <= e2 * x;
  }

  /** Holding the measurements fixed, a larger observed load projects no
      larger latency and no larger failure rate. */
  lemma ProjectionNonIncreasingInUsers(currentP95: real, currentErrorRate: real,
                                       u1: real, u2: real,
                                       ln: real -> real, pow: (real, real) -> real)
    requires 0.0 < u1 <= u2
    requires currentP95 >= 0.0 && currentErrorRate >= 0.0
    requires IsLn(ln) && IsPow(pow)
    ensures ProjectTo200k(currentP95, currentErrorRate, u2, ln, pow).responseTime
              <= ProjectTo200k(currentP95, currentErrorRate, u1, ln, pow).responseTime
    ensures ProjectTo200k(currentP95, currentErrorRate, u2, ln, pow).errorRate
              <= ProjectTo200k(currentP95, currentErrorRate, u1, ln, pow).errorRate
  {
    var r1 := TargetUsers / u1;
    var r2 := TargetUsers / u2;
    RatioAntitone(u1, u2);
    LnMonotone(ln, r2 + 1.0, r1 + 1.0);
    assert currentP95 * ln(r2 + 1.0) <= currentP95 * ln(r1 + 1.0);
    assert pow(r2, ErrorExponent) <= pow(r1, ErrorExponent);
    assert currentErrorRate * pow(r2, ErrorExponent) <= currentErrorRate * pow(r1, ErrorExponent);
  }

  lemma RatioAntitone(u1: real, u2: real)
    requires 0.0 < u1 <= u2
    ensures 0.0 < TargetUsers / u2 <= TargetUsers / u1
  {
    var r1 := TargetUsers / u1;
    var r2 := TargetUsers / u2;
    assert r1 * u1 == TargetUsers && r2 * u2 == TargetUsers;
    assert r2 * u1 <= r2 * u2;
  }

  /** The `requirements_met` block: each threshold separately. */
  function Requirements(p: Projection): (q: RequirementsMet)
    ensures q.responseTime <==> p.responseTime < 8000.0
    ensures q.errorRate <==> p.errorRate < 0.03
    ensures q.noOutage <==> p.errorRate < 0.10
    ensures q.errorRate ==> q.noOutage
  {
    RequirementsMet(p.responseTime < TimeLimit, p.errorRate < ErrorLimit, p.errorRate < OutageLimit)
  }

  /** The verdicts of `generateCase2Report`; "ATENDE" is printed exactly when
      `meetsAll` holds. */
  function GenerateReport(p: Projection): (v: ReportVerdicts)
    ensures v.meetsAll <==> v.meetsTime && v.meetsError
    ensures v.meetsTime <==> p.responseTime < 8000.0
    ensures v.meetsError <==> p.errorRate < 0.03
    ensures v.noOutage <==> p.errorRate < 0.10
  {
    var meetsTime := p.responseTime < TimeLimit;
    var meetsError := p.errorRate < ErrorLimit;
    ReportVerdicts(meetsTime, meetsError, p.errorRate < OutageLimit, meetsTime && meetsError)
  }

  /** The report's verdicts are those of `requirements_met`. */
  lemma ReportAgreesWithRequirements(p: Projection)
    ensures GenerateReport(p).meetsAll == (Requirements(p).responseTime && Requirements(p).errorRate)
    ensures GenerateReport(p).meetsTime == Requirements(p).responseTime
    ensures GenerateReport(p).meetsError == Requirements(p).errorRate
    ensures GenerateReport(p).noOutage == Requirements(p).noOutage
  {
  }

  /** `analyzeForCase2`: reads the peak load, p95, failure rate and request
      count without defaults, projects, and derives the verdicts. The count
      field only travels into the test data, so its absence is not a failure;
      a missing `http_reqs` metric is, since reading its `values` throws. */
  function AnalyzeForCase2(metrics: Metrics, ln: real -> real, pow: (real, real) -> real)
    : (r: Result<Case2Analysis, Case2Error>)
    requires IsLn(ln) && IsPow(pow)
    ensures r.Success? <==>
              && Value(metrics, "vus_max", "max").Some?
              && Value(metrics, "http_req_duration", "p(95)").Some?
              && Value(metrics, "http_req_failed", "rate").Some?
              && "http_reqs" in metrics
              && Value(metrics, "vus_max", "max").value > 0.0
    ensures r.Success? ==>
              var a := r.value;
              && a.testData.maxUsers == Value(metrics, "vus_max", "max").value
              && a.testData.responseTimeP95 == Value(metrics, "http_req_duration", "p(95)").value
              && a.testData.errorRate == Value(metrics, "http_req_failed", "rate").value
              && a.testData.totalRequests == Value(metrics, "http_reqs", "count")
              && a.projection == ProjectTo200k(a.testData.responseTimeP95, a.testData.errorRate,
                                               a.testData.maxUsers, ln, pow)
              && a.requirementsMet == Requirements(a.projection)
              && a.report == GenerateReport(a.projection)
  {
    var maxVUs := Value(metrics, "vus_max", "max");
    var p95 := Value(metrics, "http_req_duration", "p(95)");
    var errorRate := Value(metrics, "http_req_failed", "rate");
    var totalRequests := Value(metrics, "http_reqs", "count");
    if maxVUs.None? then Failure(MissingMetric("vus_max", "max"))
    else if p95.None? then Failure(MissingMetric("http_req_duration", "p(95)"))
    else if errorRate.None? then Failure(MissingMetric("http_req_failed", "rate"))
    else if "http_reqs" !in metrics then Failure(MissingMetric("http_reqs", "values"))
    else if maxVUs.value <= 0.0 then Failure(NonPositiveUsers)
    else
      var data := TestData(maxVUs.value, p95.value, errorRate.value, totalRequests);
      var projection := ProjectTo200k(data.responseTimeP95, data.errorRate, data.maxUsers, ln, pow);
      Success(Case2Analysis(data, projection, Requirements(projection), GenerateReport(projection)))
  }

  /** A summary without the `http_reqs` metric yields no analysis, since the
      script throws reading its `values`. */
  lemma MissingRequestMetricFails(metrics: Metrics, ln: real -> real, pow: (real, real) -> real)
    requires IsLn(ln) && IsPow(pow)
    requires "http_reqs" !in metrics
    ensures AnalyzeForCase2(metrics, ln, pow).Failure?
  {
  }

  /** A summary whose `http_reqs` record lacks `count` still yields an
      analysis when the values the verdicts need are present, with the count
      left absent. */
  lemma MissingCountFieldSucceeds(metrics: Metrics, ln: real -> real, pow: (real, real) -> real)
    requires IsLn(ln) && IsPow(pow)
    requires Value(metrics, "vus_max", "max").Some? && Value(metrics, "vus_max", "max").value > 0.0
    requires Value(metrics, "http_req_duration", "p(95)").Some?
    requires Value(metrics, "http_req_failed", "rate").Some?
    requires "http_reqs" in metrics && "count" !in metrics["http_reqs"]
    ensures AnalyzeForCase2(metrics, ln, pow).Success?
    ensures AnalyzeForCase2(metrics, ln, pow).value.testData.totalRequests.None?
  {
  }

  /** A run with no failures projects no failures, so the verdict depends on
      latency alone. */
  lemma ZeroErrorRunVerdict(metrics: Metrics, ln: real -> real, pow: (real, real) -> real)
    requires IsLn(ln) && IsPow(pow)
    requires AnalyzeForCase2(metrics, ln, pow).Success?
    requires Value(metrics, "http_req_failed", "rate") == Some(0.0)
    ensures var a := AnalyzeForCase2(metrics, ln, pow).value;
      && a.projection.errorRate == 0.0
      && a.requirementsMet.errorRate && a.requirementsMet.noOutage
      && (a.report.meetsAll <==> a.projection.responseTime < 8000.0)
  {
  }
}
