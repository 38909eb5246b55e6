/** The 215 000-user projection: Gunther's Universal Scalability Law with
    hard-coded contention and coherency coefficients, a clamped error
    projection, a confidence figure and the verdicts of the report. */
module UslProjection {
  import opened Wrappers
  import opened JsMath

  /** Contention coefficient (alpha). */
  const Alpha: real := 0.0008
  /** Coherency coefficient (beta). */
  const Beta: real := 0.00002
  /** p95 in milliseconds measured with 1000 users. */
  const BaselineTime: real := 147.0
  const BaselineError: real := 0.0
  const BaselineUsers: real := 1000.0
  const TargetUsers: real := 215000.0
  /** The largest load the run simulates. */
  const UsersSimulated: real := 10000.0
  const ErrorExponent: real := 1.2
  /** Requirement ceilings: p95 in milliseconds and failure rate. */
  const TimeLimit: real := 5000.0
  const ErrorLimit: real := 0.02
  const ConfidenceFloor: real := 0.7
  const ConfidencePenalty: real := 0.3

  /** One row of the table of load levels handed to the projection; rows not
      yet measured carry no numbers. */
  datatype TestLevel = TestLevel(users: real, responseTime: Option<real>, errorRate: Option<real>)

  datatype Projection = Projection(
    projectedResponseTime: real,
    projectedErrorRate: real,
    usersSimulated: real,
    usersTarget: real,
    meetsRequirements: bool)

  /** The booleans that choose the requirement lines of the report. */
  datatype ReportVerdicts = ReportVerdicts(timeLine: bool, errorLine: bool, supportLine: bool)

  datatype PredictiveAnalysis = PredictiveAnalysis(
    testData: seq<TestLevel>,
    projection: Projection,
    confidenceLevel: real,
    report: ReportVerdicts)

  /** The slowdown `1 + alpha(N-1) + beta N(N-1)` against linear scaling. */
  function UslDenominator(n: real, alpha: real, beta: real): (d: real)
    ensures n == 1.0 ==> d == 1.0
    ensures alpha == 0.0 && beta == 0.0 ==> d == 1.0
  {
    1.0 + alpha * (n - 1.0) + beta * n * (n - 1.0)
  }

  /** The denominator is at least 1 from one user upwards when both
      coefficients are non-negative. */
  lemma UslDenominatorAtLeastOne(n: real, alpha: real, beta: real)
    requires 1.0 <= n && 0.0 <= alpha && 0.0 <= beta
    ensures UslDenominator(n, alpha, beta) >= 1.0
  {
    assert alpha * (n - 1.0) >= 0.0;
    assert n * (n - 1.0) >= 0.0;
    assert beta * (n * (n - 1.0)) >= 0.0;
  }

  /** Relative capacity `N / (1 + alpha(N-1) + beta N(N-1))`; defined
      whenever the denominator is not zero. One user has capacity 1; from one
      user upwards, with non-negative coefficients, the capacity is positive
      and never above linear scaling. */
  function UslCapacity(n: real, alpha: real, beta: real): (c: real)
    requires UslDenominator(n, alpha, beta) != 0.0
    ensures c * UslDenominator(n, alpha, beta) == n
    ensures n == 1.0 ==> c == 1.0
    ensures 1.0 <= n && 0.0 <= alpha && 0.0 <= beta ==> 0.0 < c <= n
  {
    CapacityBound(n, alpha, beta);
    n / UslDenominator(n, alpha, beta)
  }

  lemma CapacityBound(n: real, alpha: real, beta: real)
    ensures 1.0 <= n && 0.0 <= alpha && 0.0 <= beta ==>
              0.0 < n / UslDenominator(n, alpha, beta) <= n
  {
    if 1.0 <= n && 0.0 <= alpha && 0.0 <= beta {
      UslDenominatorAtLeastOne(n, alpha, beta);
      var d := UslDenominator(n, alpha, beta);
      var q := n / d;
      assert q * d == n;
      assert q <= n;
    }
  }

  /** `projectTo215k`: the argument is never read; the result follows from
      the constants alone. The time is the baseline divided by the capacity
      at the target relative to the capacity at the baseline; the error is
      clamped by `min(1, .)`. */
  function ProjectTo215k(testData: seq<TestLevel>, pow: (real, real) -> real): (p: Projection)
    ensures p.projectedResponseTime > 0.0
    ensures p.projectedErrorRate == 0.0
    ensures p.usersSimulated == 10000.0 && p.usersTarget == 215000.0
    ensures p.meetsRequirements <==> p.projectedResponseTime < 5000.0 && p.projectedErrorRate < 0.02
  {
    UslDenominatorAtLeastOne(TargetUsers, Alpha, Beta);
    UslDenominatorAtLeastOne(BaselineUsers, Alpha, Beta);
    var scalabilityFactor := UslCapacity(TargetUsers, Alpha, Beta);
    var normalizedFactor := scalabilityFactor / UslCapacity(BaselineUsers, Alpha, Beta);
    var projectedTime := BaselineTime * (1.0 / normalizedFactor);
    var projectedError := Min(1.0, BaselineError * pow(TargetUsers / BaselineUsers, ErrorExponent));
    Projection(
      projectedTime,
      projectedError,
      UsersSimulated,
      TargetUsers,
      projectedTime < TimeLimit && projectedError < ErrorLimit)
  }

  /** The projection is the same for every table and every `pow`. */
  lemma ProjectionIgnoresArgument(t1: seq<TestLevel>, t2: seq<TestLevel>,
                                  pow1: (real, real) -> real, pow2: (real, real) -> real)
    ensures ProjectTo215k(t1, pow1) == ProjectTo215k(t2, pow2)
  {
  }

  /** The projected time is exactly 147 C(1000) / C(215000), about 29 028 ms,
      so the 5000 ms requirement and hence the overall verdict fail. */
  lemma ProjectedTimeValue(testData: seq<TestLevel>, pow: (real, real) -> real)
    ensures ProjectTo215k(testData, pow).projectedResponseTime == 84953936739.0 / 2926580.0
    ensures 29028.0 < ProjectTo215k(testData, pow).projectedResponseTime < 29029.0
    ensures !ProjectTo215k(testData, pow).meetsRequirements
  {
    var cTarget := UslCapacity(TargetUsers, Alpha, Beta);
    var cBase := UslCapacity(BaselineUsers, Alpha, Beta);
    assert UslDenominator(TargetUsers, Alpha, Beta) == 924668.6992;
    assert UslDenominator(BaselineUsers, Alpha, Beta) == 21.7792;
    assert cTarget == 215000.0 / 924668.6992;
    assert cBase == 1000.0 / 21.7792;
  }

  /** `calculateConfidence`: `max(0.7, 1 - 0.3 * ratio)` on the ratio of
      simulated to target users, with no upper cap. */
  function ConfidenceFromRatio(ratio: real): (c: real)
    ensures c >= 0.7
    ensures ratio >= 0.0 ==> c <= 1.0
    ensures ratio <= 1.0 ==> c == 1.0 - 0.3 * ratio
    ensures ratio >= 1.0 ==> c == 0.7
  {
    Max(ConfidenceFloor, 1.0 - ratio * ConfidencePenalty)
  }

  function CalculateConfidence(p: Projection): (c: real)
    requires p.usersTarget != 0.0
    ensures c >= 0.7
    ensures p.usersSimulated / p.usersTarget >= 0.0 ==> c <= 1.0
  {
    ConfidenceFromRatio(p.usersSimulated / p.usersTarget)
  }

  /** Confidence never increases with the ratio of simulated to target
      users: the closer the simulation gets to the target, the lower it is. */
  lemma ConfidenceNonIncreasing(r1: real, r2: real)
    requires r1 <= r2
    ensures ConfidenceFromRatio(r2) <= ConfidenceFromRatio(r1)
  {
  }

  /** For the hard-coded 10 000 / 215 000 the confidence is 212/215 (about
      0.986), above the 0.85 the comment announces. */
  lemma ConfidenceOfProjection(testData: seq<TestLevel>, pow: (real, real) -> real)
    ensures CalculateConfidence(ProjectTo215k(testData, pow)) == 212.0 / 215.0
    ensures CalculateConfidence(ProjectTo215k(testData, pow)) > 0.85
  {
  }

  /** The requirement lines of `generateReport`. */
  function GenerateReport(p: Projection): (v: ReportVerdicts)
    ensures v.timeLine <==> p.projectedResponseTime < 5000.0
    ensures v.errorLine <==> p.projectedErrorRate < 0.02
    ensures v.supportLine == p.meetsRequirements
  {
    ReportVerdicts(
      p.projectedResponseTime < TimeLimit,
      p.projectedErrorRate < ErrorLimit,
      p.meetsRequirements)
  }

  /** `predictiveAnalysis`, with the table of load levels as a parameter. */
  function Analyze(testData: seq<TestLevel>, pow: (real, real) -> real): (a: PredictiveAnalysis)
    ensures a.testData == testData
    ensures a.projection == ProjectTo215k(testData, pow)
    ensures a.confidenceLevel == CalculateConfidence(a.projection)
    ensures a.report == GenerateReport(a.projection)
  {
    var projection := ProjectTo215k(testData, pow);
    PredictiveAnalysis(testData, projection, CalculateConfidence(projection), GenerateReport(projection))
  }

  /** The "215k" line reads SIM exactly when both the time line and the error
      line read SIM; for the fixed constants the time line and the support
      line read NAO while the error line reads SIM. */
  lemma ReportLinesAgree(testData: seq<TestLevel>, pow: (real, real) -> real)
    ensures var v := Analyze(testData, pow).report;
      && (v.supportLine <==> v.timeLine && v.errorLine)
      && !v.timeLine && v.errorLine && !v.supportLine
  {
    ProjectedTimeValue(testData, pow);
  }
}
