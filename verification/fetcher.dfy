/**
  Metric-type dispatch and the two Cost Explorer query paths. Each path issues
  exactly one query over the caller-supplied window and reads the percentage
  from the last (most recent) bucket of the response.
 */
module Fetcher {
  import opened Wrappers
  import opened Errors
  import opened Events
  import opened CostExplorer
  import opened Services
  import opened Filters

  datatype MetricType = ReservationUtilization | ReservationCoverage

  /** The metric type used when the event names none. */
  const DefaultMetricType: string := "utilization"

  /**
    Resolves `ce_metric_type`: absent means utilization, "coverage" means
    coverage, and anything else is a configuration error naming the value.
   */
  function SelectMetricType(requested: Option<string>): (r: Result<MetricType, Error>)
    ensures r == Success(ReservationUtilization) <==> requested == None || requested == Some("utilization")
    ensures r == Success(ReservationCoverage) <==> requested == Some("coverage")
    ensures r.Failure? <==> requested.Some? && requested.value != "utilization" && requested.value != "coverage"
    ensures r.Failure? ==> requested.Some? && r.error == UnsupportedMetricType(requested.value)
  {
    var t := requested.GetOr(DefaultMetricType);
    if t == "utilization" then Success(ReservationUtilization)
    else if t == "coverage" then Success(ReservationCoverage)
    else Failure(UnsupportedMetricType(t))
  }

  /** The most recent bucket, or nothing for an empty response. */
  function LastBucket<B>(buckets: seq<B>): (r: Option<B>)
    ensures r.None? <==> |buckets| == 0
    ensures r.Some? ==> r.value == buckets[|buckets| - 1]
  {
    if |buckets| == 0 then None else Some(buckets[|buckets| - 1])
  }

  /** Response paths named by a missing-field error, one per level the extraction reads. */
  const UtilizationTotalPath: string := "utilizations_by_time.total"
  const UtilizationPercentagePath: string := "utilizations_by_time.total.utilization_percentage"
  const CoverageTotalPath: string := "coverages_by_time.total"
  const CoverageHoursPath: string := "coverages_by_time.total.coverage_hours"
  const CoverageHoursPercentagePath: string := "coverages_by_time.total.coverage_hours.coverage_hours_percentage"

  /** Wraps an extracted percentage as "data found". */
  function Found(r: Result<real, Error>): Result<Option<real>, Error> {
    match r
    case Success(p) => Success(Some(p))
    case Failure(err) => Failure(err)
  }

  /**
    The total utilization percentage of one bucket. The Rust fetcher unwraps each
    level and the parse; here an absent level or unparsable text is an error.
   */
  function UtilizationPercentage(bucket: UtilizationByTime, parse: string -> Option<real>): (r: Result<real, Error>)
    ensures r.Success? <==>
      && bucket.total.Some?
      && bucket.total.value.utilizationPercentage.Some?
      && parse(bucket.total.value.utilizationPercentage.value).Some?
    ensures r.Success? ==> parse(bucket.total.value.utilizationPercentage.value) == Some(r.value)
    ensures bucket.total.None? ==> r == Failure(MissingField(UtilizationTotalPath))
    ensures bucket.total.Some? && bucket.total.value.utilizationPercentage.None? ==>
      r == Failure(MissingField(UtilizationPercentagePath))
    ensures bucket.total.Some? && bucket.total.value.utilizationPercentage.Some? ==>
      var text := bucket.total.value.utilizationPercentage.value;
      parse(text).None? ==> r == Failure(UnparsablePercentage(text))
  {
    match bucket.total
    case None => Failure(MissingField(UtilizationTotalPath))
    case Some(total) =>
      match total.utilizationPercentage
      case None => Failure(MissingField(UtilizationPercentagePath))
      case Some(text) =>
        match parse(text)
        case None => Failure(UnparsablePercentage(text))
        case Some(p) => Success(p)
  }

  /**
    The coverage-hours percentage of one bucket, one level deeper than the
    utilization one; same treatment of absent levels and unparsable text.
   */
  function CoveragePercentage(bucket: CoverageByTime, parse: string -> Option<real>): (r: Result<real, Error>)
    ensures r.Success? <==>
      && bucket.total.Some?
      && bucket.total.value.coverageHours.Some?
      && bucket.total.value.coverageHours.value.coverageHoursPercentage.Some?
      && parse(bucket.total.value.coverageHours.value.coverageHoursPercentage.value).Some?
    ensures r.Success? ==>
      parse(bucket.total.value.coverageHours.value.coverageHoursPercentage.value) == Some(r.value)
    ensures bucket.total.None? ==> r == Failure(MissingField(CoverageTotalPath))
    ensures bucket.total.Some? && bucket.total.value.coverageHours.None? ==>
      r == Failure(MissingField(CoverageHoursPath))
    ensures bucket.total.Some? && bucket.total.value.coverageHours.Some? ==>
      var hours := bucket.total.value.coverageHours.value;
      && (hours.coverageHoursPercentage.None? ==> r == Failure(MissingField(CoverageHoursPercentagePath)))
      && (hours.coverageHoursPercentage.Some? && parse(hours.coverageHoursPercentage.value).None? ==>
            r == Failure(UnparsablePercentage(hours.coverageHoursPercentage.value)))
  {
    match bucket.total
    case None => Failure(MissingField(CoverageTotalPath))
    case Some(total) =>
      match total.coverageHours
      case None => Failure(MissingField(CoverageHoursPath))
      case Some(hours) =>
        match hours.coverageHoursPercentage
        case None => Failure(MissingField(CoverageHoursPercentagePath))
        case Some(text) =>
          match parse(text)
          case None => Failure(UnparsablePercentage(text))
          case Some(p) => Success(p)
  }

  /** The utilization query: the filter, the event's granularity verbatim, the 7-day window. */
  function UtilizationRequestFor(filter: Expression, e: Event, env: Env): (request: UtilizationRequest)
    ensures request.filter == Some(filter)
    ensures request.granularity == e.granularity
    ensures request.timePeriod == env.window
  {
    GetReservationUtilizationRequest(Some(filter), e.granularity, env.window)
  }

  /** The coverage query: the filter, the event's granularity verbatim, the 7-day window. */
  function CoverageRequestFor(filter: Expression, e: Event, env: Env): (request: CoverageRequest)
    ensures request.filter == Some(filter)
    ensures request.granularity == e.granularity
    ensures request.timePeriod == env.window
  {
    GetReservationCoverageRequest(Some(filter), e.granularity, env.window)
  }

  /**
    The utilization path: one query; a failed query is an error that never
    carries a value; an empty response is "no data"; otherwise the last
    bucket's percentage.
   */
  function FetchUtilizationPercentage(filter: Expression, e: Event, env: Env): (run: Run<Option<real>>)
    ensures run.calls == [UtilizationQuery(UtilizationRequestFor(filter, e, env))]
    ensures var response := env.getReservationUtilization(UtilizationRequestFor(filter, e, env));
      && (response.Failure? ==> run.result == Failure(QueryFailed(response.error)))
      && (run.result == Success(None) <==> response.Success? && |response.value.utilizationsByTime| == 0)
      && (response.Success? && |response.value.utilizationsByTime| > 0 ==>
            var buckets := response.value.utilizationsByTime;
            run.result == Found(UtilizationPercentage(buckets[|buckets| - 1], env.parsePercentage)))
  {
    var request := UtilizationRequestFor(filter, e, env);
    var calls := [UtilizationQuery(request)];
    match env.getReservationUtilization(request)
    case Failure(cause) => Run(Failure(QueryFailed(cause)), calls)
    case Success(response) =>
      match LastBucket(response.utilizationsByTime)
      case None => Run(Success(None), calls)
      case Some(bucket) => Run(Found(UtilizationPercentage(bucket, env.parsePercentage)), calls)
  }

  /** The coverage path: the same shape as the utilization path, over the coverage query. */
  function FetchCoveragePercentage(filter: Expression, e: Event, env: Env): (run: Run<Option<real>>)
    ensures run.calls == [CoverageQuery(CoverageRequestFor(filter, e, env))]
    ensures var response := env.getReservationCoverage(CoverageRequestFor(filter, e, env));
      && (response.Failure? ==> run.result == Failure(QueryFailed(response.error)))
      && (run.result == Success(None) <==> response.Success? && |response.value.coveragesByTime| == 0)
      && (response.Success? && |response.value.coveragesByTime| > 0 ==>
            var buckets := response.value.coveragesByTime;
            run.result == Found(CoveragePercentage(buckets[|buckets| - 1], env.parsePercentage)))
  {
    var request := CoverageRequestFor(filter, e, env);
    var calls := [CoverageQuery(request)];
    match env.getReservationCoverage(request)
    case Failure(cause) => Run(Failure(QueryFailed(cause)), calls)
    case Success(response) =>
      match LastBucket(response.coveragesByTime)
      case None => Run(Success(None), calls)
      case Some(bucket) => Run(Found(CoveragePercentage(bucket, env.parsePercentage)), calls)
  }

  /**
    Only the most recent bucket matters: two successful utilization responses
    that end in the same bucket give the same fetch result, whatever came before.
   */
  lemma UtilizationFetchReadsOnlyLastBucket(
    filter: Expression, e: Event, env: Env, env': Env,
    earlier: seq<UtilizationByTime>, earlier': seq<UtilizationByTime>, latest: UtilizationByTime)
    requires env'.window == env.window && env'.parsePercentage == env.parsePercentage
    requires env.getReservationUtilization(UtilizationRequestFor(filter, e, env))
      == Success(GetReservationUtilizationResponse(earlier + [latest]))
    requires env'.getReservationUtilization(UtilizationRequestFor(filter, e, env'))
      == Success(GetReservationUtilizationResponse(earlier' + [latest]))
    ensures FetchUtilizationPercentage(filter, e, env) == FetchUtilizationPercentage(filter, e, env')
  {
  }

  /** The coverage counterpart: only the most recent coverage bucket reaches the result. */
  lemma CoverageFetchReadsOnlyLastBucket(
    filter: Expression, e: Event, env: Env, env': Env,
    earlier: seq<CoverageByTime>, earlier': seq<CoverageByTime>, latest: CoverageByTime)
    requires env'.window == env.window && env'.parsePercentage == env.parsePercentage
    requires env.getReservationCoverage(CoverageRequestFor(filter, e, env))
      == Success(GetReservationCoverageResponse(earlier + [latest]))
    requires env'.getReservationCoverage(CoverageRequestFor(filter, e, env'))
      == Success(GetReservationCoverageResponse(earlier' + [latest]))
    ensures FetchCoveragePercentage(filter, e, env) == FetchCoveragePercentage(filter, e, env')
  {
  }

  /**
    Builds the filter, then dispatches on the metric type. An unsupported
    type fails before any query is issued; no path ever publishes.
   */
  function FetchPercentage(e: Event, env: Env): (run: Run<Option<real>>)
    ensures e.ceMetricType == None || e.ceMetricType == Some("utilization") ==>
      run == FetchUtilizationPercentage(BuildFilter(e), e, env)
    ensures e.ceMetricType == Some("coverage") ==>
      run == FetchCoveragePercentage(BuildFilter(e), e, env)
    ensures e.ceMetricType.Some? && e.ceMetricType.value != "utilization" && e.ceMetricType.value != "coverage" ==>
      run == Run(Failure(UnsupportedMetricType(e.ceMetricType.value)), [])
    ensures Count(run.calls, PublishKind) == 0
  {
    var filter := BuildFilter(e);
    match SelectMetricType(e.ceMetricType)
    case Failure(err) => Run(Failure(err), [])
    case Success(ReservationUtilization) => FetchUtilizationPercentage(filter, e, env)
    case Success(ReservationCoverage) => FetchCoveragePercentage(filter, e, env)
  }
}
