/**
  The invocation entry point: fetch, then publish only when there is data.
  Three outcomes: no data (success, nothing published), data (published
  once), or an error from either step, propagated unchanged.
 */
module Invocation {
  import opened Wrappers
  import opened Errors
  import opened Events
  import opened CostExplorer
  import opened Services
  import opened Filters
  import opened Fetcher
  import opened Publisher

  function Handler(e: Event, env: Env): (run: Run<()>)
    ensures var fetched := FetchPercentage(e, env);
      && (fetched.result.Failure? ==> run == Run(Failure(fetched.result.error), fetched.calls))
      && (fetched.result == Success(None) ==> run == Run(Success(()), fetched.calls))
      && (fetched.result.Success? && fetched.result.value.Some? ==>
            var input := MetricInput(fetched.result.value.value, e);
            && run.calls == fetched.calls + [Publish(input)]
            && (run.result.Success? <==> env.putMetricData(input).Success?)
            && (run.result.Failure? ==> run.result.error == PublishFailed(env.putMetricData(input).error)))
    ensures Count(run.calls, PublishKind) ==
      if FetchPercentage(e, env).result.Success? && FetchPercentage(e, env).result.value.Some? then 1 else 0
  {
    var fetched := FetchPercentage(e, env);
    match fetched.result
    case Failure(err) => Run(Failure(err), fetched.calls)
    case Success(None) => Run(Success(()), fetched.calls)
    case Success(Some(percentage)) =>
      var published := PutMetricData(percentage, e, env);
      CountAppend(fetched.calls, published.calls, PublishKind);
      match published.result
      case Success(_) => Run(Success(()), fetched.calls + published.calls)
      case Failure(err) => Run(Failure(err), fetched.calls + published.calls)
  }

  /** Whether the event routes to the utilization path (the default) or to the coverage path. */
  predicate RoutesToUtilization(e: Event) {
    e.ceMetricType == None || e.ceMetricType == Some("utilization")
  }

  predicate RoutesToCoverage(e: Event) {
    e.ceMetricType == Some("coverage")
  }

  /** An absent metric type behaves exactly like "utilization". */
  lemma DefaultMetricTypeIsUtilization(e: Event, env: Env)
    ensures Handler(e.(ceMetricType := None), env) == Handler(e.(ceMetricType := Some("utilization")), env)
  {
  }

  /** Any other metric type fails with a configuration error naming it, before any request is sent. */
  lemma UnsupportedMetricTypeFailsWithoutCalls(e: Event, env: Env, t: string)
    requires e.ceMetricType == Some(t) && t != "utilization" && t != "coverage"
    ensures Handler(e, env) == Run(Failure(UnsupportedMetricType(t)), [])
  {
  }

  /** The utilization path issues one utilization query first and never a coverage query. */
  lemma UtilizationRouteQueriesUtilizationOnly(e: Event, env: Env)
    requires RoutesToUtilization(e)
    ensures var calls := Handler(e, env).calls;
      && |calls| >= 1
      && calls[0] == UtilizationQuery(UtilizationRequestFor(BuildFilter(e), e, env))
      && Count(calls, UtilizationKind) == 1
      && Count(calls, CoverageKind) == 0
  {
    var fetched := FetchPercentage(e, env);
    var calls := Handler(e, env).calls;
    if fetched.result.Success? && fetched.result.value.Some? {
      var input := MetricInput(fetched.result.value.value, e);
      CountAppend(fetched.calls, [Publish(input)], UtilizationKind);
      CountAppend(fetched.calls, [Publish(input)], CoverageKind);
    }
  }

  /** The coverage path issues one coverage query first and never a utilization query. */
  lemma CoverageRouteQueriesCoverageOnly(e: Event, env: Env)
    requires RoutesToCoverage(e)
    ensures var calls := Handler(e, env).calls;
      && |calls| >= 1
      && calls[0] == CoverageQuery(CoverageRequestFor(BuildFilter(e), e, env))
      && Count(calls, CoverageKind) == 1
      && Count(calls, UtilizationKind) == 0
  {
    var fetched := FetchPercentage(e, env);
    if fetched.result.Success? && fetched.result.value.Some? {
      var input := MetricInput(fetched.result.value.value, e);
      CountAppend(fetched.calls, [Publish(input)], UtilizationKind);
      CountAppend(fetched.calls, [Publish(input)], CoverageKind);
    }
  }

  /** A failed Cost Explorer query fails the invocation with its cause and nothing is published. */
  lemma QueryFailurePublishesNothing(e: Event, env: Env, cause: string)
    requires
      || (RoutesToUtilization(e) &&
          env.getReservationUtilization(UtilizationRequestFor(BuildFilter(e), e, env)) == Failure(cause))
      || (RoutesToCoverage(e) &&
          env.getReservationCoverage(CoverageRequestFor(BuildFilter(e), e, env)) == Failure(cause))
    ensures Handler(e, env).result == Failure(QueryFailed(cause))
    ensures Count(Handler(e, env).calls, PublishKind) == 0
  {
  }

  /** An empty response is "no data": the invocation succeeds and nothing is published. */
  lemma EmptyResponsePublishesNothing(e: Event, env: Env)
    requires
      || (RoutesToUtilization(e) &&
          env.getReservationUtilization(UtilizationRequestFor(BuildFilter(e), e, env))
            == Success(GetReservationUtilizationResponse([])))
      || (RoutesToCoverage(e) &&
          env.getReservationCoverage(CoverageRequestFor(BuildFilter(e), e, env))
            == Success(GetReservationCoverageResponse([])))
    ensures Handler(e, env).result == Success(())
    ensures Count(Handler(e, env).calls, PublishKind) == 0
  {
  }

  /**
    When the last utilization bucket holds percentage text `text` that parses
    to `p`, exactly one datum is published: value `p`, named and namespaced
    from the event. Earlier buckets play no part. The invocation succeeds
    exactly when the publish does.
   */
  lemma PublishesLastUtilizationPercentage(
    e: Event, env: Env, earlier: seq<UtilizationByTime>, text: string, p: real)
    requires RoutesToUtilization(e)
    requires env.getReservationUtilization(UtilizationRequestFor(BuildFilter(e), e, env))
      == Success(GetReservationUtilizationResponse(earlier + [UtilizationByTime(Some(UtilizationAggregates(Some(text))))]))
    requires env.parsePercentage(text) == Some(p)
    ensures var run := Handler(e, env);
      && run.calls == [UtilizationQuery(UtilizationRequestFor(BuildFilter(e), e, env)), Publish(MetricInput(p, e))]
      && Count(run.calls, PublishKind) == 1
      && (run.result == Success(()) <==> env.putMetricData(MetricInput(p, e)).Success?)
  {
  }

  /** The coverage counterpart: the last bucket's coverage-hours percentage is published once. */
  lemma PublishesLastCoveragePercentage(
    e: Event, env: Env, earlier: seq<CoverageByTime>, text: string, p: real)
    requires RoutesToCoverage(e)
    requires env.getReservationCoverage(CoverageRequestFor(BuildFilter(e), e, env))
      == Success(GetReservationCoverageResponse(earlier + [CoverageByTime(Some(Coverage(Some(CoverageHours(Some(text))))))]))
    requires env.parsePercentage(text) == Some(p)
    ensures var run := Handler(e, env);
      && run.calls == [CoverageQuery(CoverageRequestFor(BuildFilter(e), e, env)), Publish(MetricInput(p, e))]
      && Count(run.calls, PublishKind) == 1
      && (run.result == Success(()) <==> env.putMetricData(MetricInput(p, e)).Success?)
  {
  }

  /** The invocation succeeds only when the fetch succeeded and, if it found data, the publish did too. */
  lemma SuccessMeansEveryStepSucceeded(e: Event, env: Env)
    requires Handler(e, env).result.Success?
    ensures FetchPercentage(e, env).result.Success?
    ensures FetchPercentage(e, env).result.value.Some? ==>
      env.putMetricData(MetricInput(FetchPercentage(e, env).result.value.value, e)).Success?
  {
  }
}
