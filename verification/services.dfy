/**
  The bridge's view of the outside world. The two Cost Explorer queries, the
  CloudWatch publish and the number parser are supplied as total functions,
  and the trailing 7-day window (derived from the wall clock) as a value.
  Every step that reaches the outside returns a `Run`: its result together
  with the trace of requests it issued, in order.
 */
module Services {
  import opened Wrappers
  import opened Errors
  import opened CostExplorer
  import opened CloudWatch

  datatype Env = Env(
    window: DateInterval,
    getReservationUtilization: UtilizationRequest -> Result<UtilizationResponse, string>,
    getReservationCoverage: CoverageRequest -> Result<CoverageResponse, string>,
    putMetricData: PutMetricDataInput -> Result<string, string>,
    parsePercentage: string -> Option<real>
  )

  /** One request sent upstream. */
  datatype Call =
    | UtilizationQuery(utilizationRequest: UtilizationRequest)
    | CoverageQuery(coverageRequest: CoverageRequest)
    | Publish(input: PutMetricDataInput)
  {
    function Kind(): CallKind {
      match this
      case UtilizationQuery(_) => UtilizationKind
      case CoverageQuery(_) => CoverageKind
      case Publish(_) => PublishKind
    }
  }

  datatype CallKind = UtilizationKind | CoverageKind | PublishKind

  /** A step's result and the requests it issued. */
  datatype Run<+T> = Run(result: Result<T, Error>, calls: seq<Call>)

  /** How many of `calls` are of kind `k`. */
  function Count(calls: seq<Call>, k: CallKind): nat
    decreases |calls|
  {
    if |calls| == 0 then 0
    else (if calls[0].Kind() == k then 1 else 0) + Count(calls[1..], k)
  }

  /** Counting distributes over running one step after another. */
  lemma {:induction false} CountAppend(a: seq<Call>, b: seq<Call>, k: CallKind)
    ensures Count(a + b, k) == Count(a, k) + Count(b, k)
    decreases |a|
  {
    if |a| > 0 {
      assert (a + b)[1..] == a[1..] + b;
      CountAppend(a[1..], b, k);
    } else {
      assert a + b == b;
    }
  }
}
