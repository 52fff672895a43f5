/** Construction of the metric datum and its single CloudWatch publish. */
module Publisher {
  import opened Wrappers
  import opened Errors
  import opened Events
  import opened CloudWatch
  import opened Services
  import opened Filters
  import opened Dimensions

  /** The publish request: one datum named and namespaced from the event, tagged with its identity fields. */
  function MetricInput(percentage: real, e: Event): (input: PutMetricDataInput)
    ensures input.namespace == e.namespace && |input.metricData| == 1
    ensures input.metricData[0].metricName == e.metricName
    ensures input.metricData[0].value == Some(percentage)
    ensures input.metricData[0].dimensions == Some(BuildDimensions(e))
  {
    PutMetricDataInput(e.namespace, [MetricDatum(e.metricName, Some(percentage), Some(BuildDimensions(e)))])
  }

  /**
    Publishes exactly one datum. A publish failure is an error carrying the
    cause; on success the acknowledgement is returned as is.
   */
  function PutMetricData(percentage: real, e: Event, env: Env): (run: Run<string>)
    ensures run.calls == [Publish(MetricInput(percentage, e))]
    ensures var ack := env.putMetricData(MetricInput(percentage, e));
      && (run.result.Success? <==> ack.Success?)
      && (ack.Success? ==> run.result.value == ack.value)
      && (ack.Failure? ==> run.result.error == PublishFailed(ack.error))
  {
    var input := MetricInput(percentage, e);
    match env.putMetricData(input)
    case Success(ack) => Run(Success(ack), [Publish(input)])
    case Failure(cause) => Run(Failure(PublishFailed(cause)), [Publish(input)])
  }

  /**
    The query filter and the metric dimensions come from the same present
    fields: the i-th clause and the i-th dimension name the same field (in
    their own casing) and carry the same value.
   */
  lemma FilterAndDimensionsAgree(e: Event)
    ensures |BuildFilter(e).and.value| == |BuildDimensions(e)|
    ensures forall i :: 0 <= i < |BuildDimensions(e)| ==>
      exists f: Field ::
        && BuildFilter(e).and.value[i] == DimensionClause(FilterKey(f), BuildDimensions(e)[i].value)
        && BuildDimensions(e)[i].name == DimensionName(f)
  {
  }
}
