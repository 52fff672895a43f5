/** The slice of the CloudWatch API the bridge touches: one metric datum with its dimensions. */
module CloudWatch {
  import opened Wrappers

  /** A display-cased `{name, value}` tag on a metric datapoint. */
  datatype Dimension = Dimension(name: string, value: string)

  datatype MetricDatum = MetricDatum(metricName: string, value: Option<real>, dimensions: Option<seq<Dimension>>)

  datatype PutMetricDataInput = PutMetricDataInput(namespace: string, metricData: seq<MetricDatum>)
}
