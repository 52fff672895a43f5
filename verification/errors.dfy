/** The ways one invocation of the bridge can fail. */
module Errors {

  datatype Error =
    /** `ce_metric_type` named neither "utilization" nor "coverage". */
    | UnsupportedMetricType(metricType: string)
    /** The Cost Explorer query itself failed; the cause is kept verbatim. */
    | QueryFailed(cause: string)
    /** A response field the bridge relies on was absent (the Rust handler panics here). */
    | MissingField(path: string)
    /** The percentage text did not parse as a number (the Rust handler panics here). */
    | UnparsablePercentage(text: string)
    /** The CloudWatch publish failed; the cause is kept verbatim. */
    | PublishFailed(cause: string)
  {
    /** The human-readable message the invocation fails with. */
    function Message(): string {
      match this
      case UnsupportedMetricType(t) => UnsupportedPrefix + t
      case QueryFailed(cause) => cause
      case MissingField(path) => "missing response field: " + path
      case UnparsablePercentage(text) => "unparsable percentage: " + text
      case PublishFailed(cause) => cause
    }
  }

  const UnsupportedPrefix: string := "Unsupported Cost Explorer metrics type: "

  /** The configuration error names the offending metric type: it is the tail of the message. */
  lemma UnsupportedMessageNamesType(t: string)
    ensures var m := UnsupportedMetricType(t).Message();
      |t| <= |m| && m[|m| - |t|..] == t && m[..|m| - |t|] == UnsupportedPrefix
  {
  }
}
