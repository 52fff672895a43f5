/**
  The slice of the Cost Explorer API the bridge touches: filter expressions,
  the two reservation queries, and the parts of their responses it reads.
  Every nested response field is optional, as in the API's own shapes.
 */
module CostExplorer {
  import opened Wrappers

  /** One dimension-equality clause: dimension `key` takes one of `values`. */
  datatype DimensionValues = DimensionValues(key: Option<string>, values: Option<seq<string>>)

  /** A filter expression: a conjunction of sub-expressions and/or a dimension clause. */
  datatype Expression = Expression(and: Option<seq<Expression>>, dimensions: Option<DimensionValues>)

  /** A `{start, end}` date range, both `YYYY-MM-DD` strings. */
  datatype DateInterval = DateInterval(start: string, end: string)

  datatype UtilizationRequest =
    GetReservationUtilizationRequest(filter: Option<Expression>, granularity: Option<string>, timePeriod: DateInterval)

  datatype CoverageRequest =
    GetReservationCoverageRequest(filter: Option<Expression>, granularity: Option<string>, timePeriod: DateInterval)

  datatype UtilizationAggregates = UtilizationAggregates(utilizationPercentage: Option<string>)

  /** One time bucket of a utilization response. */
  datatype UtilizationByTime = UtilizationByTime(total: Option<UtilizationAggregates>)

  datatype UtilizationResponse = GetReservationUtilizationResponse(utilizationsByTime: seq<UtilizationByTime>)

  datatype CoverageHours = CoverageHours(coverageHoursPercentage: Option<string>)

  datatype Coverage = Coverage(coverageHours: Option<CoverageHours>)

  /** One time bucket of a coverage response; its percentage sits one level deeper. */
  datatype CoverageByTime = CoverageByTime(total: Option<Coverage>)

  datatype CoverageResponse = GetReservationCoverageResponse(coveragesByTime: seq<CoverageByTime>)
}
