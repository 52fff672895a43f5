# Reservation-utilization plotter: a Dafny model of its decision layer

The system is a single-invocation function. It reads a reserved-instance
utilization or coverage percentage from AWS Cost Explorer and republishes it
as one CloudWatch custom-metric datapoint. This project models the pure
decision layer of `src/main.rs`:

- the invocation `Event` (`events.dfy`);
- the Cost Explorer filter, one `REGION` / `SERVICE` / `LINKED_ACCOUNT`
  clause per present identity field (`filters.dfy`);
- the CloudWatch dimensions, `Region` / `Service` / `LinkedAccount`, built from
  the same fields (`dimensions.dfy`);
- dispatch on `ce_metric_type` and last-bucket extraction on the utilization
  and coverage paths (`fetcher.dfy`);
- construction of the metric datum and its publish (`publisher.dfy`);
- the `handler` control flow (`invocation.dfy`).

The outside world is a parameter, `Services.Env`. It holds:

- the two Cost Explorer queries and the CloudWatch publish, as total functions
  from request to `Success(response)` or `Failure(cause)`;
- the trailing 7-day `DateInterval`, which the Rust code derives from the clock;
- `parsePercentage: string -> Option<real>`, standing in for the `f64` parse.

Every step that reaches the outside returns a `Run`: its result plus the
requests it sent, in order. "No request before a configuration error",
"coverage path only" and "published exactly once" are therefore statements
about that trace.

Both fan-outs are checked against one reference definition,
`Events.PresentEntries`. It lists the present identity fields with their
values, in declaration order. The filter and the dimensions are modelled as
the Rust code writes them, with three conditional pushes each. The contracts
of `BuildFilter` and `BuildDimensions` say that both equal the reference
fan-out turned into clauses or pairs.

The event's metric-type field is `ce_metric_type` (src/main.rs:11).

Where the model departs from the code: the Rust code `unwrap`s every nested
response field and the number parse (src/main.rs:82-93, 132-146), so a
missing field or unparsable text aborts the process. The model returns
`MissingField(path)` or `UnparsablePercentage(text)` instead (see Left out).

## Model

| member | source | states |
|---|---|---|
| Events.PresentAmongMembership | src/main.rs:7-9 | a field/value pair is in the fan-out over a field list exactly when the field is listed and the event carries that value |
| Events.PresentAmongOrdered | src/main.rs:7-9 | the fan-out keeps the order of the field list it scans |
| Events.PresentEntriesExact | src/main.rs:7-9 | the reference fan-out holds exactly the present identity fields with their own values, in strictly increasing declaration order (region, service, linked account) |
| Events.NoIdentityFieldsNoEntries | src/main.rs:7-9 | the fan-out is empty exactly when region, service and linked account are all absent |
| Errors.UnsupportedMessageNamesType | src/main.rs:46 | the unsupported-type message is the fixed prefix followed by the offending string |
| Filters.PushFilter | src/main.rs:50-60 | a present field appends exactly one clause, with key `key` and values `[v]`, after the unchanged old list; an absent field leaves the list unchanged |
| Filters.BuildFilter | src/main.rs:34-40 | the filter's `and` list is always present and its `dimensions` part absent; clause i is the equality clause for the i-th present field under that field's fixed key |
| Filters.FilterClauseIffFieldPresent | src/main.rs:34-40 | a clause `FilterKey(f) = [v]` is in the filter if and only if the event carries field f with value v |
| Filters.FilterClausesOrdered | src/main.rs:38-40 | clauses follow the order REGION, SERVICE, LINKED_ACCOUNT |
| Filters.NoIdentityFieldsEmptyFilter | src/main.rs:34-40 | with no identity field the filter is the empty conjunction |
| Dimensions.PushDimension | src/main.rs:103-110 | a present field appends exactly the pair `{name, v}`; an absent field leaves the list unchanged |
| Dimensions.BuildDimensions | src/main.rs:158-161 | one dimension per present field, in declaration order, display-cased name and the field's value |
| Dimensions.DimensionIffFieldPresent | src/main.rs:158-161 | a dimension `{DimensionName(f), v}` is attached if and only if the event carries field f with value v |
| Publisher.FilterAndDimensionsAgree | src/main.rs:38-40 | the filter clauses and the dimensions built at lines 159-161 have the same length; the i-th of each names the same field and carries the same value |
| Fetcher.SelectMetricType | src/main.rs:41-47 | absent or "utilization" selects utilization; "coverage" and only it selects coverage; any other string is an `UnsupportedMetricType` error carrying that string |
| Fetcher.LastBucket | src/main.rs:81-85 | no bucket exactly when the response is empty; otherwise the final one |
| Fetcher.UtilizationRequestFor | src/main.rs:66-74 | the utilization query carries the filter, the event's granularity verbatim and the 7-day window |
| Fetcher.CoverageRequestFor | src/main.rs:116-124 | the coverage query carries the filter, the event's granularity verbatim and the 7-day window |
| Fetcher.UtilizationFetchReadsOnlyLastBucket | src/main.rs:81-94 | two successful utilization responses ending in the same bucket give the same fetch result, whatever the earlier buckets |
| Fetcher.CoverageFetchReadsOnlyLastBucket | src/main.rs:131-147 | two successful coverage responses ending in the same bucket give the same fetch result, whatever the earlier buckets |
| Fetcher.UtilizationPercentage | src/main.rs:82-93 | succeeds exactly when `total` and `utilization_percentage` are present and the text parses, and then yields the parsed value; an absent `total` or `utilization_percentage` is a `MissingField` error naming that path, and unparsable text is an `UnparsablePercentage` error carrying the text |
| Fetcher.CoveragePercentage | src/main.rs:132-146 | succeeds exactly when `total`, `coverage_hours` and `coverage_hours_percentage` are present and the text parses, and then yields the parsed value; the first absent level among `total`, `coverage_hours` and `coverage_hours_percentage` is a `MissingField` error naming its path, and unparsable text is an `UnparsablePercentage` error carrying the text |
| Fetcher.FetchUtilizationPercentage | src/main.rs:62-101 | exactly one utilization query carrying the filter, the event's granularity and the window; a query error becomes `QueryFailed(cause)` and never a value; no data if and only if the response is empty; otherwise the last bucket's percentage |
| Fetcher.FetchCoveragePercentage | src/main.rs:112-154 | the same for the coverage query and the coverage-hours percentage |
| Fetcher.FetchPercentage | src/main.rs:33-48 | absent or "utilization" is exactly the utilization path and "coverage" exactly the coverage path; any other type fails with that type and sends no request; fetching never publishes |
| Publisher.MetricInput | src/main.rs:162-171 | one datum under the event's namespace, with the event's metric name, value `p` and the event's dimensions |
| Publisher.PutMetricData | src/main.rs:156-180 | exactly one publish request; success if and only if the service acknowledges, returning the acknowledgement; otherwise `PublishFailed(cause)` |
| Invocation.Handler | src/main.rs:22-31 | a fetch error is returned unchanged with no publish; no data completes successfully with no publish; a value is published exactly once, and the invocation succeeds exactly when that publish does |
| Invocation.DefaultMetricTypeIsUtilization | src/main.rs:41-42 | an event without `ce_metric_type` behaves exactly like one with "utilization" |
| Invocation.UnsupportedMetricTypeFailsWithoutCalls | src/main.rs:43-46 | any other metric type fails with an error carrying it, and no request of any kind is sent |
| Invocation.UtilizationRouteQueriesUtilizationOnly | src/main.rs:43-44 | the utilization route sends one utilization query first and never a coverage query |
| Invocation.CoverageRouteQueriesCoverageOnly | src/main.rs:43-45 | the coverage route sends one coverage query first and never a utilization query |
| Invocation.QueryFailurePublishesNothing | src/main.rs:22-23 | a failed query fails the invocation with `QueryFailed(cause)`, and nothing is published |
| Invocation.EmptyResponsePublishesNothing | src/main.rs:22-28 | an empty response completes successfully with zero publishes |
| Invocation.PublishesLastUtilizationPercentage | src/main.rs:79-97 | when the last utilization bucket's text parses to p, the trace is the query followed by one publish of value p; the invocation succeeds if and only if the publish does |
| Invocation.PublishesLastCoveragePercentage | src/main.rs:129-150 | the same for the last coverage bucket's coverage-hours percentage |
| Invocation.SuccessMeansEveryStepSucceeded | src/main.rs:22-31 | a successful invocation had a successful fetch and, if it found data, a successful publish |

## Left out

- Client construction and region pinning are not modelled. The Rust code uses `UsEast1` for Cost Explorer and `Region::default()` for CloudWatch (src/main.rs:64, 114, 157). Both services are plain functions in `Env`.
- Date arithmetic and `YYYY-MM-DD` formatting of the 7-day window (src/main.rs:65-72, 115-122) depend on the wall clock. The window is the `Env.window` value, passed into both requests unchanged.
- `f64` parsing of the percentage text is floating point and library-defined. It is the abstract `Env.parsePercentage`, and percentages are `real`.
- Fetcher.UtilizationPercentage: the Rust code panics (`unwrap`) when `total` or `utilization_percentage` is missing or the text does not parse. The model returns a `MissingField` or `UnparsablePercentage` error instead, so the invocation fails without aborting.
- Fetcher.CoveragePercentage: the same deviation for `total`, `coverage_hours` and `coverage_hours_percentage`.
- The Debug formatting (`{:?}`) of service errors and of the publish acknowledgement is not modelled. Causes and acknowledgements are opaque strings passed through unchanged.
- The conversion of `failure::Error` into the runtime's `HandlerError` is not modelled. One `Error` type is used throughout.
- Request and datum fields the Rust code leaves at their defaults are not modelled. These are the filter's `or`/`not`/`tags`, the queries' grouping, paging and sorting, and the datum's timestamp and unit.
- `main`, `env_logger`, the `lambda_runtime` adapter and every `log::info!` line are I/O and are not modelled.
