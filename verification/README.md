# Process metrics translation, modelled in Dafny

This project models the process-metrics translation of the host-metrics
package (`hostmetrics/process.go`). That code turns one process's batch of
OpenTelemetry process metrics into a fixed catalog of sixteen output metrics.
It also copies process-identity attributes from the resource onto output data
points.

- **Scan** (`Aggregate`): one pass over the input metrics. Dispatch is by
  metric name over eight recognised names; other names are ignored. The shared
  `timestamp` (nanoseconds) and `startTime` (milliseconds) are each taken from
  a data point only while they are still zero. Values are folded into
  zero-initialised slots. CPU points are routed by their `state` attribute;
  disk I/O and disk-operation points by their `direction` attribute. The scan
  is a left fold (`Accumulate`) whose per-point body is `VisitPoint`.
- **Reference definitions** (`AggregateSpec`): the sequence of points the scan
  reads (`Trace`), a routing table from (metric, attribute value) to slot
  (`Route`), "last write wins" (`IsLastWrite`), "first non-zero wins"
  (`IsFirstNonZero`) and the sum of counted CPU states (`StateSum`). Lemmas tie
  the fold to each of them.
- **Derivation and projection** (`Projection`): memory percentage, CPU times in
  milliseconds, runtime in milliseconds and CPU percentage. Then the sixteen
  output records, all carrying the shared timestamp.
- **Whole pass** (`Pipeline`): the scan written as the nested loops of the
  source, proved equal to the fold, plus end-to-end facts.
- **Attribute enrichment** (`Enrichment`): the conditional copy of four resource
  attributes under new keys.

Behaviour choices where the code is the authority:

- A stamp is replaced while it is zero, so the first *non-zero* timestamp wins,
  not the first one seen. `startTime` is tested after conversion to
  milliseconds, so a start below one millisecond leaves it open to later points.
- The code reads data point 0 of a single-series metric without a guard. The
  model makes this a precondition (`WellFormed`) instead of skipping the metric.
- The CPU percentage divides by the runtime without a guard. The model returns
  `None` for a zero runtime and projects it as `NonFinite` (Go yields NaN or an
  infinity there).
- Timestamps are nanoseconds. The end-to-end example is therefore stated with
  timestamps of 1000 ms and 100 ms written in nanoseconds.

## Model

| member | source | states |
|---|---|---|
| Aggregate.Dispatch | hostmetrics/process.go:13-125 | a recognised name dispatches to the handler whose name it is; any other name matches no handler and is ignored |
| Pdata.UnixMilli | hostmetrics/process.go:21 | the millisecond value is the nanosecond timestamp rounded down to whole milliseconds |
| Aggregate.Stamp | hostmetrics/process.go:17-22 | a stamp that is already non-zero is kept; a zero timestamp takes the point's timestamp and a zero start time takes the point's start rounded down to milliseconds; no other slot changes (the same rule recurs at lines 26-31, 35-40, 44-49, 53-58, 64-69, 89-94 and 109-114) |
| Aggregate.VisitPoint | hostmetrics/process.go:15-124 | the per-point body of every branch; its contract is stated by `AggregateSpec.VisitPointSlots` (the value goes to the slot the routing table gives, read with that slot's type, and to no other slot), `AggregateSpec.VisitPointTotal` (a CPU point in state system, user or wait also adds its value to `total`) and `AggregateSpec.VisitPointStamps` (the stamps follow `Stamp`) |
| Aggregate.Accumulate | hostmetrics/process.go:13-126 | the outer loop over the batch; its contract is stated by `AggregateSpec.SlotIsLastWrite` (each slot holds its last routed value), `AggregateSpec.StampsAreFirstNonZero` (each stamp is its first non-zero value) and `AggregateSpec.CpuTotalIsStateSum` (the total counts system, user and wait) |
| AggregateSpec.AccumulateIsTraceFold | hostmetrics/process.go:13-125 | the nested loop over metrics and data points equals one fold over the flat sequence of points it reads |
| AggregateSpec.StampsAreFirstNonZero | hostmetrics/process.go:13-125 | the timestamp is the first non-zero timestamp among all points read, or 0 if none; the start time is the first non-zero start in milliseconds; each depends only on its own field |
| AggregateSpec.StampsStable | hostmetrics/process.go:17-22 | once a stamp is non-zero, no later metric changes it |
| AggregateSpec.UnrecognisedMetricIgnored | hostmetrics/process.go:13-125 | inserting a metric with an unrecognised name anywhere in the batch leaves the whole accumulator unchanged |
| AggregateSpec.VisitPointSlots | hostmetrics/process.go:60-124 | a point writes its value into the slot the routing table gives for its metric and attribute, and no other slot; a missing or other `state`/`direction` changes no slot |
| AggregateSpec.SlotIsLastWrite | hostmetrics/process.go:13-125 | every slot holds the value of the last point routed to it, read as int or double as the slot requires, or zero if no point is routed to it |
| AggregateSpec.LastOccurrenceWins | hostmetrics/process.go:15-59 | for a single-series metric, point 0 of the last metric with that name decides the slot |
| AggregateSpec.AbsentMetricYieldsZero | hostmetrics/process.go:9-11 | a single-series metric absent from the batch leaves its slot at zero |
| AggregateSpec.VisitPointTotal | hostmetrics/process.go:70-83 | a `process.cpu.time` point whose state is system, user or wait adds its double value to the total; any other point, of that metric or another, leaves the total unchanged |
| AggregateSpec.CpuTotalIsStateSum | hostmetrics/process.go:70-83 | the CPU total is the sum of the values of all `process.cpu.time` points whose state is system, user or wait; other points add nothing |
| Projection.Derive | hostmetrics/process.go:128-133 | memory percentage times 100 is the utilisation; CPU values divided by 1000 are the seconds; start time plus runtime is the timestamp in milliseconds; the CPU percentage exists exactly when the runtime is non-zero, and then times the runtime gives the CPU time value |
| Projection.Project | hostmetrics/process.go:135-233 | sixteen records whose names are, position by position, the sixteen names in the order the code lists them (`OutputNames`), all sharing the timestamp; gauges are exactly the three percentage names; the last record is non-finite exactly when the runtime is zero and otherwise holds the CPU percentage |
| Projection.ProjectByName | hostmetrics/process.go:135-233 | looked up by name, each of the sixteen output names carries its own slot or derived value with its own kind and the shared timestamp: `process.cpu.start_time` the start time, `system.process.io.read_bytes` the bytes read, `system.process.cpu.system.ticks` the system CPU milliseconds, and so on; both memory percentages carry the utilisation over 100 and both `cpu.total.value` and `cpu.total.ticks` the CPU time value |
| Projection.CpuPctByName | hostmetrics/process.go:128-233 | the record named `system.process.cpu.total.pct` is non-finite exactly when the runtime is zero, and otherwise holds the CPU time value divided by the runtime |
| Projection.ProjectNamesDistinct | hostmetrics/process.go:135-233 | no two output records share a name |
| Projection.ProjectionRoundTrip | hostmetrics/process.go:135-233 | every accumulator slot, including both stamps, can be read back from the sixteen records by their names |
| Pipeline.ScanPoints | hostmetrics/process.go:62-124 | the loop over the points of a multi-series metric applies the per-point body to every point in order |
| Pipeline.ScanMetric | hostmetrics/process.go:14-125 | one pass of the outer loop applies the handler its name dispatches to: point 0 for a single-series metric, every point for a multi-series one, nothing for an unknown name |
| Pipeline.ScanMetrics | hostmetrics/process.go:13-126 | the nested loops over metrics and data points leave the accumulator the fold defines |
| Pipeline.AddProcessMetrics | hostmetrics/process.go:8-236 | the loops followed by derivation and projection produce the projection of the fold |
| Pipeline.CpuTimeValueIsStateSum | hostmetrics/process.go:129 | the total CPU time value is the counted CPU seconds of the input times 1000 |
| Pipeline.CpuPctIsStateSumPerRuntime | hostmetrics/process.go:62-233 | over a whole batch, the record named `system.process.cpu.total.pct` is non-finite exactly when the runtime is zero, and otherwise holds 1000 times the summed system, user and wait CPU seconds of the input, divided by the runtime |
| Pipeline.EmptyBatchYieldsZeros | hostmetrics/process.go:9-11 | an empty batch leaves every slot at zero and still yields all sixteen records, with timestamp 0, zero values and a non-finite CPU percentage |
| Pipeline.ScenarioOutputs | hostmetrics/process.go:8-233 | a batch at 1000 ms started at 100 ms with 4 threads, 0.5 s system, 0.3 s user, 0 s wait and 12.5 % memory yields start 100, threads 4, rss.pct 0.125, total 800, system 500, user 300 and CPU percentage 800/900 |
| Enrichment.AddProcessAttributes | hostmetrics/process.go:238-255 | `process.parent.pid` is written with the resource's parent pid when that is non-zero, and left as it was otherwise; each of `user.name`, `process.executable` and `process.name` gets its source string verbatim when non-empty, and is left as it was otherwise; no other key changes |
| Enrichment.EnrichmentIsUnion | hostmetrics/process.go:238-255 | enrichment is the point's attributes overridden by exactly the non-zero and non-empty copies |
| Enrichment.EnrichmentIdempotent | hostmetrics/process.go:238-255 | enriching twice with the same resource is the same as enriching once |

## Left out

- The hand-off to `addMetrics` and the `dataset` and `resource` parameters of `addProcessMetrics`: that function is not part of this model, so the model stops at the sixteen records.
- The always-nil error result of `addProcessMetrics`.
- Metric-slice, `Sum()`/`Gauge()` and attribute-storage mechanics: replaced by sequences and maps. Reading a recognised metric with the other accessor type would fail in the library; the model assumes each recognised metric has the type the code reads it as.
- Attribute values of map, slice or bytes type: they read as `""` and 0 like the double and boolean values that are modelled.
- Data points with no value at all (neither integer nor double).
- Go `float64` arithmetic: values are exact `real`s, so rounding is not modelled. NaN and the two infinities from a zero-runtime division are one `NonFinite` value.
- 64-bit integer widths: counters and timestamps are unbounded, so overflow of `int64`/`uint64` is not modelled.
- `time.Time` conversion: `UnixMilli` is modelled as division of non-negative nanoseconds by 1,000,000.
