/**
 The extraction pass of the process-metrics translation: one scan over the
 input metrics that dispatches on the metric name, bootstraps the shared
 timestamp and start time, and folds data-point values into an accumulator.
 */
module Aggregate {
  import opened Wrappers
  import opened Pdata

  /** The eight recognised input metrics. */
  datatype Handler =
    | Threads
    | MemoryUtilization
    | MemoryUsage
    | MemoryVirtual
    | OpenFileDescriptors
    | CpuTime
    | DiskIo
    | DiskOperations
  {
    /** Single-series metrics are read at data point 0 only; the others at every point. */
    predicate SingleSeries() {
      !(CpuTime? || DiskIo? || DiskOperations?)
    }
  }

  /** The input metric name each handler answers to. */
  function HandlerName(h: Handler): string {
    match h
    case Threads => "process.threads"
    case MemoryUtilization => "process.memory.utilization"
    case MemoryUsage => "process.memory.usage"
    case MemoryVirtual => "process.memory.virtual"
    case OpenFileDescriptors => "process.open_file_descriptors"
    case CpuTime => "process.cpu.time"
    case DiskIo => "process.disk.io"
    case DiskOperations => "process.disk.operations"
  }

  /** Name-based dispatch; any other name is ignored. */
  function Dispatch(name: string): (r: Option<Handler>)
    ensures r.Some? ==> HandlerName(r.value) == name
    ensures r.None? ==> forall h: Handler :: HandlerName(h) != name
  {
    if name == "process.threads" then Some(Threads)
    else if name == "process.memory.utilization" then Some(MemoryUtilization)
    else if name == "process.memory.usage" then Some(MemoryUsage)
    else if name == "process.memory.virtual" then Some(MemoryVirtual)
    else if name == "process.open_file_descriptors" then Some(OpenFileDescriptors)
    else if name == "process.cpu.time" then Some(CpuTime)
    else if name == "process.disk.io" then Some(DiskIo)
    else if name == "process.disk.operations" then Some(DiskOperations)
    else None
  }

  /**
   The local variables of the scan. `timestamp` is in nanoseconds, `startTime`
   already in milliseconds; CPU times are in seconds.
   */
  datatype Acc = Acc(
    timestamp: nat,
    startTime: nat,
    threads: int,
    memUtil: real,
    memUsage: int,
    memVirtual: int,
    fdOpen: int,
    systemCpuTime: real,
    userCpuTime: real,
    total: real,
    ioReadBytes: int,
    ioWriteBytes: int,
    ioReadOperations: int,
    ioWriteOperations: int)

  /** Every slot starts at zero. */
  const Zero: Acc := Acc(0, 0, 0, 0.0, 0, 0, 0, 0.0, 0.0, 0.0, 0, 0, 0, 0)

  /** Each of the two stamps is taken from the point only while it is still zero. */
  function Stamp(acc: Acc, dp: DataPoint): (s: Acc)
    ensures acc.timestamp != 0 ==> s.timestamp == acc.timestamp
    ensures acc.startTime != 0 ==> s.startTime == acc.startTime
    ensures acc.timestamp == 0 ==> s.timestamp == dp.ts
    ensures acc.startTime == 0 ==> s.startTime * NanosPerMilli <= dp.start < (s.startTime + 1) * NanosPerMilli
    ensures s.(timestamp := acc.timestamp, startTime := acc.startTime) == acc
  {
    acc.(timestamp := if acc.timestamp == 0 then dp.ts else acc.timestamp,
         startTime := if acc.startTime == 0 then UnixMilli(dp.start) else acc.startTime)
  }

  /** A data point together with the handler of the metric it was read from. */
  datatype Visit = Visit(handler: Handler, dp: DataPoint)

  /** The body of the scan for one data point: stamp, then route the value. */
  function VisitPoint(acc: Acc, v: Visit): Acc {
    var a := Stamp(acc, v.dp);
    var dp := v.dp;
    match v.handler
    case Threads => a.(threads := dp.IntValue())
    case MemoryUtilization => a.(memUtil := dp.DoubleValue())
    case MemoryUsage => a.(memUsage := dp.IntValue())
    case MemoryVirtual => a.(memVirtual := dp.IntValue())
    case OpenFileDescriptors => a.(fdOpen := dp.IntValue())
    case CpuTime =>
      var value := dp.DoubleValue();
      if "state" !in dp.attrs then a
      else
        var state := dp.attrs["state"].Str();
        if state == "system" then a.(systemCpuTime := value, total := a.total + value)
        else if state == "user" then a.(userCpuTime := value, total := a.total + value)
        else if state == "wait" then a.(total := a.total + value)
        else a
    case DiskIo =>
      var value := dp.IntValue();
      if "direction" !in dp.attrs then a
      else
        var direction := dp.attrs["direction"].Str();
        if direction == "read" then a.(ioReadBytes := value)
        else if direction == "write" then a.(ioWriteBytes := value)
        else a
    case DiskOperations =>
      var value := dp.IntValue();
      if "direction" !in dp.attrs then a
      else
        var direction := dp.attrs["direction"].Str();
        if direction == "read" then a.(ioReadOperations := value)
        else if direction == "write" then a.(ioWriteOperations := value)
        else a
  }

  /** A recognised single-series metric must carry a data point 0 to be read. */
  predicate Readable(m: Metric) {
    match Dispatch(m.name)
    case Some(h) => h.SingleSeries() ==> |m.points| > 0
    case None => true
  }

  predicate WellFormed(ms: seq<Metric>) {
    forall i :: 0 <= i < |ms| ==> Readable(ms[i])
  }

  /** Every point of a multi-series metric, tagged with its handler. */
  function PointVisits(h: Handler, pts: seq<DataPoint>): (vs: seq<Visit>)
    ensures |vs| == |pts|
    ensures forall k :: 0 <= k < |pts| ==> vs[k] == Visit(h, pts[k])
  {
    seq(|pts|, k requires 0 <= k < |pts| => Visit(h, pts[k]))
  }

  /** The data points the scan reads from one metric, in the order it reads them. */
  function MetricTrace(m: Metric): seq<Visit>
    requires Readable(m)
  {
    match Dispatch(m.name)
    case None => []
    case Some(h) => if h.SingleSeries() then [Visit(h, m.points[0])] else PointVisits(h, m.points)
  }

  /** Left fold of the per-point body over a sequence of visits. */
  function FoldVisits(acc: Acc, vs: seq<Visit>): Acc
    decreases |vs|
  {
    if vs == [] then acc else VisitPoint(FoldVisits(acc, vs[..|vs| - 1]), vs[|vs| - 1])
  }

  /** One iteration of the outer loop. */
  function StepMetric(acc: Acc, m: Metric): Acc
    requires Readable(m)
  {
    FoldVisits(acc, MetricTrace(m))
  }

  /** The accumulator after the whole scan: a left fold over the metrics from `Zero`. */
  function Accumulate(ms: seq<Metric>): Acc
    requires WellFormed(ms)
    decreases |ms|
  {
    if ms == [] then Zero else StepMetric(Accumulate(ms[..|ms| - 1]), ms[|ms| - 1])
  }
}
