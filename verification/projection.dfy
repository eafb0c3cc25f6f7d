/**
 The second half of the process-metrics translation: derived quantities
 computed from the finished accumulator, and the fixed catalog of sixteen
 output records that all carry the shared timestamp.
 */
module Projection {
  import opened Wrappers
  import opened Pdata
  import opened Aggregate

  const MillisPerSecond: real := 1000.0

  /**
   Values computed after the scan. CPU times are turned from seconds into
   milliseconds; `processRuntime` is in milliseconds and may be negative or
   zero; `cpuPct` is None where the floating-point division by a zero runtime
   yields NaN or an infinity.
   */
  datatype Derived = Derived(
    memUtilPct: real,
    cpuTimeValue: real,
    systemTicks: real,
    userTicks: real,
    processRuntime: int,
    cpuPct: Option<real>)

  function Derive(acc: Acc): (d: Derived)
    ensures d.memUtilPct * 100.0 == acc.memUtil
    ensures d.cpuTimeValue / MillisPerSecond == acc.total
    ensures d.systemTicks / MillisPerSecond == acc.systemCpuTime
    ensures d.userTicks / MillisPerSecond == acc.userCpuTime
    ensures acc.startTime + d.processRuntime == UnixMilli(acc.timestamp)
    ensures d.cpuPct.Some? <==> d.processRuntime != 0
    ensures d.cpuPct.Some? ==> d.cpuPct.value * (d.processRuntime as real) == d.cpuTimeValue
  {
    var memUtilPct := acc.memUtil / 100.0;
    var cpuTimeValue := acc.total * MillisPerSecond;
    var processRuntime := UnixMilli(acc.timestamp) - acc.startTime;
    Derived(
      memUtilPct,
      cpuTimeValue,
      acc.systemCpuTime * MillisPerSecond,
      acc.userCpuTime * MillisPerSecond,
      processRuntime,
      if processRuntime == 0 then None else Some(cpuTimeValue / processRuntime as real))
  }

  /** The output names whose records are gauges; every other record is a counter. */
  const GaugeNames: set<string> := {
    "system.process.memory.rss.pct",
    "process.memory.pct",
    "system.process.cpu.total.pct"
  }

  /** The sixteen output names, in the order the records are handed on. */
  const OutputNames: seq<string> := [
    "process.cpu.start_time",
    "system.process.num_threads",
    "system.process.memory.rss.pct",
    "system.process.memory.rss.bytes",
    "system.process.memory.size",
    "system.process.fd.open",
    "process.memory.pct",
    "system.process.cpu.total.value",
    "system.process.cpu.system.ticks",
    "system.process.cpu.user.ticks",
    "system.process.cpu.total.ticks",
    "system.process.io.read_bytes",
    "system.process.io.write_bytes",
    "system.process.io.read_ops",
    "system.process.io.write_ops",
    "system.process.cpu.total.pct"
  ]

  /** A floating-point output, or the non-finite result of a division by zero. */
  function DoubleOrNonFinite(x: Option<real>): OutValue {
    match x
    case Some(v) => DoubleOut(v)
    case None => NonFinite
  }

  /** The sixteen output records, in the order they are handed on. */
  function Project(acc: Acc): (r: seq<OutMetric>)
    ensures |r| == |OutputNames|
    ensures forall k :: 0 <= k < |r| ==> r[k].name == OutputNames[k]
    ensures forall k :: 0 <= k < |r| ==> r[k].timestamp == acc.timestamp
    ensures forall k :: 0 <= k < |r| ==> (r[k].dataType == Gauge <==> r[k].name in GaugeNames)
    ensures r[2].value == r[6].value
    ensures r[7].value == r[10].value
    ensures r[15].value == NonFinite <==> UnixMilli(acc.timestamp) == acc.startTime
    ensures UnixMilli(acc.timestamp) != acc.startTime ==> r[15].value == DoubleOut(Derive(acc).cpuPct.value)
  {
    var d := Derive(acc);
    var ts := acc.timestamp;
    [
      OutMetric(Sum, "process.cpu.start_time", ts, IntOut(acc.startTime)),
      OutMetric(Sum, "system.process.num_threads", ts, IntOut(acc.threads)),
      OutMetric(Gauge, "system.process.memory.rss.pct", ts, DoubleOut(d.memUtilPct)),
      OutMetric(Sum, "system.process.memory.rss.bytes", ts, IntOut(acc.memUsage)),
      OutMetric(Sum, "system.process.memory.size", ts, IntOut(acc.memVirtual)),
      OutMetric(Sum, "system.process.fd.open", ts, IntOut(acc.fdOpen)),
      OutMetric(Gauge, "process.memory.pct", ts, DoubleOut(d.memUtilPct)),
      OutMetric(Sum, "system.process.cpu.total.value", ts, DoubleOut(d.cpuTimeValue)),
      OutMetric(Sum, "system.process.cpu.system.ticks", ts, DoubleOut(d.systemTicks)),
      OutMetric(Sum, "system.process.cpu.user.ticks", ts, DoubleOut(d.userTicks)),
      OutMetric(Sum, "system.process.cpu.total.ticks", ts, DoubleOut(d.cpuTimeValue)),
      OutMetric(Sum, "system.process.io.read_bytes", ts, IntOut(acc.ioReadBytes)),
      OutMetric(Sum, "system.process.io.write_bytes", ts, IntOut(acc.ioWriteBytes)),
      OutMetric(Sum, "system.process.io.read_ops", ts, IntOut(acc.ioReadOperations)),
      OutMetric(Sum, "system.process.io.write_ops", ts, IntOut(acc.ioWriteOperations)),
      OutMetric(Gauge, "system.process.cpu.total.pct", ts, DoubleOrNonFinite(d.cpuPct))
    ]
  }

  /** No two output records share a name. */
  lemma ProjectNamesDistinct(acc: Acc)
    ensures forall j, k :: 0 <= j < k < |Project(acc)| ==> Project(acc)[j].name != Project(acc)[k].name
  {
  }

  /** The first record called `name`, the way a consumer of the batch looks a metric up. */
  function Find(r: seq<OutMetric>, name: string): (m: Option<OutMetric>)
    ensures m.Some? ==> m.value.name == name
    decreases |r|
  {
    if r == [] then None
    else if r[0].name == name then Some(r[0])
    else Find(r[1..], name)
  }

  /** A name that occurs at `k` and nowhere before it is found at `k`. */
  lemma {:induction false} FindAt(r: seq<OutMetric>, k: nat, name: string)
    requires k < |r| && r[k].name == name
    requires forall j :: 0 <= j < k ==> r[j].name != name
    ensures Find(r, name) == Some(r[k])
    decreases k
  {
    if k > 0 {
      assert r[1..][k - 1] == r[k];
      FindAt(r[1..], k - 1, name);
    }
  }

  /**
   The output catalogue by name: which slot or derived value each output name
   carries, with its kind and the shared timestamp.
   */
  ghost predicate Catalogued(r: seq<OutMetric>, acc: Acc) {
    var d, ts := Derive(acc), acc.timestamp;
    && Find(r, "process.cpu.start_time") == Some(OutMetric(Sum, "process.cpu.start_time", ts, IntOut(acc.startTime)))
    && Find(r, "system.process.num_threads") == Some(OutMetric(Sum, "system.process.num_threads", ts, IntOut(acc.threads)))
    && Find(r, "system.process.memory.rss.pct") == Some(OutMetric(Gauge, "system.process.memory.rss.pct", ts, DoubleOut(d.memUtilPct)))
    && Find(r, "system.process.memory.rss.bytes") == Some(OutMetric(Sum, "system.process.memory.rss.bytes", ts, IntOut(acc.memUsage)))
    && Find(r, "system.process.memory.size") == Some(OutMetric(Sum, "system.process.memory.size", ts, IntOut(acc.memVirtual)))
    && Find(r, "system.process.fd.open") == Some(OutMetric(Sum, "system.process.fd.open", ts, IntOut(acc.fdOpen)))
    && Find(r, "process.memory.pct") == Some(OutMetric(Gauge, "process.memory.pct", ts, DoubleOut(d.memUtilPct)))
    && Find(r, "system.process.cpu.total.value") == Some(OutMetric(Sum, "system.process.cpu.total.value", ts, DoubleOut(d.cpuTimeValue)))
    && Find(r, "system.process.cpu.system.ticks") == Some(OutMetric(Sum, "system.process.cpu.system.ticks", ts, DoubleOut(d.systemTicks)))
    && Find(r, "system.process.cpu.user.ticks") == Some(OutMetric(Sum, "system.process.cpu.user.ticks", ts, DoubleOut(d.userTicks)))
    && Find(r, "system.process.cpu.total.ticks") == Some(OutMetric(Sum, "system.process.cpu.total.ticks", ts, DoubleOut(d.cpuTimeValue)))
    && Find(r, "system.process.io.read_bytes") == Some(OutMetric(Sum, "system.process.io.read_bytes", ts, IntOut(acc.ioReadBytes)))
    && Find(r, "system.process.io.write_bytes") == Some(OutMetric(Sum, "system.process.io.write_bytes", ts, IntOut(acc.ioWriteBytes)))
    && Find(r, "system.process.io.read_ops") == Some(OutMetric(Sum, "system.process.io.read_ops", ts, IntOut(acc.ioReadOperations)))
    && Find(r, "system.process.io.write_ops") == Some(OutMetric(Sum, "system.process.io.write_ops", ts, IntOut(acc.ioWriteOperations)))
    && Find(r, "system.process.cpu.total.pct") == Some(OutMetric(Gauge, "system.process.cpu.total.pct", ts, DoubleOrNonFinite(d.cpuPct)))
  }

  /** Every one of the sixteen names is found in the projection with the value the catalogue gives it. */
  lemma ProjectByName(acc: Acc)
    ensures Catalogued(Project(acc), acc)
  {
    var r := Project(acc);
    ProjectNamesDistinct(acc);
    FindAt(r, 0, r[0].name);
    FindAt(r, 1, r[1].name);
    FindAt(r, 2, r[2].name);
    FindAt(r, 3, r[3].name);
    FindAt(r, 4, r[4].name);
    FindAt(r, 5, r[5].name);
    FindAt(r, 6, r[6].name);
    FindAt(r, 7, r[7].name);
    FindAt(r, 8, r[8].name);
    FindAt(r, 9, r[9].name);
    FindAt(r, 10, r[10].name);
    FindAt(r, 11, r[11].name);
    FindAt(r, 12, r[12].name);
    FindAt(r, 13, r[13].name);
    FindAt(r, 14, r[14].name);
    FindAt(r, 15, r[15].name);
  }

  /**
   The record named `system.process.cpu.total.pct` is non-finite exactly when
   the runtime is zero, and otherwise holds `cpuTime`, the CPU time value in
   milliseconds, divided by the runtime.
   */
  lemma CpuPctByName(acc: Acc, cpuTime: real)
    requires Derive(acc).cpuTimeValue == cpuTime
    ensures var runtime := UnixMilli(acc.timestamp) - acc.startTime;
      var pct := Find(Project(acc), "system.process.cpu.total.pct");
      && pct.Some?
      && (pct.value.value == NonFinite <==> runtime == 0)
      && (runtime != 0 ==> pct.value.value == DoubleOut(cpuTime / runtime as real))
  {
    ProjectByName(acc);
  }

  function IntOf(m: Option<OutMetric>): int {
    if m.Some? && m.value.value.IntOut? then m.value.value.i else 0
  }

  function DoubleOf(m: Option<OutMetric>): real {
    if m.Some? && m.value.value.DoubleOut? then m.value.value.d else 0.0
  }

  /** Reads the accumulator back out of the records by name, undoing each conversion. */
  function Recover(r: seq<OutMetric>): Acc {
    var startRecord := Find(r, "process.cpu.start_time");
    var start := IntOf(startRecord);
    Acc(
      timestamp := if startRecord.Some? then startRecord.value.timestamp else 0,
      startTime := if start < 0 then 0 else start,
      threads := IntOf(Find(r, "system.process.num_threads")),
      memUtil := DoubleOf(Find(r, "process.memory.pct")) * 100.0,
      memUsage := IntOf(Find(r, "system.process.memory.rss.bytes")),
      memVirtual := IntOf(Find(r, "system.process.memory.size")),
      fdOpen := IntOf(Find(r, "system.process.fd.open")),
      systemCpuTime := DoubleOf(Find(r, "system.process.cpu.system.ticks")) / MillisPerSecond,
      userCpuTime := DoubleOf(Find(r, "system.process.cpu.user.ticks")) / MillisPerSecond,
      total := DoubleOf(Find(r, "system.process.cpu.total.value")) / MillisPerSecond,
      ioReadBytes := IntOf(Find(r, "system.process.io.read_bytes")),
      ioWriteBytes := IntOf(Find(r, "system.process.io.write_bytes")),
      ioReadOperations := IntOf(Find(r, "system.process.io.read_ops")),
      ioWriteOperations := IntOf(Find(r, "system.process.io.write_ops")))
  }

  /** Any record list that carries the catalogue of `acc` gives `acc` back. */
  lemma RecoverCatalogued(r: seq<OutMetric>, acc: Acc)
    requires Catalogued(r, acc)
    ensures Recover(r) == acc
  {
  }

  /** The projection loses nothing: every accumulator slot can be read back by name. */
  lemma ProjectionRoundTrip(acc: Acc)
    ensures Recover(Project(acc)) == acc
  {
    ProjectByName(acc);
    RecoverCatalogued(Project(acc), acc);
  }
}
