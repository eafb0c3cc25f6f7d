/**
 The whole translation of one process's metric batch: the scan written as the
 nested loops it is, and end-to-end facts about the sixteen records it hands on.
 */
module Pipeline {
  import opened Wrappers
  import opened Pdata
  import opened Aggregate
  import opened AggregateSpec
  import opened Projection

  /** The inner loop: every point of a multi-series metric, in order. */
  method ScanPoints(start: Acc, h: Handler, pts: seq<DataPoint>) returns (acc: Acc)
    ensures acc == FoldVisits(start, PointVisits(h, pts))
  {
    acc := start;
    for j := 0 to |pts|
      invariant acc == FoldVisits(start, PointVisits(h, pts[..j]))
    {
      assert PointVisits(h, pts[..j + 1])[..j] == PointVisits(h, pts[..j]);
      acc := VisitPoint(acc, Visit(h, pts[j]));
    }
    assert pts[..|pts|] == pts;
  }

  /** One iteration of the outer loop: dispatch on the name, then read point 0 or every point. */
  method ScanMetric(start: Acc, metric: Metric) returns (acc: Acc)
    requires Readable(metric)
    ensures acc == StepMetric(start, metric)
  {
    match Dispatch(metric.name) {
      case None =>
        acc := start;
      case Some(h) =>
        if h.SingleSeries() {
          acc := VisitPoint(start, Visit(h, metric.points[0]));
          FoldVisitsSingle(start, Visit(h, metric.points[0]));
        } else {
          acc := ScanPoints(start, h, metric.points);
        }
    }
  }

  /** The scan, as loops over metrics and their data points. */
  method ScanMetrics(ms: seq<Metric>) returns (acc: Acc)
    requires WellFormed(ms)
    ensures acc == Accumulate(ms)
  {
    acc := Zero;
    for i := 0 to |ms|
      invariant WellFormed(ms[..i])
      invariant acc == Accumulate(ms[..i])
    {
      acc := ScanMetric(acc, ms[i]);
      assert ms[..i + 1][..i] == ms[..i];
    }
    assert ms[..|ms|] == ms;
  }

  /** The scan followed by the derivation and projection of the sixteen records. */
  method AddProcessMetrics(ms: seq<Metric>) returns (out: seq<OutMetric>)
    requires WellFormed(ms)
    ensures out == Project(Accumulate(ms))
  {
    var acc := ScanMetrics(ms);
    out := Project(acc);
  }

  /** The total CPU time value is the counted CPU seconds of the input, in milliseconds. */
  lemma CpuTimeValueIsStateSum(ms: seq<Metric>)
    requires WellFormed(ms)
    ensures Derive(Accumulate(ms)).cpuTimeValue == StateSum(CpuPoints(ms)) * MillisPerSecond
  {
    CpuTotalIsStateSum(ms);
  }

  /**
   The record named `system.process.cpu.total.pct` is non-finite exactly when
   the runtime is zero; otherwise it holds the CPU time of the whole batch
   (system, user and wait, in milliseconds) divided by the runtime.
   */
  lemma CpuPctIsStateSumPerRuntime(ms: seq<Metric>)
    requires WellFormed(ms)
    ensures var acc := Accumulate(ms);
      var runtime := UnixMilli(acc.timestamp) - acc.startTime;
      var pct := Find(Project(acc), "system.process.cpu.total.pct");
      && pct.Some?
      && (pct.value.value == NonFinite <==> runtime == 0)
      && (runtime != 0 ==> pct.value.value == DoubleOut(StateSum(CpuPoints(ms)) * MillisPerSecond / runtime as real))
  {
    CpuTimeValueIsStateSum(ms);
    CpuPctByName(Accumulate(ms), StateSum(CpuPoints(ms)) * MillisPerSecond);
  }

  // The zero records are stated in two halves and then collected in
  // EmptyBatchYieldsZeros only to keep each proof obligation small.

  /** The first nine records of the projection of the zero accumulator. */
  lemma ProjectZeroHead()
    ensures var r := Project(Zero);
      && r[0].value == IntOut(0) && r[1].value == IntOut(0) && r[2].value == DoubleOut(0.0)
      && r[3].value == IntOut(0) && r[4].value == IntOut(0) && r[5].value == IntOut(0)
      && r[6].value == DoubleOut(0.0) && r[7].value == DoubleOut(0.0) && r[8].value == DoubleOut(0.0)
  {
  }

  /** The last seven records of the projection of the zero accumulator. */
  lemma ProjectZeroTail()
    ensures var r := Project(Zero);
      && r[9].value == DoubleOut(0.0) && r[10].value == DoubleOut(0.0) && r[11].value == IntOut(0)
      && r[12].value == IntOut(0) && r[13].value == IntOut(0) && r[14].value == IntOut(0)
      && r[15].value == NonFinite
  {
  }

  /** With no input at all every record is still emitted, carrying zero. */
  lemma EmptyBatchYieldsZeros()
    ensures Accumulate([]) == Zero
    ensures var r := Project(Zero);
      && |r| == 16
      && (forall k :: 0 <= k < |r| ==> r[k].timestamp == 0)
      && r[0].value == IntOut(0) && r[1].value == IntOut(0) && r[2].value == DoubleOut(0.0)
      && r[3].value == IntOut(0) && r[4].value == IntOut(0) && r[5].value == IntOut(0)
      && r[6].value == DoubleOut(0.0) && r[7].value == DoubleOut(0.0) && r[8].value == DoubleOut(0.0)
      && r[9].value == DoubleOut(0.0) && r[10].value == DoubleOut(0.0) && r[11].value == IntOut(0)
      && r[12].value == IntOut(0) && r[13].value == IntOut(0) && r[14].value == IntOut(0)
      && r[15].value == NonFinite
  {
    ProjectZeroHead();
    ProjectZeroTail();
  }

  const ScenarioTs: nat := 1_000_000_000
  const ScenarioStart: nat := 100_000_000

  function CpuPoint(seconds: real, state: string): DataPoint {
    DataPoint(ScenarioTs, ScenarioStart, DoubleNum(seconds), map["state" := StrAttr(state)])
  }

  const ThreadsMetric := Metric("process.threads", [DataPoint(ScenarioTs, ScenarioStart, IntNum(4), map[])])
  const CpuMetric := Metric("process.cpu.time", [CpuPoint(0.5, "system"), CpuPoint(0.3, "user"), CpuPoint(0.0, "wait")])
  const MemoryMetric := Metric("process.memory.utilization", [DataPoint(ScenarioTs, ScenarioStart, DoubleNum(12.5), map[])])
  const ScenarioMetrics: seq<Metric> := [ThreadsMetric, CpuMetric, MemoryMetric]

  /** The accumulator stamped at 1000 ms (in nanoseconds) and started at 100 ms. */
  const Stamped: Acc := Zero.(timestamp := ScenarioTs, startTime := 100)

  lemma ScenarioThreads()
    ensures Readable(ThreadsMetric)
    ensures StepMetric(Zero, ThreadsMetric) == Stamped.(threads := 4)
  {
    var t := ThreadsMetric.points[0];
    assert Dispatch(ThreadsMetric.name) == Some(Threads);
    assert MetricTrace(ThreadsMetric) == [Visit(Threads, t)];
    FoldVisitsSingle(Zero, Visit(Threads, t));
    assert UnixMilli(ScenarioStart) == 100;
  }

  lemma ScenarioCpu(acc: Acc)
    requires acc.timestamp == ScenarioTs && acc.startTime == 100 && acc.total == 0.0
    ensures Readable(CpuMetric)
    ensures StepMetric(acc, CpuMetric) == acc.(systemCpuTime := 0.5, userCpuTime := 0.3, total := 0.8)
  {
    assert Dispatch(CpuMetric.name) == Some(CpuTime);
    var vs := PointVisits(CpuTime, CpuMetric.points);
    assert MetricTrace(CpuMetric) == vs;
    var s1 := VisitPoint(acc, vs[0]);
    assert s1 == acc.(systemCpuTime := 0.5, total := 0.5);
    var s2 := VisitPoint(s1, vs[1]);
    assert s2 == acc.(systemCpuTime := 0.5, userCpuTime := 0.3, total := 0.8);
    assert VisitPoint(s2, vs[2]) == s2;
    FoldVisitsSingle(acc, vs[0]);
    assert vs[..1] == [vs[0]] && vs[..2][..1] == vs[..1] && vs[..2][1] == vs[1];
    assert FoldVisits(acc, vs[..2]) == s2;
    assert vs[..2] == vs[..|vs| - 1];
  }

  lemma ScenarioMemory(acc: Acc)
    requires acc.timestamp != 0 && acc.startTime != 0
    ensures Readable(MemoryMetric)
    ensures StepMetric(acc, MemoryMetric) == acc.(memUtil := 12.5)
  {
    var m := MemoryMetric.points[0];
    assert Dispatch(MemoryMetric.name) == Some(MemoryUtilization);
    assert MetricTrace(MemoryMetric) == [Visit(MemoryUtilization, m)];
    FoldVisitsSingle(acc, Visit(MemoryUtilization, m));
  }

  lemma ScenarioAccumulator()
    ensures WellFormed(ScenarioMetrics)
    ensures Accumulate(ScenarioMetrics)
         == Stamped.(threads := 4, memUtil := 12.5, systemCpuTime := 0.5, userCpuTime := 0.3, total := 0.8)
  {
    var ms := ScenarioMetrics;
    ScenarioThreads();
    ScenarioCpu(Stamped.(threads := 4));
    ScenarioMemory(Stamped.(threads := 4, systemCpuTime := 0.5, userCpuTime := 0.3, total := 0.8));
    assert ms[..|ms| - 1] == ms[..2];
    assert ms[..2][..1] == ms[..1];
    assert ms[..1][..0] == [];
    assert Accumulate(ms[..1]) == StepMetric(Zero, ThreadsMetric);
    assert Accumulate(ms[..2]) == StepMetric(Accumulate(ms[..1]), CpuMetric);
  }

  /**
   A batch stamped at 1000 ms and started at 100 ms, with four threads, 0.5 s
   system, 0.3 s user and no wait time, and 12.5 % memory utilisation.
   */
  lemma ScenarioOutputs()
    ensures WellFormed(ScenarioMetrics)
    ensures var r := Project(Accumulate(ScenarioMetrics));
      && r[0].value == IntOut(100)
      && r[1].value == IntOut(4)
      && r[2].value == DoubleOut(0.125)
      && r[7].value == DoubleOut(800.0)
      && r[8].value == DoubleOut(500.0)
      && r[9].value == DoubleOut(300.0)
      && r[15].value == DoubleOut(800.0 / 900.0)
  {
    ScenarioAccumulator();
    assert UnixMilli(ScenarioTs) == 1000;
  }
}
