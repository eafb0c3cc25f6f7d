/**
 The slice of the OpenTelemetry data model that the process-metrics
 translation reads and writes: typed attribute values, number data points,
 named input metrics and the flat output records handed on for emission.
 Container mechanics (slices, accessors, storage) are replaced by sequences
 and maps.
 */
module Pdata {

  /** An attribute value. `EmptyAttr` is what a lookup of an absent key yields. */
  datatype AttrVal =
    | EmptyAttr
    | StrAttr(s: string)
    | IntAttr(i: int)
    | DoubleAttr(d: real)
    | BoolAttr(b: bool)
  {
    /** The string payload, or "" when the value holds anything else. */
    function Str(): string {
      if StrAttr? then s else ""
    }

    /** The integer payload, or 0 when the value holds anything else. */
    function Int(): int {
      if IntAttr? then i else 0
    }
  }

  type Attributes = map<string, AttrVal>

  /** Lookup that ignores the "found" flag: an absent key reads as `EmptyAttr`. */
  function Get(attrs: Attributes, key: string): (v: AttrVal)
    ensures key !in attrs ==> v.Str() == "" && v.Int() == 0
    ensures key in attrs ==> v == attrs[key]
  {
    if key in attrs then attrs[key] else EmptyAttr
  }

  /** The numeric payload of a data point: integer or floating point, never both. */
  datatype NumVal = IntNum(i: int) | DoubleNum(d: real)

  /** One observation: timestamp and start timestamp in nanoseconds since the epoch. */
  datatype DataPoint = DataPoint(ts: nat, start: nat, value: NumVal, attrs: Attributes)
  {
    /** Reading the integer value of a floating-point point yields 0. */
    function IntValue(): int {
      if value.IntNum? then value.i else 0
    }

    /** Reading the floating-point value of an integer point yields 0. */
    function DoubleValue(): real {
      if value.DoubleNum? then value.d else 0.0
    }
  }

  /** An input metric: its name and its data points in order. */
  datatype Metric = Metric(name: string, points: seq<DataPoint>)

  const NanosPerMilli: nat := 1_000_000

  /** Milliseconds since the epoch of a nanosecond timestamp. */
  function UnixMilli(ns: nat): (ms: nat)
    ensures ms * NanosPerMilli <= ns < (ms + 1) * NanosPerMilli
  {
    ns / NanosPerMilli
  }

  /** The type tag of an output metric: cumulative counter or gauge. */
  datatype MetricType = Sum | Gauge

  /**
   The value of an output metric. `NonFinite` stands for the NaN or infinity
   that a floating-point division by zero produces.
   */
  datatype OutValue = IntOut(i: int) | DoubleOut(d: real) | NonFinite

  /** One record of the output catalog. */
  datatype OutMetric = OutMetric(dataType: MetricType, name: string, timestamp: nat, value: OutValue)
}
