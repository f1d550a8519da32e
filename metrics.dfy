/** The discriminator values of the metric union (`MetricTypes::Enum`). */
module MetricTypes {
  datatype Enum =
    | UInt64Counter
    | DoubleCounter
    | UInt64Histogram
    | DoubleHistogram
    | UInt64UpDownCounter
    | DoubleUpDownCounter

  /** The integer the enum declares for each kind. */
  function Value(e: Enum): (v: int)
    ensures 0 <= v < 6
  {
    match e
    case UInt64Counter => 0
    case DoubleCounter => 1
    case UInt64Histogram => 2
    case DoubleHistogram => 3
    case UInt64UpDownCounter => 4
    case DoubleUpDownCounter => 5
  }

  /** The kind a discriminator value stands for. */
  function FromValue(v: int): (e: Enum)
    requires 0 <= v < 6
    ensures Value(e) == v
  {
    if v == 0 then UInt64Counter
    else if v == 1 then DoubleCounter
    else if v == 2 then UInt64Histogram
    else if v == 3 then DoubleHistogram
    else if v == 4 then UInt64UpDownCounter
    else DoubleUpDownCounter
  }

  lemma ValueInjective(a: Enum, b: Enum)
    ensures Value(a) == Value(b) ==> a == b
  {
    if Value(a) == Value(b) {
      assert FromValue(Value(a)) == a;
    }
  }
}

/** The telemetry data model: a metric is an identity triple plus a union
    holding exactly one of six typed payloads. Double payloads are exact
    reals. */
module Metrics {
  import opened Cpp
  import MetricTypes

  datatype Label = Label(key: string, value: string)

  datatype MetricData =
    | Uint64Counter(u64: UInt64)
    | DoubleCounter(dbl: real)
    | Uint64Histogram(labels: seq<Label>, u64Buckets: seq<UInt64>)
    | DoubleHistogram(labels: seq<Label>, dblBuckets: seq<real>)
    | Uint64UpDownCounter(u64: UInt64)
    | DoubleUpDownCounter(dbl: real)
  {
    /** The discriminator `_d()` that goes with the populated member. */
    function Discriminator(): MetricTypes.Enum
    {
      match this
      case Uint64Counter(_) => MetricTypes.UInt64Counter
      case DoubleCounter(_) => MetricTypes.DoubleCounter
      case Uint64Histogram(_, _) => MetricTypes.UInt64Histogram
      case DoubleHistogram(_, _) => MetricTypes.DoubleHistogram
      case Uint64UpDownCounter(_) => MetricTypes.UInt64UpDownCounter
      case DoubleUpDownCounter(_) => MetricTypes.DoubleUpDownCounter
    }

    /** Histograms carry 5 labels and 20 buckets; scalars carry one value. */
    predicate HistogramShaped()
    {
      match this
      case Uint64Histogram(labels, buckets) => |labels| == 5 && |buckets| == 20
      case DoubleHistogram(labels, buckets) => |labels| == 5 && |buckets| == 20
      case _ => true
    }
  }

  datatype Metric = Metric(name: string, description: string, unit: string, data: MetricData)
}
