/** The synthetic-metric generator: six builders, each drawing from the
    shared random source and writing one metric, and the publication loop
    that rotates through them. Each method is proved against GeneratorSpec. */
module Generator {
  import opened Cpp
  import opened Random
  import opened Metrics
  import MetricTypes
  import opened GeneratorSpec

  /** The data writer, seen only through the metrics handed to it. */
  class MetricWriter {
    /** Every metric written so far, in order. */
    ghost var written: seq<Metric>

    constructor ()
      ensures written == []
    {
      written := [];
    }

    /** `writer.write(metric)`. */
    method Write(m: Metric)
      modifies this
      ensures written == old(written) + [m]
    {
      written := written + [m];
    }
  }

  method PublishUint64Counter(writer: MetricWriter, rng: RandomSource, counter: Int32)
    modifies writer, rng
    ensures rng.pos == old(rng.pos) + 1
    ensures writer.written == old(writer.written) +
      [Build(MetricTypes.UInt64Counter, counter, Window(rng.stream, old(rng.pos), 1))]
  {
    var d := rng.Next();
    var val := ToUint64(Wrap32(Wrap32(counter * 1000) + Trunc(d)));
    var k := MetricTypes.UInt64Counter;
    var metric := Metric(Name(k), Description(k), Unit(k), Uint64Counter(val));
    writer.Write(metric);
  }

  method PublishDoubleCounter(writer: MetricWriter, rng: RandomSource, counter: Int32)
    modifies writer, rng
    ensures rng.pos == old(rng.pos) + 1
    ensures writer.written == old(writer.written) +
      [Build(MetricTypes.DoubleCounter, counter, Window(rng.stream, old(rng.pos), 1))]
  {
    var d := rng.Next();
    var val := DoubleCounterValue(counter, d);
    var k := MetricTypes.DoubleCounter;
    var metric := Metric(Name(k), Description(k), Unit(k), DoubleCounter(val));
    writer.Write(metric);
  }

  /** Appends the five labels `key<i>` / `value<i>`, i = 0..4. */
  method HistogramLabels() returns (labels: seq<Label>)
    ensures labels == StandardLabels()
  {
    labels := [];
    var i := 0;
    while i < 5
      invariant 0 <= i <= 5
      invariant labels == StandardLabels()[..i]
    {
      labels := labels + [Label("key" + ToDecimal(i), "value" + ToDecimal(i))];
      i := i + 1;
    }
  }

  method PublishUInt64Histogram(writer: MetricWriter, rng: RandomSource, counter: Int32)
    modifies writer, rng
    ensures rng.pos == old(rng.pos) + 20
    ensures writer.written == old(writer.written) +
      [Build(MetricTypes.UInt64Histogram, counter, Window(rng.stream, old(rng.pos), 20))]
  {
    var labels := HistogramLabels();
    var buckets: seq<UInt64> := [];
    var i := 0;
    while i < 20
      invariant 0 <= i <= 20
      invariant rng.pos == old(rng.pos) + i
      invariant writer.written == old(writer.written)
      invariant buckets == Uint64Buckets(counter, Window(rng.stream, old(rng.pos), i))
    {
      var d := rng.Next();
      buckets := buckets + [ToUint64(Wrap32(counter + Trunc(d)))];
      i := i + 1;
    }
    var k := MetricTypes.UInt64Histogram;
    var metric := Metric(Name(k), Description(k), Unit(k), Uint64Histogram(labels, buckets));
    writer.Write(metric);
  }

  method PublishDoubleHistogram(writer: MetricWriter, rng: RandomSource, counter: Int32)
    modifies writer, rng
    ensures rng.pos == old(rng.pos) + 20
    ensures writer.written == old(writer.written) +
      [Build(MetricTypes.DoubleHistogram, counter, Window(rng.stream, old(rng.pos), 20))]
  {
    var labels := HistogramLabels();
    var buckets: seq<real> := [];
    var i := 0;
    while i < 20
      invariant 0 <= i <= 20
      invariant rng.pos == old(rng.pos) + i
      invariant writer.written == old(writer.written)
      invariant buckets == DoubleBuckets(counter, Window(rng.stream, old(rng.pos), i))
    {
      var d := rng.Next();
      buckets := buckets + [d / 1000.0 + counter as real];
      i := i + 1;
    }
    var k := MetricTypes.DoubleHistogram;
    var metric := Metric(Name(k), Description(k), Unit(k), DoubleHistogram(labels, buckets));
    writer.Write(metric);
  }

  /** Takes no draw. */
  method PublishUInt64UpDownCounter(writer: MetricWriter, counter: Int32)
    modifies writer
    ensures writer.written == old(writer.written) +
      [Build(MetricTypes.UInt64UpDownCounter, counter, [])]
  {
    var k := MetricTypes.UInt64UpDownCounter;
    var metric := Metric(Name(k), Description(k), Unit(k), Uint64UpDownCounter(UpDownValue(counter)));
    writer.Write(metric);
  }

  method PublishDoubleUpDownCounter(writer: MetricWriter, rng: RandomSource, counter: Int32)
    modifies writer, rng
    ensures rng.pos == old(rng.pos) + 1
    ensures writer.written == old(writer.written) +
      [Build(MetricTypes.DoubleUpDownCounter, counter, Window(rng.stream, old(rng.pos), 1))]
  {
    var d := rng.Next();
    var k := MetricTypes.DoubleUpDownCounter;
    var metric := Metric(Name(k), Description(k), Unit(k), DoubleUpDownCounter(DoubleUpDownValue(d)));
    writer.Write(metric);
  }

  /** `functions[idx](writer, counter)`: calls the builder of kind `k`. */
  method Publish(k: MetricTypes.Enum, writer: MetricWriter, rng: RandomSource, counter: Int32)
    modifies writer, rng
    ensures rng.pos == old(rng.pos) + DrawsUsed(k)
    ensures writer.written == old(writer.written) +
      [Build(k, counter, Window(rng.stream, old(rng.pos), DrawsUsed(k)))]
  {
    match k
    case UInt64Counter => PublishUint64Counter(writer, rng, counter);
    case DoubleCounter => PublishDoubleCounter(writer, rng, counter);
    case UInt64Histogram => PublishUInt64Histogram(writer, rng, counter);
    case DoubleHistogram => PublishDoubleHistogram(writer, rng, counter);
    case UInt64UpDownCounter => PublishUInt64UpDownCounter(writer, counter);
    case DoubleUpDownCounter => PublishDoubleUpDownCounter(writer, rng, counter);
  }

  /** The publication loop. `shutdownRequested[i]` is the flag as the loop
      reads it at its i-th check. The run writes exactly the trace of its
      `Ticks` ticks and takes exactly the draws those ticks need. */
  method RunPublisherApplication(sampleCount: UInt32, shutdownRequested: seq<bool>,
                                 writer: MetricWriter, rng: RandomSource)
    modifies writer, rng
    ensures writer.written ==
      old(writer.written) + Emitted(Ticks(sampleCount, shutdownRequested), rng.stream, old(rng.pos))
    ensures rng.pos == old(rng.pos) + DrawsBefore(Ticks(sampleCount, shutdownRequested))
  {
    ghost var from := rng.pos;
    var functions := Functions;
    var samplesWritten: UInt32 := 0;
    var idx := 0;
    while !ShutdownAt(shutdownRequested, samplesWritten) && samplesWritten < sampleCount
      invariant samplesWritten <= sampleCount
      invariant idx == samplesWritten % |functions|
      invariant TicksFrom(samplesWritten, sampleCount, shutdownRequested) == Ticks(sampleCount, shutdownRequested)
      invariant writer.written == old(writer.written) + Emitted(samplesWritten, rng.stream, from)
      invariant rng.pos == from + DrawsBefore(samplesWritten)
      decreases sampleCount - samplesWritten
    {
      TicksStep(samplesWritten, sampleCount, shutdownRequested);
      EmittedStep(samplesWritten, rng.stream, from);
      TableCallIsTick(samplesWritten, rng.stream, from, functions[idx], rng.pos);
      IndexAdvances(samplesWritten, idx);
      ghost var done := writer.written;
      Publish(functions[idx], writer, rng, Wrap32(samplesWritten));
      assert writer.written == done + [TickMetric(samplesWritten, rng.stream, from)];
      samplesWritten, idx := samplesWritten + 1, (idx + 1) % |functions|;
    }
  }
}
