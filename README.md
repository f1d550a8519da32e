# Synthetic telemetry generator — Dafny model

This project models the core of the telemetry sample generator in
`generator/c++11/generator.cxx`. It covers two parts:

- **The six metric builders.** These are `PublishUint64Counter`, `PublishDoubleCounter`,
  `PublishUInt64Histogram`, `PublishDoubleHistogram`,
  `PublishUInt64UpDownCounter` and `PublishDoubleUpDownCounter`. Each one
  builds a `Metrics::Metric` from these parts:
  - a fixed name, description and unit;
  - a union discriminator taken from `MetricTypes::Enum`;
  - exactly one payload: a scalar, or for histograms 5 labels and 20 buckets.

  Each builder takes a fixed number of draws from the shared random source
  and hands the metric to the data writer.
- **The publication loop of `run_publisher_application`.** It goes round the
  table of six builders and calls `functions[samples_written % 6]` with
  `counter = samples_written`. It stops when `sample_count` samples are
  written or when the shutdown flag is seen at the loop check.

Layout:

- `cpp.dfy` (module `Cpp`): the C++ integer types (`Int32`, `UInt32`, `UInt64`).
  It also holds two's-complement narrowing (`Wrap32`), conversion to
  `uint64_t` (`ToUint64`) and `std::to_string` (`ToDecimal`) with its inverse.
- `metrics.dfy` (modules `MetricTypes`, `Metrics`): the discriminator enum
  and the metric data model. The union is a datatype with six constructors.
- `random.dfy` (module `Random`): a draw is a real in [1, 999). `Trunc` is the
  `(int)` cast. The class `RandomSource` is the seeded engine. It holds the
  engine's fixed stream of draws and a position that each `Next` advances.
- `generator_spec.dfy` (module `GeneratorSpec`): the specification. It holds:
  - `Build`, the metric each builder writes, given its counter and its draws;
  - `DrawsUsed`, the number of draws each builder takes;
  - the builder table `Functions`;
  - `Emitted`, the trace of metrics written by the first n ticks;
  - `Ticks`, the number of ticks a run performs;
  - the lemmas about all of these.
- `generator.dfy` (module `Generator`): the builders and the loop as
  imperative methods. Each method is proved against `GeneratorSpec`. A builder
  mutates the random source and appends to `MetricWriter.written`, which is
  the trace of everything passed to `writer.write`. Label and bucket vectors
  are filled by counted loops, as in the source.

Modelling choices:

- A signed 32-bit overflow is undefined in C++. The model treats it as
  two's-complement wrap-around (`Wrap32`). Every `int` expression of the
  source is wrapped where it could overflow.
- The `unsigned` to `int` conversion of `samples_written` is `Wrap32` too.
- The shutdown flag is set asynchronously. The model gives it as a sequence
  of readings, one per loop check. A check past the end of the sequence reads
  the flag as unset.
- Double payloads are the exact real values of the source's formulas.

## Model

| member | source | states |
|---|---|---|
| `MetricTypes.FromValue` | generator/c++11/generator.cxx:29-36 | Each discriminator value 0..5 names exactly one kind, and that kind's declared value is the one given. |
| `MetricTypes.ValueInjective` | generator/c++11/generator.cxx:29-36 | Two kinds with the same discriminator value are the same kind. |
| `Random.Trunc` | generator/c++11/generator.cxx:26 | The `(int)` cast of a draw from [1, 999) lies in 1..998 and is the draw's floor. |
| `Random.RandomSource.Next` | generator/c++11/generator.cxx:25-26 | Each draw returns the engine's next value and advances the shared engine by exactly one. |
| `Cpp.Wrap32` | generator/c++11/generator.cxx:41 | The 32-bit result equals the exact result modulo 2^32, and equals it outright when the exact result fits in `int`. |
| `Cpp.ToUint64` | generator/c++11/generator.cxx:41 | The `uint64_t` value equals its source modulo 2^64, and equals it outright when the source is non-negative and below 2^64. |
| `Cpp.ToDecimal` | generator/c++11/generator.cxx:79-80 | `std::to_string` yields one or more decimal digits, and a single digit for a number below 10. |
| `Cpp.DecimalRoundTrip` | generator/c++11/generator.cxx:79-80 | Reading back the digits of `std::to_string(n)` gives n. |
| `GeneratorSpec.Build` | generator/c++11/generator.cxx:39-139 | Each builder's metric carries its own kind as the discriminator and fills only that kind's payload. A histogram has 5 labels and 20 buckets. The uint64 counter payload is the source's 32-bit expression (`CounterValueAsWritten`). |
| `GeneratorSpec.MetadataFixed` | generator/c++11/generator.cxx:39-139 | A builder writes the same name, description and unit on every call, whatever its counter and its draws. |
| `GeneratorSpec.NamesDistinct` | generator/c++11/generator.cxx:39-139 | No two builders write the same metric name. |
| `GeneratorSpec.StandardLabelsSpelledOut` | generator/c++11/generator.cxx:77-82 | The labels are exactly key0/value0 … key4/value4, in that order. |
| `GeneratorSpec.HistogramContents` | generator/c++11/generator.cxx:77-109 | Both histograms carry the five standard labels and 20 buckets, bucket i from draw i. In the uint64 histogram, bucket i is `counter + (int)draw_i` while `counter + 998` fits in `int`. In the double histogram it is `draw_i/1000 + counter`. |
| `GeneratorSpec.CounterValue` | generator/c++11/generator.cxx:41 | The intended 64-bit value of `counter*1000 + (int)draw` (the corrected half of the finding below). For a non-negative counter it lies in [counter*1000+1, counter*1000+998]. Its last three decimal digits are the truncated draw, and the rest is the counter. |
| `GeneratorSpec.CounterValueAgreesWithoutOverflow` | generator/c++11/generator.cxx:41 | The source's 32-bit arithmetic gives the intended value while `counter*1000 + 998` fits in `int`. |
| `GeneratorSpec.CounterValueOverflowsAtTick2147484` | generator/c++11/generator.cxx:41 | Tick 2147484 is a uint64-counter tick. There the source's value wraps to 2^64 - 2147482796 instead of 2147484500. |
| `GeneratorSpec.DoubleCounterValue` | generator/c++11/generator.cxx:56 | The double counter value, and each double histogram bucket, lies in [counter + 0.001, counter + 0.999). |
| `GeneratorSpec.DoubleUpDownValue` | generator/c++11/generator.cxx:135 | The double up/down counter value lies in (INT_MAX - 0.999, INT_MAX - 0.001]. |
| `GeneratorSpec.UpDownDecreases` | generator/c++11/generator.cxx:122 | For a non-negative counter, the uint64 up/down value is `INT_MAX - counter`, and it strictly decreases as the counter grows. |
| `GeneratorSpec.KindPeriodic` | generator/c++11/generator.cxx:162-174 | The builder table repeats every six ticks. |
| `GeneratorSpec.DrawsFirstRound` | generator/c++11/generator.cxx:162-169 | One pass through the table takes 1 + 1 + 20 + 20 + 0 + 1 = 43 draws. |
| `GeneratorSpec.DrawsPerRound` | generator/c++11/generator.cxx:162-176 | Any six consecutive ticks take 43 draws from the shared source. |
| `GeneratorSpec.DrawsBeforeRounds` | generator/c++11/generator.cxx:162-176 | Closed form: the first t ticks take `43*(t/6)` draws plus the draws of the first `t%6` table entries. |
| `GeneratorSpec.Emitted` | generator/c++11/generator.cxx:172-176 | A run of n ticks writes exactly n metrics. |
| `GeneratorSpec.EmittedAt` | generator/c++11/generator.cxx:172-176 | Position t of the trace is the metric of builder `functions[t % 6]`, called with counter `(int)t` and the draws that follow those of ticks 0..t-1. |
| `GeneratorSpec.RotationOrder` | generator/c++11/generator.cxx:162-176 | Over n ticks the kinds written are the table order (uint64 counter, double counter, uint64 histogram, double histogram, uint64 up/down, double up/down), repeated and cut to n. |
| `GeneratorSpec.TickValues` | generator/c++11/generator.cxx:172-176 | While t fits in `int`, tick t passes counter t. The double counter then lies in (t, t+1), and the uint64 up/down counter equals INT_MAX - t. While `t*1000 + 998` also fits in `int`, the uint64 counter lies in [t*1000+1, t*1000+998]. |
| `GeneratorSpec.IndexAdvances` | generator/c++11/generator.cxx:174 | `idx = (idx + 1) % 6` keeps `idx == samples_written % 6`. |
| `GeneratorSpec.TableCallIsTick` | generator/c++11/generator.cxx:176 | Calling table entry `idx` with `(int)samples_written`, from the current draw position, produces exactly that tick's metric. |
| `GeneratorSpec.EmittedStep` | generator/c++11/generator.cxx:172-176 | One more tick appends exactly its metric to the trace and advances the draw position by exactly its builder's draws. |
| `GeneratorSpec.TicksFrom` | generator/c++11/generator.cxx:172-174 | A run performs at most `sample_count` ticks, and no check before the last tick saw the shutdown flag. If it stops early, the flag was seen at the stopping check. |
| `GeneratorSpec.TicksStep` | generator/c++11/generator.cxx:172-174 | A check that passes does not change the total number of ticks. |
| `GeneratorSpec.FullRunIffNoShutdown` | generator/c++11/generator.cxx:172-174 | A run performs exactly `sample_count` ticks if and only if none of its first `sample_count` checks sees the shutdown flag. |
| `GeneratorSpec.StopsAtFirstShutdown` | generator/c++11/generator.cxx:172-174 | If the first check that sees the flag is check k < `sample_count`, the run performs exactly k ticks. No tick runs once the flag is seen. |
| `GeneratorSpec.ExampleThreeSamples` | generator/c++11/generator.cxx:39-176 | With `sample_count = 3` and draws 500.0, 250.0, 10.0, …, the run performs 3 ticks. It writes uint64 counter 500, then double counter 1.25, then a uint64 histogram whose 20 buckets are all 12. |
| `GeneratorSpec.ExampleShutdownBeforeTick1` | generator/c++11/generator.cxx:172-174 | With `sample_count = 100` and the flag seen at the second check, exactly one tick runs. |
| `Generator.MetricWriter.Write` | generator/c++11/generator.cxx:49 | `writer.write` appends the metric to the written trace. |
| `Generator.HistogramLabels` | generator/c++11/generator.cxx:77-82 | The counted label loop appends exactly the five standard labels, in order. |
| `Generator.PublishUint64Counter` | generator/c++11/generator.cxx:39-52 | The builder takes one draw, computes `counter * 1000 + (int)draw` in 32-bit `int` and widens it to uint64, and writes `Build(UInt64Counter, counter, [draw])`. |
| `Generator.PublishDoubleCounter` | generator/c++11/generator.cxx:54-67 | The builder takes one draw and writes `Build(DoubleCounter, counter, [draw])`. |
| `Generator.PublishUInt64Histogram` | generator/c++11/generator.cxx:69-90 | The builder takes 20 draws and writes `Build(UInt64Histogram, counter, those draws)`. The bucket loop keeps the buckets equal to `Uint64Buckets` of the draws taken so far. |
| `Generator.PublishDoubleHistogram` | generator/c++11/generator.cxx:92-113 | The builder takes 20 draws and writes `Build(DoubleHistogram, counter, those draws)`. |
| `Generator.PublishUInt64UpDownCounter` | generator/c++11/generator.cxx:115-126 | The builder takes no draw (it does not touch the source) and writes `Build(UInt64UpDownCounter, counter, [])`. |
| `Generator.PublishDoubleUpDownCounter` | generator/c++11/generator.cxx:128-139 | The builder takes one draw and writes `Build(DoubleUpDownCounter, counter, [draw])`. |
| `Generator.Publish` | generator/c++11/generator.cxx:162-176 | A call through the table takes exactly `DrawsUsed(k)` draws and writes exactly `Build(k, …)` of those draws. |
| `Generator.RunPublisherApplication` | generator/c++11/generator.cxx:171-179 | The loop keeps `idx == samples_written % 6`. It writes exactly `Emitted(Ticks(sample_count, flags))`, so it writes one metric per tick and at most `sample_count` of them. It takes exactly the draws those ticks need. |

## Left out

- DDS participant, topic, publisher, data writer and QoS construction (generator.cxx:143-160) are foreign transport set-up. `writer.write` is modelled only as an append to a trace.
- Transport errors raised by `writer.write` are not modelled. The modelled write always succeeds. In the source such an exception ends the loop and is reported by `main`.
- The `std::cout` trace lines and `std::this_thread::sleep_for` are output and timing only. They are not modelled.
- The Mersenne Twister, `uniform_real_distribution` and the seeding in `main` (from `std::random_device`, or from the clock when it reports no entropy) are library code and entropy. The engine is modelled as an arbitrary fixed stream of reals in [1, 999).
- IEEE double rounding is not modelled. Double payloads are exact reals, so `draw/1000 + counter` carries no rounding error in the model.
- Signal handlers, argument parsing, logger verbosity and the exception-to-exit-code mapping in `main` are process plumbing. The flag's asynchronous setting is modelled only by the sequence of values the loop reads.
- `telemetry.hpp` and `application.hpp` are not part of this model. The payload element types (uint64 and double) are taken from the union member names the builders use.

## Findings

| source | as written | input that shows it | evidently intended | confidence | as-written member | corrected member |
|---|---|---|---|---|---|---|
| generator/c++11/generator.cxx:41 | `counter * 1000` is computed in 32-bit `int` before it is widened to `uint64_t` | counter = 2147484: the loop reaches it after 2147484 ticks (about 24.8 days at one tick a second) when `sample_count` is larger, and the rotation gives that tick to the uint64 counter. The product overflows `int`, which is undefined; with wrap-around the value becomes 2^64 - 2147482796 for a draw of 500 | the 64-bit value `counter*1000 + (int)draw` = 2147484500 | medium, not executed | `GeneratorSpec.CounterValueAsWritten` (shown by `GeneratorSpec.CounterValueOverflowsAtTick2147484`) | `GeneratorSpec.CounterValue` (bounds in its contract; `GeneratorSpec.CounterValueAgreesWithoutOverflow` shows the two agree before the overflow). The builder and the loop keep the as-written value, so the trace is the source's. |
