# CloudWatch metrics driver — a Dafny model

This project models the CloudWatch driver of UnifiedMetrics
(`CloudwatchMetricsDriver.kt`). The driver pushes the host's metrics to
Amazon CloudWatch on a fixed schedule.

- **Lifecycle.** `initialize` starts a background export loop and `close` cancels it:
  Created → Running → Stopped, and Stopped is final.
- **Export loop.** Each cycle collects a snapshot of metrics and writes it to CloudWatch.
  Any throw, from the collector or from a send, is caught and logged, and the loop goes on.
  After each cycle the loop sleeps `max(0, pushIntervalSeconds * 1000 - elapsed)` milliseconds.
- **Mapping.** Every gauge and counter becomes one `MetricDatum`. The datum has the
  metric's name and value, unit `None`, and the dimensions `server = <serverName>`
  followed by the metric's labels in iteration order. Histograms are skipped silently.
- **Chunking and sending.** The data list is cut into contiguous chunks of at most 150.
  Each chunk is sent with one `putMetricData` request under the configured namespace, in
  order. The first send that throws ends the cycle's sends.

Modules, one per component of the driver:

- `MetricModel` (`metric_model.dfy`): metrics, labels, dimensions, data and requests.
  A metric value (a `Double` in the source) is an abstract type, because the driver only copies it.
- `PayloadMapper` (`payload_mapper.dfy`): the mapping loop of `writeMetrics`.
  `BuildMetricData` and `BuildDimensionList` are methods with loops. The mutable
  `ArrayList` of dimensions is the class `DimensionList`.
- `Batcher` (`batcher.dfy`): the library function `chunked(150)`.
- `ExportClient` (`export_client.dfy`): the send loop over the chunks.
- `DriverLoop` (`driver_loop.dfy`): the per-cycle step, the delay, and the driver class
  with its lifecycle state and the history of what it did.

The outside world is passed in as inputs (`CycleInput`):

- the collector's outcome (`Collected(metrics)` or `CollectFailed`);
- the clock reading taken while the metric at each position is mapped (`clock: nat -> Instant`);
- the positions, within the cycle, of the CloudWatch calls that throw (`sendFails`);
- the milliseconds the cycle took (`measureTimeMillis`).

The CloudWatch client, the collector, the clock and the logger are not modelled
beyond these inputs. The driver class records what it did as plain fields: the
requests issued, the number of errors logged, the number of collections made,
and the delays slept.

Two details of the code that the model keeps:

- The `when (metric)` in `writeMetrics` has no `else` branch, so a fourth metric
  kind would yield a datum with value 0.0. The model has exactly the three kinds.
- Chunks are sent one after another, and the first throw ends the cycle's sends.

## Model

| member | source | states |
|---|---|---|
| `PayloadMapper.LabelDimensionsAt` | drivers/cloudwatch/src/main/kotlin/dev/cubxity/plugins/metrics/cloudwatch/CloudwatchMetricsDriver.kt:96-101 | one dimension per label, in label order, with the label's key as name and the label's value as value |
| `PayloadMapper.RecordShape` | drivers/cloudwatch/src/main/kotlin/dev/cubxity/plugins/metrics/cloudwatch/CloudwatchMetricsDriver.kt:94-143 | a metric yields no datum if and only if it is a histogram; a gauge or a counter yields exactly one datum with its name, its value, unit None, the clock reading, and 1 + (number of labels) dimensions: `server` first, then each label in order |
| `PayloadMapper.ScalarPositionsExact` | drivers/cloudwatch/src/main/kotlin/dev/cubxity/plugins/metrics/cloudwatch/CloudwatchMetricsDriver.kt:104-121 | the reference list of gauge and counter positions is strictly increasing, within bounds, and holds a position exactly when the metric there is not a histogram |
| `PayloadMapper.MapMetricsByPosition` | drivers/cloudwatch/src/main/kotlin/dev/cubxity/plugins/metrics/cloudwatch/CloudwatchMetricsDriver.kt:94-144 | the data list has one datum per gauge or counter and none per histogram, and its k-th datum is the one of the k-th gauge or counter, so output order follows input order |
| `PayloadMapper.ScalarsOnePerMetric` | drivers/cloudwatch/src/main/kotlin/dev/cubxity/plugins/metrics/cloudwatch/CloudwatchMetricsDriver.kt:94-143 | for a snapshot of gauges and counters only, there are exactly as many data as metrics, and datum i has metric i's name and value, unit None, its dimensions, and clock reading i |
| `PayloadMapper.HistogramsYieldNothing` | drivers/cloudwatch/src/main/kotlin/dev/cubxity/plugins/metrics/cloudwatch/CloudwatchMetricsDriver.kt:107-121 | a snapshot of histograms only yields an empty data list |
| `PayloadMapper.DimensionList.Copy` | drivers/cloudwatch/src/main/kotlin/dev/cubxity/plugins/metrics/cloudwatch/CloudwatchMetricsDriver.kt:95 | a new list holding exactly the given dimensions |
| `PayloadMapper.DimensionList.Add` | drivers/cloudwatch/src/main/kotlin/dev/cubxity/plugins/metrics/cloudwatch/CloudwatchMetricsDriver.kt:97-100 | the dimension is appended at the end and nothing else changes |
| `PayloadMapper.BuildDimensionList` | drivers/cloudwatch/src/main/kotlin/dev/cubxity/plugins/metrics/cloudwatch/CloudwatchMetricsDriver.kt:95-101 | the result is a fresh list holding the base dimensions followed by the label dimensions, and the base list is unchanged |
| `PayloadMapper.BuildMetricData` | drivers/cloudwatch/src/main/kotlin/dev/cubxity/plugins/metrics/cloudwatch/CloudwatchMetricsDriver.kt:86-144 | the loop builds exactly the data list the mapping specifies (whose properties are the lemmas above), with the base list still holding only the `server` dimension at every iteration |
| `Batcher.ChunkCount` | drivers/cloudwatch/src/main/kotlin/dev/cubxity/plugins/metrics/cloudwatch/CloudwatchMetricsDriver.kt:146 | n data give ceil(n / 150) chunks, and no chunk exactly when there are no data |
| `Batcher.ChunkSizes` | drivers/cloudwatch/src/main/kotlin/dev/cubxity/plugins/metrics/cloudwatch/CloudwatchMetricsDriver.kt:146 | every chunk holds between 1 and the limit of elements, and every chunk but the last holds exactly the limit |
| `Batcher.ChunksFlatten` | drivers/cloudwatch/src/main/kotlin/dev/cubxity/plugins/metrics/cloudwatch/CloudwatchMetricsDriver.kt:146 | concatenating the chunks in order gives back the list |
| `Batcher.ThreeHundredTwentyData` | drivers/cloudwatch/src/main/kotlin/dev/cubxity/plugins/metrics/cloudwatch/CloudwatchMetricsDriver.kt:84-146 | 320 data are split into three chunks of 150, 150 and 20, in order |
| `ExportClient.SendAllSpec` | drivers/cloudwatch/src/main/kotlin/dev/cubxity/plugins/metrics/cloudwatch/CloudwatchMetricsDriver.kt:146-163 | request i is chunk i under the namespace; no more requests than chunks; every call before the last attempted one succeeded; the sends fail if and only if some chunk's call throws, and then the last attempted call is the one that threw; without a failure every chunk is sent |
| `ExportClient.SendChunks` | drivers/cloudwatch/src/main/kotlin/dev/cubxity/plugins/metrics/cloudwatch/CloudwatchMetricsDriver.kt:146-163 | the send loop attempts exactly the requests, and reports exactly the failure, that the send specification gives |
| `DriverLoop.CycleDelay` | drivers/cloudwatch/src/main/kotlin/dev/cubxity/plugins/metrics/cloudwatch/CloudwatchMetricsDriver.kt:66-78 | the delay is never negative; it is 0 when the cycle took at least the interval, and otherwise it makes up the rest of the interval |
| `DriverLoop.NextCycleStart` | drivers/cloudwatch/src/main/kotlin/dev/cubxity/plugins/metrics/cloudwatch/CloudwatchMetricsDriver.kt:70-78 | the next cycle starts one interval after this cycle started, or as soon as this cycle ends if it took longer than that |
| `DriverLoop.SixtySecondInterval` | drivers/cloudwatch/src/main/kotlin/dev/cubxity/plugins/metrics/cloudwatch/CloudwatchMetricsDriver.kt:66-78 | with a 60 s interval and a 5 s cycle, the driver sleeps 55 s |
| `DriverLoop.CollectFailureIsolated` | drivers/cloudwatch/src/main/kotlin/dev/cubxity/plugins/metrics/cloudwatch/CloudwatchMetricsDriver.kt:71-78 | a collect that throws means no request, one logged error, and the usual delay |
| `DriverLoop.CycleSends` | drivers/cloudwatch/src/main/kotlin/dev/cubxity/plugins/metrics/cloudwatch/CloudwatchMetricsDriver.kt:72-76 | after a successful collect, request i is chunk i of the mapped data under the namespace, with 1 to 150 data; an error is logged if and only if some chunk's call throws, and no call after that one is made |
| `DriverLoop.CycleDeliversAll` | drivers/cloudwatch/src/main/kotlin/dev/cubxity/plugins/metrics/cloudwatch/CloudwatchMetricsDriver.kt:83-163 | when no call throws, the requests carry every datum of the snapshot exactly once and in order, no error is logged, and empty data mean no request |
| `DriverLoop.ScalarCycleSends` | drivers/cloudwatch/src/main/kotlin/dev/cubxity/plugins/metrics/cloudwatch/CloudwatchMetricsDriver.kt:72-73 | a snapshot holding a gauge or a counter, with no failing call, leads to at least one request and no logged error |
| `DriverLoop.CollectorFailsInSecondOfThree` | drivers/cloudwatch/src/main/kotlin/dev/cubxity/plugins/metrics/cloudwatch/CloudwatchMetricsDriver.kt:69-79 | over three cycles whose collector throws in the second, the first and third cycles both send, the second sends nothing, and exactly one error is logged |
| `DriverLoop.CloudwatchMetricsDriver.constructor` | drivers/cloudwatch/src/main/kotlin/dev/cubxity/plugins/metrics/cloudwatch/CloudwatchMetricsDriver.kt:46-47 | a new driver is Created, with its configuration and an empty history |
| `DriverLoop.CloudwatchMetricsDriver.Initialize` | drivers/cloudwatch/src/main/kotlin/dev/cubxity/plugins/metrics/cloudwatch/CloudwatchMetricsDriver.kt:49-51 | Created becomes Running; a Running or Stopped driver keeps its state; the history is unchanged |
| `DriverLoop.CloudwatchMetricsDriver.Close` | drivers/cloudwatch/src/main/kotlin/dev/cubxity/plugins/metrics/cloudwatch/CloudwatchMetricsDriver.kt:60-63 | the driver is Stopped from any state, and the history is unchanged |
| `DriverLoop.CloudwatchMetricsDriver.RunCycle` | drivers/cloudwatch/src/main/kotlin/dev/cubxity/plugins/metrics/cloudwatch/CloudwatchMetricsDriver.kt:69-79 | a running driver collects once, appends the cycle's attempted requests, logs at most one error and appends the cycle's delay; a driver that is not running does nothing; the lifecycle state is kept |
| `DriverLoop.CloudwatchMetricsDriver.Run` | drivers/cloudwatch/src/main/kotlin/dev/cubxity/plugins/metrics/cloudwatch/CloudwatchMetricsDriver.kt:68-80 | over n cycles a running driver collects n times and after each cycle sleeps that cycle's `max(0, interval - elapsed)`, whatever fails; its requests are the cycles' requests in cycle order, and its error count is the number of failing cycles; a driver that is not running does nothing |

## Left out

- The CloudWatch SDK (`CloudWatchClient`, `ProfileCredentialsProvider`, `putMetricData`, closing the client after `use`) is foreign I/O. A call is modelled only by whether it throws, given by its position in the cycle. A throw while creating the client counts as a throw of that call.
- The `?: return` on a null client is unreachable, because the client is never null. It is not modelled.
- Coroutines, the `SupervisorJob` scope, `Dispatchers.Default` and asynchronous cancellation are not modelled. `close` sets the terminal Stopped state. A cycle already in flight when `close` is called, and the concurrency between the loop and its caller, are not modelled.
- `DriverLoop.CloudwatchMetricsDriver.Run`: the source loop is `while (true)`. The model runs the first `|inputs|` cycles of it, for any number of cycles.
- `DriverLoop.CloudwatchMetricsDriver.Initialize`: calling `initialize` twice launches a second loop in the source. The model keeps a single lifecycle state, so a second call on a running driver changes nothing.
- Wall-clock time: `ZonedDateTime.now`, the ISO_INSTANT formatting and parsing round trip, and `measureTimeMillis` are not modelled. The clock readings and the elapsed time are inputs.
- `DriverLoop.CycleDelay`: `pushIntervalSeconds * 1000` and `interval - time` are computed on unbounded integers. The configuration class that fixes the width of `pushIntervalSeconds` is not part of this model, so a possible overflow is not modelled.
- Arithmetic on `Double` is not modelled. Values are only copied, so their type is abstract.
- `println` in `close` and the logger's message and cause are not modelled. The model only counts logged errors.
- `CoreUnifiedMetricsPlugin.kt` only registers three driver factories with a registry that is not part of this model. It is not modelled.
