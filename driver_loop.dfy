/**
 * The driver itself: its Created/Running/Stopped lifecycle and the export
 * loop that, once per cycle, collects the metrics, writes them to CloudWatch,
 * logs any error without stopping, and sleeps for what is left of the push
 * interval. The collector, the clock, the CloudWatch client and the elapsed
 * time of a cycle are inputs of the model (`CycleInput`).
 */
module DriverLoop {
  import opened MetricModel
  import PayloadMapper
  import Batcher
  import opened ExportClient

  /** The driver's lifecycle. */
  datatype Lifecycle = Created | Running | Stopped

  /** What `collect()` did in one cycle: returned a snapshot, or threw. */
  datatype CollectOutcome = Collected(metrics: seq<Metric>) | CollectFailed

  /** Everything from outside the driver that one cycle depends on: the
      collector's outcome, the clock reading taken at each metric position,
      the positions of the `putMetricData` calls that throw, and the
      milliseconds the cycle took (a difference of two wall-clock readings,
      so it can be negative when the clock steps back). */
  datatype CycleInput = CycleInput(
    collect: CollectOutcome,
    clock: nat -> Instant,
    sendFails: set<nat>,
    elapsed: int)

  /** What one cycle did: the requests it attempted, whether it logged an
      error, and how long it then sleeps. */
  datatype CycleResult = CycleResult(attempted: seq<PutMetricDataRequest>, errorLogged: bool, delay: int)

  /** The sleep after a cycle that took `elapsed` milliseconds: what is left
      of the push interval, and never negative. */
  function CycleDelay(pushIntervalSeconds: int, elapsed: int): (delay: int)
    ensures delay >= 0
    ensures elapsed >= pushIntervalSeconds * 1000 ==> delay == 0
    ensures elapsed < pushIntervalSeconds * 1000 ==> elapsed + delay == pushIntervalSeconds * 1000
  {
    var interval := pushIntervalSeconds * 1000;
    if interval - elapsed > 0 then interval - elapsed else 0
  }

  /** One cycle of the export loop: collect, map, chunk and send, with any
      throw caught and logged once, then the delay. */
  function Cycle(serverName: string, namespace: string, pushIntervalSeconds: int, input: CycleInput): (r: CycleResult) {
    var delay := CycleDelay(pushIntervalSeconds, input.elapsed);
    match input.collect
    case CollectFailed => CycleResult([], true, delay)
    case Collected(metrics) =>
      var data := PayloadMapper.MapMetrics(metrics, serverName, input.clock);
      var out := SendAll(Batcher.Chunked(data, Batcher.MaxDatapointsPerRequest), namespace, input.sendFails, 0);
      CycleResult(out.attempted, out.failed, delay)
  }

  /** The requests of a sequence of cycles, cycle after cycle. */
  function AllAttempted(serverName: string, namespace: string, pushIntervalSeconds: int, inputs: seq<CycleInput>): (requests: seq<PutMetricDataRequest>) {
    if |inputs| == 0 then []
    else
      AllAttempted(serverName, namespace, pushIntervalSeconds, inputs[..|inputs| - 1])
      + Cycle(serverName, namespace, pushIntervalSeconds, inputs[|inputs| - 1]).attempted
  }

  /** The number of cycles among `inputs` that log an error. */
  function ErrorCount(serverName: string, namespace: string, pushIntervalSeconds: int, inputs: seq<CycleInput>): (count: nat) {
    if |inputs| == 0 then 0
    else
      ErrorCount(serverName, namespace, pushIntervalSeconds, inputs[..|inputs| - 1])
      + (if Cycle(serverName, namespace, pushIntervalSeconds, inputs[|inputs| - 1]).errorLogged then 1 else 0)
  }

  /** The delays slept after a sequence of cycles, cycle after cycle. */
  function AllDelays(pushIntervalSeconds: int, inputs: seq<CycleInput>): (delays: seq<int>) {
    if |inputs| == 0 then []
    else AllDelays(pushIntervalSeconds, inputs[..|inputs| - 1]) + [CycleDelay(pushIntervalSeconds, inputs[|inputs| - 1].elapsed)]
  }

  /** The data carried by a list of requests, request by request. */
  function RequestData(requests: seq<PutMetricDataRequest>): (data: seq<seq<MetricDatum>>) {
    if |requests| == 0 then [] else [requests[0].metricData] + RequestData(requests[1..])
  }

  /** The next cycle starts the push interval after this one started, or as
      soon as this one ends if it took longer than that. */
  lemma NextCycleStart(pushIntervalSeconds: int, start: int, elapsed: int)
    ensures var next := start + elapsed + CycleDelay(pushIntervalSeconds, elapsed);
      next == if elapsed >= pushIntervalSeconds * 1000 then start + elapsed else start + pushIntervalSeconds * 1000
  {
  }

  /** With a 60 second interval and a 5 second cycle, the driver sleeps 55 seconds. */
  lemma SixtySecondInterval()
    ensures CycleDelay(60, 5000) == 55000
  {
  }

  /** A failed collect is one logged error and no request; the delay still follows. */
  lemma CollectFailureIsolated(serverName: string, namespace: string, pushIntervalSeconds: int, input: CycleInput)
    requires input.collect.CollectFailed?
    ensures Cycle(serverName, namespace, pushIntervalSeconds, input)
      == CycleResult([], true, CycleDelay(pushIntervalSeconds, input.elapsed))
  {
  }

  /** A cycle after a successful collect sends the mapped data chunk by chunk,
      in order, each request under the namespace and with 1 to 150 data; it
      logs an error exactly when some chunk's call throws, and then the calls
      after that one are not made. */
  lemma {:induction false} CycleSends(serverName: string, namespace: string, pushIntervalSeconds: int, input: CycleInput)
    requires input.collect.Collected?
    ensures
      var chunks := Batcher.Chunked(PayloadMapper.MapMetrics(input.collect.metrics, serverName, input.clock),
                                    Batcher.MaxDatapointsPerRequest);
      var r := Cycle(serverName, namespace, pushIntervalSeconds, input);
      && |r.attempted| <= |chunks|
      && (forall i :: 0 <= i < |r.attempted| ==>
            && r.attempted[i] == PutMetricDataRequest(namespace, chunks[i])
            && 0 < |r.attempted[i].metricData| <= Batcher.MaxDatapointsPerRequest)
      && (r.errorLogged <==> exists k :: 0 <= k < |chunks| && k in input.sendFails)
      && (r.errorLogged ==> |r.attempted| - 1 in input.sendFails)
      && (forall k :: 0 <= k < |r.attempted| - 1 ==> k !in input.sendFails)
      && (!r.errorLogged ==> |r.attempted| == |chunks|)
  {
    var chunks := Batcher.Chunked(PayloadMapper.MapMetrics(input.collect.metrics, serverName, input.clock),
                                  Batcher.MaxDatapointsPerRequest);
    SendAllSpec(chunks, namespace, input.sendFails, 0);
    Batcher.ChunkSizes(PayloadMapper.MapMetrics(input.collect.metrics, serverName, input.clock), Batcher.MaxDatapointsPerRequest);
  }

  /** When no call throws, every datum of the snapshot is sent exactly once,
      in input order, and no error is logged; an empty data list means no
      request at all. */
  lemma {:induction false} CycleDeliversAll(serverName: string, namespace: string, pushIntervalSeconds: int, input: CycleInput)
    requires input.collect.Collected?
    requires input.sendFails == {}
    ensures
      var data := PayloadMapper.MapMetrics(input.collect.metrics, serverName, input.clock);
      var r := Cycle(serverName, namespace, pushIntervalSeconds, input);
      && !r.errorLogged
      && Batcher.Flatten(RequestData(r.attempted)) == data
      && (|r.attempted| == 0 <==> |data| == 0)
  {
    var data := PayloadMapper.MapMetrics(input.collect.metrics, serverName, input.clock);
    var chunks := Batcher.Chunked(data, Batcher.MaxDatapointsPerRequest);
    var r := Cycle(serverName, namespace, pushIntervalSeconds, input);
    SendAllSpec(chunks, namespace, input.sendFails, 0);
    Batcher.ChunksFlatten(data, Batcher.MaxDatapointsPerRequest);
    Batcher.ChunkCount(data);
    RequestDataOf(r.attempted, namespace, chunks);
  }

  /** Requests made one per chunk carry exactly those chunks. */
  lemma {:induction false} RequestDataOf(requests: seq<PutMetricDataRequest>, namespace: string, chunks: seq<seq<MetricDatum>>)
    requires |requests| == |chunks|
    requires forall i :: 0 <= i < |requests| ==> requests[i] == PutMetricDataRequest(namespace, chunks[i])
    ensures RequestData(requests) == chunks
  {
    if |requests| > 0 {
      RequestDataOf(requests[1..], namespace, chunks[1..]);
    }
  }

  /** Some metric of the snapshot is a gauge or a counter. */
  predicate HasScalar(metrics: seq<Metric>): (b: bool) {
    exists i :: 0 <= i < |metrics| && !metrics[i].Histogram?
  }

  /** A cycle whose snapshot holds a gauge or a counter and whose calls all
      succeed makes at least one request and logs nothing. */
  lemma ScalarCycleSends(serverName: string, namespace: string, pushIntervalSeconds: int, input: CycleInput)
    requires input.collect.Collected? && HasScalar(input.collect.metrics)
    requires input.sendFails == {}
    ensures var r := Cycle(serverName, namespace, pushIntervalSeconds, input);
      |r.attempted| > 0 && !r.errorLogged
  {
    var metrics := input.collect.metrics;
    var i :| 0 <= i < |metrics| && !metrics[i].Histogram?;
    PayloadMapper.ScalarPositionsExact(metrics);
    assert i in PayloadMapper.ScalarPositions(metrics);
    PayloadMapper.MapMetricsByPosition(metrics, serverName, input.clock);
    CycleDeliversAll(serverName, namespace, pushIntervalSeconds, input);
  }

  /** Three cycles whose collector throws in the second: the first and the
      third both send, the second sends nothing, and one error is logged. */
  lemma CollectorFailsInSecondOfThree(serverName: string, namespace: string, pushIntervalSeconds: int, inputs: seq<CycleInput>)
    requires |inputs| == 3
    requires inputs[1].collect.CollectFailed?
    requires inputs[0].collect.Collected? && HasScalar(inputs[0].collect.metrics) && inputs[0].sendFails == {}
    requires inputs[2].collect.Collected? && HasScalar(inputs[2].collect.metrics) && inputs[2].sendFails == {}
    ensures
      var first := Cycle(serverName, namespace, pushIntervalSeconds, inputs[0]).attempted;
      var third := Cycle(serverName, namespace, pushIntervalSeconds, inputs[2]).attempted;
      && |first| > 0 && |third| > 0
      && AllAttempted(serverName, namespace, pushIntervalSeconds, inputs) == first + third
      && ErrorCount(serverName, namespace, pushIntervalSeconds, inputs) == 1
  {
    ScalarCycleSends(serverName, namespace, pushIntervalSeconds, inputs[0]);
    ScalarCycleSends(serverName, namespace, pushIntervalSeconds, inputs[2]);
    var first := Cycle(serverName, namespace, pushIntervalSeconds, inputs[0]);
    var third := Cycle(serverName, namespace, pushIntervalSeconds, inputs[2]);
    assert inputs[..1][..0] == [] && inputs[..2][..1] == inputs[..1] && inputs[..3][..2] == inputs[..2];
    assert AllAttempted(serverName, namespace, pushIntervalSeconds, inputs[..1]) == first.attempted;
    assert AllAttempted(serverName, namespace, pushIntervalSeconds, inputs[..2]) == first.attempted;
    assert ErrorCount(serverName, namespace, pushIntervalSeconds, inputs[..1]) == 0;
    assert ErrorCount(serverName, namespace, pushIntervalSeconds, inputs[..2]) == 1;
    assert inputs[..3] == inputs;
  }

  /** A CloudWatch driver with its configuration and what it has done so far:
      the requests it issued, the errors it logged, the collections it made
      and the delays it slept. */
  class CloudwatchMetricsDriver {
    const serverName: string
    const namespace: string
    const pushIntervalSeconds: int
    var state: Lifecycle
    var requests: seq<PutMetricDataRequest>
    var errorsLogged: nat
    var collects: nat
    var delays: seq<int>

    /** A driver as the registry creates it: not yet running. */
    constructor (serverName: string, namespace: string, pushIntervalSeconds: int)
      ensures this.serverName == serverName && this.namespace == namespace
      ensures this.pushIntervalSeconds == pushIntervalSeconds
      ensures state == Created
      ensures requests == [] && errorsLogged == 0 && collects == 0 && delays == []
    {
      this.serverName := serverName;
      this.namespace := namespace;
      this.pushIntervalSeconds := pushIntervalSeconds;
      state := Created;
      requests, errorsLogged, collects, delays := [], 0, 0, [];
    }

    /** Starts the export loop. A closed driver's scope is cancelled, so
        nothing starts and it stays stopped. */
    method Initialize()
      modifies this
      ensures state == (if old(state) == Created then Running else old(state))
      ensures requests == old(requests) && errorsLogged == old(errorsLogged)
      ensures collects == old(collects) && delays == old(delays)
    {
      if state == Created {
        state := Running;
      }
    }

    /** Cancels the loop; from then on the driver is stopped for good. */
    method Close()
      modifies this
      ensures state == Stopped
      ensures requests == old(requests) && errorsLogged == old(errorsLogged)
      ensures collects == old(collects) && delays == old(delays)
    {
      state := Stopped;
    }

    /** One iteration of the export loop; it runs only while the driver is
        running, and leaves the lifecycle state as it was. */
    method RunCycle(input: CycleInput) returns (ran: bool)
      modifies this
      ensures ran == (old(state) == Running)
      ensures state == old(state)
      ensures ran ==>
        var r := Cycle(serverName, namespace, pushIntervalSeconds, input);
        && requests == old(requests) + r.attempted
        && errorsLogged == old(errorsLogged) + (if r.errorLogged then 1 else 0)
        && collects == old(collects) + 1
        && delays == old(delays) + [r.delay]
      ensures !ran ==>
        requests == old(requests) && errorsLogged == old(errorsLogged) &&
        collects == old(collects) && delays == old(delays)
    {
      if state != Running {
        return false;
      }
      var errorLogged := false;
      collects := collects + 1;
      match input.collect {
        case CollectFailed =>
          errorLogged := true;
        case Collected(metrics) =>
          var metricDataList := PayloadMapper.BuildMetricData(metrics, serverName, input.clock);
          var chunks := Batcher.Chunked(metricDataList, Batcher.MaxDatapointsPerRequest);
          var attempted, failed := SendChunks(chunks, namespace, input.sendFails);
          requests := requests + attempted;
          errorLogged := failed;
      }
      if errorLogged {
        errorsLogged := errorsLogged + 1;
      }
      delays := delays + [CycleDelay(pushIntervalSeconds, input.elapsed)];
      ran := true;
    }

    /** The first `|inputs|` iterations of the export loop. While running,
        every cycle collects again and sleeps its own delay whatever the
        earlier cycles did, so a failing cycle never stops the ones after it. */
    method Run(inputs: seq<CycleInput>)
      modifies this
      ensures state == old(state)
      ensures old(state) == Running ==>
        && collects == old(collects) + |inputs|
        && delays == old(delays) + AllDelays(pushIntervalSeconds, inputs)
        && requests == old(requests) + AllAttempted(serverName, namespace, pushIntervalSeconds, inputs)
        && errorsLogged == old(errorsLogged) + ErrorCount(serverName, namespace, pushIntervalSeconds, inputs)
      ensures old(state) != Running ==>
        requests == old(requests) && errorsLogged == old(errorsLogged) &&
        collects == old(collects) && delays == old(delays)
    {
      for i := 0 to |inputs|
        invariant state == old(state)
        invariant old(state) == Running ==>
          && collects == old(collects) + i
          && delays == old(delays) + AllDelays(pushIntervalSeconds, inputs[..i])
          && requests == old(requests) + AllAttempted(serverName, namespace, pushIntervalSeconds, inputs[..i])
          && errorsLogged == old(errorsLogged) + ErrorCount(serverName, namespace, pushIntervalSeconds, inputs[..i])
        invariant old(state) != Running ==>
          requests == old(requests) && errorsLogged == old(errorsLogged) &&
          collects == old(collects) && delays == old(delays)
      {
        assert inputs[..i + 1][..i] == inputs[..i];
        ghost var before := delays;
        var _ := RunCycle(inputs[i]);
        assert old(state) == Running ==> delays == before + [CycleDelay(pushIntervalSeconds, inputs[i].elapsed)];
        assert AllDelays(pushIntervalSeconds, inputs[..i + 1])
          == AllDelays(pushIntervalSeconds, inputs[..i]) + [CycleDelay(pushIntervalSeconds, inputs[i].elapsed)];
      }
      assert inputs[..|inputs|] == inputs;
    }
  }
}
