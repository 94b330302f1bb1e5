/**
 * The first half of `writeMetrics`: turning the collected metrics into
 * CloudWatch data. Every gauge and counter becomes one datum whose dimensions
 * are the `server` dimension followed by the metric's labels; histograms are
 * skipped without an error.
 */
module PayloadMapper {
  import opened MetricModel

  /** The base dimension every datum starts with. */
  function ServerDimension(serverName: string): (d: Dimension) {
    Dimension("server", serverName)
  }

  /** The dimension the driver builds from one label. */
  function LabelDimension(lab: Label): (d: Dimension) {
    Dimension(lab.key, lab.value)
  }

  /** The dimensions built from a metric's labels, in label order. */
  function LabelDimensions(labels: seq<Label>): (dims: seq<Dimension>) {
    if |labels| == 0 then []
    else LabelDimensions(labels[..|labels| - 1]) + [LabelDimension(labels[|labels| - 1])]
  }

  /** The full dimension list of a datum: base dimension first, then the labels. */
  function DatumDimensions(serverName: string, labels: seq<Label>): (dims: seq<Dimension>) {
    [ServerDimension(serverName)] + LabelDimensions(labels)
  }

  /** The data one metric contributes when the clock reads `now`:
      one datum for a gauge or a counter, none for a histogram. */
  function MetricRecords(m: Metric, serverName: string, now: Instant): (records: seq<MetricDatum>) {
    match m
    case Gauge(name, labels, value) => [MetricDatum(name, None, value, DatumDimensions(serverName, labels), now)]
    case Counter(name, labels, value) => [MetricDatum(name, None, value, DatumDimensions(serverName, labels), now)]
    case Histogram(_, _, _, _, _) => []
  }

  /** The data list `writeMetrics` builds for `metrics`; `clock(i)` is the
      instant read while the metric at position `i` is being mapped. */
  function MapMetrics(metrics: seq<Metric>, serverName: string, clock: nat -> Instant): (data: seq<MetricDatum>) {
    if |metrics| == 0 then []
    else
      MapMetrics(metrics[..|metrics| - 1], serverName, clock)
      + MetricRecords(metrics[|metrics| - 1], serverName, clock(|metrics| - 1))
  }

  /** The positions of the gauges and counters in `metrics`, in input order:
      an independent account of which metrics yield a datum. */
  function ScalarPositions(metrics: seq<Metric>): (positions: seq<nat>) {
    if |metrics| == 0 then []
    else
      ScalarPositions(metrics[..|metrics| - 1])
      + (if metrics[|metrics| - 1].Histogram? then [] else [|metrics| - 1])
  }

  /** The label dimensions correspond one to one, in order, to the labels. */
  lemma {:induction false} LabelDimensionsAt(labels: seq<Label>)
    ensures |LabelDimensions(labels)| == |labels|
    ensures forall j :: 0 <= j < |labels| ==> LabelDimensions(labels)[j] == Dimension(labels[j].key, labels[j].value)
  {
    if |labels| > 0 {
      LabelDimensionsAt(labels[..|labels| - 1]);
    }
  }

  /** What one metric yields: nothing for a histogram; for a gauge or a counter
      exactly one datum carrying the metric's name and value, unit None, the
      clock reading, and the dimensions `server` then each label in order. */
  lemma RecordShape(m: Metric, serverName: string, now: Instant)
    ensures m.Histogram? <==> MetricRecords(m, serverName, now) == []
    ensures !m.Histogram? ==>
      var rs := MetricRecords(m, serverName, now);
      && |rs| == 1
      && rs[0].metricName == m.name
      && rs[0].value == m.value
      && rs[0].unit == None
      && rs[0].timestamp == now
      && |rs[0].dimensions| == 1 + |m.labels|
      && rs[0].dimensions[0] == Dimension("server", serverName)
      && (forall j :: 0 <= j < |m.labels| ==>
            rs[0].dimensions[j + 1] == Dimension(m.labels[j].key, m.labels[j].value))
  {
    LabelDimensionsAt(m.labels);
  }

  /** ScalarPositions lists exactly the gauges and counters, in increasing order. */
  lemma {:induction false} ScalarPositionsExact(metrics: seq<Metric>)
    ensures forall k :: 0 <= k < |ScalarPositions(metrics)| ==> ScalarPositions(metrics)[k] < |metrics|
    ensures forall k, l :: 0 <= k < l < |ScalarPositions(metrics)| ==> ScalarPositions(metrics)[k] < ScalarPositions(metrics)[l]
    ensures forall i :: 0 <= i < |metrics| ==> (i in ScalarPositions(metrics) <==> !metrics[i].Histogram?)
  {
    if |metrics| > 0 {
      var init := metrics[..|metrics| - 1];
      ScalarPositionsExact(init);
      forall i | 0 <= i < |init| ensures init[i] == metrics[i] { }
    }
  }

  /** The k-th datum is the one of the k-th gauge or counter: histograms are
      dropped, every other metric yields exactly one datum, in input order. */
  lemma {:induction false} MapMetricsByPosition(metrics: seq<Metric>, serverName: string, clock: nat -> Instant)
    ensures |MapMetrics(metrics, serverName, clock)| == |ScalarPositions(metrics)|
    ensures forall k :: 0 <= k < |ScalarPositions(metrics)| ==>
      ScalarPositions(metrics)[k] < |metrics| &&
      MetricRecords(metrics[ScalarPositions(metrics)[k]], serverName, clock(ScalarPositions(metrics)[k]))
        == [MapMetrics(metrics, serverName, clock)[k]]
  {
    ScalarPositionsExact(metrics);
    if |metrics| > 0 {
      var n := |metrics| - 1;
      var init := metrics[..n];
      MapMetricsByPosition(init, serverName, clock);
      ScalarPositionsExact(init);
      var p, q := ScalarPositions(init), ScalarPositions(metrics);
      forall k | 0 <= k < |q|
        ensures MetricRecords(metrics[q[k]], serverName, clock(q[k])) == [MapMetrics(metrics, serverName, clock)[k]]
      {
        if k < |p| {
          assert q[k] == p[k] && metrics[q[k]] == init[p[k]];
        }
      }
    }
  }

  /** For a snapshot of gauges and counters only, there is exactly one datum
      per metric, at the metric's own position. */
  lemma {:induction false} ScalarsOnePerMetric(metrics: seq<Metric>, serverName: string, clock: nat -> Instant)
    requires forall i :: 0 <= i < |metrics| ==> !metrics[i].Histogram?
    ensures |MapMetrics(metrics, serverName, clock)| == |metrics|
    ensures forall i :: 0 <= i < |metrics| ==>
      var r := MapMetrics(metrics, serverName, clock)[i];
      && r.metricName == metrics[i].name
      && r.value == metrics[i].value
      && r.unit == None
      && r.dimensions == DatumDimensions(serverName, metrics[i].labels)
      && r.timestamp == clock(i)
  {
    if |metrics| > 0 {
      var init := metrics[..|metrics| - 1];
      ScalarsOnePerMetric(init, serverName, clock);
      forall i | 0 <= i < |init| ensures init[i] == metrics[i] { }
    }
  }

  /** A snapshot of histograms only yields no data at all. */
  lemma {:induction false} HistogramsYieldNothing(metrics: seq<Metric>, serverName: string, clock: nat -> Instant)
    requires forall i :: 0 <= i < |metrics| ==> metrics[i].Histogram?
    ensures MapMetrics(metrics, serverName, clock) == []
  {
    if |metrics| > 0 {
      HistogramsYieldNothing(metrics[..|metrics| - 1], serverName, clock);
    }
  }

  /** The mutable dimension list of the source (an ArrayList of Dimension). */
  class DimensionList {
    var items: seq<Dimension>

    /** A new list holding a copy of `items` (`ArrayList()`, `toMutableList()`). */
    constructor Copy(items: seq<Dimension>)
      ensures this.items == items
    {
      this.items := items;
    }

    /** Appends one dimension at the end of this list. */
    method Add(d: Dimension)
      modifies this
      ensures items == old(items) + [d]
    {
      items := items + [d];
    }
  }

  /** Copies the base list and appends one dimension per label. The copy is
      fresh, so the base list and every list built earlier stay as they were. */
  method BuildDimensionList(base: DimensionList, labels: seq<Label>) returns (dimensionList: DimensionList)
    ensures fresh(dimensionList)
    ensures dimensionList.items == base.items + LabelDimensions(labels)
    ensures unchanged(base)
  {
    dimensionList := new DimensionList.Copy(base.items);
    for j := 0 to |labels|
      invariant fresh(dimensionList)
      invariant dimensionList.items == base.items + LabelDimensions(labels[..j])
    {
      assert labels[..j + 1][..j] == labels[..j];
      dimensionList.Add(LabelDimension(labels[j]));
    }
    assert labels[..|labels|] == labels;
  }

  /** The mapping loop of `writeMetrics`: builds the data list for `metrics`. */
  method BuildMetricData(metrics: seq<Metric>, serverName: string, clock: nat -> Instant)
    returns (metricDataList: seq<MetricDatum>)
    ensures metricDataList == MapMetrics(metrics, serverName, clock)
  {
    var baseDimensions := new DimensionList.Copy([]);
    baseDimensions.Add(ServerDimension(serverName));
    metricDataList := [];
    for i := 0 to |metrics|
      invariant baseDimensions.items == [ServerDimension(serverName)]
      invariant metricDataList == MapMetrics(metrics[..i], serverName, clock)
    {
      assert metrics[..i + 1][..i] == metrics[..i];
      var metric := metrics[i];
      var dimensionList := BuildDimensionList(baseDimensions, metric.labels);
      var metricValue: Value;
      match metric {
        case Gauge(_, _, v) => metricValue := v;
        case Counter(_, _, v) => metricValue := v;
        case Histogram(_, _, _, _, _) => continue;
      }
      var now := clock(i);
      metricDataList := metricDataList + [MetricDatum(metric.name, None, metricValue, dimensionList.items, now)];
    }
    assert metrics[..|metrics|] == metrics;
  }
}
