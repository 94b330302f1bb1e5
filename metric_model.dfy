/**
 * The data shapes the CloudWatch driver consumes and produces: the metrics
 * that the collector hands it, and the CloudWatch records (MetricDatum) and
 * requests (PutMetricDataRequest) it builds from them.
 */
module MetricModel {

  /** A metric value (a 64-bit float in the source). The driver only copies
      values, so the model keeps the type abstract. */
  type Value(==)

  /** A clock reading, the timestamp of a datum. */
  type Instant = int

  /** One label of a metric, in the order the label map is iterated. */
  datatype Label = Label(key: string, value: string)

  /** One histogram bucket. */
  datatype Bucket = Bucket(upperBound: Value, cumulativeCount: Value)

  /** The three metric kinds the collector produces. */
  datatype Metric =
    | Gauge(name: string, labels: seq<Label>, value: Value)
    | Counter(name: string, labels: seq<Label>, value: Value)
    | Histogram(name: string, labels: seq<Label>, sampleCount: Value, sampleSum: Value, bucket: seq<Bucket>)

  /** A CloudWatch dimension: a name/value pair attached to a datum. */
  datatype Dimension = Dimension(name: string, value: string)

  /** The CloudWatch unit; the driver only ever uses `None`. */
  datatype StandardUnit = None

  /** One CloudWatch datum, the backend record of one gauge or counter. */
  datatype MetricDatum = MetricDatum(
    metricName: string,
    unit: StandardUnit,
    value: Value,
    dimensions: seq<Dimension>,
    timestamp: Instant)

  /** The argument of one `putMetricData` call. */
  datatype PutMetricDataRequest = PutMetricDataRequest(namespace: string, metricData: seq<MetricDatum>)
}
