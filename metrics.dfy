/**
 * The parts of the Prometheus Go client that the collectors use: metric
 * descriptors, constant metrics, and the label-cardinality check that
 * `prometheus.NewConstMetric` performs before it builds a metric.
 */
module Metrics {
  import opened Results

  /** `prometheus.ValueType`. */
  datatype ValueType = CounterValue | GaugeValue | UntypedValue

  /** A `prometheus.Desc` as `NewDesc` builds it with no constant labels. */
  datatype Desc = Desc(fqName: string, help: string, variableLabels: seq<string>)

  /**
   * A `prometheus.Metric` as a collector puts it on its channel: a constant
   * metric, or the nil interface value that `metric, _ := NewConstMetric(...)`
   * leaves behind when the error is thrown away.
   */
  datatype Metric =
    | NilMetric
    | ConstMetric(desc: Desc, valueType: ValueType, value: real, labelValues: seq<string>)

  /** The error `NewConstMetric` returns for a wrong number of label values. */
  datatype MetricError = InconsistentCardinality(expected: nat, got: nat)

  /** `prometheus.NewConstMetric`, reduced to its label-count check. */
  function NewConstMetric(desc: Desc, valueType: ValueType, value: real, labelValues: seq<string>)
    : Result<Metric, MetricError>
  {
    if |labelValues| != |desc.variableLabels| then
      Err(InconsistentCardinality(|desc.variableLabels|, |labelValues|))
    else
      Ok(ConstMetric(desc, valueType, value, labelValues))
  }

  /** `metric, _ := NewConstMetric(...)`: the metric, or nil when there was an error. */
  function DiscardError(r: Result<Metric, MetricError>): Metric {
    match r
    case Ok(m) => m
    case Err(_) => NilMetric
  }

  /**
   * What a registry demands of every metric a collector sends: it is a real
   * (non-nil) metric, its descriptor is one the collector describes, and it
   * carries exactly as many label values as that descriptor has label names.
   */
  predicate Consistent(m: Metric, described: seq<Desc>) {
    && m.ConstMetric?
    && m.desc in described
    && |m.labelValues| == |m.desc.variableLabels|
  }
}
