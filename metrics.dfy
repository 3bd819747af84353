/**
 * The batch data model the processors work on: metric values, sets, resource
 * keys, batches, and the registry of resource-request metrics.
 */
module Metrics {
  import opened Wrappers

  /** Go's int64. */
  type Int64 = x: int | -0x8000_0000_0000_0000 <= x < 0x8000_0000_0000_0000

  /** Go's int32. */
  type Int32 = x: int | -0x8000_0000 <= x < 0x8000_0000

  /** An instant or a duration, in nanoseconds. */
  type Time = int

  datatype ValueType = ValueInt64 | ValueFloat

  /** A scalar metric value; only the int64 payload is modelled. */
  datatype Value = Value(valueType: ValueType, intValue: Int64)

  /** A metric value with a secondary label set of its own. */
  datatype LabeledValue = LabeledValue(name: string, labels: map<string, string>, value: Value)

  /**
   * One entity's metrics for a cycle. A Go zero time (unset) is None.
   */
  datatype Set = Set(
    labels: map<string, string>,
    values: map<string, Value>,
    labeledValues: seq<LabeledValue>,
    entityCreateTime: Option<Time>,
    collectionStartTime: Option<Time>)

  /**
   * The identity of a set inside a batch. PodKey, PodContainerKey and
   * WorkloadStatusPodKey stand for the string-building key functions of the
   * metrics package; modelling them as constructors of one datatype assumes
   * those functions are injective with pairwise disjoint images. Keys of
   * every other entity kind are OtherKey.
   */
  datatype ResourceKey =
    | PodKey(namespace: string, pod: string)
    | PodContainerKey(namespace: string, pod: string, container: string)
    | WorkloadStatusPodKey(namespace: string, pod: string)
    | OtherKey(id: string)

  type SetMap = map<ResourceKey, Set>

  /** All metric sets of one scrape cycle. */
  class Batch {
    var timestamp: Time
    var sets: SetMap

    constructor (timestamp: Time, sets: SetMap)
      ensures this.timestamp == timestamp && this.sets == sets
    {
      this.timestamp := timestamp;
      this.sets := sets;
    }
  }

  datatype MetricType = Gauge | Cumulative
  datatype UnitsType = Count | Bytes | Millicores | Nanoseconds

  datatype MetricDescriptor = MetricDescriptor(
    name: string,
    description: string,
    metricType: MetricType,
    valueType: ValueType,
    units: UnitsType)

  // Names of the metrics the pod-based enricher writes. Their descriptors
  // live outside labels.go; the enricher's contracts rely only on these
  // names being pairwise distinct.
  const MetricCpuRequest := "cpu/request"
  const MetricMemoryRequest := "memory/request"
  const MetricEphemeralStorageRequest := "ephemeral_storage/request"
  const MetricCpuLimit := "cpu/limit"
  const MetricMemoryLimit := "memory/limit"
  const MetricEphemeralStorageLimit := "ephemeral_storage/limit"
  const MetricRestartCount := "restart_count"
  const MetricContainerStatus := "status"
  const MetricPodPhase := "phase"
  const MetricWorkloadStatus := "workload_status"

  /**
   * The package-level map ResourceRequestMetrics, from a resource name to
   * the metric its requests are reported under. The enricher adds a metric
   * for every resource it has not seen before.
   */
  class Registry {
    var resourceRequestMetrics: map<string, MetricDescriptor>

    constructor (initial: map<string, MetricDescriptor>)
      ensures resourceRequestMetrics == initial
    {
      resourceRequestMetrics := initial;
    }
  }
}
