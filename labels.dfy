/**
 * The label taxonomy of the collector (collector/internal/metrics/labels.go):
 * the label descriptors, the names of the metric-set types the processors
 * switch on, the descriptor lists and the accessors that copy, concatenate
 * and index them.
 */
module Labels {

  /** A label key and its human-readable description. */
  datatype LabelDescriptor = LabelDescriptor(key: string, description: string)

  /** Go's zero LabelDescriptor, which `make` puts in every slot of a new slice. */
  const ZeroDescriptor := LabelDescriptor("", "")

  // ---------------------------------------------------------------------
  // The catalog

  const KeyMetricSetType := "type"
  const LabelMetricSetType := LabelDescriptor(KeyMetricSetType, "Type of the metrics set (container, pod, namespace, node, cluster)")

  const MetricSetTypeSystemContainer := "sys_container"
  const MetricSetTypePodContainer := "pod_container"
  const MetricSetTypePod := "pod"
  const MetricSetTypeNamespace := "ns"
  const MetricSetTypeNode := "node"
  const MetricSetTypeCluster := "cluster"

  const LabelCluster := LabelDescriptor("cluster", "The name of the kubernetes cluster")
  const KeyPodId := "pod_id"
  const LabelPodId := LabelDescriptor(KeyPodId, "The unique ID of the pod")
  const KeyPodName := "pod_name"
  const LabelPodName := LabelDescriptor(KeyPodName, "The name of the pod")
  const KeyNamespaceName := "namespace_name"
  const LabelNamespaceName := LabelDescriptor(KeyNamespaceName, "The name of the namespace")
  const KeyWorkloadName := "workload_name"
  const LabelWorkloadName := LabelDescriptor(KeyWorkloadName, "Workload name, derived from top level Deployment or DaemonSet")
  const KeyWorkloadKind := "workload_kind"
  const LabelWorkloadKind := LabelDescriptor(KeyWorkloadKind, "Workload Kind, derived from top level Deployment or DaemonSet")
  const KeyDesired := "desired"
  const LabelDesired := LabelDescriptor(KeyDesired, "The desired number for the Pod")
  const KeyAvailable := "available"
  const LabelAvailable := LabelDescriptor(KeyAvailable, "The available number for the Pod")
  const KeyReason := "reason"
  const LabelReason := LabelDescriptor(KeyReason, "The failure reason for the Pod")
  const KeyMessage := "message"
  const LabelMessage := LabelDescriptor(KeyMessage, "The failure message for the Pod")
  const LabelPodNamespaceUID := LabelDescriptor("namespace_id", "The UID of namespace of the pod")
  const KeyContainerName := "container_name"
  const LabelContainerName := LabelDescriptor(KeyContainerName, "User-provided name of the container or full container name for system containers")
  const LabelLabels := LabelDescriptor("labels", "Comma-separated list of user-provided labels")
  const KeyNodename := "nodename"
  const LabelNodename := LabelDescriptor(KeyNodename, "nodename where the container ran")
  const LabelNodeRole := LabelDescriptor("node_role", "Node role worker or control-plane")
  const KeyHostname := "hostname"
  const LabelHostname := LabelDescriptor(KeyHostname, "Hostname where the container ran")
  const LabelResourceID := LabelDescriptor("resource_id", "Identifier(s) specific to a metric")
  const KeyHostID := "host_id"
  const LabelHostID := LabelDescriptor(KeyHostID, "Identifier specific to a host. Set by cloud provider or user")
  const KeyContainerBaseImage := "container_base_image"
  const LabelContainerBaseImage := LabelDescriptor(KeyContainerBaseImage, "User-defined image name that is run inside the container")
  /** Populated only for GCM. */
  const LabelCustomMetricName := LabelDescriptor("custom_metric_name", "User-defined name of the exported custom metric")
  const LabelGCEResourceID := LabelDescriptor("resource_id", "Resource id for nodes specific for GCE.")
  const LabelGCEResourceType := LabelDescriptor("resource_type", "Resource types for nodes specific for GCE.")
  const LabelNodeSchedulable := LabelDescriptor("schedulable", "Node schedulable status.")
  const LabelVolumeName := LabelDescriptor("volume_name", "The name of the volume.")
  const LabelPVCName := LabelDescriptor("pvc_name", "The name of the persistent volume claim.")
  const LabelAcceleratorMake := LabelDescriptor("make", "Make of the accelerator (nvidia, amd, google etc.)")
  const LabelAcceleratorModel := LabelDescriptor("model", "Model of the accelerator (tesla-p100, tesla-k80 etc.)")
  const LabelAcceleratorID := LabelDescriptor("accelerator_id", "ID of the accelerator")

  const commonLabels := [LabelNodename, LabelHostname, LabelHostID]
  const containerLabels := [LabelContainerName, LabelContainerBaseImage]
  const podLabels := [LabelPodName, LabelPodId, LabelPodNamespaceUID, LabelLabels]
  const metricLabels := [LabelResourceID]
  const customMetricLabels := [LabelCustomMetricName]
  const acceleratorLabels := [LabelAcceleratorMake, LabelAcceleratorModel, LabelAcceleratorID]

  /** Labels exported to GCM, which accepts at most ten. */
  const gcmLabels := [LabelMetricSetType, LabelPodName, LabelNamespaceName, LabelHostname, LabelHostID,
                      LabelContainerName, LabelContainerBaseImage, LabelCustomMetricName, LabelResourceID]

  const gcmNodeAutoscalingLabels := [LabelGCEResourceID, LabelGCEResourceType, LabelHostname]

  /** The six metric-set type names are pairwise distinct, so a switch on them is unambiguous. */
  lemma SetTypesDistinct()
    ensures |{MetricSetTypeSystemContainer, MetricSetTypePodContainer, MetricSetTypePod,
              MetricSetTypeNamespace, MetricSetTypeNode, MetricSetTypeCluster}| == 6
  {
    var s := {MetricSetTypeSystemContainer, MetricSetTypePodContainer, MetricSetTypePod,
              MetricSetTypeNamespace, MetricSetTypeNode, MetricSetTypeCluster};
    assert MetricSetTypePod != MetricSetTypePodContainer;
    assert s == {"sys_container"} + {"pod_container"} + {"pod"} + {"ns"} + {"node"} + {"cluster"};
  }

  // ---------------------------------------------------------------------
  // Go's built-in `copy` on slices

  function Min(a: int, b: int): int { if a <= b then a else b }

  /**
   * What `copy(dst[from:], src)` leaves in `dst`: the first
   * min(|dst| - from, |src|) slots from `from` on take `src`'s elements,
   * every other slot keeps its value.
   */
  function CopiedInto<T>(dst: seq<T>, from: nat, src: seq<T>): (r: seq<T>)
    requires from <= |dst|
    ensures |r| == |dst|
    ensures forall i :: 0 <= i < |r| ==> r[i] == if from <= i < from + |src| then src[i - from] else dst[i]
  {
    var n := Min(|dst| - from, |src|);
    dst[..from] + src[..n] + dst[from + n..]
  }

  /** `copy(dst[from:], src)`: positional, returns the number of elements copied. */
  method Copy<T>(dst: array<T>, from: nat, src: seq<T>) returns (n: nat)
    requires from <= dst.Length
    modifies dst
    ensures n == Min(dst.Length - from, |src|)
    ensures dst[..] == CopiedInto(old(dst[..]), from, src)
  {
    n := Min(dst.Length - from, |src|);
    var i := 0;
    while i < n
      invariant 0 <= i <= n
      invariant forall j :: 0 <= j < dst.Length ==>
        dst[j] == if from <= j < from + i then src[j - from] else old(dst[j])
    {
      dst[from + i] := src[i];
      i := i + 1;
    }
  }

  /** `make([]LabelDescriptor, n)`: n zero descriptors. */
  method MakeDescriptors(n: nat) returns (a: array<LabelDescriptor>)
    ensures fresh(a) && a.Length == n
    ensures forall i :: 0 <= i < n ==> a[i] == ZeroDescriptor
  {
    a := new LabelDescriptor[n](_ => ZeroDescriptor);
  }

  // ---------------------------------------------------------------------
  // Accessors

  /** A fresh copy of the common labels: nodename, hostname, host_id, in that order. */
  method CommonLabels() returns (r: seq<LabelDescriptor>)
    ensures r == [LabelNodename, LabelHostname, LabelHostID]
    ensures |r| == |commonLabels| && forall i :: 0 <= i < |r| ==> r[i] == commonLabels[i]
  {
    var result := MakeDescriptors(|commonLabels|);
    var _ := Copy(result, 0, commonLabels);
    r := result[..];
  }

  /** A fresh copy of the container labels. */
  method ContainerLabels() returns (r: seq<LabelDescriptor>)
    ensures r == [LabelContainerName, LabelContainerBaseImage]
    ensures |r| == |containerLabels| && forall i :: 0 <= i < |r| ==> r[i] == containerLabels[i]
  {
    var result := MakeDescriptors(|containerLabels|);
    var _ := Copy(result, 0, containerLabels);
    r := result[..];
  }

  /** A fresh copy of the pod labels. */
  method PodLabels() returns (r: seq<LabelDescriptor>)
    ensures r == [LabelPodName, LabelPodId, LabelPodNamespaceUID, LabelLabels]
    ensures |r| == |podLabels| && forall i :: 0 <= i < |r| ==> r[i] == podLabels[i]
  {
    var result := MakeDescriptors(|podLabels|);
    var _ := Copy(result, 0, podLabels);
    r := result[..];
  }

  /** What MetricLabels returns as written: both copies start at index 0. */
  function MetricLabelsAsWritten(): seq<LabelDescriptor>
  {
    CopiedInto(CopiedInto([ZeroDescriptor, ZeroDescriptor], 0, metricLabels), 0, customMetricLabels)
  }

  /**
   * MetricLabels as written: a slice of length
   * |metricLabels| + |customMetricLabels| into which both lists are copied
   * from index 0, so the second copy overwrites the first and the last slot
   * keeps the zero descriptor.
   */
  method MetricLabels() returns (r: seq<LabelDescriptor>)
    ensures |r| == |metricLabels| + |customMetricLabels|
    ensures r == MetricLabelsAsWritten()
    ensures r == [LabelCustomMetricName, ZeroDescriptor]
  {
    var result := MakeDescriptors(|metricLabels| + |customMetricLabels|);
    var _ := Copy(result, 0, metricLabels);
    var _ := Copy(result, 0, customMetricLabels);
    r := result[..];
  }

  /** The as-written MetricLabels loses resource_id altogether. */
  lemma MetricLabelsDropsResourceId()
    ensures LabelResourceID !in MetricLabelsAsWritten()
    ensures MetricLabelsAsWritten()[1] == ZeroDescriptor
  {
    var r := MetricLabelsAsWritten();
    assert r[0] == LabelCustomMetricName && r[1] == ZeroDescriptor;
    assert r == [r[0], r[1]];
    assert LabelCustomMetricName.key != LabelResourceID.key;
  }

  /**
   * MetricLabels as evidently intended: the custom labels are copied after
   * the metric labels, so the result is their concatenation.
   */
  method MetricLabelsCorrected() returns (r: seq<LabelDescriptor>)
    ensures r == metricLabels + customMetricLabels
    ensures r == [LabelResourceID, LabelCustomMetricName]
  {
    var result := MakeDescriptors(|metricLabels| + |customMetricLabels|);
    var _ := Copy(result, 0, metricLabels);
    var _ := Copy(result, |metricLabels|, customMetricLabels);
    r := result[..];
  }

  /** CommonLabels, then PodLabels, then (the as-written) MetricLabels: nine descriptors. */
  method SupportedLabels() returns (r: seq<LabelDescriptor>)
    ensures |r| == 9
    ensures r == commonLabels + podLabels + MetricLabelsAsWritten()
    ensures r[..3] == commonLabels && r[3..7] == podLabels && r[8] == ZeroDescriptor
  {
    r := CommonLabels();
    var p := PodLabels();
    r := r + p;
    var m := MetricLabels();
    r := r + m;
  }

  // ---------------------------------------------------------------------
  // Indexing a descriptor list by key

  /** The map a loop `result[l.Key] = l` over `ds` builds: a later descriptor wins a shared key. */
  function ByKey(ds: seq<LabelDescriptor>): map<string, LabelDescriptor>
  {
    if ds == [] then map[] else ByKey(ds[..|ds| - 1])[ds[|ds| - 1].key := ds[|ds| - 1]]
  }

  ghost predicate DistinctKeys(ds: seq<LabelDescriptor>)
  {
    forall i, j :: 0 <= i < j < |ds| ==> ds[i].key != ds[j].key
  }

  /** Every key of the list is in the map, and nothing else. */
  lemma {:induction false} ByKeyDomain(ds: seq<LabelDescriptor>)
    ensures ByKey(ds).Keys == KeySet(ds)
  {
    if ds != [] {
      var init := ds[..|ds| - 1];
      ByKeyDomain(init);
      assert forall i :: 0 <= i < |init| ==> init[i] == ds[i];
      assert KeySet(ds) == KeySet(init) + {ds[|ds| - 1].key};
    }
  }

  /** With distinct keys, each key maps to its own descriptor and the map has one entry per descriptor. */
  lemma {:induction false} ByKeyDistinct(ds: seq<LabelDescriptor>)
    requires DistinctKeys(ds)
    ensures forall i :: 0 <= i < |ds| ==> ds[i].key in ByKey(ds) && ByKey(ds)[ds[i].key] == ds[i]
    ensures |ByKey(ds)| == |ds|
  {
    if ds != [] {
      var init := ds[..|ds| - 1];
      var last := ds[|ds| - 1];
      assert forall i :: 0 <= i < |init| ==> init[i] == ds[i];
      ByKeyDistinct(init);
      ByKeyDomain(init);
      assert last.key !in ByKey(init);
    }
  }

  /** The loop of GcmLabels and GcmNodeAutoscalingLabels: insert every descriptor under its key. */
  method IndexByKey(ds: seq<LabelDescriptor>) returns (result: map<string, LabelDescriptor>)
    ensures result == ByKey(ds)
  {
    result := map[];
    var i := 0;
    while i < |ds|
      invariant 0 <= i <= |ds|
      invariant result == ByKey(ds[..i])
    {
      assert ds[..i + 1][..i] == ds[..i];
      result := result[ds[i].key := ds[i]];
      i := i + 1;
    }
    assert ds[..|ds|] == ds;
  }

  const gcmLabelKeys := {"type", "pod_name", "namespace_name", "hostname", "host_id",
                         "container_name", "container_base_image", "custom_metric_name", "resource_id"}

  /** The keys of a descriptor list, as a set. */
  ghost function KeySet(ds: seq<LabelDescriptor>): set<string>
  {
    set i | 0 <= i < |ds| :: ds[i].key
  }

  lemma GcmLabelsDistinct()
    ensures DistinctKeys(gcmLabels)
  {
  }

  lemma GcmLabelsKeysWithin()
    ensures KeySet(gcmLabels) <= gcmLabelKeys
  {
    forall i | 0 <= i < |gcmLabels| ensures gcmLabels[i].key in gcmLabelKeys {
    }
  }

  lemma GcmLabelsKeysCovered()
    ensures gcmLabelKeys <= KeySet(gcmLabels)
  {
    var ks := [gcmLabels[0].key, gcmLabels[1].key, gcmLabels[2].key, gcmLabels[3].key, gcmLabels[4].key,
               gcmLabels[5].key, gcmLabels[6].key, gcmLabels[7].key, gcmLabels[8].key];
    assert forall k :: k in gcmLabelKeys ==> k in ks;
  }

  lemma GcmLabelsKeys()
    ensures DistinctKeys(gcmLabels)
    ensures KeySet(gcmLabels) == gcmLabelKeys
  {
    GcmLabelsDistinct();
    GcmLabelsKeysWithin();
    GcmLabelsKeysCovered();
  }

  lemma GcmNodeAutoscalingLabelsKeys()
    ensures DistinctKeys(gcmNodeAutoscalingLabels)
    ensures KeySet(gcmNodeAutoscalingLabels) == {"resource_id", "resource_type", "hostname"}
  {
    var ks := [gcmNodeAutoscalingLabels[0].key, gcmNodeAutoscalingLabels[1].key, gcmNodeAutoscalingLabels[2].key];
    assert forall k :: k in {"resource_id", "resource_type", "hostname"} ==> k in ks;
  }

  /** GcmLabels: nine entries, one per descriptor of gcmLabels, each under its own key. */
  method GcmLabels() returns (result: map<string, LabelDescriptor>)
    ensures result.Keys == gcmLabelKeys
    ensures |result| == 9
    ensures forall i :: 0 <= i < |gcmLabels| ==> result[gcmLabels[i].key] == gcmLabels[i]
  {
    result := IndexByKey(gcmLabels);
    GcmLabelsKeys();
    ByKeyDistinct(gcmLabels);
    ByKeyDomain(gcmLabels);
  }

  /**
   * GcmNodeAutoscalingLabels: exactly resource_id, resource_type and hostname.
   * LabelGCEResourceID and LabelResourceID share the key resource_id, so the
   * two maps hold different descriptors under the same key.
   */
  method GcmNodeAutoscalingLabels() returns (result: map<string, LabelDescriptor>)
    ensures result.Keys == {"resource_id", "resource_type", "hostname"}
    ensures result["resource_id"] == LabelGCEResourceID
    ensures result["resource_type"] == LabelGCEResourceType
    ensures result["hostname"] == LabelHostname
    ensures LabelGCEResourceID.key == LabelResourceID.key && LabelGCEResourceID != LabelResourceID
  {
    result := IndexByKey(gcmNodeAutoscalingLabels);
    GcmNodeAutoscalingLabelsKeys();
    ByKeyDistinct(gcmNodeAutoscalingLabels);
    ByKeyDomain(gcmNodeAutoscalingLabels);
    assert gcmNodeAutoscalingLabels[0] == LabelGCEResourceID;
  }
}
