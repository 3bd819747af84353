/**
 * The pod-based enricher (collector/plugins/processors/pod_based_enricher.go):
 * the processor stage that resolves the pod behind every pod and
 * pod-container set of a batch, drops the sets whose pod cannot be found,
 * stamps pod metadata and container state onto the rest, and synthesises
 * the pod, container and workload-status sets the scrape did not produce.
 */
module Processors {
  import opened Wrappers
  import opened Labels
  import opened Metrics
  import opened KubeApi
  import opened Collaborators

  // ---------------------------------------------------------------------
  // Small helpers

  /** `labels[key]` in Go: the empty string when the key is absent. */
  function At(labels: map<string, string>, key: string): string
  {
    if key in labels then labels[key] else ""
  }

  /** The `type` label of a set. */
  function SetType(s: Set): string
  {
    At(s.labels, KeyMetricSetType)
  }

  /** intValue: an int64 value. */
  function IntValue(v: Int64): (r: Value)
    ensures r.valueType == ValueInt64 && r.intValue == v
  {
    Value(ValueInt64, v)
  }

  /** addLabeledIntMetric: appends one labeled int64 value and changes nothing else. */
  method AddLabeledIntMetric(ms: Set, metricName: string, labels: map<string, string>, value: Int64) returns (r: Set)
    ensures |r.labeledValues| == |ms.labeledValues| + 1
    ensures r.labeledValues[..|ms.labeledValues|] == ms.labeledValues
    ensures r.labeledValues[|ms.labeledValues|] == LabeledValue(metricName, labels, IntValue(value))
    ensures r.labels == ms.labels && r.values == ms.values
    ensures r.entityCreateTime == ms.entityCreateTime && r.collectionStartTime == ms.collectionStartTime
  {
    var val := LabeledValue(metricName, labels, IntValue(value));
    r := ms.(labeledValues := ms.labeledValues + [val]);
  }

  // ---------------------------------------------------------------------
  // Resource requests and limits


  type MetricMap = map<string, MetricDescriptor>
  type Requests = map<ResourceName, Quantity>

  /** The metric registered for a resource seen for the first time. */
  function RequestMetricFor(r: ResourceName): MetricDescriptor
  {
    MetricDescriptor(r + "/request", r + " resource request. This metric is Kubernetes specific.",
                     Gauge, ValueInt64, Count)
  }

  /** The name a resource's request is reported under, given the registry before the call. */
  function RequestMetricName(reg: MetricMap, r: ResourceName): string
  {
    if r in reg then reg[r].name else RequestMetricFor(r).name
  }

  /** The request metric name of every requested resource. */
  ghost function RequestNameMap(reg: MetricMap, requests: Requests): (names: map<ResourceName, string>)
    ensures names.Keys == requests.Keys
    ensures forall r :: r in names ==> names[r] == RequestMetricName(reg, r)
  {
    map r | r in requests :: RequestMetricName(reg, r)
  }

  /** CPU quantities are reported in milli-units, every other resource in whole units. */
  function Amount(r: ResourceName, q: Quantity): Int64
  {
    if r == ResourceCPU then q.milliValue else q.value
  }

  /** `order` lists every element of `keys` exactly once: one run of a Go map range. */
  ghost predicate Enumerates<T>(order: seq<T>, keys: set<T>)
  {
    && (forall i, j :: 0 <= i < j < |order| ==> order[i] != order[j])
    && (forall i :: 0 <= i < |order| ==> order[i] in keys)
    && (forall x :: x in keys ==> x in order)
  }

  /**
   * The values after the request loop has visited the resources of `order`,
   * in that order, writing each one's amount under `names[r]`.
   */
  function ApplyRequests(values: map<string, Value>, names: map<ResourceName, string>, requests: Requests,
                         order: seq<ResourceName>): map<string, Value>
  {
    if order == [] then values
    else
      var r := order[|order| - 1];
      var before := ApplyRequests(values, names, requests, order[..|order| - 1]);
      if r in names && r in requests then before[names[r] := IntValue(Amount(r, requests[r]))] else before
  }

  ghost function VisitedNames(names: map<ResourceName, string>, order: seq<ResourceName>): set<string>
    requires forall i :: 0 <= i < |order| ==> order[i] in names
  {
    set i | 0 <= i < |order| :: names[order[i]]
  }

  /** The request loop adds exactly the names of the visited resources. */
  lemma {:induction false} ApplyRequestsKeys(values: map<string, Value>, names: map<ResourceName, string>,
                                             requests: Requests, order: seq<ResourceName>)
    requires forall i :: 0 <= i < |order| ==> order[i] in names && order[i] in requests
    ensures ApplyRequests(values, names, requests, order).Keys == values.Keys + VisitedNames(names, order)
  {
    if order != [] {
      var init := order[..|order| - 1];
      ApplyRequestsKeys(values, names, requests, init);
      assert forall i :: 0 <= i < |init| ==> init[i] == order[i];
      assert VisitedNames(names, order) == VisitedNames(names, init) + {names[order[|order| - 1]]};
    }
  }

  /** A name no visited resource is reported under keeps its old value. */
  lemma {:induction false} ApplyRequestsOther(values: map<string, Value>, names: map<ResourceName, string>,
                                              requests: Requests, order: seq<ResourceName>, n: string)
    requires forall i :: 0 <= i < |order| ==> order[i] in names && order[i] in requests
    requires forall i :: 0 <= i < |order| ==> names[order[i]] != n
    ensures n in ApplyRequests(values, names, requests, order) <==> n in values
    ensures n in values ==> ApplyRequests(values, names, requests, order)[n] == values[n]
  {
    if order != [] {
      var init := order[..|order| - 1];
      assert forall i :: 0 <= i < |init| ==> init[i] == order[i];
      ApplyRequestsOther(values, names, requests, init, n);
    }
  }

  /** A name only one visited resource is reported under carries that resource's amount. */
  lemma {:induction false} ApplyRequestsSole(values: map<string, Value>, names: map<ResourceName, string>,
                                             requests: Requests, order: seq<ResourceName>, r: ResourceName)
    requires forall i :: 0 <= i < |order| ==> order[i] in names && order[i] in requests
    requires r in order
    requires forall i :: 0 <= i < |order| && order[i] != r ==> names[order[i]] != names[r]
    ensures r in names && r in requests
    ensures names[r] in ApplyRequests(values, names, requests, order)
    ensures ApplyRequests(values, names, requests, order)[names[r]] == IntValue(Amount(r, requests[r]))
  {
    var init := order[..|order| - 1];
    assert forall i :: 0 <= i < |init| ==> init[i] == order[i];
    if order[|order| - 1] != r {
      assert r in init by {
        var i :| 0 <= i < |order| && order[i] == r;
        assert i < |init|;
        assert init[i] == r;
      }
      ApplyRequestsSole(values, names, requests, init, r);
    }
  }

  /** Visiting one more resource updates exactly its request metric. */
  lemma ApplyRequestsSnoc(values: map<string, Value>, names: map<ResourceName, string>, requests: Requests,
                          order: seq<ResourceName>, r: ResourceName)
    requires r in names && r in requests
    ensures ApplyRequests(values, names, requests, order + [r])
         == ApplyRequests(values, names, requests, order)[names[r] := IntValue(Amount(r, requests[r]))]
  {
    assert (order + [r])[..|order|] == order;
  }

  /** No two resources share a name. */
  ghost predicate Injective(names: map<ResourceName, string>)
  {
    forall r1, r2 :: r1 in names && r2 in names && r1 != r2 ==> names[r1] != names[r2]
  }

  /** With pairwise distinct names, each name carries the amount of its one resource. */
  lemma ApplyRequestsAt(values: map<string, Value>, names: map<ResourceName, string>, requests: Requests,
                        order: seq<ResourceName>, n: string)
    requires names.Keys <= requests.Keys
    requires Enumerates(order, names.Keys)
    requires Injective(names)
    ensures n in ApplyRequests(values, names, requests, order) <==> n in values || n in names.Values
    ensures n in names.Values ==>
              exists r :: r in names && names[r] == n &&
                          ApplyRequests(values, names, requests, order)[n] == IntValue(Amount(r, requests[r]))
    ensures n !in names.Values && n in values ==> ApplyRequests(values, names, requests, order)[n] == values[n]
  {
    if r :| r in names && names[r] == n {
      ApplyRequestsSole(values, names, requests, order, r);
    } else {
      ApplyRequestsOther(values, names, requests, order, n);
    }
  }

  /**
   * When the visited resources are reported under pairwise distinct names,
   * the visiting order does not matter.
   */
  lemma ApplyRequestsOrderIndependent(values: map<string, Value>, names: map<ResourceName, string>,
                                      requests: Requests, o1: seq<ResourceName>, o2: seq<ResourceName>)
    requires names.Keys <= requests.Keys
    requires Enumerates(o1, names.Keys) && Enumerates(o2, names.Keys)
    requires Injective(names)
    ensures ApplyRequests(values, names, requests, o1) == ApplyRequests(values, names, requests, o2)
  {
    var a1 := ApplyRequests(values, names, requests, o1);
    var a2 := ApplyRequests(values, names, requests, o2);
    forall n ensures (n in a1 <==> n in a2) && (n in a1 ==> a1[n] == a2[n]) {
      ApplyRequestsAt(values, names, requests, o1, n);
      ApplyRequestsAt(values, names, requests, o2, n);
      if n in names.Values {
        var r1 :| r1 in names && names[r1] == n && a1[n] == IntValue(Amount(r1, requests[r1]));
        var r2 :| r2 in names && names[r2] == n && a2[n] == IntValue(Amount(r2, requests[r2]));
      }
    }
  }

  /**
   * The straight-line tail of updateContainerResourcesAndLimits: requests of
   * cpu, memory and ephemeral storage that were not made are reported as 0.
   */
  function ZeroUnrequested(values: map<string, Value>, requests: Requests): map<string, Value>
  {
    var v1 := if ResourceCPU in requests then values else values[MetricCpuRequest := IntValue(0)];
    var v2 := if ResourceMemory in requests then v1 else v1[MetricMemoryRequest := IntValue(0)];
    if ResourceEphemeralStorage in requests then v2 else v2[MetricEphemeralStorageRequest := IntValue(0)]
  }

  /** The limit of a primary resource, 0 when it has none. */
  function LimitAmount(limits: map<ResourceName, Quantity>, r: ResourceName): Int64
  {
    if r in limits then Amount(r, limits[r]) else 0
  }

  /** The tail's limit writes: the primary limits, 0 for a missing one. */
  function WithLimits(values: map<string, Value>, limits: map<ResourceName, Quantity>): map<string, Value>
  {
    values[MetricCpuLimit := IntValue(LimitAmount(limits, ResourceCPU))]
          [MetricMemoryLimit := IntValue(LimitAmount(limits, ResourceMemory))]
          [MetricEphemeralStorageLimit := IntValue(LimitAmount(limits, ResourceEphemeralStorage))]
  }

  /** The values updateContainerResourcesAndLimits leaves, for one visiting order of the requests. */
  ghost function ResourceValues(values: map<string, Value>, reg: MetricMap, resources: ResourceRequirements,
                                order: seq<ResourceName>): map<string, Value>
  {
    var names := RequestNameMap(reg, resources.requests);
    WithLimits(ZeroUnrequested(ApplyRequests(values, names, resources.requests, order), resources.requests),
               resources.limits)
  }

  /** The registry after the resources of `seen` have been visited. */
  function Registered(reg: MetricMap, seen: set<ResourceName>): (r: MetricMap)
    ensures r.Keys == reg.Keys + seen
  {
    map n | n in reg.Keys + seen :: if n in reg then reg[n] else RequestMetricFor(n)
  }

  /** The six names under which requests and limits of the primary resources are reported. */
  const PrimaryResourceMetrics := {MetricCpuRequest, MetricMemoryRequest, MetricEphemeralStorageRequest,
                                   MetricCpuLimit, MetricMemoryLimit, MetricEphemeralStorageLimit}

  /**
   * The registry invariant the enricher relies on: the primary resources are
   * registered under their own request metrics, and no resource is reported
   * under the restart-count name.
   */
  ghost predicate RegistryValid(reg: MetricMap)
  {
    && ResourceCPU in reg && reg[ResourceCPU].name == MetricCpuRequest
    && ResourceMemory in reg && reg[ResourceMemory].name == MetricMemoryRequest
    && ResourceEphemeralStorage in reg && reg[ResourceEphemeralStorage].name == MetricEphemeralStorageRequest
    && forall r :: r in reg ==> reg[r].name != MetricRestartCount
  }

  lemma NewRequestNameIsNotRestartCount(r: ResourceName)
    ensures RequestMetricFor(r).name != MetricRestartCount
  {
    var n := RequestMetricFor(r).name;
    if |n| == |MetricRestartCount| {
      assert n[|n| - 8] == '/';
      assert MetricRestartCount[|n| - 8] == 'r';
    }
  }

  /** Registering new resources keeps the registry invariant. */
  lemma RegisteredValid(reg: MetricMap, seen: set<ResourceName>)
    requires RegistryValid(reg)
    ensures RegistryValid(Registered(reg, seen))
  {
    forall n | n in seen && n !in reg ensures RequestMetricFor(n).name != MetricRestartCount {
      NewRequestNameIsNotRestartCount(n);
    }
  }

  /** No requested resource is reported under the restart-count name. */
  lemma RequestNamesAvoidRestartCount(reg: MetricMap, requests: Requests)
    requires RegistryValid(reg)
    ensures MetricRestartCount !in RequestNameMap(reg, requests).Values
  {
    var names := RequestNameMap(reg, requests);
    forall r | r in names ensures names[r] != MetricRestartCount {
      NewRequestNameIsNotRestartCount(r);
    }
  }

  /** A requested resource no other requested resource shares a metric name with. */
  ghost predicate SoleRequest(reg: MetricMap, requests: Requests, r: ResourceName)
  {
    forall r' :: r' in requests && r' != r ==> RequestMetricName(reg, r') != RequestMetricName(reg, r)
  }

  /** The names an enumeration visits are all the names. */
  lemma EnumeratedNames(names: map<ResourceName, string>, order: seq<ResourceName>)
    requires Enumerates(order, names.Keys)
    ensures VisitedNames(names, order) == names.Values
  {
    forall n | n in names.Values ensures n in VisitedNames(names, order) {
      var r :| r in names && names[r] == n;
      var i :| 0 <= i < |order| && order[i] == r;
    }
  }

  /** The writes after the request loop add the six primary metrics and nothing else. */
  lemma PrimaryWritesKeys(a: map<string, Value>, requests: Requests, limits: map<ResourceName, Quantity>)
    requires ResourceCPU in requests ==> MetricCpuRequest in a
    requires ResourceMemory in requests ==> MetricMemoryRequest in a
    requires ResourceEphemeralStorage in requests ==> MetricEphemeralStorageRequest in a
    ensures WithLimits(ZeroUnrequested(a, requests), limits).Keys == a.Keys + PrimaryResourceMetrics
  {
  }

  /** The writes after the request loop leave every other metric alone. */
  lemma PrimaryWritesOther(a: map<string, Value>, requests: Requests, limits: map<ResourceName, Quantity>, n: string)
    requires n !in PrimaryResourceMetrics
    ensures var v := WithLimits(ZeroUnrequested(a, requests), limits);
      (n in v <==> n in a) && (n in a ==> v[n] == a[n])
  {
  }

  /** The writes after the request loop zero the primary requests not made and keep the others. */
  lemma PrimaryWritesRequests(a: map<string, Value>, requests: Requests, limits: map<ResourceName, Quantity>)
    ensures var v := WithLimits(ZeroUnrequested(a, requests), limits);
      && (ResourceCPU !in requests ==> MetricCpuRequest in v && v[MetricCpuRequest] == IntValue(0))
      && (ResourceMemory !in requests ==> MetricMemoryRequest in v && v[MetricMemoryRequest] == IntValue(0))
      && (ResourceEphemeralStorage !in requests ==>
            MetricEphemeralStorageRequest in v && v[MetricEphemeralStorageRequest] == IntValue(0))
      && (ResourceCPU in requests && MetricCpuRequest in a ==> v[MetricCpuRequest] == a[MetricCpuRequest])
      && (ResourceMemory in requests && MetricMemoryRequest in a ==> v[MetricMemoryRequest] == a[MetricMemoryRequest])
      && (ResourceEphemeralStorage in requests && MetricEphemeralStorageRequest in a ==>
            v[MetricEphemeralStorageRequest] == a[MetricEphemeralStorageRequest])
  {
  }

  /** Under the registry invariant the primary resources are reported under the primary request names. */
  lemma PrimaryRequestNames(reg: MetricMap, requests: Requests)
    requires RegistryValid(reg)
    ensures var names := RequestNameMap(reg, requests);
      && (ResourceCPU in requests ==> names[ResourceCPU] == MetricCpuRequest)
      && (ResourceMemory in requests ==> names[ResourceMemory] == MetricMemoryRequest)
      && (ResourceEphemeralStorage in requests ==> names[ResourceEphemeralStorage] == MetricEphemeralStorageRequest)
  {
  }

  /**
   * updateContainerResourcesAndLimits writes exactly the request metric of
   * every requested resource and the six primary request and limit metrics.
   */
  lemma ResourceValuesKeys(values: map<string, Value>, reg: MetricMap, resources: ResourceRequirements,
                           order: seq<ResourceName>)
    requires RegistryValid(reg)
    requires Enumerates(order, resources.requests.Keys)
    ensures ResourceValues(values, reg, resources, order).Keys
         == values.Keys + RequestNameMap(reg, resources.requests).Values + PrimaryResourceMetrics
  {
    var rq := resources.requests;
    var names := RequestNameMap(reg, rq);
    var a := ApplyRequests(values, names, rq, order);
    ApplyRequestsKeys(values, names, rq, order);
    EnumeratedNames(names, order);
    PrimaryRequestNames(reg, rq);
    PrimaryWritesKeys(a, rq, resources.limits);
  }

  /** Primary limits are always reported: the limit, cpu in milli-units, or 0 when there is none. */
  lemma ResourceValuesLimits(values: map<string, Value>, reg: MetricMap, resources: ResourceRequirements,
                             order: seq<ResourceName>)
    ensures var v := ResourceValues(values, reg, resources, order); var lim := resources.limits;
      && v[MetricCpuLimit] == IntValue(if ResourceCPU in lim then lim[ResourceCPU].milliValue else 0)
      && v[MetricMemoryLimit] == IntValue(if ResourceMemory in lim then lim[ResourceMemory].value else 0)
      && v[MetricEphemeralStorageLimit] == IntValue(if ResourceEphemeralStorage in lim
                                                    then lim[ResourceEphemeralStorage].value else 0)
  {
  }

  /** A resource requested alone under its name: its amount survives the request loop. */
  lemma SoleRequestApplied(values: map<string, Value>, reg: MetricMap, requests: Requests,
                           order: seq<ResourceName>, r: ResourceName)
    requires Enumerates(order, requests.Keys)
    requires r in requests && SoleRequest(reg, requests, r)
    ensures var a := ApplyRequests(values, RequestNameMap(reg, requests), requests, order);
      RequestMetricName(reg, r) in a && a[RequestMetricName(reg, r)] == IntValue(Amount(r, requests[r]))
  {
    ApplyRequestsSole(values, RequestNameMap(reg, requests), requests, order, r);
  }

  /**
   * Primary requests are always reported: 0 when not requested, and the
   * requested amount (cpu in milli-units) when no other resource shares the name.
   */
  lemma ResourceValuesRequests(values: map<string, Value>, reg: MetricMap, resources: ResourceRequirements,
                               order: seq<ResourceName>)
    requires RegistryValid(reg)
    requires Enumerates(order, resources.requests.Keys)
    ensures var v := ResourceValues(values, reg, resources, order); var rq := resources.requests;
      && MetricCpuRequest in v && MetricMemoryRequest in v && MetricEphemeralStorageRequest in v
      && (ResourceCPU !in rq ==> v[MetricCpuRequest] == IntValue(0))
      && (ResourceMemory !in rq ==> v[MetricMemoryRequest] == IntValue(0))
      && (ResourceEphemeralStorage !in rq ==> v[MetricEphemeralStorageRequest] == IntValue(0))
      && (ResourceCPU in rq && SoleRequest(reg, rq, ResourceCPU) ==> v[MetricCpuRequest] == IntValue(rq[ResourceCPU].milliValue))
      && (ResourceMemory in rq && SoleRequest(reg, rq, ResourceMemory) ==> v[MetricMemoryRequest] == IntValue(rq[ResourceMemory].value))
      && (ResourceEphemeralStorage in rq && SoleRequest(reg, rq, ResourceEphemeralStorage) ==>
            v[MetricEphemeralStorageRequest] == IntValue(rq[ResourceEphemeralStorage].value))
  {
    var rq := resources.requests;
    var a := ApplyRequests(values, RequestNameMap(reg, rq), rq, order);
    ResourceValuesKeys(values, reg, resources, order);
    PrimaryRequestNames(reg, rq);
    PrimaryWritesRequests(a, rq, resources.limits);
    if ResourceCPU in rq && SoleRequest(reg, rq, ResourceCPU) {
      SoleRequestApplied(values, reg, rq, order, ResourceCPU);
    }
    if ResourceMemory in rq && SoleRequest(reg, rq, ResourceMemory) {
      SoleRequestApplied(values, reg, rq, order, ResourceMemory);
    }
    if ResourceEphemeralStorage in rq && SoleRequest(reg, rq, ResourceEphemeralStorage) {
      SoleRequestApplied(values, reg, rq, order, ResourceEphemeralStorage);
    }
  }

  /** Any other resource's request is reported with its amount when its name is its own. */
  lemma ResourceValuesOtherRequest(values: map<string, Value>, reg: MetricMap, resources: ResourceRequirements,
                                   order: seq<ResourceName>, r: ResourceName)
    requires Enumerates(order, resources.requests.Keys)
    requires r in resources.requests && SoleRequest(reg, resources.requests, r)
    requires RequestMetricName(reg, r) !in PrimaryResourceMetrics
    ensures RequestMetricName(reg, r) in ResourceValues(values, reg, resources, order)
    ensures ResourceValues(values, reg, resources, order)[RequestMetricName(reg, r)] == IntValue(Amount(r, resources.requests[r]))
  {
    var rq := resources.requests;
    SoleRequestApplied(values, reg, rq, order, r);
    PrimaryWritesOther(ApplyRequests(values, RequestNameMap(reg, rq), rq, order), rq, resources.limits, RequestMetricName(reg, r));
  }

  /** The restart count is never written by the resource update. */
  lemma ResourceValuesKeepRestartCount(values: map<string, Value>, reg: MetricMap, resources: ResourceRequirements,
                                       order: seq<ResourceName>)
    requires RegistryValid(reg)
    requires forall i :: 0 <= i < |order| ==> order[i] in resources.requests
    ensures var v := ResourceValues(values, reg, resources, order);
      && (MetricRestartCount in v <==> MetricRestartCount in values)
      && (MetricRestartCount in values ==> v[MetricRestartCount] == values[MetricRestartCount])
  {
    var rq := resources.requests;
    var names := RequestNameMap(reg, rq);
    RequestNamesAvoidRestartCount(reg, rq);
    assert forall i :: 0 <= i < |order| ==> names[order[i]] in names.Values;
    ApplyRequestsOther(values, names, rq, order, MetricRestartCount);
    PrimaryWritesOther(ApplyRequests(values, names, rq, order), rq, resources.limits, MetricRestartCount);
  }

  /** Visiting one more resource registers it when it was not registered before. */
  lemma RegisteredStep(reg0: MetricMap, keys: set<ResourceName>, remaining: set<ResourceName>, key: ResourceName)
    requires remaining <= keys && key in remaining
    ensures var before := Registered(reg0, keys - remaining); var after := Registered(reg0, keys - (remaining - {key}));
      && (key in before <==> key in reg0)
      && (key in reg0 ==> before[key] == reg0[key] && before == after)
      && (key !in reg0 ==> before[key := RequestMetricFor(key)] == after)
  {
    assert keys - (remaining - {key}) == (keys - remaining) + {key};
  }

  /** Every finite set of keys has an enumeration. */
  lemma EnumerationExists<T>(keys: set<T>) returns (order: seq<T>)
    ensures Enumerates(order, keys)
  {
    order := [];
    var remaining := keys;
    while remaining != {}
      invariant remaining <= keys
      invariant Enumerates(order, keys - remaining)
      decreases remaining
    {
      var x :| x in remaining;
      EnumeratesStep(order, keys, remaining, x);
      order := order + [x];
      remaining := remaining - {x};
    }
    assert keys - remaining == keys;
  }

  /** `orders[i]` is a visiting order of the requests of `cs[i]`, for every container. */
  ghost predicate EnumeratesRequests(cs: seq<Container>, orders: seq<seq<ResourceName>>)
  {
    |orders| == |cs| && forall i :: 0 <= i < |cs| ==> Enumerates(orders[i], cs[i].resources.requests.Keys)
  }

  lemma EnumeratesRequestsStep(cs: seq<Container>, orders: seq<seq<ResourceName>>, order: seq<ResourceName>, i: nat)
    requires i < |cs| && EnumeratesRequests(cs[..i], orders)
    requires Enumerates(order, cs[i].resources.requests.Keys)
    ensures EnumeratesRequests(cs[..i + 1], orders + [order])
  {
    assert forall j :: 0 <= j < i ==> cs[..i + 1][j] == cs[..i][j];
  }

  /**
   * `reg` is `reg0` with some more resources registered, each under the
   * metric registered for a resource seen for the first time.
   */
  ghost predicate Extends(reg0: MetricMap, reg: MetricMap)
  {
    && (forall r :: r in reg0 ==> r in reg && reg[r] == reg0[r])
    && (forall r :: r in reg && r !in reg0 ==> reg[r] == RequestMetricFor(r))
  }

  /** Registering resources extends the registry. */
  lemma RegisteredExtends(reg: MetricMap, seen: set<ResourceName>)
    ensures Extends(reg, Registered(reg, seen))
  {
  }

  lemma ExtendsTransitive(a: MetricMap, b: MetricMap, c: MetricMap)
    requires Extends(a, b) && Extends(b, c)
    ensures Extends(a, c)
  {
  }

  /** Extending the registry changes the name of no resource's request metric. */
  lemma ExtendsKeepsNames(reg0: MetricMap, reg: MetricMap, r: ResourceName)
    requires Extends(reg0, reg)
    ensures RequestMetricName(reg, r) == RequestMetricName(reg0, r)
  {
  }

  lemma ExtendsKeepsNameMap(reg0: MetricMap, reg: MetricMap, requests: Requests)
    requires Extends(reg0, reg)
    ensures RequestNameMap(reg, requests) == RequestNameMap(reg0, requests)
  {
    forall r | r in requests ensures RequestMetricName(reg, r) == RequestMetricName(reg0, r) {
      ExtendsKeepsNames(reg0, reg, r);
    }
  }

  /** So the values updateContainerResourcesAndLimits leaves do not depend on what was registered since. */
  lemma ExtendsKeepsResourceValues(values: map<string, Value>, reg0: MetricMap, reg: MetricMap,
                                   resources: ResourceRequirements, order: seq<ResourceName>)
    requires Extends(reg0, reg)
    ensures ResourceValues(values, reg, resources, order) == ResourceValues(values, reg0, resources, order)
  {
    ExtendsKeepsNameMap(reg0, reg, resources.requests);
  }

  /** Extending a valid registry keeps it valid. */
  lemma ExtendsValid(reg0: MetricMap, reg: MetricMap)
    requires RegistryValid(reg0) && Extends(reg0, reg)
    ensures RegistryValid(reg)
  {
    forall r | r in reg && r !in reg0 ensures reg[r].name != MetricRestartCount {
      NewRequestNameIsNotRestartCount(r);
    }
  }

  /** Visiting one more element keeps the visiting order an enumeration of what has been visited. */
  lemma EnumeratesStep<T>(order: seq<T>, keys: set<T>, remaining: set<T>, x: T)
    requires remaining <= keys && x in remaining
    requires Enumerates(order, keys - remaining)
    ensures Enumerates(order + [x], keys - (remaining - {x}))
  {
  }

  /**
   * updateContainerResourcesAndLimits: reports every resource request of the
   * container (registering a metric named `r + "/request"` for a resource
   * not registered yet), zeroes the primary requests not made, and reports
   * the primary limits. `order` is the order the requests map was visited in.
   */
  method UpdateContainerResourcesAndLimits(registry: Registry, ms: Set, container: Container)
    returns (r: Set, ghost order: seq<ResourceName>)
    modifies registry
    ensures Enumerates(order, container.resources.requests.Keys)
    ensures registry.resourceRequestMetrics == Registered(old(registry.resourceRequestMetrics), container.resources.requests.Keys)
    ensures r == ms.(values := ResourceValues(ms.values, old(registry.resourceRequestMetrics), container.resources, order))
  {
    var requests := container.resources.requests;
    ghost var reg0 := registry.resourceRequestMetrics;
    var values := ms.values;
    var remaining := requests.Keys;
    order := [];
    while remaining != {}
      invariant remaining <= requests.Keys
      invariant Enumerates(order, requests.Keys - remaining)
      invariant registry.resourceRequestMetrics == Registered(reg0, requests.Keys - remaining)
      invariant values == ApplyRequests(ms.values, RequestNameMap(reg0, requests), requests, order)
      decreases remaining
    {
      var key :| key in remaining;
      RegisteredStep(reg0, requests.Keys, remaining, key);
      EnumeratesStep(order, requests.Keys, remaining, key);
      ApplyRequestsSnoc(ms.values, RequestNameMap(reg0, requests), requests, order, key);
      var metric: MetricDescriptor;
      if key in registry.resourceRequestMetrics {
        metric := registry.resourceRequestMetrics[key];
      } else {
        metric := RequestMetricFor(key);
        registry.resourceRequestMetrics := registry.resourceRequestMetrics[key := metric];
      }
      if key == ResourceCPU {
        values := values[metric.name := IntValue(requests[key].milliValue)];
      } else {
        values := values[metric.name := IntValue(requests[key].value)];
      }
      order := order + [key];
      remaining := remaining - {key};
    }
    assert requests.Keys - remaining == requests.Keys;

    values := ZeroUnrequested(values, requests);
    values := WithLimits(values, container.resources.limits);
    r := ms.(values := values);
  }

  // ---------------------------------------------------------------------
  // Workload status

  /** A container that is not ready and is waiting or has terminated. */
  predicate Unavailable(s: ContainerStatus)
  {
    !s.ready && (s.state.waiting.Some? || s.state.terminated.Some?)
  }

  datatype Failure = Failure(reason: string, message: string)

  /** The reason and message reported for an unavailable container: the waiting state's, else the terminated state's. */
  function FailureOf(s: ContainerStatus): Failure
    requires Unavailable(s)
  {
    if s.state.waiting.Some? then Failure(s.state.waiting.value.reason, s.state.waiting.value.message)
    else Failure(s.state.terminated.value.reason, s.state.terminated.value.message)
  }

  /** The failure of the first unavailable container, if any. */
  function FirstUnavailable(statuses: seq<ContainerStatus>): Option<Failure>
  {
    if statuses == [] then None
    else if Unavailable(statuses[0]) then Some(FailureOf(statuses[0]))
    else FirstUnavailable(statuses[1..])
  }

  /** There is a failure to report exactly when some container is unavailable. */
  lemma {:induction false} FirstUnavailableNone(statuses: seq<ContainerStatus>)
    ensures FirstUnavailable(statuses).None? <==> forall i :: 0 <= i < |statuses| ==> !Unavailable(statuses[i])
  {
    if statuses != [] {
      FirstUnavailableNone(statuses[1..]);
      assert forall i :: 1 <= i < |statuses| ==> statuses[i] == statuses[1..][i - 1];
    }
  }

  /** The failure reported is that of the first unavailable container. */
  lemma {:induction false} FirstUnavailableSome(statuses: seq<ContainerStatus>)
    requires FirstUnavailable(statuses).Some?
    ensures exists i :: 0 <= i < |statuses| && Unavailable(statuses[i]) &&
                        (forall j :: 0 <= j < i ==> !Unavailable(statuses[j])) &&
                        FirstUnavailable(statuses).value == FailureOf(statuses[i])
  {
    if !Unavailable(statuses[0]) {
      FirstUnavailableSome(statuses[1..]);
      var i :| 0 <= i < |statuses[1..]| && Unavailable(statuses[1..][i]) &&
               (forall j :: 0 <= j < i ==> !Unavailable(statuses[1..][j])) &&
               FirstUnavailable(statuses[1..]).value == FailureOf(statuses[1..][i]);
      assert forall j :: 1 <= j < i + 1 ==> statuses[j] == statuses[1..][j - 1];
      assert statuses[i + 1] == statuses[1..][i];
    } else {
      assert Unavailable(statuses[0]);
    }
  }

  /** The workload-status set addWorkloadStatusMetric builds for a pod. */
  function WorkloadStatusSet(pod: Pod, workloadName: string, workloadKind: string): Set
  {
    var failure := FirstUnavailable(pod.containerStatuses);
    var status: Int64 := if failure.Some? then 0 else 1;
    var labels := map[KeyNamespaceName := pod.namespace,
                      KeyWorkloadName := workloadName,
                      KeyWorkloadKind := workloadKind,
                      KeyAvailable := if failure.Some? then "0" else "1",
                      KeyDesired := "1"];
    var labels' := if failure.Some? then labels[KeyReason := failure.value.reason][KeyMessage := failure.value.message]
                   else labels;
    Set(labels', map[], [LabeledValue(MetricWorkloadStatus, map[], IntValue(status))], None, None)
  }

  /** The labels addWorkloadStatusMetric ends with, whatever the available and desired labels it copied first. */
  lemma WorkloadLabels(pod: Pod, workloadName: string, workloadKind: string, available: string, desired: string)
    ensures var initial := map[KeyNamespaceName := pod.namespace,
                               KeyWorkloadName := workloadName,
                               KeyWorkloadKind := workloadKind,
                               KeyAvailable := available,
                               KeyDesired := desired];
            var failure := FirstUnavailable(pod.containerStatuses);
            var failed := if failure.Some? then initial[KeyReason := failure.value.reason][KeyMessage := failure.value.message]
                          else initial;
            failed[KeyAvailable := if failure.Some? then "0" else "1"][KeyDesired := "1"]
              == WorkloadStatusSet(pod, workloadName, workloadKind).labels
  {
  }

  /**
   * The workload-status set of a pod: available "1" exactly when no
   * container is unavailable, desired always "1", and exactly one
   * workload_status value, equal to availability.
   */
  lemma WorkloadStatusAvailability(pod: Pod, workloadName: string, workloadKind: string)
    ensures var ws := WorkloadStatusSet(pod, workloadName, workloadKind);
      && At(ws.labels, KeyAvailable) in {"0", "1"}
      && (At(ws.labels, KeyAvailable) == "1" <==>
            forall i :: 0 <= i < |pod.containerStatuses| ==> !Unavailable(pod.containerStatuses[i]))
      && At(ws.labels, KeyDesired) == "1"
      && At(ws.labels, KeyNamespaceName) == pod.namespace
      && At(ws.labels, KeyWorkloadName) == workloadName
      && At(ws.labels, KeyWorkloadKind) == workloadKind
      && |ws.labeledValues| == 1
      && ws.labeledValues[0].name == MetricWorkloadStatus
      && ws.labeledValues[0].value == IntValue(if At(ws.labels, KeyAvailable) == "1" then 1 else 0)
      && ws.values == map[]
  {
    FirstUnavailableNone(pod.containerStatuses);
  }

  /**
   * An unavailable workload carries the reason and message of the first
   * unavailable container; an available one carries neither.
   */
  lemma WorkloadStatusFailure(pod: Pod, workloadName: string, workloadKind: string)
    ensures var ws := WorkloadStatusSet(pod, workloadName, workloadKind); var ss := pod.containerStatuses;
      && (At(ws.labels, KeyAvailable) == "1" ==> KeyReason !in ws.labels && KeyMessage !in ws.labels)
      && (At(ws.labels, KeyAvailable) == "0" ==>
            exists i :: 0 <= i < |ss| && Unavailable(ss[i]) && (forall j :: 0 <= j < i ==> !Unavailable(ss[j])) &&
                        At(ws.labels, KeyReason) == FailureOf(ss[i]).reason &&
                        At(ws.labels, KeyMessage) == FailureOf(ss[i]).message)
  {
    if FirstUnavailable(pod.containerStatuses).Some? {
      FirstUnavailableSome(pod.containerStatuses);
    }
  }

  /** A set key that names a container of the given pod. */
  predicate ContainerKeyOf(k: ResourceKey, pod: Pod)
  {
    k.PodContainerKey? && k.namespace == pod.namespace && k.pod == pod.name
  }

  /**
   * The first element of `xs` whose name is `name`, as the enricher's
   * break-at-first-match loops over containers and container statuses find
   * it; `nameOf` reads an element's name.
   */
  function FirstNamed<T>(xs: seq<T>, nameOf: T -> string, name: string): (r: Option<T>)
    ensures r.Some? ==> nameOf(r.value) == name && r.value in xs
    ensures r.None? <==> forall i :: 0 <= i < |xs| ==> nameOf(xs[i]) != name
  {
    if xs == [] then None
    else if nameOf(xs[0]) == name then Some(xs[0])
    else FirstNamed(xs[1..], nameOf, name)
  }

  function ContainerName(c: Container): string { c.name }

  function StatusName(s: ContainerStatus): string { s.name }

  /** The first spec container with the given name. */
  function ContainerNamed(containers: seq<Container>, name: string): Option<Container>
  {
    FirstNamed(containers, ContainerName, name)
  }

  /** The first container status with the given name. */
  function StatusNamed(statuses: seq<ContainerStatus>, name: string): Option<ContainerStatus>
  {
    FirstNamed(statuses, StatusName, name)
  }

  /**
   * The sets after the stub loop of addPodInfo has visited the containers
   * `cs` of `pod`: a container whose key is neither in the batch nor
   * already present gets `stubs[i]`, the set built for it.
   */
  function ContainerStubs(pod: Pod, cs: seq<Container>, batchSets: SetMap, base: SetMap, stubs: seq<Set>): SetMap
    requires |stubs| == |cs|
  {
    if cs == [] then base
    else
      var n := |cs| - 1;
      var prev := ContainerStubs(pod, cs[..n], batchSets, base, stubs[..n]);
      var key := PodContainerKey(pod.namespace, pod.name, cs[n].name);
      if key in batchSets || key in prev then prev else prev[key := stubs[n]]
  }

  /** The stub loop visiting one more container. */
  lemma ContainerStubsStep(pod: Pod, cs: seq<Container>, batchSets: SetMap, base: SetMap, stubs: seq<Set>,
                           stub: Set, i: nat)
    requires i < |cs| && |stubs| == i
    ensures var key := PodContainerKey(pod.namespace, pod.name, cs[i].name);
            var prev := ContainerStubs(pod, cs[..i], batchSets, base, stubs);
            ContainerStubs(pod, cs[..i + 1], batchSets, base, stubs + [stub])
              == if key in batchSets || key in prev then prev else prev[key := stub]
  {
    assert cs[..i + 1][..i] == cs[..i];
    assert (stubs + [stub])[..i] == stubs;
  }

  /** The stub loop keeps every set already present. */
  lemma {:induction false} ContainerStubsKeep(pod: Pod, cs: seq<Container>, batchSets: SetMap, base: SetMap,
                                              stubs: seq<Set>)
    requires |stubs| == |cs|
    ensures var r := ContainerStubs(pod, cs, batchSets, base, stubs);
            forall k :: k in base ==> k in r && r[k] == base[k]
  {
    if cs != [] {
      var n := |cs| - 1;
      ContainerStubsKeep(pod, cs[..n], batchSets, base, stubs[..n]);
    }
  }

  /** Every container whose key is not in the batch ends up with a set. */
  lemma {:induction false} ContainerStubsCover(pod: Pod, cs: seq<Container>, batchSets: SetMap, base: SetMap,
                                               stubs: seq<Set>)
    requires |stubs| == |cs|
    ensures var r := ContainerStubs(pod, cs, batchSets, base, stubs);
            forall i :: 0 <= i < |cs| && PodContainerKey(pod.namespace, pod.name, cs[i].name) !in batchSets ==>
              PodContainerKey(pod.namespace, pod.name, cs[i].name) in r
  {
    if cs != [] {
      var n := |cs| - 1;
      ContainerStubsCover(pod, cs[..n], batchSets, base, stubs[..n]);
      assert forall i :: 0 <= i < n ==> cs[..n][i] == cs[i];
    }
  }

  /** Every set the stub loop adds is one of the stubs. */
  lemma {:induction false} ContainerStubsFrom(pod: Pod, cs: seq<Container>, batchSets: SetMap, base: SetMap,
                                              stubs: seq<Set>)
    requires |stubs| == |cs|
    ensures var r := ContainerStubs(pod, cs, batchSets, base, stubs);
            forall k :: k in r && k !in base ==> r[k] in stubs
  {
    if cs != [] {
      var n := |cs| - 1;
      ContainerStubsFrom(pod, cs[..n], batchSets, base, stubs[..n]);
      assert forall x :: x in stubs[..n] ==> x in stubs;
    }
  }

  /** Every key the stub loop adds is the key of one of the containers, and not in the batch. */
  lemma {:induction false} ContainerStubsDomain(pod: Pod, cs: seq<Container>, batchSets: SetMap, base: SetMap,
                                                stubs: seq<Set>)
    requires |stubs| == |cs|
    ensures var r := ContainerStubs(pod, cs, batchSets, base, stubs);
            forall k :: k in r && k !in base ==>
              k !in batchSets && exists j :: 0 <= j < |cs| && k == PodContainerKey(pod.namespace, pod.name, cs[j].name)
  {
    if cs != [] {
      var n := |cs| - 1;
      ContainerStubsDomain(pod, cs[..n], batchSets, base, stubs[..n]);
      assert forall j :: 0 <= j < n ==> cs[..n][j] == cs[j];
    }
  }

  /** A name no container carries gets no stub. */
  lemma {:induction false} ContainerStubsAbsent(pod: Pod, cs: seq<Container>, batchSets: SetMap, base: SetMap,
                                                stubs: seq<Set>, name: string)
    requires |stubs| == |cs|
    requires PodContainerKey(pod.namespace, pod.name, name) !in base
    requires forall j :: 0 <= j < |cs| ==> cs[j].name != name
    ensures PodContainerKey(pod.namespace, pod.name, name) !in ContainerStubs(pod, cs, batchSets, base, stubs)
  {
    if cs != [] {
      var n := |cs| - 1;
      assert forall j :: 0 <= j < n ==> cs[..n][j] == cs[j];
      ContainerStubsAbsent(pod, cs[..n], batchSets, base, stubs[..n], name);
    }
  }

  /**
   * The first container with a given name whose key is neither in the
   * batch nor already present gets its own stub.
   */
  lemma {:induction false} ContainerStubsFirstAt(pod: Pod, cs: seq<Container>, batchSets: SetMap, base: SetMap,
                                                 stubs: seq<Set>, i: nat)
    requires |stubs| == |cs| && i < |cs|
    requires forall j :: 0 <= j < i ==> cs[j].name != cs[i].name
    requires var key := PodContainerKey(pod.namespace, pod.name, cs[i].name); key !in batchSets && key !in base
    ensures var r := ContainerStubs(pod, cs, batchSets, base, stubs);
            var key := PodContainerKey(pod.namespace, pod.name, cs[i].name);
            key in r && r[key] == stubs[i]
  {
    var n := |cs| - 1;
    var init := cs[..n];
    assert forall j :: 0 <= j < n ==> init[j] == cs[j];
    if i < n {
      ContainerStubsFirstAt(pod, init, batchSets, base, stubs[..n], i);
      assert stubs[..n][i] == stubs[i];
    } else {
      ContainerStubsAbsent(pod, init, batchSets, base, stubs[..n], cs[i].name);
    }
  }

  /** A copy whose contribution keeps off `keys` leaves the labels under `keys` as they were. */
  lemma CopyKeeps(copier: LabelCopier, input: map<string, string>, output: map<string, string>, keys: set<string>)
    requires copier.contribution(input).Keys !! keys
    ensures forall k :: k in keys ==> At(copier.Copy(input, output), k) == At(output, k)
  {
  }

  /** A break-at-first-match loop settles on the first element with the name. */
  lemma {:induction false} FirstNamedAt<T>(xs: seq<T>, nameOf: T -> string, name: string, i: nat)
    requires i < |xs| && nameOf(xs[i]) == name
    requires forall j :: 0 <= j < i ==> nameOf(xs[j]) != name
    ensures FirstNamed(xs, nameOf, name) == Some(xs[i])
  {
    if i > 0 {
      assert forall j :: 0 <= j < i - 1 ==> xs[1..][j] == xs[j + 1];
      FirstNamedAt(xs[1..], nameOf, name, i - 1);
    }
  }

  /** The spec loop of addContainerInfo settles on the first container with the name. */
  lemma ContainerNamedFirst(containers: seq<Container>, name: string, i: nat)
    requires i < |containers| && containers[i].name == name
    requires forall j :: 0 <= j < i ==> containers[j].name != name
    ensures ContainerNamed(containers, name) == Some(containers[i])
  {
    FirstNamedAt(containers, ContainerName, name, i);
  }

  /** The status loop settles on the first status with the name. */
  lemma StatusNamedFirst(statuses: seq<ContainerStatus>, name: string, i: nat)
    requires i < |statuses| && statuses[i].name == name
    requires forall j :: 0 <= j < i ==> statuses[j].name != name
    ensures StatusNamed(statuses, name) == Some(statuses[i])
  {
    FirstNamedAt(statuses, StatusName, name, i);
  }

  /** Every container list has visiting orders for its requests. */
  lemma RequestsEnumerationExists(cs: seq<Container>) returns (orders: seq<seq<ResourceName>>)
    ensures EnumeratesRequests(cs, orders)
  {
    orders := [];
    var i := 0;
    while i < |cs|
      invariant 0 <= i <= |cs| && EnumeratesRequests(cs[..i], orders)
    {
      var order := EnumerationExists(cs[i].resources.requests.Keys);
      EnumeratesRequestsStep(cs, orders, order, i);
      orders := orders + [order];
      i := i + 1;
    }
    assert cs[..i] == cs;
  }

  /** The label keys of the pod stub addContainerInfo creates. */
  const PodStubLabelKeys := {KeyMetricSetType, KeyNamespaceName, KeyPodName, KeyNodename, KeyHostname, KeyHostID}

  /**
   * The label keys of a container stub before the pod's labels are copied
   * onto it; they are also every label key the enricher itself writes on
   * pod and container sets.
   */
  const StubLabelKeys := {KeyMetricSetType, KeyNamespaceName, KeyPodName, KeyContainerName, KeyContainerBaseImage,
                          KeyPodId, KeyNodename, KeyHostname, KeyHostID, KeyWorkloadName, KeyWorkloadKind}

  /** The visiting orders one step of Process saw: addPodInfo's, or addContainerInfo's own and its pod stub's. */
  datatype StepOrders = StepOrders(podOrders: seq<seq<ResourceName>>, order: seq<ResourceName>,
                                   stubOrders: seq<seq<ResourceName>>)

  /**
   * Every key a step adds to the new sets is a pod, container or
   * workload-status key, and one not in the batch unless it is a
   * workload-status key; no new set is lost.
   */
  ghost predicate AddsFitting(r: SetMap, newMs: SetMap, batchSets: SetMap)
  {
    && newMs.Keys <= r.Keys
    && forall k :: k in r && k !in newMs ==> !k.OtherKey? && (k.WorkloadStatusPodKey? || k !in batchSets)
  }

  /** The batch's sets once a step has left `out` under `key`: None drops the set. */
  function ApplyStep(sets: SetMap, key: ResourceKey, out: Option<Set>): (r: SetMap)
    ensures forall k :: k != key ==> (k in r <==> k in sets) && (k in r ==> r[k] == sets[k])
    ensures out.None? ==> key !in r
    ensures out.Some? ==> key in r && r[key] == out.value
  {
    if out.None? then sets - {key} else sets[key := out.value]
  }

  /** Orders of the length PodInfoSets needs: the given ones when they fit. */
  function FitOrders(orders: seq<seq<ResourceName>>, n: nat): (r: seq<seq<ResourceName>>)
    ensures |r| == n && (|orders| == n ==> r == orders)
  {
    if |orders| == n then orders else seq(n, _ => [])
  }

  datatype PodError = ListerFailed(cause: ListerError) | CannotFindPodDefinition

  /**
   * The enricher. Its collaborators are the values it was built with; the
   * global ResourceRequestMetrics map is the object `registry`.
   */
  class PodBasedEnricher {
    const podLister: PodLister
    const labelCopier: LabelCopier
    const collectionInterval: Time
    const workloadCache: WorkloadCache
    const util: Util
    const registry: Registry

    /** NewPodBasedEnricher. */
    constructor (podLister: PodLister, workloadCache: WorkloadCache, labelCopier: LabelCopier,
                 collectionInterval: Time, util: Util, registry: Registry)
      ensures this.podLister == podLister && this.workloadCache == workloadCache
      ensures this.labelCopier == labelCopier && this.collectionInterval == collectionInterval
      ensures this.util == util && this.registry == registry
    {
      this.podLister := podLister;
      this.labelCopier := labelCopier;
      this.collectionInterval := collectionInterval;
      this.workloadCache := workloadCache;
      this.util := util;
      this.registry := registry;
    }

    /** getPod: the lister's error, an error for a nil pod, or the pod. */
    function GetPod(namespace: string, name: string): (r: Result<Pod, PodError>)
      ensures r.Ok? <==> (namespace, name) in podLister.pods && podLister.pods[(namespace, name)].Some?
      ensures r.Ok? ==> r.value == podLister.pods[(namespace, name)].value
      ensures (namespace, name) !in podLister.pods ==> r == Err(ListerFailed(NotFound(namespace, name)))
      ensures (namespace, name) in podLister.pods && podLister.pods[(namespace, name)].None? ==>
                r == Err(CannotFindPodDefinition)
    {
      match podLister.Get(namespace, name)
      case Err(e) => Err(ListerFailed(e))
      case Ok(None) => Err(CannotFindPodDefinition)
      case Ok(Some(pod)) => Ok(pod)
    }

    /** A pod found through a consistent lister has the namespace and name it was looked up by. */
    lemma GetPodConsistent(namespace: string, name: string)
      requires podLister.Consistent()
      requires GetPod(namespace, name).Ok?
      ensures GetPod(namespace, name).value.namespace == namespace && GetPod(namespace, name).value.name == name
    {
    }

    /**
     * findContainerState: the last termination state when the container
     * terminated at or after the previous collection (collection time minus
     * the interval), the current state otherwise.
     */
    function FindContainerState(collectionTime: Time, status: ContainerStatus): (r: ContainerStateInfo)
      ensures status.lastTerminationState.terminated.None? ==> r == util.newContainerStateInfo(status.state)
      ensures status.lastTerminationState.terminated.Some? ==>
                (collectionTime - collectionInterval > status.lastTerminationState.terminated.value.finishedAt ==>
                   r == util.newContainerStateInfo(status.state))
      ensures status.lastTerminationState.terminated.Some? ==>
                (collectionTime - collectionInterval <= status.lastTerminationState.terminated.value.finishedAt ==>
                   r == util.newContainerStateInfo(status.lastTerminationState))
    {
      if status.lastTerminationState.terminated.None? then
        util.newContainerStateInfo(status.state)
      else
        var lastTerminationTime := status.lastTerminationState.terminated.value.finishedAt;
        var lastCollectionTime := collectionTime - collectionInterval;
        if lastCollectionTime > lastTerminationTime then
          util.newContainerStateInfo(status.state)
        else
          util.newContainerStateInfo(status.lastTerminationState)
    }

    /**
     * Once a termination is older than the previous collection, it stays
     * older: every later collection reports the current state.
     */
    lemma FindContainerStateSettles(t: Time, t': Time, status: ContainerStatus)
      requires t <= t'
      requires FindContainerState(t, status) == util.newContainerStateInfo(status.state)
      requires status.lastTerminationState.terminated.Some? &&
               t - collectionInterval > status.lastTerminationState.terminated.value.finishedAt
      ensures FindContainerState(t', status) == util.newContainerStateInfo(status.state)
    {
    }

    /** The labeled value addContainerStatus appends for a status. */
    function StatusValue(collectionTime: Time, status: ContainerStatus): (v: LabeledValue)
      ensures v.name == MetricContainerStatus
      ensures v.labels == FindContainerState(collectionTime, status).tags
      ensures v.value == IntValue(FindContainerState(collectionTime, status).value)
    {
      var info := FindContainerState(collectionTime, status);
      LabeledValue(MetricContainerStatus, info.tags, IntValue(info.value))
    }

    /** addContainerStatus: appends the container's state as one status value. */
    method AddContainerStatus(collectionTime: Time, containerMs: Set, status: ContainerStatus) returns (r: Set)
      ensures r == containerMs.(labeledValues := containerMs.labeledValues + [StatusValue(collectionTime, status)])
    {
      var labels: map<string, string> := map[];
      var info := FindContainerState(collectionTime, status);
      labels := labels + info.tags;
      assert labels == info.tags;
      r := AddLabeledIntMetric(containerMs, MetricContainerStatus, labels, info.value);
    }

    /** The status values updateContainerStatus appends to the set of the named container, in status order. */
    function StatusValues(collectionTime: Time, statuses: seq<ContainerStatus>, container: string): seq<LabeledValue>
    {
      if statuses == [] then []
      else
        var last := statuses[|statuses| - 1];
        StatusValues(collectionTime, statuses[..|statuses| - 1], container) +
        (if last.name == container then [StatusValue(collectionTime, last)] else [])
    }

    /** A container no status names receives nothing. */
    lemma {:induction false} StatusValuesNone(collectionTime: Time, statuses: seq<ContainerStatus>, container: string)
      requires forall i :: 0 <= i < |statuses| ==> statuses[i].name != container
      ensures StatusValues(collectionTime, statuses, container) == []
    {
      if statuses != [] {
        StatusValuesNone(collectionTime, statuses[..|statuses| - 1], container);
      }
    }

    /** With distinct status names, the named container receives exactly its own status. */
    lemma {:induction false} StatusValuesUnique(collectionTime: Time, statuses: seq<ContainerStatus>, i: nat)
      requires i < |statuses|
      requires forall j, k :: 0 <= j < k < |statuses| ==> statuses[j].name != statuses[k].name
      ensures StatusValues(collectionTime, statuses, statuses[i].name) == [StatusValue(collectionTime, statuses[i])]
    {
      var init := statuses[..|statuses| - 1];
      if i == |statuses| - 1 {
        StatusValuesNone(collectionTime, init, statuses[i].name);
      } else {
        StatusValuesUnique(collectionTime, init, i);
      }
    }

    /** A set with the status values of its container appended. */
    function WithStatuses(ms: Set, collectionTime: Time, statuses: seq<ContainerStatus>, container: string): Set
    {
      ms.(labeledValues := ms.labeledValues + StatusValues(collectionTime, statuses, container))
    }

    /** The sets after updateContainerStatus: every container set of the pod gets its status values. */
    function StatusUpdated(metricSets: SetMap, pod: Pod, statuses: seq<ContainerStatus>, collectionTime: Time): (r: SetMap)
      ensures r.Keys == metricSets.Keys
    {
      map k | k in metricSets ::
        if ContainerKeyOf(k, pod) then WithStatuses(metricSets[k], collectionTime, statuses, k.container) else metricSets[k]
    }

    /** Status values never touch the metric values. */
    lemma StatusUpdatedValues(metricSets: SetMap, pod: Pod, statuses: seq<ContainerStatus>, collectionTime: Time)
      ensures var r := StatusUpdated(metricSets, pod, statuses, collectionTime);
        forall k :: k in metricSets ==> r[k].values == metricSets[k].values
    {
    }

    /** Without statuses nothing is appended. */
    lemma StatusUpdatedNone(metricSets: SetMap, pod: Pod, collectionTime: Time)
      ensures StatusUpdated(metricSets, pod, [], collectionTime) == metricSets
    {
      forall k | k in metricSets && ContainerKeyOf(k, pod)
        ensures WithStatuses(metricSets[k], collectionTime, [], k.container) == metricSets[k]
      {
        assert metricSets[k].labeledValues + [] == metricSets[k].labeledValues;
      }
    }

    /** Handling one more status appends its value to its container's set, if present. */
    lemma StatusUpdatedStep(metricSets: SetMap, pod: Pod, statuses: seq<ContainerStatus>, collectionTime: Time, i: nat)
      requires i < |statuses|
      ensures var key := PodContainerKey(pod.namespace, pod.name, statuses[i].name);
              var before := StatusUpdated(metricSets, pod, statuses[..i], collectionTime);
              var after := StatusUpdated(metricSets, pod, statuses[..i + 1], collectionTime);
        && (key in before ==>
              after == before[key := before[key].(labeledValues := before[key].labeledValues + [StatusValue(collectionTime, statuses[i])])])
        && (key !in before ==> after == before)
    {
      var prefix := statuses[..i + 1];
      assert prefix[..i] == statuses[..i];
      assert prefix[|prefix| - 1] == statuses[i];
      var key := PodContainerKey(pod.namespace, pod.name, statuses[i].name);
      var before := StatusUpdated(metricSets, pod, statuses[..i], collectionTime);
      var after := StatusUpdated(metricSets, pod, prefix, collectionTime);
      forall k | k in after
        ensures after[k] == if k == key then before[k].(labeledValues := before[k].labeledValues + [StatusValue(collectionTime, statuses[i])])
                            else before[k]
      {
        if ContainerKeyOf(k, pod) {
          var ms := metricSets[k];
          assert StatusValues(collectionTime, prefix, k.container)
              == StatusValues(collectionTime, statuses[..i], k.container) +
                 (if statuses[i].name == k.container then [StatusValue(collectionTime, statuses[i])] else []);
          assert ms.labeledValues + StatusValues(collectionTime, prefix, k.container)
              == (ms.labeledValues + StatusValues(collectionTime, statuses[..i], k.container)) +
                 (if statuses[i].name == k.container then [StatusValue(collectionTime, statuses[i])] else []);
        }
      }
    }

    /**
     * updateContainerStatus: appends a status value to the set of every
     * status's container that is present, and adds no set.
     */
    method UpdateContainerStatus(metricSets: SetMap, pod: Pod, statuses: seq<ContainerStatus>, collectionTime: Time)
      returns (r: SetMap)
      ensures r == StatusUpdated(metricSets, pod, statuses, collectionTime)
    {
      r := metricSets;
      StatusUpdatedNone(metricSets, pod, collectionTime);
      if |statuses| == 0 {
        return;
      }
      var i := 0;
      assert statuses[..0] == [];
      while i < |statuses|
        invariant 0 <= i <= |statuses|
        invariant r == StatusUpdated(metricSets, pod, statuses[..i], collectionTime)
      {
        var status := statuses[i];
        StatusUpdatedStep(metricSets, pod, statuses, collectionTime, i);
        var containerKey := PodContainerKey(pod.namespace, pod.name, status.name);
        if containerKey in r {
          var containerMs := AddContainerStatus(collectionTime, r[containerKey], status);
          r := r[containerKey := containerMs];
        }
        i := i + 1;
      }
      assert statuses[..i] == statuses;
    }

    /** addWorkloadStatusMetric: adds the pod's workload-status set under its WorkloadStatusPodKey. */
    method AddWorkloadStatusMetric(podMs: Set, pod: Pod, newMs: SetMap) returns (r: SetMap)
      ensures r == newMs[WorkloadStatusPodKey(pod.namespace, pod.name) :=
                           WorkloadStatusSet(pod, At(podMs.labels, KeyWorkloadName), At(podMs.labels, KeyWorkloadKind))]
    {
      var labels := map[KeyNamespaceName := pod.namespace,
                        KeyWorkloadName := At(podMs.labels, KeyWorkloadName),
                        KeyWorkloadKind := At(podMs.labels, KeyWorkloadKind),
                        KeyAvailable := At(podMs.labels, KeyAvailable),
                        KeyDesired := At(podMs.labels, KeyDesired)];
      ghost var initial := labels;
      var workloadStatus: Int64 := 1;
      var statuses := pod.containerStatuses;
      var i := 0;
      while i < |statuses|
        invariant 0 <= i <= |statuses|
        invariant workloadStatus == 1 && labels == initial
        invariant FirstUnavailable(statuses) == FirstUnavailable(statuses[i..])
      {
        var containerStatus := statuses[i];
        assert statuses[i..][1..] == statuses[i + 1..];
        if !containerStatus.ready {
          if containerStatus.state.waiting.Some? {
            workloadStatus := 0;
            labels := labels[KeyReason := containerStatus.state.waiting.value.reason];
            labels := labels[KeyMessage := containerStatus.state.waiting.value.message];
            assert FirstUnavailable(statuses) == Some(FailureOf(containerStatus));
            break;
          } else if containerStatus.state.terminated.Some? {
            workloadStatus := 0;
            labels := labels[KeyReason := containerStatus.state.terminated.value.reason];
            labels := labels[KeyMessage := containerStatus.state.terminated.value.message];
            assert FirstUnavailable(statuses) == Some(FailureOf(containerStatus));
            break;
          }
        }
        i := i + 1;
      }
      assert workloadStatus == 1 ==> FirstUnavailable(statuses).None? by {
        if workloadStatus == 1 {
          assert statuses[i..] == [];
        }
      }
      labels := labels[KeyAvailable := if workloadStatus == 0 then "0" else "1"];
      labels := labels[KeyDesired := "1"];

      ghost var expected := WorkloadStatusSet(pod, At(podMs.labels, KeyWorkloadName), At(podMs.labels, KeyWorkloadKind));
      WorkloadLabels(pod, At(podMs.labels, KeyWorkloadName), At(podMs.labels, KeyWorkloadKind),
                     At(podMs.labels, KeyAvailable), At(podMs.labels, KeyDesired));
      var workloadMs := Set(labels, map[], [], None, None);
      workloadMs := AddLabeledIntMetric(workloadMs, MetricWorkloadStatus, map[], workloadStatus);
      assert workloadMs.labeledValues == expected.labeledValues;
      r := newMs[WorkloadStatusPodKey(pod.namespace, pod.name) := workloadMs];
    }
    // -------------------------------------------------------------------
    // addPodInfo

    /** The labeled value reporting a pod's phase. */
    function PhaseValue(pod: Pod): (v: LabeledValue)
      ensures v.name == MetricPodPhase && v.labels == map["phase" := PhaseName(pod.phase)]
      ensures v.value == IntValue(util.convertPodPhase(pod.phase))
    {
      LabeledValue(MetricPodPhase, map["phase" := PhaseName(pod.phase)], IntValue(util.convertPodPhase(pod.phase)))
    }

    /**
     * The pod set once addPodInfo has stamped a Running pod on it: pod_id,
     * the start time when known, the copied pod labels, the phase value and
     * the workload labels.
     */
    function RunningPodSet(podMs: Set, pod: Pod): Set
    {
      var workload := workloadCache.getWorkloadForPod(pod);
      var labels := labelCopier.Copy(pod.labels, podMs.labels[KeyPodId := pod.uid]);
      Set(labels[KeyWorkloadName := workload.0][KeyWorkloadKind := workload.1],
          podMs.values,
          podMs.labeledValues + [PhaseValue(pod)],
          if pod.startTime.Some? then pod.startTime else podMs.entityCreateTime,
          podMs.collectionStartTime)
    }

    /** What addPodInfo makes of the pod set: only a Running pod's set changes. */
    function PodInfoSet(podMs: Set, pod: Pod): Set
    {
      if pod.phase == PodRunning then RunningPodSet(podMs, pod) else podMs
    }

    /**
     * The value of one stub label: the set type, the pod's and the
     * container's own identity, and the node, host and workload labels of
     * the pod set.
     */
    function StubLabelValue(podOut: Set, pod: Pod, container: Container, key: string): string
    {
      if key == KeyMetricSetType then MetricSetTypePodContainer
      else if key == KeyNamespaceName then pod.namespace
      else if key == KeyPodName then pod.name
      else if key == KeyContainerName then container.name
      else if key == KeyContainerBaseImage then container.image
      else if key == KeyPodId then pod.uid
      else At(podOut.labels, key)
    }

    /** The labels of a container stub, before the pod's labels are copied onto it. */
    function StubLabels(podOut: Set, pod: Pod, container: Container): map<string, string>
    {
      map key | key in StubLabelKeys :: StubLabelValue(podOut, pod, container, key)
    }

    /** The stub addPodInfo creates for a container with no set, resources visited in `order`. */
    ghost function StubSet(podOut: Set, pod: Pod, container: Container, reg: MetricMap, order: seq<ResourceName>): Set
    {
      Set(labelCopier.Copy(pod.labels, StubLabels(podOut, pod, container)),
          ResourceValues(map[], reg, container.resources, order),
          [], podOut.collectionStartTime, None)
    }

    /** The stub built for each container of `cs`, `orders[i]` being the order the requests of `cs[i]` are visited in. */
    ghost function StubSets(podOut: Set, pod: Pod, cs: seq<Container>, reg: MetricMap, orders: seq<seq<ResourceName>>)
      : (r: seq<Set>)
      requires |orders| == |cs|
      ensures |r| == |cs|
      ensures forall i :: 0 <= i < |cs| ==> r[i] == StubSet(podOut, pod, cs[i], reg, orders[i])
    {
      seq(|cs|, i requires 0 <= i < |cs| => StubSet(podOut, pod, cs[i], reg, orders[i]))
    }

    /** Every stub of a valid registry reports the primary metrics and no restart count. */
    lemma StubSetsValues(podOut: Set, pod: Pod, cs: seq<Container>, reg: MetricMap, orders: seq<seq<ResourceName>>)
      requires RegistryValid(reg) && EnumeratesRequests(cs, orders)
      ensures var stubs := StubSets(podOut, pod, cs, reg, orders);
        forall i :: 0 <= i < |cs| ==> MetricRestartCount !in stubs[i].values && PrimaryResourceMetrics <= stubs[i].values.Keys
    {
      forall i | 0 <= i < |cs|
        ensures MetricRestartCount !in StubSet(podOut, pod, cs[i], reg, orders[i]).values
        ensures PrimaryResourceMetrics <= StubSet(podOut, pod, cs[i], reg, orders[i]).values.Keys
      {
        StubSetValues(podOut, pod, cs[i], reg, orders[i]);
      }
    }

    lemma StubSetsStep(podOut: Set, pod: Pod, cs: seq<Container>, reg: MetricMap, orders: seq<seq<ResourceName>>,
                       order: seq<ResourceName>, i: nat)
      requires i < |cs| && |orders| == i
      ensures StubSets(podOut, pod, cs[..i + 1], reg, orders + [order])
                == StubSets(podOut, pod, cs[..i], reg, orders) + [StubSet(podOut, pod, cs[i], reg, order)]
    {
      var l := StubSets(podOut, pod, cs[..i + 1], reg, orders + [order]);
      var r := StubSets(podOut, pod, cs[..i], reg, orders) + [StubSet(podOut, pod, cs[i], reg, order)];
      forall j | 0 <= j < i + 1 ensures l[j] == r[j] {
        if j < i {
          assert cs[..i + 1][j] == cs[..i][j] && (orders + [order])[j] == orders[j];
        }
      }
    }

    /**
     * A container stub is typed pod_container, names its pod and container,
     * carries the pod's uid and the node, host and workload labels of the
     * pod set, and has no labeled values yet. Its creation time is the pod
     * set's collection start time.
     */
    lemma StubSetLabels(podOut: Set, pod: Pod, container: Container, reg: MetricMap, order: seq<ResourceName>)
      requires labelCopier.Avoids(StubLabelKeys)
      ensures var st := StubSet(podOut, pod, container, reg, order);
        && st.labels.Keys == StubLabelKeys + labelCopier.contribution(pod.labels).Keys
        && At(st.labels, KeyMetricSetType) == MetricSetTypePodContainer
        && At(st.labels, KeyNamespaceName) == pod.namespace
        && At(st.labels, KeyPodName) == pod.name
        && At(st.labels, KeyContainerName) == container.name
        && At(st.labels, KeyContainerBaseImage) == container.image
        && At(st.labels, KeyPodId) == pod.uid
        && At(st.labels, KeyNodename) == At(podOut.labels, KeyNodename)
        && At(st.labels, KeyHostname) == At(podOut.labels, KeyHostname)
        && At(st.labels, KeyHostID) == At(podOut.labels, KeyHostID)
        && At(st.labels, KeyWorkloadName) == At(podOut.labels, KeyWorkloadName)
        && At(st.labels, KeyWorkloadKind) == At(podOut.labels, KeyWorkloadKind)
        && st.labeledValues == [] && st.entityCreateTime == podOut.collectionStartTime && st.collectionStartTime == None
    {
      StubLabelsAt(podOut, pod, container);
      StubSetKeepsStubLabels(podOut, pod, container, reg, order);
    }

    /** The labels of a stub before the copy, key by key. */
    lemma StubLabelsAt(podOut: Set, pod: Pod, container: Container)
      ensures var labels := StubLabels(podOut, pod, container);
        && labels.Keys == StubLabelKeys
        && At(labels, KeyMetricSetType) == MetricSetTypePodContainer
        && At(labels, KeyNamespaceName) == pod.namespace
        && At(labels, KeyPodName) == pod.name
        && At(labels, KeyContainerName) == container.name
        && At(labels, KeyContainerBaseImage) == container.image
        && At(labels, KeyPodId) == pod.uid
        && At(labels, KeyNodename) == At(podOut.labels, KeyNodename)
        && At(labels, KeyHostname) == At(podOut.labels, KeyHostname)
        && At(labels, KeyHostID) == At(podOut.labels, KeyHostID)
        && At(labels, KeyWorkloadName) == At(podOut.labels, KeyWorkloadName)
        && At(labels, KeyWorkloadKind) == At(podOut.labels, KeyWorkloadKind)
    {
    }

    /** A copier that keeps off the stub keys leaves the stub labels as they were built. */
    lemma StubSetKeepsStubLabels(podOut: Set, pod: Pod, container: Container, reg: MetricMap, order: seq<ResourceName>)
      requires labelCopier.Avoids(StubLabelKeys)
      ensures var st := StubSet(podOut, pod, container, reg, order);
        && st.labels.Keys == StubLabelKeys + labelCopier.contribution(pod.labels).Keys
        && forall k :: k in StubLabelKeys ==> At(st.labels, k) == At(StubLabels(podOut, pod, container), k)
    {
      assert labelCopier.contribution(pod.labels).Keys !! StubLabelKeys;
      CopyKeeps(labelCopier, pod.labels, StubLabels(podOut, pod, container), StubLabelKeys);
    }

    /**
     * A container stub reports the primary requests and limits and, in a
     * valid registry, no restart count.
     */
    lemma StubSetValues(podOut: Set, pod: Pod, container: Container, reg: MetricMap, order: seq<ResourceName>)
      requires RegistryValid(reg) && Enumerates(order, container.resources.requests.Keys)
      ensures var st := StubSet(podOut, pod, container, reg, order);
        && PrimaryResourceMetrics <= st.values.Keys
        && MetricRestartCount !in st.values
    {
      ResourceValuesKeys(map[], reg, container.resources, order);
      ResourceValuesKeepRestartCount(map[], reg, container.resources, order);
    }

    /**
     * addPodInfo leaves the set of a pod that is not Running as it is. A
     * Running pod's set gets the workload labels, the phase value appended
     * after the existing labeled values, the pod's start time when known,
     * and nothing else changed; with a copier that keeps off the
     * enricher's own keys it also gets pod_id and keeps its type, identity,
     * node and host labels.
     */
    lemma PodInfoSetContent(podMs: Set, pod: Pod)
      ensures pod.phase != PodRunning ==> PodInfoSet(podMs, pod) == podMs
      ensures pod.phase == PodRunning ==>
        var out := PodInfoSet(podMs, pod); var workload := workloadCache.getWorkloadForPod(pod);
        && At(out.labels, KeyWorkloadName) == workload.0 && At(out.labels, KeyWorkloadKind) == workload.1
        && out.labeledValues == podMs.labeledValues + [PhaseValue(pod)]
        && out.values == podMs.values
        && out.collectionStartTime == podMs.collectionStartTime
        && out.entityCreateTime == (if pod.startTime.Some? then pod.startTime else podMs.entityCreateTime)
      ensures pod.phase == PodRunning && labelCopier.Avoids(StubLabelKeys) ==>
        var out := PodInfoSet(podMs, pod);
        && At(out.labels, KeyPodId) == pod.uid
        && At(out.labels, KeyMetricSetType) == At(podMs.labels, KeyMetricSetType)
        && At(out.labels, KeyNamespaceName) == At(podMs.labels, KeyNamespaceName)
        && At(out.labels, KeyPodName) == At(podMs.labels, KeyPodName)
        && At(out.labels, KeyNodename) == At(podMs.labels, KeyNodename)
        && At(out.labels, KeyHostname) == At(podMs.labels, KeyHostname)
        && At(out.labels, KeyHostID) == At(podMs.labels, KeyHostID)
    {
      if pod.phase == PodRunning && labelCopier.Avoids(StubLabelKeys) {
        assert labelCopier.contribution(pod.labels).Keys !! StubLabelKeys;
      }
    }

    /** The sets with the workload-status set of an ownerless pod added. */
    function WithWorkloadStatus(newMs: SetMap, podOut: Set, pod: Pod): SetMap
    {
      if util.hasOwnerReference(pod.ownerReferences) then newMs
      else newMs[WorkloadStatusPodKey(pod.namespace, pod.name) :=
                   WorkloadStatusSet(pod, At(podOut.labels, KeyWorkloadName), At(podOut.labels, KeyWorkloadKind))]
    }

    /**
     * What addPodInfo makes of the new sets: nothing for a pod that is not
     * Running; otherwise the workload status, the container stubs and the
     * container status values.
     */
    ghost function PodInfoSets(podMs: Set, pod: Pod, batchSets: SetMap, collectionTime: Time, newMs: SetMap,
                               reg: MetricMap, orders: seq<seq<ResourceName>>): SetMap
      requires pod.phase == PodRunning ==> |orders| == |pod.containers|
    {
      if pod.phase != PodRunning then newMs
      else
        var podOut := RunningPodSet(podMs, pod);
        var stubs := ContainerStubs(pod, pod.containers, batchSets, WithWorkloadStatus(newMs, podOut, pod),
                                    StubSets(podOut, pod, pod.containers, reg, orders));
        StatusUpdated(stubs, pod, pod.containerStatuses, collectionTime)
    }

    /**
     * The stub loop of addPodInfo: a stub for every container of the pod
     * whose key is neither in the batch nor among the new sets.
     */
    method AddContainerStubs(podOut: Set, pod: Pod, batch: Batch, newMs: SetMap, ghost base: MetricMap)
      returns (newOut: SetMap, ghost orders: seq<seq<ResourceName>>)
      requires Extends(base, registry.resourceRequestMetrics)
      modifies registry
      ensures Extends(base, registry.resourceRequestMetrics)
      ensures Extends(old(registry.resourceRequestMetrics), registry.resourceRequestMetrics)
      ensures EnumeratesRequests(pod.containers, orders)
      ensures newOut == ContainerStubs(pod, pod.containers, batch.sets, newMs, StubSets(podOut, pod, pod.containers, base, orders))
    {
      newOut := newMs;
      orders := [];
      ghost var stubs: seq<Set> := [];
      var i := 0;
      while i < |pod.containers|
        invariant 0 <= i <= |pod.containers| && |orders| == i && |stubs| == i
        invariant stubs == StubSets(podOut, pod, pod.containers[..i], base, orders)
        invariant EnumeratesRequests(pod.containers[..i], orders)
        invariant Extends(base, registry.resourceRequestMetrics)
        invariant Extends(old(registry.resourceRequestMetrics), registry.resourceRequestMetrics)
        invariant newOut == ContainerStubs(pod, pod.containers[..i], batch.sets, newMs, stubs)
      {
        var container := pod.containers[i];
        var containerKey := PodContainerKey(pod.namespace, pod.name, container.name);
        if containerKey in batch.sets || containerKey in newOut {
          ghost var skipped := EnumerationExists(container.resources.requests.Keys);
          ghost var stub := StubSet(podOut, pod, container, base, skipped);
          ContainerStubsStep(pod, pod.containers, batch.sets, newMs, stubs, stub, i);
          StubSetsStep(podOut, pod, pod.containers, base, orders, skipped, i);
          EnumeratesRequestsStep(pod.containers, orders, skipped, i);
          orders := orders + [skipped];
          stubs := stubs + [stub];
          i := i + 1;
          continue;
        }
        var containerMs, order := NewContainerStub(podOut, pod, container, base);
        ContainerStubsStep(pod, pod.containers, batch.sets, newMs, stubs, containerMs, i);
        StubSetsStep(podOut, pod, pod.containers, base, orders, order, i);
        EnumeratesRequestsStep(pod.containers, orders, order, i);
        newOut := newOut[containerKey := containerMs];
        orders := orders + [order];
        stubs := stubs + [containerMs];
        i := i + 1;
      }
      assert pod.containers[..i] == pod.containers;
    }

    /** The stub addPodInfo builds for a container with no set: its labels, then its resource values. */
    method NewContainerStub(podOut: Set, pod: Pod, container: Container, ghost base: MetricMap)
      returns (containerMs: Set, ghost order: seq<ResourceName>)
      requires Extends(base, registry.resourceRequestMetrics)
      modifies registry
      ensures Extends(base, registry.resourceRequestMetrics)
      ensures Extends(old(registry.resourceRequestMetrics), registry.resourceRequestMetrics)
      ensures Enumerates(order, container.resources.requests.Keys)
      ensures containerMs == StubSet(podOut, pod, container, base, order)
    {
      containerMs := Set(StubLabels(podOut, pod, container), map[], [], podOut.collectionStartTime, None);
      containerMs := containerMs.(labels := labelCopier.Copy(pod.labels, containerMs.labels));
      ghost var reg := registry.resourceRequestMetrics;
      containerMs, order := UpdateContainerResourcesAndLimits(registry, containerMs, container);
      ExtendsKeepsResourceValues(map[], base, reg, container.resources, order);
      RegisteredExtends(reg, container.resources.requests.Keys);
      ExtendsTransitive(base, reg, registry.resourceRequestMetrics);
    }

    /** The first half of addPodInfo for a Running pod: the stamps on the pod set itself. */
    method StampRunningPod(podMs: Set, pod: Pod) returns (podOut: Set)
      ensures podOut == RunningPodSet(podMs, pod)
    {
      podOut := podMs.(labels := podMs.labels[KeyPodId := pod.uid]);
      if pod.startTime.Some? {
        podOut := podOut.(entityCreateTime := pod.startTime);
      }
      podOut := podOut.(labels := labelCopier.Copy(pod.labels, podOut.labels));
      podOut := AddLabeledIntMetric(podOut, MetricPodPhase, map["phase" := PhaseName(pod.phase)],
                                    util.convertPodPhase(pod.phase));
      var workload := workloadCache.getWorkloadForPod(pod);
      podOut := podOut.(labels := podOut.labels[KeyWorkloadName := workload.0]
                                               [KeyWorkloadKind := workload.1]);
    }

    /**
     * addPodInfo changes no set of a pod that is not Running. For a Running
     * pod every set already among the new sets stays, and only the pod's
     * container sets change, by having their status values appended (and
     * the workload-status set of an ownerless pod is rewritten).
     */
    lemma PodInfoSetsKeep(podMs: Set, pod: Pod, batchSets: SetMap, collectionTime: Time, newMs: SetMap,
                          reg: MetricMap, orders: seq<seq<ResourceName>>)
      requires pod.phase == PodRunning ==> |orders| == |pod.containers|
      ensures pod.phase != PodRunning ==> PodInfoSets(podMs, pod, batchSets, collectionTime, newMs, reg, orders) == newMs
      ensures pod.phase == PodRunning ==>
        var r := PodInfoSets(podMs, pod, batchSets, collectionTime, newMs, reg, orders);
        var ws := WorkloadStatusPodKey(pod.namespace, pod.name);
        forall k :: k in newMs ==>
          && k in r
          && (ContainerKeyOf(k, pod) ==> r[k] == WithStatuses(newMs[k], collectionTime, pod.containerStatuses, k.container))
          && (!ContainerKeyOf(k, pod) && (k != ws || util.hasOwnerReference(pod.ownerReferences)) ==> r[k] == newMs[k])
    {
      if pod.phase == PodRunning {
        var podOut := RunningPodSet(podMs, pod);
        var withWs := WithWorkloadStatus(newMs, podOut, pod);
        var stubSets := StubSets(podOut, pod, pod.containers, reg, orders);
        ContainerStubsKeep(pod, pod.containers, batchSets, withWs, stubSets);
      }
    }

    /** For a Running pod, every spec container ends up with a set, in the batch or among the new sets. */
    lemma PodInfoSetsCover(podMs: Set, pod: Pod, batchSets: SetMap, collectionTime: Time, newMs: SetMap,
                           reg: MetricMap, orders: seq<seq<ResourceName>>)
      requires pod.phase == PodRunning && |orders| == |pod.containers|
      ensures var r := PodInfoSets(podMs, pod, batchSets, collectionTime, newMs, reg, orders);
              var cs := pod.containers;
        forall i :: 0 <= i < |cs| ==>
          PodContainerKey(pod.namespace, pod.name, cs[i].name) in batchSets || PodContainerKey(pod.namespace, pod.name, cs[i].name) in r
    {
      var podOut := RunningPodSet(podMs, pod);
      ContainerStubsCover(pod, pod.containers, batchSets, WithWorkloadStatus(newMs, podOut, pod),
                          StubSets(podOut, pod, pod.containers, reg, orders));
    }

    /** A Running pod without owner gets its workload-status set, stated with the workload the cache reports. */
    lemma PodInfoSetsWorkloadStatus(podMs: Set, pod: Pod, batchSets: SetMap, collectionTime: Time, newMs: SetMap,
                                    reg: MetricMap, orders: seq<seq<ResourceName>>)
      requires pod.phase == PodRunning && |orders| == |pod.containers|
      requires !util.hasOwnerReference(pod.ownerReferences)
      ensures var r := PodInfoSets(podMs, pod, batchSets, collectionTime, newMs, reg, orders);
              var ws := WorkloadStatusPodKey(pod.namespace, pod.name); var workload := workloadCache.getWorkloadForPod(pod);
        ws in r && r[ws] == WorkloadStatusSet(pod, workload.0, workload.1)
    {
      var podOut := RunningPodSet(podMs, pod);
      ContainerStubsKeep(pod, pod.containers, batchSets, WithWorkloadStatus(newMs, podOut, pod),
                         StubSets(podOut, pod, pod.containers, reg, orders));
    }

    /**
     * Every set addPodInfo adds for a Running pod is its workload-status set
     * (when it has no owner) or a set for one of its containers, under a key
     * not in the batch.
     */
    lemma PodInfoSetsDomain(podMs: Set, pod: Pod, batchSets: SetMap, collectionTime: Time, newMs: SetMap,
                            reg: MetricMap, orders: seq<seq<ResourceName>>)
      requires pod.phase == PodRunning && |orders| == |pod.containers|
      ensures var r := PodInfoSets(podMs, pod, batchSets, collectionTime, newMs, reg, orders);
              var ws := WorkloadStatusPodKey(pod.namespace, pod.name); var cs := pod.containers;
        forall k :: k in r && k !in newMs ==>
          || (k == ws && !util.hasOwnerReference(pod.ownerReferences))
          || (&& k !in batchSets
              && exists j :: 0 <= j < |cs| && k == PodContainerKey(pod.namespace, pod.name, cs[j].name))
    {
      var podOut := RunningPodSet(podMs, pod);
      ContainerStubsDomain(pod, pod.containers, batchSets, WithWorkloadStatus(newMs, podOut, pod),
                           StubSets(podOut, pod, pod.containers, reg, orders));
    }

    /**
     * The first container with a given name whose key is in neither map
     * gets the stub built from it, with its status values appended.
     */
    lemma PodInfoSetsStub(podMs: Set, pod: Pod, batchSets: SetMap, collectionTime: Time, newMs: SetMap,
                          reg: MetricMap, orders: seq<seq<ResourceName>>, i: nat)
      requires pod.phase == PodRunning && |orders| == |pod.containers|
      requires i < |pod.containers| && forall j :: 0 <= j < i ==> pod.containers[j].name != pod.containers[i].name
      requires var key := PodContainerKey(pod.namespace, pod.name, pod.containers[i].name);
               key !in batchSets && key !in newMs
      ensures var r := PodInfoSets(podMs, pod, batchSets, collectionTime, newMs, reg, orders);
              var key := PodContainerKey(pod.namespace, pod.name, pod.containers[i].name);
        key in r && r[key] == WithStatuses(StubSet(RunningPodSet(podMs, pod), pod, pod.containers[i], reg, orders[i]),
                                           collectionTime, pod.containerStatuses, pod.containers[i].name)
    {
      var podOut := RunningPodSet(podMs, pod);
      var withWs := WithWorkloadStatus(newMs, podOut, pod);
      var stubSets := StubSets(podOut, pod, pod.containers, reg, orders);
      ContainerStubsFirstAt(pod, pod.containers, batchSets, withWs, stubSets, i);
    }

    /**
     * The container stubs of a Running pod never carry a restart count,
     * whereas addContainerInfo writes one on every scraped container set
     * with a status.
     */
    lemma PodInfoSetsStubsHaveNoRestartCount(podMs: Set, pod: Pod, batchSets: SetMap, collectionTime: Time,
                                             newMs: SetMap, reg: MetricMap, orders: seq<seq<ResourceName>>)
      requires pod.phase == PodRunning && EnumeratesRequests(pod.containers, orders)
      requires RegistryValid(reg)
      ensures var r := PodInfoSets(podMs, pod, batchSets, collectionTime, newMs, reg, orders);
        forall k :: k in r && k !in newMs && k.PodContainerKey? ==>
          MetricRestartCount !in r[k].values && PrimaryResourceMetrics <= r[k].values.Keys
    {
      var r := PodInfoSets(podMs, pod, batchSets, collectionTime, newMs, reg, orders);
      var podOut := RunningPodSet(podMs, pod);
      var withWs := WithWorkloadStatus(newMs, podOut, pod);
      var stubSets := StubSets(podOut, pod, pod.containers, reg, orders);
      var m := ContainerStubs(pod, pod.containers, batchSets, withWs, stubSets);
      ContainerStubsFrom(pod, pod.containers, batchSets, withWs, stubSets);
      StubSetsValues(podOut, pod, pod.containers, reg, orders);
      StatusUpdatedValues(m, pod, pod.containerStatuses, collectionTime);
      forall k | k in r && k !in newMs && k.PodContainerKey?
        ensures MetricRestartCount !in r[k].values && PrimaryResourceMetrics <= r[k].values.Keys
      {
        assert k !in withWs;
      }
    }

    /**
     * addPodInfo. `base` is any registry the current one extends; the new
     * sets are stated against it, since later registrations change no
     * request metric name.
     */
    method AddPodInfo(podMs: Set, pod: Pod, batch: Batch, newMs: SetMap, ghost base: MetricMap)
      returns (podOut: Set, newOut: SetMap, ghost orders: seq<seq<ResourceName>>)
      requires Extends(base, registry.resourceRequestMetrics)
      modifies registry
      ensures Extends(base, registry.resourceRequestMetrics)
      ensures Extends(old(registry.resourceRequestMetrics), registry.resourceRequestMetrics)
      ensures pod.phase != PodRunning ==> registry.resourceRequestMetrics == old(registry.resourceRequestMetrics)
      ensures pod.phase == PodRunning ==> EnumeratesRequests(pod.containers, orders)
      ensures podOut == PodInfoSet(podMs, pod)
      ensures newOut == PodInfoSets(podMs, pod, batch.sets, batch.timestamp, newMs, base, orders)
    {
      orders := [];
      if pod.phase != PodRunning {
        podOut, newOut := podMs, newMs;
        return;
      }
      podOut := StampRunningPod(podMs, pod);

      newOut := newMs;
      if !util.hasOwnerReference(pod.ownerReferences) {
        newOut := AddWorkloadStatusMetric(podOut, pod, newOut);
      }
      newOut, orders := AddContainerStubs(podOut, pod, batch, newOut, base);
      newOut := UpdateContainerStatus(newOut, pod, pod.containerStatuses, batch.timestamp);
    }

    /**
     * The container set after the spec loop of addContainerInfo: the
     * resource values of the first spec container its key names, and that
     * container's image when no base image is set.
     */
    ghost function SpecStamped(key: ResourceKey, ms: Set, pod: Pod, reg: MetricMap, order: seq<ResourceName>): Set
    {
      var container := if ContainerKeyOf(key, pod) then ContainerNamed(pod.containers, key.container) else None;
      if container.None? then ms
      else ms.(values := ResourceValues(ms.values, reg, container.value.resources, order),
               labels := if KeyContainerBaseImage in ms.labels then ms.labels
                         else ms.labels[KeyContainerBaseImage := container.value.image])
    }

    /**
     * The container set after the status loop: the restart count, start
     * time and status value of the first status its key names.
     */
    function StatusStamped(key: ResourceKey, ms: Set, pod: Pod, collectionTime: Time): Set
    {
      var status := if ContainerKeyOf(key, pod) then StatusNamed(pod.containerStatuses, key.container) else None;
      if status.None? then ms
      else ms.(values := ms.values[MetricRestartCount := IntValue(status.value.restartCount)],
               entityCreateTime := if pod.startTime.Some? then pod.startTime else ms.entityCreateTime,
               labeledValues := ms.labeledValues + [StatusValue(collectionTime, status.value)])
    }

    /** The container set with the workload labels, pod_id and the copied pod labels. */
    function PodStamped(ms: Set, pod: Pod): Set
    {
      var workload := workloadCache.getWorkloadForPod(pod);
      ms.(labels := labelCopier.Copy(pod.labels, ms.labels[KeyWorkloadName := workload.0]
                                                          [KeyWorkloadKind := workload.1]
                                                          [KeyPodId := pod.uid]))
    }

    /** The container set after addContainerInfo's own stamps, before any pod stub. */
    ghost function ContainerInfoSet(key: ResourceKey, ms: Set, pod: Pod, collectionTime: Time, reg: MetricMap,
                                    order: seq<ResourceName>): Set
    {
      PodStamped(StatusStamped(key, SpecStamped(key, ms, pod, reg, order), pod, collectionTime), pod)
    }

    /** The value of one label of the pod stub: its type, or the container set's label. */
    function PodStubLabelValue(containerMs: Set, key: string): string
    {
      if key == KeyMetricSetType then MetricSetTypePod else At(containerMs.labels, key)
    }

    /** The labels of the pod stub addContainerInfo creates from a container set. */
    function PodStubLabels(containerMs: Set): map<string, string>
    {
      map key | key in PodStubLabelKeys :: PodStubLabelValue(containerMs, key)
    }

    /** The pod stub, before addPodInfo stamps it. */
    function PodStub(containerMs: Set, pod: Pod): Set
    {
      Set(PodStubLabels(containerMs), map[], [], pod.startTime, None)
    }

    /** The key of the pod set a container set belongs to, as addContainerInfo reads it off the labels. */
    function OwnerPodKey(containerMs: Set): ResourceKey
    {
      PodKey(At(containerMs.labels, KeyNamespaceName), At(containerMs.labels, KeyPodName))
    }

    /**
     * What addContainerInfo makes of the new sets: nothing when the pod's
     * set is in the batch or already among the new sets; otherwise a pod
     * stub under that key, on which addPodInfo then runs.
     */
    ghost function ContainerInfoSets(containerMs: Set, pod: Pod, batchSets: SetMap, collectionTime: Time,
                                     newMs: SetMap, reg: MetricMap, stubOrders: seq<seq<ResourceName>>): SetMap
      requires pod.phase == PodRunning ==> |stubOrders| == |pod.containers|
    {
      var podKey := OwnerPodKey(containerMs);
      if podKey in batchSets || podKey in newMs then newMs
      else
        var stub := PodStub(containerMs, pod);
        PodInfoSets(stub, pod, batchSets, collectionTime, newMs[podKey := stub], reg, stubOrders)
          [podKey := PodInfoSet(stub, pod)]
    }

    /** The spec container and the status addContainerInfo matches the key with. */
    function MatchedContainer(key: ResourceKey, pod: Pod): Option<Container>
    {
      if ContainerKeyOf(key, pod) then ContainerNamed(pod.containers, key.container) else None
    }

    function MatchedStatus(key: ResourceKey, pod: Pod): Option<ContainerStatus>
    {
      if ContainerKeyOf(key, pod) then StatusNamed(pod.containerStatuses, key.container) else None
    }

    /**
     * The labels addContainerInfo leaves on a container set, stated on the
     * labels alone: the base image when the set has none and a spec
     * container matches, the workload labels and pod_id, then the copied
     * pod labels.
     */
    function ContainerInfoLabels(key: ResourceKey, labels: map<string, string>, pod: Pod): map<string, string>
    {
      var c := MatchedContainer(key, pod);
      var workload := workloadCache.getWorkloadForPod(pod);
      var withImage := if c.Some? && KeyContainerBaseImage !in labels then labels[KeyContainerBaseImage := c.value.image]
                       else labels;
      labelCopier.Copy(pod.labels, withImage[KeyWorkloadName := workload.0][KeyWorkloadKind := workload.1]
                                            [KeyPodId := pod.uid])
    }

    /** The stamps of addContainerInfo touch the labels only as ContainerInfoLabels says. */
    lemma ContainerInfoSetLabels(key: ResourceKey, ms: Set, pod: Pod, collectionTime: Time, reg: MetricMap,
                                 order: seq<ResourceName>)
      ensures ContainerInfoSet(key, ms, pod, collectionTime, reg, order).labels == ContainerInfoLabels(key, ms.labels, pod)
    {
      var spec := SpecStamped(key, ms, pod, reg, order);
      var stamped := StatusStamped(key, spec, pod, collectionTime);
      assert stamped.labels == spec.labels;
      SpecStampedLabels(key, ms, pod, reg, order);
    }

    /**
     * The copied pod labels win; the workload labels and pod_id are added;
     * a base image is added only when the set has none and a spec container
     * matches; every other label stays.
     */
    lemma ContainerInfoLabelsContent(key: ResourceKey, labels: map<string, string>, pod: Pod)
      ensures var r := ContainerInfoLabels(key, labels, pod);
              var contribution := labelCopier.contribution(pod.labels); var c := MatchedContainer(key, pod);
        && r.Keys == labels.Keys + {KeyWorkloadName, KeyWorkloadKind, KeyPodId} + contribution.Keys
                     + (if c.Some? then {KeyContainerBaseImage} else {})
        && (forall k :: k in contribution ==> r[k] == contribution[k])
        && (forall k :: k in labels && k !in contribution && k !in {KeyWorkloadName, KeyWorkloadKind, KeyPodId} ==>
              r[k] == labels[k])
        && (KeyContainerBaseImage !in labels && KeyContainerBaseImage !in contribution && c.Some? ==>
              r[KeyContainerBaseImage] == c.value.image)
    {
    }

    /** The spec loop adds the base image when a container matches and the set has none. */
    lemma SpecStampedLabels(key: ResourceKey, ms: Set, pod: Pod, reg: MetricMap, order: seq<ResourceName>)
      ensures var r := SpecStamped(key, ms, pod, reg, order); var c := MatchedContainer(key, pod);
        r.labels == if c.Some? && KeyContainerBaseImage !in ms.labels then ms.labels[KeyContainerBaseImage := c.value.image]
                    else ms.labels
    {
    }

    /** The same under a copier that keeps off the enricher's own keys. */
    lemma ContainerInfoSetOwnLabels(key: ResourceKey, ms: Set, pod: Pod, collectionTime: Time, reg: MetricMap,
                                    order: seq<ResourceName>)
      requires labelCopier.Avoids(StubLabelKeys)
      ensures var r := ContainerInfoSet(key, ms, pod, collectionTime, reg, order);
              var workload := workloadCache.getWorkloadForPod(pod);
        && At(r.labels, KeyPodId) == pod.uid
        && At(r.labels, KeyWorkloadName) == workload.0 && At(r.labels, KeyWorkloadKind) == workload.1
        && (forall k :: k in {KeyMetricSetType, KeyNamespaceName, KeyPodName, KeyNodename, KeyHostname, KeyHostID} ==>
              At(r.labels, k) == At(ms.labels, k))
        && OwnerPodKey(r) == OwnerPodKey(ms)
    {
      var spec := SpecStamped(key, ms, pod, reg, order);
      var stamped := StatusStamped(key, spec, pod, collectionTime);
      assert stamped.labels == spec.labels;
      PodStampedOwnLabels(stamped, pod);
      SpecStampedIdentity(key, ms, pod, reg, order);
    }

    /** Under a copier that keeps off the enricher's keys, PodStamped writes the pod's own pod_id and workload. */
    lemma PodStampedOwnLabels(ms: Set, pod: Pod)
      requires labelCopier.Avoids(StubLabelKeys)
      ensures var r := PodStamped(ms, pod); var workload := workloadCache.getWorkloadForPod(pod);
        && At(r.labels, KeyPodId) == pod.uid
        && At(r.labels, KeyWorkloadName) == workload.0 && At(r.labels, KeyWorkloadKind) == workload.1
        && (forall k :: k in {KeyMetricSetType, KeyNamespaceName, KeyPodName, KeyNodename, KeyHostname, KeyHostID} ==>
              At(r.labels, k) == At(ms.labels, k))
    {
      var workload := workloadCache.getWorkloadForPod(pod);
      var before := ms.labels[KeyWorkloadName := workload.0][KeyWorkloadKind := workload.1][KeyPodId := pod.uid];
      assert labelCopier.contribution(pod.labels).Keys !! StubLabelKeys;
      CopyKeeps(labelCopier, pod.labels, before, StubLabelKeys);
    }

    /** The spec loop writes no label but the base image. */
    lemma SpecStampedIdentity(key: ResourceKey, ms: Set, pod: Pod, reg: MetricMap, order: seq<ResourceName>)
      ensures var r := SpecStamped(key, ms, pod, reg, order);
        forall k :: k in {KeyMetricSetType, KeyNamespaceName, KeyPodName, KeyNodename, KeyHostname, KeyHostID} ==>
          At(r.labels, k) == At(ms.labels, k)
    {
    }

    /**
     * The values: a matched status sets the restart count; a matched spec
     * container adds its request metrics and the primary requests and
     * limits; nothing else is written.
     */
    lemma ContainerInfoSetValues(key: ResourceKey, ms: Set, pod: Pod, collectionTime: Time, reg: MetricMap,
                                 order: seq<ResourceName>)
      requires RegistryValid(reg)
      requires MatchedContainer(key, pod).Some? ==>
                 Enumerates(order, MatchedContainer(key, pod).value.resources.requests.Keys)
      ensures var r := ContainerInfoSet(key, ms, pod, collectionTime, reg, order);
              var c := MatchedContainer(key, pod); var st := MatchedStatus(key, pod);
        && r.values.Keys == ms.values.Keys
             + (if c.Some? then RequestNameMap(reg, c.value.resources.requests).Values + PrimaryResourceMetrics else {})
             + (if st.Some? then {MetricRestartCount} else {})
        && (st.Some? ==> r.values[MetricRestartCount] == IntValue(st.value.restartCount))
        && (st.None? && c.None? ==> r.values == ms.values)
    {
      var c := MatchedContainer(key, pod);
      if c.Some? {
        ResourceValuesKeys(ms.values, reg, c.value.resources, order);
      }
    }

    /**
     * The status part: a matched status appends its status value and sets
     * the start time when known; otherwise the labeled values and times
     * stay.
     */
    lemma ContainerInfoSetStatus(key: ResourceKey, ms: Set, pod: Pod, collectionTime: Time, reg: MetricMap,
                                 order: seq<ResourceName>)
      ensures var r := ContainerInfoSet(key, ms, pod, collectionTime, reg, order); var st := MatchedStatus(key, pod);
        && r.labeledValues == ms.labeledValues + (if st.Some? then [StatusValue(collectionTime, st.value)] else [])
        && r.entityCreateTime == (if st.Some? && pod.startTime.Some? then pod.startTime else ms.entityCreateTime)
        && r.collectionStartTime == ms.collectionStartTime
    {
    }

    /**
     * With distinct status names, addContainerInfo appends to a scraped
     * container set exactly the status values updateContainerStatus
     * appends to a stub of the same container.
     */
    lemma ContainerInfoSetAgreesWithStatusUpdate(key: ResourceKey, ms: Set, pod: Pod, collectionTime: Time,
                                                 reg: MetricMap, order: seq<ResourceName>)
      requires ContainerKeyOf(key, pod)
      requires var ss := pod.containerStatuses; forall j, k :: 0 <= j < k < |ss| ==> ss[j].name != ss[k].name
      ensures ContainerInfoSet(key, ms, pod, collectionTime, reg, order).labeledValues
           == ms.labeledValues + StatusValues(collectionTime, pod.containerStatuses, key.container)
    {
      var ss := pod.containerStatuses;
      var st := StatusNamed(ss, key.container);
      if st.Some? {
        var i :| 0 <= i < |ss| && ss[i] == st.value;
        StatusValuesUnique(collectionTime, ss, i);
      } else {
        StatusValuesNone(collectionTime, ss, key.container);
      }
    }

    /**
     * The pod stub: type pod, namespace, pod name, node and host labels
     * read off the container set, nothing else; no values; the pod's start
     * time.
     */
    lemma PodStubContent(containerMs: Set, pod: Pod)
      ensures var stub := PodStub(containerMs, pod);
        && stub.labels.Keys == PodStubLabelKeys
        && stub.labels[KeyMetricSetType] == MetricSetTypePod
        && (forall k :: k in PodStubLabelKeys && k != KeyMetricSetType ==> stub.labels[k] == At(containerMs.labels, k))
        && stub.values == map[] && stub.labeledValues == []
        && stub.entityCreateTime == pod.startTime && stub.collectionStartTime == None
        && OwnerPodKey(stub) == OwnerPodKey(containerMs)
    {
      var labels := PodStubLabels(containerMs);
      assert KeyNamespaceName != KeyMetricSetType && KeyPodName != KeyMetricSetType;
      assert At(labels, KeyNamespaceName) == At(containerMs.labels, KeyNamespaceName);
    }

    /**
     * addContainerInfo creates the pod set only when it is neither in the
     * batch nor among the new sets, never replaces one, and afterwards the
     * pod has a set in one of the two.
     */
    lemma ContainerInfoSetsPodSet(containerMs: Set, pod: Pod, batchSets: SetMap, collectionTime: Time,
                                  newMs: SetMap, reg: MetricMap, stubOrders: seq<seq<ResourceName>>)
      requires pod.phase == PodRunning ==> |stubOrders| == |pod.containers|
      ensures var r := ContainerInfoSets(containerMs, pod, batchSets, collectionTime, newMs, reg, stubOrders);
              var podKey := OwnerPodKey(containerMs);
        && (podKey in batchSets || podKey in newMs ==> r == newMs)
        && (podKey !in batchSets && podKey !in newMs ==>
              podKey in r && r[podKey] == PodInfoSet(PodStub(containerMs, pod), pod))
        && (podKey in batchSets || podKey in r)
    {
    }

    /**
     * Creating the pod stub keeps every set already among the new sets;
     * only the pod's container sets change, by their status values, and
     * the workload-status set of an ownerless Running pod is rewritten.
     */
    lemma ContainerInfoSetsKeep(containerMs: Set, pod: Pod, batchSets: SetMap, collectionTime: Time,
                                newMs: SetMap, reg: MetricMap, stubOrders: seq<seq<ResourceName>>)
      requires pod.phase == PodRunning ==> |stubOrders| == |pod.containers|
      ensures var r := ContainerInfoSets(containerMs, pod, batchSets, collectionTime, newMs, reg, stubOrders);
              var ws := WorkloadStatusPodKey(pod.namespace, pod.name);
        forall k :: k in newMs ==>
          && k in r
          && ((!ContainerKeyOf(k, pod) && (k != ws || pod.phase != PodRunning || util.hasOwnerReference(pod.ownerReferences)))
              ==> r[k] == newMs[k])
    {
      var podKey := OwnerPodKey(containerMs);
      if podKey !in batchSets && podKey !in newMs {
        var stub := PodStub(containerMs, pod);
        PodInfoSetsKeep(stub, pod, batchSets, collectionTime, newMs[podKey := stub], reg, stubOrders);
      }
    }

    /** The spec loop of addContainerInfo. */
    method StampContainerSpec(key: ResourceKey, containerMs: Set, pod: Pod, ghost base: MetricMap)
      returns (msOut: Set, ghost order: seq<ResourceName>)
      requires Extends(base, registry.resourceRequestMetrics)
      modifies registry
      ensures Extends(base, registry.resourceRequestMetrics)
      ensures Extends(old(registry.resourceRequestMetrics), registry.resourceRequestMetrics)
      ensures ContainerKeyOf(key, pod) && ContainerNamed(pod.containers, key.container).Some? ==>
                Enumerates(order, ContainerNamed(pod.containers, key.container).value.resources.requests.Keys)
      ensures msOut == SpecStamped(key, containerMs, pod, base, order)
    {
      msOut := containerMs;
      order := [];
      var i := 0;
      while i < |pod.containers| && key != PodContainerKey(pod.namespace, pod.name, pod.containers[i].name)
        invariant 0 <= i <= |pod.containers|
        invariant forall j :: 0 <= j < i ==> key != PodContainerKey(pod.namespace, pod.name, pod.containers[j].name)
      {
        i := i + 1;
      }
      if i < |pod.containers| {
        var container := pod.containers[i];
        ContainerNamedFirst(pod.containers, container.name, i);
        ghost var reg := registry.resourceRequestMetrics;
        msOut, order := UpdateContainerResourcesAndLimits(registry, msOut, container);
        ExtendsKeepsResourceValues(containerMs.values, base, reg, container.resources, order);
        RegisteredExtends(reg, container.resources.requests.Keys);
        ExtendsTransitive(base, reg, registry.resourceRequestMetrics);
        if KeyContainerBaseImage !in msOut.labels {
          msOut := msOut.(labels := msOut.labels[KeyContainerBaseImage := container.image]);
        }
      }
    }

    /** The status loop of addContainerInfo. */
    method StampContainerStatus(key: ResourceKey, containerMs: Set, pod: Pod, collectionTime: Time)
      returns (msOut: Set)
      ensures msOut == StatusStamped(key, containerMs, pod, collectionTime)
    {
      msOut := containerMs;
      var statuses := pod.containerStatuses;
      var k := 0;
      while k < |statuses| && key != PodContainerKey(pod.namespace, pod.name, statuses[k].name)
        invariant 0 <= k <= |statuses|
        invariant forall j :: 0 <= j < k ==> key != PodContainerKey(pod.namespace, pod.name, statuses[j].name)
      {
        k := k + 1;
      }
      if k < |statuses| {
        var status := statuses[k];
        StatusNamedFirst(statuses, status.name, k);
        msOut := msOut.(values := msOut.values[MetricRestartCount := IntValue(status.restartCount)]);
        if pod.startTime.Some? {
          msOut := msOut.(entityCreateTime := pod.startTime);
        }
        msOut := AddContainerStatus(collectionTime, msOut, status);
      }
    }

    /** The pod stub addContainerInfo builds from a container set. */
    method NewPodStub(msOut: Set, pod: Pod) returns (podMs: Set)
      ensures podMs == PodStub(msOut, pod)
    {
      podMs := Set(PodStubLabels(msOut), map[], [], None, None);
      if pod.startTime.Some? {
        podMs := podMs.(entityCreateTime := pod.startTime);
      }
    }

    /** The tail of addContainerInfo: the pod stub, when the pod has no set yet. */
    method AddPodStub(msOut: Set, pod: Pod, batch: Batch, newMs: SetMap, ghost base: MetricMap)
      returns (newOut: SetMap, ghost stubOrders: seq<seq<ResourceName>>)
      requires Extends(base, registry.resourceRequestMetrics)
      modifies registry
      ensures Extends(base, registry.resourceRequestMetrics)
      ensures Extends(old(registry.resourceRequestMetrics), registry.resourceRequestMetrics)
      ensures pod.phase == PodRunning ==> EnumeratesRequests(pod.containers, stubOrders)
      ensures newOut == ContainerInfoSets(msOut, pod, batch.sets, batch.timestamp, newMs, base, stubOrders)
    {
      var namespace := At(msOut.labels, KeyNamespaceName);
      var podName := At(msOut.labels, KeyPodName);
      var podKey := PodKey(namespace, podName);
      assert podKey == OwnerPodKey(msOut);
      newOut := newMs;
      if podKey !in batch.sets {
        if podKey !in newMs {
          var podMs := NewPodStub(msOut, pod);
          newOut := newOut[podKey := podMs];
          var podOut;
          podOut, newOut, stubOrders := AddPodInfo(podMs, pod, batch, newOut, base);
          // The stub stored among the new sets is the very set addPodInfo stamps.
          newOut := newOut[podKey := podOut];
          return;
        }
      }
      stubOrders := RequestsEnumerationExists(pod.containers);
    }

    /** The pod a pod or container set names through its namespace and pod-name labels. */
    function PodOf(ms: Set): Result<Pod, PodError>
    {
      GetPod(At(ms.labels, KeyNamespaceName), At(ms.labels, KeyPodName))
    }

    /** A set the scan loop of Process enriches: a pod or a container set. */
    predicate Enriched(ms: Set)
    {
      SetType(ms) == MetricSetTypePod || SetType(ms) == MetricSetTypePodContainer
    }

    /**
     * What one step of the scan loop leaves under its key: nothing when the
     * set's pod cannot be got, the enriched set for a pod or container set,
     * and any other set as it is.
     */
    ghost function StepSet(key: ResourceKey, ms: Set, collectionTime: Time, reg: MetricMap, info: StepOrders)
      : Option<Set>
    {
      if !Enriched(ms) then Some(ms)
      else match PodOf(ms)
        case Err(_) => None
        case Ok(pod) =>
          if SetType(ms) == MetricSetTypePod then Some(PodInfoSet(ms, pod))
          else Some(ContainerInfoSet(key, ms, pod, collectionTime, reg, info.order))
    }

    /** What one step of the scan loop makes of the new sets. */
    ghost function StepNew(key: ResourceKey, ms: Set, sets: SetMap, collectionTime: Time, newMs: SetMap,
                           reg: MetricMap, info: StepOrders): SetMap
    {
      if !Enriched(ms) then newMs
      else match PodOf(ms)
        case Err(_) => newMs
        case Ok(pod) =>
          if SetType(ms) == MetricSetTypePod then
            PodInfoSets(ms, pod, sets, collectionTime, newMs, reg, FitOrders(info.podOrders, |pod.containers|))
          else
            ContainerInfoSets(ContainerInfoSet(key, ms, pod, collectionTime, reg, info.order), pod, sets,
                              collectionTime, newMs, reg, FitOrders(info.stubOrders, |pod.containers|))
    }

    /** The scan loop's step on a pod set whose pod is got. */
    lemma StepPod(key: ResourceKey, ms: Set, pod: Pod, sets: SetMap, collectionTime: Time, newMs: SetMap,
                  reg: MetricMap, info: StepOrders)
      requires Enriched(ms) && SetType(ms) == MetricSetTypePod && PodOf(ms) == Ok(pod)
      requires pod.phase == PodRunning ==> EnumeratesRequests(pod.containers, info.podOrders)
      ensures StepSet(key, ms, collectionTime, reg, info) == Some(PodInfoSet(ms, pod))
      ensures StepNew(key, ms, sets, collectionTime, newMs, reg, info)
              == PodInfoSets(ms, pod, sets, collectionTime, newMs, reg, info.podOrders)
    {
    }

    /** The scan loop's step on a container set whose pod is got. */
    lemma StepContainer(key: ResourceKey, ms: Set, pod: Pod, sets: SetMap, collectionTime: Time, newMs: SetMap,
                        reg: MetricMap, info: StepOrders)
      requires Enriched(ms) && SetType(ms) != MetricSetTypePod && PodOf(ms) == Ok(pod)
      requires pod.phase == PodRunning ==> EnumeratesRequests(pod.containers, info.stubOrders)
      ensures StepSet(key, ms, collectionTime, reg, info) == Some(ContainerInfoSet(key, ms, pod, collectionTime, reg, info.order))
      ensures StepNew(key, ms, sets, collectionTime, newMs, reg, info)
              == ContainerInfoSets(ContainerInfoSet(key, ms, pod, collectionTime, reg, info.order), pod, sets,
                                   collectionTime, newMs, reg, info.stubOrders)
    {
    }

    /** The batch's sets after the scan loop has visited the keys of `visit`, in that order. */
    ghost function LoopSets(visit: seq<ResourceKey>, sets0: SetMap, collectionTime: Time, reg: MetricMap,
                            infos: seq<StepOrders>): SetMap
      requires |infos| == |visit|
    {
      if visit == [] then sets0
      else
        var n := |visit| - 1;
        var prev := LoopSets(visit[..n], sets0, collectionTime, reg, infos[..n]);
        if visit[n] !in prev then prev
        else ApplyStep(prev, visit[n], StepSet(visit[n], prev[visit[n]], collectionTime, reg, infos[n]))
    }

    /** The new sets after the scan loop has visited the keys of `visit`. */
    ghost function LoopNew(visit: seq<ResourceKey>, sets0: SetMap, collectionTime: Time, reg: MetricMap,
                           infos: seq<StepOrders>): SetMap
      requires |infos| == |visit|
    {
      if visit == [] then map[]
      else
        var n := |visit| - 1;
        var prev := LoopSets(visit[..n], sets0, collectionTime, reg, infos[..n]);
        var prevNew := LoopNew(visit[..n], sets0, collectionTime, reg, infos[..n]);
        if visit[n] !in prev then prevNew
        else StepNew(visit[n], prev[visit[n]], prev, collectionTime, prevNew, reg, infos[n])
    }

    /** The scan loop visiting one more key. */
    lemma LoopStep(visit: seq<ResourceKey>, sets0: SetMap, collectionTime: Time, reg: MetricMap,
                   infos: seq<StepOrders>, key: ResourceKey, info: StepOrders)
      requires |infos| == |visit|
      requires key in LoopSets(visit, sets0, collectionTime, reg, infos)
      ensures var prev := LoopSets(visit, sets0, collectionTime, reg, infos); var ms := prev[key];
        && LoopSets(visit + [key], sets0, collectionTime, reg, infos + [info])
             == ApplyStep(prev, key, StepSet(key, ms, collectionTime, reg, info))
        && LoopNew(visit + [key], sets0, collectionTime, reg, infos + [info])
             == StepNew(key, ms, prev, collectionTime, LoopNew(visit, sets0, collectionTime, reg, infos), reg, info)
    {
      assert (visit + [key])[..|visit|] == visit;
      assert (infos + [info])[..|visit|] == infos;
    }

    /** addPodInfo only adds fitting keys. */
    lemma PodInfoSetsFit(podMs: Set, pod: Pod, batchSets: SetMap, collectionTime: Time, newMs: SetMap,
                         reg: MetricMap, orders: seq<seq<ResourceName>>)
      requires pod.phase == PodRunning ==> |orders| == |pod.containers|
      ensures AddsFitting(PodInfoSets(podMs, pod, batchSets, collectionTime, newMs, reg, orders), newMs, batchSets)
    {
      PodInfoSetsKeep(podMs, pod, batchSets, collectionTime, newMs, reg, orders);
      if pod.phase == PodRunning {
        PodInfoSetsDomain(podMs, pod, batchSets, collectionTime, newMs, reg, orders);
      }
    }

    /** addContainerInfo only adds fitting keys. */
    lemma ContainerInfoSetsFit(containerMs: Set, pod: Pod, batchSets: SetMap, collectionTime: Time,
                               newMs: SetMap, reg: MetricMap, stubOrders: seq<seq<ResourceName>>)
      requires pod.phase == PodRunning ==> |stubOrders| == |pod.containers|
      ensures AddsFitting(ContainerInfoSets(containerMs, pod, batchSets, collectionTime, newMs, reg, stubOrders),
                          newMs, batchSets)
    {
      var podKey := OwnerPodKey(containerMs);
      if podKey !in batchSets && podKey !in newMs {
        var stub := PodStub(containerMs, pod);
        PodInfoSetsFit(stub, pod, batchSets, collectionTime, newMs[podKey := stub], reg, stubOrders);
      }
    }

    /** So does every step of the scan loop. */
    lemma StepNewFit(key: ResourceKey, ms: Set, sets: SetMap, collectionTime: Time, newMs: SetMap,
                     reg: MetricMap, info: StepOrders)
      ensures AddsFitting(StepNew(key, ms, sets, collectionTime, newMs, reg, info), newMs, sets)
    {
      if Enriched(ms) && PodOf(ms).Ok? {
        var pod := PodOf(ms).value;
        if SetType(ms) == MetricSetTypePod {
          PodInfoSetsFit(ms, pod, sets, collectionTime, newMs, reg, FitOrders(info.podOrders, |pod.containers|));
        } else {
          ContainerInfoSetsFit(ContainerInfoSet(key, ms, pod, collectionTime, reg, info.order), pod, sets,
                               collectionTime, newMs, reg, FitOrders(info.stubOrders, |pod.containers|));
        }
      }
    }

    /** The scan loop leaves every key it has not visited as it was, and adds none. */
    lemma {:induction false} LoopSetsUnvisited(visit: seq<ResourceKey>, sets0: SetMap, collectionTime: Time,
                                               reg: MetricMap, infos: seq<StepOrders>)
      requires |infos| == |visit|
      ensures var r := LoopSets(visit, sets0, collectionTime, reg, infos);
        && r.Keys <= sets0.Keys
        && (forall k :: k in sets0 && k !in visit ==> k in r && r[k] == sets0[k])
    {
      if visit != [] {
        var n := |visit| - 1;
        LoopSetsUnvisited(visit[..n], sets0, collectionTime, reg, infos[..n]);
        assert forall k :: k !in visit ==> k !in visit[..n];
      }
    }

    /**
     * The scan loop touches each key only on its own visit: a visited key
     * holds what its step made of its original set.
     */
    lemma {:induction false} LoopSetsVisited(visit: seq<ResourceKey>, sets0: SetMap, collectionTime: Time,
                                             reg: MetricMap, infos: seq<StepOrders>, i: nat)
      requires |infos| == |visit| && i < |visit|
      requires forall i, j :: 0 <= i < j < |visit| ==> visit[i] != visit[j]
      requires visit[i] in sets0
      ensures var r := LoopSets(visit, sets0, collectionTime, reg, infos);
              var out := StepSet(visit[i], sets0[visit[i]], collectionTime, reg, infos[i]);
        (visit[i] in r <==> out.Some?) && (visit[i] in r ==> r[visit[i]] == out.value)
    {
      var n := |visit| - 1;
      var init, key := visit[..n], visit[n];
      var prev := LoopSets(init, sets0, collectionTime, reg, infos[..n]);
      var r := LoopSets(visit, sets0, collectionTime, reg, infos);
      if i < n {
        assert init[i] == visit[i] && infos[..n][i] == infos[i];
        LoopSetsVisited(init, sets0, collectionTime, reg, infos[..n], i);
        assert visit[i] != key;
        assert (visit[i] in r <==> visit[i] in prev) && (visit[i] in r ==> r[visit[i]] == prev[visit[i]]);
      } else {
        LoopSetsUnvisited(init, sets0, collectionTime, reg, infos[..n]);
        assert key !in init by {
          assert forall j :: 0 <= j < n ==> init[j] == visit[j];
        }
        assert r == ApplyStep(prev, key, StepSet(key, sets0[key], collectionTime, reg, infos[n]));
      }
    }

    /**
     * Every new set of the scan loop is a pod, container or workload-status
     * set, and only a workload-status set shares its key with a set left in
     * the batch.
     */
    lemma {:induction false} LoopNewFit(visit: seq<ResourceKey>, sets0: SetMap, collectionTime: Time, reg: MetricMap,
                                        infos: seq<StepOrders>)
      requires |infos| == |visit|
      ensures var s := LoopSets(visit, sets0, collectionTime, reg, infos);
        forall k :: k in LoopNew(visit, sets0, collectionTime, reg, infos) ==>
          !k.OtherKey? && (k.WorkloadStatusPodKey? || k !in s)
    {
      if visit != [] {
        var n := |visit| - 1;
        LoopNewFit(visit[..n], sets0, collectionTime, reg, infos[..n]);
        var prev := LoopSets(visit[..n], sets0, collectionTime, reg, infos[..n]);
        var prevNew := LoopNew(visit[..n], sets0, collectionTime, reg, infos[..n]);
        if visit[n] in prev {
          StepNewFit(visit[n], prev[visit[n]], prev, collectionTime, prevNew, reg, infos[n]);
        }
      }
    }

    /**
     * What Process leaves under the key `visit[i]` of the original batch,
     * when that is not a workload-status key (the only kind of key a new
     * set can share with a set kept in the batch): what its step made of
     * its set (StepSet: kept as it was unless it is a pod or container set,
     * dropped when its pod cannot be got, enriched otherwise), or, when the
     * step dropped it, at most a new set.
     */
    lemma ProcessOutcome(visit: seq<ResourceKey>, sets0: SetMap, collectionTime: Time, reg: MetricMap,
                         infos: seq<StepOrders>, i: nat)
      requires |infos| == |visit| && Enumerates(visit, sets0.Keys)
      requires i < |visit| && !visit[i].WorkloadStatusPodKey?
      ensures var s := LoopSets(visit, sets0, collectionTime, reg, infos);
              var n := LoopNew(visit, sets0, collectionTime, reg, infos);
              var k := visit[i];
              var out := StepSet(k, sets0[k], collectionTime, reg, infos[i]);
        && (out.Some? ==> k in s + n && (s + n)[k] == out.value)
        && (out.None? ==> k !in s && (k in s + n <==> k in n))
    {
      LoopNewFit(visit, sets0, collectionTime, reg, infos);
      LoopSetsVisited(visit, sets0, collectionTime, reg, infos, i);
    }

    /**
     * The scan loop never deletes or changes a set that is neither a pod nor
     * a container set, and deletes every pod or container set whose pod
     * cannot be got.
     */
    lemma ScanOutcome(visit: seq<ResourceKey>, sets0: SetMap, collectionTime: Time, reg: MetricMap,
                      infos: seq<StepOrders>, k: ResourceKey)
      requires |infos| == |visit| && Enumerates(visit, sets0.Keys)
      requires k in sets0
      ensures var s := LoopSets(visit, sets0, collectionTime, reg, infos);
        && (!Enriched(sets0[k]) ==> k in s && s[k] == sets0[k])
        && (Enriched(sets0[k]) && PodOf(sets0[k]).Err? ==> k !in s)
    {
      var i :| 0 <= i < |visit| && visit[i] == k;
      LoopSetsVisited(visit, sets0, collectionTime, reg, infos, i);
    }

    /** Process adds no set under a key of another kind than pod, container or workload status. */
    lemma ProcessNewKeys(visit: seq<ResourceKey>, sets0: SetMap, collectionTime: Time, reg: MetricMap,
                         infos: seq<StepOrders>)
      requires |infos| == |visit|
      ensures var final := LoopSets(visit, sets0, collectionTime, reg, infos) + LoopNew(visit, sets0, collectionTime, reg, infos);
        forall k :: k in final && k !in sets0 ==> !k.OtherKey?
    {
      LoopSetsUnvisited(visit, sets0, collectionTime, reg, infos);
      LoopNewFit(visit, sets0, collectionTime, reg, infos);
    }

    /**
     * A batch as the sources file it: a pod or container set under a pod or
     * container key names that key's pod in its namespace and pod-name
     * labels.
     */
    ghost predicate SetsNameTheirKeys(sets: SetMap)
    {
      forall k :: k in sets && (k.PodKey? || k.PodContainerKey?) && Enriched(sets[k]) ==>
        OwnerPodKey(sets[k]) == PodKey(k.namespace, k.pod)
    }

    /** The new sets only grow along the scan loop. */
    lemma {:induction false} LoopNewGrows(visit: seq<ResourceKey>, sets0: SetMap, collectionTime: Time, reg: MetricMap,
                                          infos: seq<StepOrders>, m: nat)
      requires |infos| == |visit| && m <= |visit|
      ensures LoopNew(visit[..m], sets0, collectionTime, reg, infos[..m]).Keys
              <= LoopNew(visit, sets0, collectionTime, reg, infos).Keys
    {
      if m < |visit| {
        var n := |visit| - 1;
        assert visit[..n][..m] == visit[..m] && infos[..n][..m] == infos[..m];
        LoopNewGrows(visit[..n], sets0, collectionTime, reg, infos[..n], m);
        var prev := LoopSets(visit[..n], sets0, collectionTime, reg, infos[..n]);
        var prevNew := LoopNew(visit[..n], sets0, collectionTime, reg, infos[..n]);
        if visit[n] in prev {
          StepNewFit(visit[n], prev[visit[n]], prev, collectionTime, prevNew, reg, infos[n]);
        }
      } else {
        assert visit[..m] == visit && infos[..m] == infos;
      }
    }

    /** The step of the scan loop on `visit[i]` sees that key's original set and a batch with no new key. */
    lemma LoopNewAt(visit: seq<ResourceKey>, sets0: SetMap, collectionTime: Time, reg: MetricMap,
                    infos: seq<StepOrders>, i: nat)
      requires |infos| == |visit| && i < |visit|
      requires forall a, b :: 0 <= a < b < |visit| ==> visit[a] != visit[b]
      requires visit[i] in sets0
      ensures var p := LoopSets(visit[..i], sets0, collectionTime, reg, infos[..i]);
        && p.Keys <= sets0.Keys
        && visit[i] in p && p[visit[i]] == sets0[visit[i]]
        && LoopNew(visit[..i + 1], sets0, collectionTime, reg, infos[..i + 1])
           == StepNew(visit[i], sets0[visit[i]], p, collectionTime,
                      LoopNew(visit[..i], sets0, collectionTime, reg, infos[..i]), reg, infos[i])
    {
      LoopSetsUnvisited(visit[..i], sets0, collectionTime, reg, infos[..i]);
      assert visit[i] !in visit[..i];
      assert visit[..i + 1][..i] == visit[..i] && infos[..i + 1][..i] == infos[..i];
      assert visit[..i + 1][i] == visit[i] && infos[..i + 1][i] == infos[i];
    }

    /**
     * A set of the batch stays in it when it is no pod or container set, or
     * its pod is got.
     */
    lemma KeptInBatch(visit: seq<ResourceKey>, sets0: SetMap, collectionTime: Time, reg: MetricMap,
                      infos: seq<StepOrders>, k: ResourceKey)
      requires |infos| == |visit| && Enumerates(visit, sets0.Keys)
      requires k in sets0 && (Enriched(sets0[k]) ==> PodOf(sets0[k]).Ok?)
      ensures k in LoopSets(visit, sets0, collectionTime, reg, infos)
    {
      var i :| 0 <= i < |visit| && visit[i] == k;
      LoopSetsVisited(visit, sets0, collectionTime, reg, infos, i);
    }

    /**
     * In a batch whose sets name their keys, the set under the pod key a
     * set `ms` names stays when `ms`'s pod is got: it names the same pod.
     */
    lemma NamedPodSetKept(visit: seq<ResourceKey>, sets0: SetMap, collectionTime: Time, reg: MetricMap,
                          infos: seq<StepOrders>, ms: Set, key: ResourceKey)
      requires |infos| == |visit| && Enumerates(visit, sets0.Keys) && SetsNameTheirKeys(sets0)
      requires key in sets0 && (key.PodKey? || key.PodContainerKey?)
      requires PodKey(key.namespace, key.pod) == OwnerPodKey(ms) && PodOf(ms).Ok?
      ensures key in LoopSets(visit, sets0, collectionTime, reg, infos)
    {
      if Enriched(sets0[key]) {
        assert OwnerPodKey(sets0[key]) == OwnerPodKey(ms);
        assert PodOf(sets0[key]) == PodOf(ms);
      }
      KeptInBatch(visit, sets0, collectionTime, reg, infos, key);
    }

    /**
     * The step on `visit[i]` sees that key's original set in a batch with
     * no key of its own, and every key it leaves among the new sets is
     * among them when the scan ends.
     */
    lemma StepKeysLast(visit: seq<ResourceKey>, sets0: SetMap, collectionTime: Time, reg: MetricMap,
                       infos: seq<StepOrders>, i: nat)
      requires |infos| == |visit| && i < |visit|
      requires forall a, b :: 0 <= a < b < |visit| ==> visit[a] != visit[b]
      requires visit[i] in sets0
      ensures var p := LoopSets(visit[..i], sets0, collectionTime, reg, infos[..i]);
              var pn := LoopNew(visit[..i], sets0, collectionTime, reg, infos[..i]);
        && p.Keys <= sets0.Keys
        && StepNew(visit[i], sets0[visit[i]], p, collectionTime, pn, reg, infos[i]).Keys
           <= LoopNew(visit, sets0, collectionTime, reg, infos).Keys
    {
      LoopNewAt(visit, sets0, collectionTime, reg, infos, i);
      LoopNewGrows(visit, sets0, collectionTime, reg, infos, i + 1);
    }

    /**
     * A step on a container set whose pod is got leaves a set under its
     * pod's key, in the batch or among the new sets.
     */
    lemma ContainerStepPodSet(key: ResourceKey, ms: Set, sets: SetMap, collectionTime: Time, newMs: SetMap,
                              reg: MetricMap, info: StepOrders)
      requires labelCopier.Avoids(StubLabelKeys)
      requires SetType(ms) == MetricSetTypePodContainer && PodOf(ms).Ok?
      ensures OwnerPodKey(ms) in sets || OwnerPodKey(ms) in StepNew(key, ms, sets, collectionTime, newMs, reg, info)
    {
      var pod := PodOf(ms).value;
      var cms := ContainerInfoSet(key, ms, pod, collectionTime, reg, info.order);
      ContainerInfoSetOwnLabels(key, ms, pod, collectionTime, reg, info.order);
      ContainerInfoSetsPodSet(cms, pod, sets, collectionTime, newMs, reg, FitOrders(info.stubOrders, |pod.containers|));
    }

    /**
     * A step on a Running pod's set leaves a set for each of its spec
     * containers, in the batch or among the new sets.
     */
    lemma PodStepContainerSets(key: ResourceKey, ms: Set, sets: SetMap, collectionTime: Time, newMs: SetMap,
                               reg: MetricMap, info: StepOrders, j: nat)
      requires SetType(ms) == MetricSetTypePod && PodOf(ms).Ok?
      requires PodOf(ms).value.phase == PodRunning && j < |PodOf(ms).value.containers|
      ensures var pod := PodOf(ms).value; var ck := PodContainerKey(pod.namespace, pod.name, pod.containers[j].name);
        ck in sets || ck in StepNew(key, ms, sets, collectionTime, newMs, reg, info)
    {
      var pod := PodOf(ms).value;
      PodInfoSetsCover(ms, pod, sets, collectionTime, newMs, reg, FitOrders(info.podOrders, |pod.containers|));
    }

    /**
     * Hierarchy completeness: after Process, every container set of the
     * batch whose pod is got is still there, and so is a set under its
     * pod's key: the batch's own pod set, or the stub addContainerInfo made.
     */
    lemma HierarchyComplete(visit: seq<ResourceKey>, sets0: SetMap, collectionTime: Time, reg: MetricMap,
                            infos: seq<StepOrders>, k: ResourceKey)
      requires |infos| == |visit| && Enumerates(visit, sets0.Keys)
      requires labelCopier.Avoids(StubLabelKeys) && SetsNameTheirKeys(sets0)
      requires k in sets0 && SetType(sets0[k]) == MetricSetTypePodContainer && PodOf(sets0[k]).Ok?
      ensures var final := LoopSets(visit, sets0, collectionTime, reg, infos) + LoopNew(visit, sets0, collectionTime, reg, infos);
        k in final && OwnerPodKey(sets0[k]) in final
    {
      var i :| 0 <= i < |visit| && visit[i] == k;
      var ms := sets0[k];
      var podKey := OwnerPodKey(ms);
      KeptInBatch(visit, sets0, collectionTime, reg, infos, k);
      StepKeysLast(visit, sets0, collectionTime, reg, infos, i);
      var p := LoopSets(visit[..i], sets0, collectionTime, reg, infos[..i]);
      var pn := LoopNew(visit[..i], sets0, collectionTime, reg, infos[..i]);
      ContainerStepPodSet(k, ms, p, collectionTime, pn, reg, infos[i]);
      if podKey in p {
        NamedPodSetKept(visit, sets0, collectionTime, reg, infos, ms, podKey);
      }
    }

    /**
     * After Process, every spec container of a Running pod whose set is in
     * the batch has a set: a scraped one kept in the batch or a stub.
     */
    lemma SpecContainersCovered(visit: seq<ResourceKey>, sets0: SetMap, collectionTime: Time, reg: MetricMap,
                                infos: seq<StepOrders>, k: ResourceKey, j: nat)
      requires |infos| == |visit| && Enumerates(visit, sets0.Keys)
      requires podLister.Consistent() && SetsNameTheirKeys(sets0)
      requires k in sets0 && SetType(sets0[k]) == MetricSetTypePod && PodOf(sets0[k]).Ok?
      requires PodOf(sets0[k]).value.phase == PodRunning && j < |PodOf(sets0[k]).value.containers|
      ensures var pod := PodOf(sets0[k]).value;
              var final := LoopSets(visit, sets0, collectionTime, reg, infos) + LoopNew(visit, sets0, collectionTime, reg, infos);
        PodContainerKey(pod.namespace, pod.name, pod.containers[j].name) in final
    {
      var i :| 0 <= i < |visit| && visit[i] == k;
      var ms := sets0[k];
      var pod := PodOf(ms).value;
      StepKeysLast(visit, sets0, collectionTime, reg, infos, i);
      var p := LoopSets(visit[..i], sets0, collectionTime, reg, infos[..i]);
      var pn := LoopNew(visit[..i], sets0, collectionTime, reg, infos[..i]);
      PodStepContainerSets(k, ms, p, collectionTime, pn, reg, infos[i], j);
      GetPodConsistent(At(ms.labels, KeyNamespaceName), At(ms.labels, KeyPodName));
      var ck := PodContainerKey(pod.namespace, pod.name, pod.containers[j].name);
      if ck in p {
        NamedPodSetKept(visit, sets0, collectionTime, reg, infos, ms, ck);
      }
    }

    /** Every workload-status set among `sets` is the one built for the pod its key names. */
    ghost predicate WorkloadStatusSetsOfTheirPods(sets: SetMap)
    {
      forall k :: k in sets && k.WorkloadStatusPodKey? ==>
        && GetPod(k.namespace, k.pod).Ok?
        && (var pod := GetPod(k.namespace, k.pod).value; var workload := workloadCache.getWorkloadForPod(pod);
            sets[k] == WorkloadStatusSet(pod, workload.0, workload.1))
    }

    /** addPodInfo, for a pod filed under its own namespace and name, keeps that true of the new sets. */
    lemma PodInfoSetsWorkloadStatuses(podMs: Set, pod: Pod, batchSets: SetMap, collectionTime: Time, newMs: SetMap,
                                      reg: MetricMap, orders: seq<seq<ResourceName>>)
      requires pod.phase == PodRunning ==> |orders| == |pod.containers|
      requires GetPod(pod.namespace, pod.name) == Ok(pod)
      requires WorkloadStatusSetsOfTheirPods(newMs)
      ensures WorkloadStatusSetsOfTheirPods(PodInfoSets(podMs, pod, batchSets, collectionTime, newMs, reg, orders))
    {
      PodInfoSetsKeep(podMs, pod, batchSets, collectionTime, newMs, reg, orders);
      if pod.phase == PodRunning {
        PodInfoSetsDomain(podMs, pod, batchSets, collectionTime, newMs, reg, orders);
        if !util.hasOwnerReference(pod.ownerReferences) {
          PodInfoSetsWorkloadStatus(podMs, pod, batchSets, collectionTime, newMs, reg, orders);
        }
      }
    }

    /** So does every step of the scan loop, through a consistent lister. */
    lemma StepNewWorkloadStatuses(key: ResourceKey, ms: Set, sets: SetMap, collectionTime: Time, newMs: SetMap,
                                  reg: MetricMap, info: StepOrders)
      requires podLister.Consistent() && WorkloadStatusSetsOfTheirPods(newMs)
      ensures WorkloadStatusSetsOfTheirPods(StepNew(key, ms, sets, collectionTime, newMs, reg, info))
    {
      if Enriched(ms) && PodOf(ms).Ok? {
        var pod := PodOf(ms).value;
        GetPodConsistent(At(ms.labels, KeyNamespaceName), At(ms.labels, KeyPodName));
        if SetType(ms) == MetricSetTypePod {
          PodInfoSetsWorkloadStatuses(ms, pod, sets, collectionTime, newMs, reg, FitOrders(info.podOrders, |pod.containers|));
        } else {
          var cms := ContainerInfoSet(key, ms, pod, collectionTime, reg, info.order);
          ContainerInfoSetsWorkloadStatuses(cms, pod, sets, collectionTime, newMs, reg,
                                            FitOrders(info.stubOrders, |pod.containers|));
        }
      }
    }

    /** addContainerInfo, for a pod filed under its own namespace and name, keeps it too. */
    lemma ContainerInfoSetsWorkloadStatuses(containerMs: Set, pod: Pod, batchSets: SetMap, collectionTime: Time,
                                            newMs: SetMap, reg: MetricMap, stubOrders: seq<seq<ResourceName>>)
      requires pod.phase == PodRunning ==> |stubOrders| == |pod.containers|
      requires GetPod(pod.namespace, pod.name) == Ok(pod)
      requires WorkloadStatusSetsOfTheirPods(newMs)
      ensures WorkloadStatusSetsOfTheirPods(ContainerInfoSets(containerMs, pod, batchSets, collectionTime, newMs,
                                                              reg, stubOrders))
    {
      var podKey := OwnerPodKey(containerMs);
      if podKey !in batchSets && podKey !in newMs {
        var stub := PodStub(containerMs, pod);
        PodInfoSetsWorkloadStatuses(stub, pod, batchSets, collectionTime, newMs[podKey := stub], reg, stubOrders);
      }
    }

    /** Through a consistent lister, every workload-status set the scan loop makes is its pod's. */
    lemma {:induction false} LoopNewWorkloadStatuses(visit: seq<ResourceKey>, sets0: SetMap, collectionTime: Time,
                                                     reg: MetricMap, infos: seq<StepOrders>)
      requires |infos| == |visit| && podLister.Consistent()
      ensures WorkloadStatusSetsOfTheirPods(LoopNew(visit, sets0, collectionTime, reg, infos))
    {
      if visit != [] {
        var n := |visit| - 1;
        LoopNewWorkloadStatuses(visit[..n], sets0, collectionTime, reg, infos[..n]);
        var prev := LoopSets(visit[..n], sets0, collectionTime, reg, infos[..n]);
        var prevNew := LoopNew(visit[..n], sets0, collectionTime, reg, infos[..n]);
        if visit[n] in prev {
          StepNewWorkloadStatuses(visit[n], prev[visit[n]], prev, collectionTime, prevNew, reg, infos[n]);
        }
      }
    }

    /**
     * After Process, a Running pod without owner whose set is in the batch
     * has exactly one workload-status set, under its key: the one
     * addWorkloadStatusMetric builds for it, with the cached workload.
     */
    lemma WorkloadStatusOfPod(visit: seq<ResourceKey>, sets0: SetMap, collectionTime: Time, reg: MetricMap,
                              infos: seq<StepOrders>, k: ResourceKey)
      requires |infos| == |visit| && Enumerates(visit, sets0.Keys) && podLister.Consistent()
      requires k in sets0 && SetType(sets0[k]) == MetricSetTypePod && PodOf(sets0[k]).Ok?
      requires PodOf(sets0[k]).value.phase == PodRunning
      requires !util.hasOwnerReference(PodOf(sets0[k]).value.ownerReferences)
      ensures var pod := PodOf(sets0[k]).value; var workload := workloadCache.getWorkloadForPod(pod);
              var ws := WorkloadStatusPodKey(pod.namespace, pod.name);
              var final := LoopSets(visit, sets0, collectionTime, reg, infos) + LoopNew(visit, sets0, collectionTime, reg, infos);
        ws in final && final[ws] == WorkloadStatusSet(pod, workload.0, workload.1)
    {
      var i :| 0 <= i < |visit| && visit[i] == k;
      var ms := sets0[k];
      var pod := PodOf(ms).value;
      StepKeysLast(visit, sets0, collectionTime, reg, infos, i);
      var p := LoopSets(visit[..i], sets0, collectionTime, reg, infos[..i]);
      var pn := LoopNew(visit[..i], sets0, collectionTime, reg, infos[..i]);
      PodInfoSetsWorkloadStatus(ms, pod, p, collectionTime, pn, reg, FitOrders(infos[i].podOrders, |pod.containers|));
      LoopNewWorkloadStatuses(visit, sets0, collectionTime, reg, infos);
      GetPodConsistent(At(ms.labels, KeyNamespaceName), At(ms.labels, KeyPodName));
    }

    /**
     * addContainerInfo. `containerMs` is the batch's set under `key`;
     * `msOut` is what it becomes. `base` plays the part it plays in
     * addPodInfo.
     */
    method AddContainerInfo(key: ResourceKey, containerMs: Set, pod: Pod, batch: Batch, newMs: SetMap,
                            ghost base: MetricMap)
      returns (msOut: Set, newOut: SetMap, ghost order: seq<ResourceName>, ghost stubOrders: seq<seq<ResourceName>>)
      requires Extends(base, registry.resourceRequestMetrics)
      modifies registry
      ensures Extends(base, registry.resourceRequestMetrics)
      ensures Extends(old(registry.resourceRequestMetrics), registry.resourceRequestMetrics)
      ensures ContainerKeyOf(key, pod) && ContainerNamed(pod.containers, key.container).Some? ==>
                Enumerates(order, ContainerNamed(pod.containers, key.container).value.resources.requests.Keys)
      ensures pod.phase == PodRunning ==> EnumeratesRequests(pod.containers, stubOrders)
      ensures msOut == ContainerInfoSet(key, containerMs, pod, batch.timestamp, base, order)
      ensures newOut == ContainerInfoSets(msOut, pod, batch.sets, batch.timestamp, newMs, base, stubOrders)
    {
      msOut, order := StampContainerSpec(key, containerMs, pod, base);
      msOut := StampContainerStatus(key, msOut, pod, batch.timestamp);
      var workload := workloadCache.getWorkloadForPod(pod);
      msOut := msOut.(labels := msOut.labels[KeyWorkloadName := workload.0][KeyWorkloadKind := workload.1]);
      msOut := msOut.(labels := msOut.labels[KeyPodId := pod.uid]);
      msOut := msOut.(labels := labelCopier.Copy(pod.labels, msOut.labels));
      ghost var reg := registry.resourceRequestMetrics;
      newOut, stubOrders := AddPodStub(msOut, pod, batch, newMs, base);
      ExtendsTransitive(old(registry.resourceRequestMetrics), reg, registry.resourceRequestMetrics);
    }

    /**
     * The enriching half of one step of the scan loop, for a pod or container
     * set `ms` under `key`: None when the pod cannot be got, otherwise the
     * enriched set; `newOut` is what becomes of the new sets.
     */
    method EnrichEntry(key: ResourceKey, ms: Set, batch: Batch, newMs: SetMap, ghost reg0: MetricMap)
      returns (out: Option<Set>, newOut: SetMap, ghost info: StepOrders)
      requires Enriched(ms)
      requires Extends(reg0, registry.resourceRequestMetrics)
      modifies registry
      ensures Extends(reg0, registry.resourceRequestMetrics)
      ensures out == StepSet(key, ms, batch.timestamp, reg0, info)
      ensures newOut == StepNew(key, ms, batch.sets, batch.timestamp, newMs, reg0, info)
    {
      var found := GetPod(At(ms.labels, KeyNamespaceName), At(ms.labels, KeyPodName));
      if found.Err? {
        return None, newMs, StepOrders([], [], []);
      }
      var pod := found.value;
      if SetType(ms) == MetricSetTypePod {
        var podOut; ghost var orders;
        podOut, newOut, orders := AddPodInfo(ms, pod, batch, newMs, reg0);
        out, info := Some(podOut), StepOrders(orders, [], []);
        StepPod(key, ms, pod, batch.sets, batch.timestamp, newMs, reg0, info);
      } else {
        var msOut; ghost var order, stubOrders;
        msOut, newOut, order, stubOrders := AddContainerInfo(key, ms, pod, batch, newMs, reg0);
        out, info := Some(msOut), StepOrders([], order, stubOrders);
        StepContainer(key, ms, pod, batch.sets, batch.timestamp, newMs, reg0, info);
      }
    }

    /**
     * One step of the scan loop of Process: the set under `key` is dropped
     * when its pod cannot be got, enriched when it is a pod or container
     * set, and left alone otherwise. `reg0` is the registry Process started
     * with.
     */
    method ProcessEntry(key: ResourceKey, batch: Batch, newMs: SetMap, ghost reg0: MetricMap)
      returns (newOut: SetMap, ghost info: StepOrders)
      requires key in batch.sets
      requires Extends(reg0, registry.resourceRequestMetrics)
      modifies batch, registry
      ensures Extends(reg0, registry.resourceRequestMetrics)
      ensures batch.timestamp == old(batch.timestamp)
      ensures batch.sets == ApplyStep(old(batch.sets), key, StepSet(key, old(batch.sets)[key], batch.timestamp, reg0, info))
      ensures newOut == StepNew(key, old(batch.sets)[key], old(batch.sets), batch.timestamp, newMs, reg0, info)
    {
      var ms := batch.sets[key];
      if !Enriched(ms) {
        info := StepOrders([], [], []);
        assert batch.sets == ApplyStep(batch.sets, key, Some(ms));
        return newMs, info;
      }
      var out;
      out, newOut, info := EnrichEntry(key, ms, batch, newMs, reg0);
      match out {
        case None => batch.sets := batch.sets - {key};
        case Some(enriched) => batch.sets := batch.sets[key := enriched];
      }
    }

    /**
     * The scan loop of Process: visits every set of the batch once, in the
     * order `visit`, collecting the new sets in `newMs`.
     */
    method ScanSets(batch: Batch) returns (newMs: SetMap, ghost visit: seq<ResourceKey>, ghost infos: seq<StepOrders>)
      modifies batch, registry
      ensures batch.timestamp == old(batch.timestamp)
      ensures Enumerates(visit, old(batch.sets).Keys) && |infos| == |visit|
      ensures batch.sets == LoopSets(visit, old(batch.sets), batch.timestamp, old(registry.resourceRequestMetrics), infos)
      ensures newMs == LoopNew(visit, old(batch.sets), batch.timestamp, old(registry.resourceRequestMetrics), infos)
      ensures Extends(old(registry.resourceRequestMetrics), registry.resourceRequestMetrics)
    {
      ghost var sets0 := batch.sets;
      ghost var reg0 := registry.resourceRequestMetrics;
      newMs := map[];
      var remaining := batch.sets.Keys;
      visit, infos := [], [];
      while remaining != {}
        invariant remaining <= sets0.Keys
        invariant Enumerates(visit, sets0.Keys - remaining) && |infos| == |visit|
        invariant batch.timestamp == old(batch.timestamp)
        invariant batch.sets == LoopSets(visit, sets0, batch.timestamp, reg0, infos)
        invariant newMs == LoopNew(visit, sets0, batch.timestamp, reg0, infos)
        invariant forall k :: k in remaining ==> k in batch.sets && batch.sets[k] == sets0[k]
        invariant Extends(reg0, registry.resourceRequestMetrics)
        decreases remaining
      {
        var key :| key in remaining;
        EnumeratesStep(visit, sets0.Keys, remaining, key);
        ghost var info;
        newMs, info := ProcessEntry(key, batch, newMs, reg0);
        LoopStep(visit, sets0, batch.timestamp, reg0, infos, key, info);
        visit := visit + [key];
        infos := infos + [info];
        remaining := remaining - {key};
      }
      assert sets0.Keys - remaining == sets0.Keys;
    }

    /** The merge loop of Process: every new set is put into the batch, over any set under its key. */
    method MergeSets(batch: Batch, newMs: SetMap)
      modifies batch
      ensures batch.timestamp == old(batch.timestamp)
      ensures batch.sets == old(batch.sets) + newMs
    {
      var pending := newMs.Keys;
      while pending != {}
        invariant pending <= newMs.Keys
        invariant batch.timestamp == old(batch.timestamp)
        invariant batch.sets == old(batch.sets) + map k | k in newMs.Keys - pending :: newMs[k]
        decreases pending
      {
        var k :| k in pending;
        batch.sets := batch.sets[k := newMs[k]];
        pending := pending - {k};
      }
      assert (map k | k in newMs.Keys - pending :: newMs[k]) == newMs;
    }

    /**
     * Process: every set of the batch is visited once, in some order
     * `visit`; the new sets are then merged into the batch, overwriting any
     * set under the same key. The result is the batch itself, and there is
     * never an error.
     */
    method Process(batch: Batch) returns (r: Batch, err: Option<PodError>, ghost visit: seq<ResourceKey>,
                                          ghost infos: seq<StepOrders>)
      modifies batch, registry
      ensures r == batch && err == None
      ensures batch.timestamp == old(batch.timestamp)
      ensures Enumerates(visit, old(batch.sets).Keys) && |infos| == |visit|
      ensures batch.sets == LoopSets(visit, old(batch.sets), batch.timestamp, old(registry.resourceRequestMetrics), infos)
                          + LoopNew(visit, old(batch.sets), batch.timestamp, old(registry.resourceRequestMetrics), infos)
      ensures Extends(old(registry.resourceRequestMetrics), registry.resourceRequestMetrics)
    {
      var newMs;
      newMs, visit, infos := ScanSets(batch);
      MergeSets(batch, newMs);
      r, err := batch, None;
    }
  }
}
