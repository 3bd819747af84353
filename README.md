# Pod-based enricher and label taxonomy, in Dafny

This project models two parts of the collector of a Kubernetes telemetry
agent.

- **The pod-based enricher** (`collector/plugins/processors/pod_based_enricher.go`).
  This processor stage walks a batch of metric sets keyed by resource key.
  - For every `pod` and `pod_container` set it looks up the pod through the
    pod lister. A set whose pod cannot be got is deleted.
  - It stamps pod metadata onto the remaining sets: pod id, the workload,
    copied pod labels, start time, resource requests and limits, restart
    count, and container and phase status values.
  - It synthesises the sets the scrape did not produce:
    - a pod stub for a container whose pod set is missing;
    - a container stub for every spec container of a Running pod that has
      no set;
    - a workload-status set for a Running pod without owner.
  - After the scan it merges the new sets into the batch.
- **The label taxonomy** (`collector/internal/metrics/labels.go`). This is
  the catalog of label descriptors and set-type names, and the accessors
  that copy, concatenate and index descriptor lists.

Files:

- `wrappers.dfy`: `Option` and `Result`.
- `metrics.dfy`: the batch data model.
  - `Set` is a value.
  - `ResourceKey` has one constructor per key kind (see "Left out" for
    what that assumes of the metrics package).
  - `Batch` is a class whose `sets` map Process changes in place.
  - `Registry` is the package-level `ResourceRequestMetrics` map, as an
    object the enricher updates.
- `kube_api.dfy`: the view of a Pod the enricher reads. A zero `StartTime`
  is `None`, and time is integer nanoseconds.
- `collaborators.dfy`: the collaborators, as values the enricher is built
  with. These are the pod lister's cache, the workload cache, the label
  copier (`Copy(in, out) = out + contribution(in)`), `ConvertPodPhase`,
  `HasOwnerReference` and `NewContainerStateInfo`.
- `labels.dfy`: the catalog and its accessors. The accessors are methods
  over arrays that follow Go's `make` and positional `copy`, plus the
  key-indexing loop.
- `pod_based_enricher.dfy`: the enricher.
  - Each Go function is a method with the same branches and loops. Each
    method is proved against a specification function: `ResourceValues`,
    `StatusUpdated`, `WorkloadStatusSet`, `PodInfoSet`/`PodInfoSets`,
    `ContainerInfoSet`/`ContainerInfoSets`, and `LoopSets`/`LoopNew` for the
    scan loop of Process.
  - Lemmas about those functions state what the code promises.
  - Go mutates sets through pointers. Here a method returns the updated set
    and the caller writes it back under its key.
  - Go's map iteration order is a ghost out-parameter (`order`, `orders`,
    `visit`). Every result is stated for whichever order the run took.
  - The new sets are specified against the registry as it was when
    `Process` started (`base`). This is sound because registering a
    resource never changes the name of an already registered one
    (`Extends`).

Where the code and its prose description differ, the model follows the
code. For example, `updateContainerStatus` appends only the container
status value, not the restart count, and only to sets among the new sets.
The restart count comes only from `addContainerInfo` (lines 101-103), so a
container stub never has one.

## Model

| member | source | states |
|---|---|---|
| Labels.SetTypesDistinct | collector/internal/metrics/labels.go:27-32 | the six set-type names are pairwise distinct (in particular `pod` differs from `pod_container`) |
| Labels.CopiedInto | collector/internal/metrics/labels.go:226-231 | Go's slice `copy` from a start index: the first min(room, len) slots take the source, every other slot keeps its value, length unchanged |
| Labels.Copy | collector/internal/metrics/labels.go:226-231 | the positional copy on an array returns min(room, len) and leaves exactly `CopiedInto` of the old contents |
| Labels.MakeDescriptors | collector/internal/metrics/labels.go:209 | `make` yields a fresh array of n zero descriptors |
| Labels.CommonLabels | collector/internal/metrics/labels.go:208-212 | a fresh copy of the catalog list: exactly [nodename, hostname, host_id], element by element |
| Labels.ContainerLabels | collector/internal/metrics/labels.go:214-218 | exactly [container_name, container_base_image], same length and order as the catalog list |
| Labels.PodLabels | collector/internal/metrics/labels.go:220-224 | exactly [pod_name, pod_id, namespace_id, labels], same length and order as the catalog list |
| Labels.MetricLabels | collector/internal/metrics/labels.go:226-231 | length 2, and because both copies start at index 0 the result is [custom_metric_name, zero descriptor] |
| Labels.MetricLabelsDropsResourceId | collector/internal/metrics/labels.go:226-231 | the as-written result does not contain resource_id, and its second slot is the zero descriptor |
| Labels.MetricLabelsCorrected | collector/internal/metrics/labels.go:226-231 | copying the custom labels after the metric labels yields their concatenation [resource_id, custom_metric_name] |
| Labels.SupportedLabels | collector/internal/metrics/labels.go:233-237 | common ++ pod ++ (as-written) metric labels: nine descriptors, the first three common, the next four pod, the last the zero descriptor |
| Labels.ByKeyDomain | collector/internal/metrics/labels.go:239-245 | the map built by inserting each descriptor under its key has exactly the list's keys |
| Labels.ByKeyDistinct | collector/internal/metrics/labels.go:239-245 | with distinct keys every descriptor is found under its own key and the map has one entry per descriptor |
| Labels.IndexByKey | collector/internal/metrics/labels.go:241-243 | the insertion loop builds `ByKey` of the list (a later descriptor wins a shared key) |
| Labels.GcmLabelsDistinct | collector/internal/metrics/labels.go:190-200 | the nine GCM descriptors have pairwise distinct keys |
| Labels.GcmLabelsKeysWithin | collector/internal/metrics/labels.go:190-200 | every GCM key is one of the nine listed keys |
| Labels.GcmLabelsKeysCovered | collector/internal/metrics/labels.go:190-200 | every one of the nine listed keys is a GCM key |
| Labels.GcmLabelsKeys | collector/internal/metrics/labels.go:190-200 | distinct keys, and the key set is exactly the nine listed keys |
| Labels.GcmNodeAutoscalingLabelsKeys | collector/internal/metrics/labels.go:202-206 | distinct keys, exactly {resource_id, resource_type, hostname} |
| Labels.GcmLabels | collector/internal/metrics/labels.go:239-245 | exactly nine entries, domain the nine GCM keys, each descriptor under its own key |
| Labels.GcmNodeAutoscalingLabels | collector/internal/metrics/labels.go:246-252 | domain exactly {resource_id, resource_type, hostname} with the GCE descriptors and hostname; LabelGCEResourceID and LabelResourceID share the key but differ |
| Processors.IntValue | collector/plugins/processors/pod_based_enricher.go:352-357 | an int64-typed value carrying the given integer |
| Processors.AddLabeledIntMetric | collector/plugins/processors/pod_based_enricher.go:340-350 | appends exactly one labeled int value (name, labels, value) after the unchanged earlier ones; labels, values and times unchanged |
| Processors.RequestNameMap | collector/plugins/processors/pod_based_enricher.go:247-263 | each requested resource is reported under its registered metric's name, or `r + "/request"` when unregistered |
| Processors.ApplyRequestsKeys | collector/plugins/processors/pod_based_enricher.go:246-269 | the request loop adds exactly the metric names of the visited resources |
| Processors.ApplyRequestsOther | collector/plugins/processors/pod_based_enricher.go:246-269 | a name no visited resource is reported under keeps its presence and value |
| Processors.ApplyRequestsSole | collector/plugins/processors/pod_based_enricher.go:246-269 | a resource whose name no other visited resource shares ends with its own amount |
| Processors.ApplyRequestsSnoc | collector/plugins/processors/pod_based_enricher.go:264-268 | visiting one more resource writes its amount (cpu in milli-units) under its name and nothing else |
| Processors.ApplyRequestsAt | collector/plugins/processors/pod_based_enricher.go:246-269 | with pairwise distinct names, a name is present iff it was or some resource maps to it; then it holds that resource's amount, otherwise its old value |
| Processors.ApplyRequestsOrderIndependent | collector/plugins/processors/pod_based_enricher.go:246 | with pairwise distinct names, any two visiting orders of the requests map give the same values |
| Processors.Registered | collector/plugins/processors/pod_based_enricher.go:252-263 | the registry after a set of resources is seen: old keys plus the seen ones |
| Processors.NewRequestNameIsNotRestartCount | collector/plugins/processors/pod_based_enricher.go:255 | `r + "/request"` is never the restart-count metric name |
| Processors.RegisteredValid | collector/plugins/processors/pod_based_enricher.go:252-263 | registering new resources preserves the registry invariant |
| Processors.RequestNamesAvoidRestartCount | collector/plugins/processors/pod_based_enricher.go:246-268 | in a valid registry no request is reported under the restart-count name |
| Processors.EnumeratedNames | collector/plugins/processors/pod_based_enricher.go:246 | a run of the map range visits every resource's name |
| Processors.PrimaryWritesKeys | collector/plugins/processors/pod_based_enricher.go:273-298 | the writes after the loop add exactly the six primary request and limit metrics |
| Processors.PrimaryWritesOther | collector/plugins/processors/pod_based_enricher.go:273-298 | they leave every other metric as it was |
| Processors.PrimaryWritesRequests | collector/plugins/processors/pod_based_enricher.go:273-281 | an unrequested primary resource's request is 0, a requested one keeps the loop's value |
| Processors.PrimaryRequestNames | collector/plugins/processors/pod_based_enricher.go:247-268 | in a valid registry cpu, memory and ephemeral storage are reported under the primary request names |
| Processors.ResourceValuesKeys | collector/plugins/processors/pod_based_enricher.go:243-299 | the update adds exactly every requested resource's metric name and the six primary metrics |
| Processors.ResourceValuesLimits | collector/plugins/processors/pod_based_enricher.go:283-298 | primary limits are always written: cpu in milli-units, others whole, 0 when absent |
| Processors.SoleRequestApplied | collector/plugins/processors/pod_based_enricher.go:246-269 | a resource that shares its metric name with no other request ends the loop with its amount |
| Processors.ResourceValuesRequests | collector/plugins/processors/pod_based_enricher.go:264-281 | primary requests are always present: 0 when unrequested; when no other request shares its metric name (SoleRequest), the requested amount (cpu in milli-units) |
| Processors.ResourceValuesOtherRequest | collector/plugins/processors/pod_based_enricher.go:246-269 | any other request whose metric name no other request shares (SoleRequest) shows up under that name with its whole-unit amount |
| Processors.ResourceValuesKeepRestartCount | collector/plugins/processors/pod_based_enricher.go:243-299 | the resource update never writes or removes the restart count |
| Processors.RegisteredStep | collector/plugins/processors/pod_based_enricher.go:247-263 | a visited resource is looked up; a known one keeps its metric and leaves the registry as is, an unknown one gets `RequestMetricFor` |
| Processors.RegisteredExtends | collector/plugins/processors/pod_based_enricher.go:252-263 | registering only adds `RequestMetricFor` entries and keeps existing ones |
| Processors.ExtendsKeepsNames | collector/plugins/processors/pod_based_enricher.go:247-263 | a later registration changes no resource's request metric name |
| Processors.ExtendsKeepsNameMap | collector/plugins/processors/pod_based_enricher.go:247-263 | so the name map of any requests is the same against an older registry |
| Processors.ExtendsKeepsResourceValues | collector/plugins/processors/pod_based_enricher.go:243-299 | and so are the values the resource update leaves |
| Processors.ExtendsValid | collector/plugins/processors/pod_based_enricher.go:252-263 | an extended valid registry stays valid |
| Processors.UpdateContainerResourcesAndLimits | collector/plugins/processors/pod_based_enricher.go:243-299 | visits every request once, registers exactly the unseen resources with `r + "/request"`, and leaves `ResourceValues` of the old registry |
| Processors.FirstUnavailableNone | collector/plugins/processors/pod_based_enricher.go:221-235 | there is no failure to report iff no container is not-ready and waiting or terminated |
| Processors.FirstUnavailableSome | collector/plugins/processors/pod_based_enricher.go:221-235 | the failure reported is that of the first such container (waiting reason first, else terminated) |
| Processors.WorkloadLabels | collector/plugins/processors/pod_based_enricher.go:210-237 | whatever available and desired labels were read first, the loop and the two final writes yield the `WorkloadStatusSet` labels |
| Processors.WorkloadStatusAvailability | collector/plugins/processors/pod_based_enricher.go:209-241 | available is "0" or "1", "1" iff no container is unavailable; desired "1"; namespace and workload labels; one workload_status value equal to available; no values |
| Processors.WorkloadStatusFailure | collector/plugins/processors/pod_based_enricher.go:221-235 | available "1" has no reason or message; "0" carries those of the first unavailable container |
| Processors.FirstNamed | collector/plugins/processors/pod_based_enricher.go:91-110 | the element found (a spec container or a container status) has the name and is in the list; none iff no element has the name |
| Processors.ContainerStubsStep | collector/plugins/processors/pod_based_enricher.go:176-205 | one more container adds its stub unless its key is in the batch or already present |
| Processors.ContainerStubsKeep | collector/plugins/processors/pod_based_enricher.go:177-183 | the stub loop never overwrites or removes a present set |
| Processors.ContainerStubsCover | collector/plugins/processors/pod_based_enricher.go:176-205 | every container whose key is not in the batch ends with a set |
| Processors.ContainerStubsFrom | collector/plugins/processors/pod_based_enricher.go:185-204 | every added set is one of the built stubs |
| Processors.ContainerStubsDomain | collector/plugins/processors/pod_based_enricher.go:177-204 | every added key is some container's key and is not in the batch |
| Processors.ContainerStubsAbsent | collector/plugins/processors/pod_based_enricher.go:177-204 | a name no container carries gets no set |
| Processors.ContainerStubsFirstAt | collector/plugins/processors/pod_based_enricher.go:177-204 | the first container of a name whose key is in neither map gets its own stub |
| Processors.CopyKeeps | collector/plugins/processors/pod_based_enricher.go:202 | a copy whose contribution avoids some keys leaves those labels unchanged |
| Processors.FirstNamedAt | collector/plugins/processors/pod_based_enricher.go:91-110 | a break-at-first-match loop settles on the first element with the name |
| Processors.ContainerNamedFirst | collector/plugins/processors/pod_based_enricher.go:91-99 | the break-at-first-match loop settles on the first container with the name |
| Processors.StatusNamedFirst | collector/plugins/processors/pod_based_enricher.go:101-110 | the same for the status loop |
| Processors.ApplyStep | collector/plugins/processors/pod_based_enricher.go:50-56 | a step deletes its key (pod not got) or stores its set there, and changes no other key |
| Processors.PodBasedEnricher.constructor | collector/plugins/processors/pod_based_enricher.go:359-366 | the enricher holds the pod lister, workload cache, label copier and collection interval it is built with, and the shared request registry |
| Processors.PodBasedEnricher.GetPod | collector/plugins/processors/pod_based_enricher.go:77-88 | a pod iff the lister has a non-nil pod; the lister's error when absent; "cannot find pod definition" for a nil pod |
| Processors.PodBasedEnricher.GetPodConsistent | collector/plugins/processors/pod_based_enricher.go:77-88 | through a consistent lister the pod got has the namespace and name looked up |
| Processors.PodBasedEnricher.FindContainerState | collector/plugins/processors/pod_based_enricher.go:310-322 | current state without a termination record or when collection minus interval is strictly after the finish; otherwise (equal or later) the last-termination state |
| Processors.PodBasedEnricher.FindContainerStateSettles | collector/plugins/processors/pod_based_enricher.go:315-319 | once the termination is older than the previous collection, every later collection reports the current state |
| Processors.PodBasedEnricher.StatusValue | collector/plugins/processors/pod_based_enricher.go:301-308 | the status value is named `status`, tagged with the state info's tags and valued with its code |
| Processors.PodBasedEnricher.AddContainerStatus | collector/plugins/processors/pod_based_enricher.go:301-308 | appends exactly that status value |
| Processors.PodBasedEnricher.StatusValuesNone | collector/plugins/processors/pod_based_enricher.go:324-337 | a container no status names receives no status value |
| Processors.PodBasedEnricher.StatusValuesUnique | collector/plugins/processors/pod_based_enricher.go:324-337 | with distinct status names a container receives exactly its own status value |
| Processors.PodBasedEnricher.StatusUpdated | collector/plugins/processors/pod_based_enricher.go:324-337 | updateContainerStatus adds and removes no set |
| Processors.PodBasedEnricher.StatusUpdatedValues | collector/plugins/processors/pod_based_enricher.go:324-337 | status back-filling never touches metric values (so no restart count) |
| Processors.PodBasedEnricher.StatusUpdatedNone | collector/plugins/processors/pod_based_enricher.go:325-327 | without statuses nothing changes |
| Processors.PodBasedEnricher.StatusUpdatedStep | collector/plugins/processors/pod_based_enricher.go:328-336 | one more status appends its value to its container's set when present, else changes nothing |
| Processors.PodBasedEnricher.UpdateContainerStatus | collector/plugins/processors/pod_based_enricher.go:324-337 | the loop leaves exactly `StatusUpdated` of its input |
| Processors.PodBasedEnricher.AddWorkloadStatusMetric | collector/plugins/processors/pod_based_enricher.go:209-241 | stores `WorkloadStatusSet` of the pod and the pod set's workload under `WorkloadStatusPodKey(ns, pod)`, nothing else |
| Processors.PodBasedEnricher.PhaseValue | collector/plugins/processors/pod_based_enricher.go:163 | the phase value is named `phase`, labelled with the phase string and valued with ConvertPodPhase |
| Processors.PodBasedEnricher.StubSets | collector/plugins/processors/pod_based_enricher.go:176-205 | one stub per container, built from the i-th visiting order |
| Processors.PodBasedEnricher.StubSetsValues | collector/plugins/processors/pod_based_enricher.go:185-203 | in a valid registry every stub has the six primary metrics and no restart count |
| Processors.PodBasedEnricher.StubSetLabels | collector/plugins/processors/pod_based_enricher.go:185-202 | a stub is typed pod_container, names pod and container, has the image and uid, inherits node, host and workload labels from the pod set, has no labeled values, and is created at the pod set's collection start |
| Processors.PodBasedEnricher.StubSetKeepsStubLabels | collector/plugins/processors/pod_based_enricher.go:202 | a copier that avoids the stub keys leaves those labels as built |
| Processors.PodBasedEnricher.StubSetValues | collector/plugins/processors/pod_based_enricher.go:203 | a stub reports the primary requests and limits and no restart count |
| Processors.PodBasedEnricher.PodInfoSetContent | collector/plugins/processors/pod_based_enricher.go:148-168 | a non-Running pod's set is unchanged; a Running one gets workload labels, the phase value appended, the start time when known, values unchanged, and (copier avoiding own keys) pod_id with type, identity, node and host kept |
| Processors.PodBasedEnricher.AddContainerStubs | collector/plugins/processors/pod_based_enricher.go:176-205 | the stub loop leaves exactly `ContainerStubs` with the stubs built for the order its requests were visited in |
| Processors.PodBasedEnricher.NewContainerStub | collector/plugins/processors/pod_based_enricher.go:185-203 | builds the stub labels, copies the pod labels, then sets the resource values: `StubSet` |
| Processors.PodBasedEnricher.StampRunningPod | collector/plugins/processors/pod_based_enricher.go:154-168 | the stamps of a Running pod's own set: `RunningPodSet` |
| Processors.PodBasedEnricher.PodInfoSetsKeep | collector/plugins/processors/pod_based_enricher.go:148-207 | non-Running changes no new set; Running keeps every present set, changing a container set of the pod only by appended status values, and no other set but an ownerless pod's workload status |
| Processors.PodBasedEnricher.PodInfoSetsCover | collector/plugins/processors/pod_based_enricher.go:176-205 | for a Running pod every spec container has a set in the batch or among the new sets |
| Processors.PodBasedEnricher.PodInfoSetsWorkloadStatus | collector/plugins/processors/pod_based_enricher.go:170-173 | an ownerless Running pod gets its workload-status set, with the cached workload |
| Processors.PodBasedEnricher.PodInfoSetsDomain | collector/plugins/processors/pod_based_enricher.go:170-205 | every added set is the ownerless pod's workload status or a container's set under a key not in the batch |
| Processors.PodBasedEnricher.PodInfoSetsStub | collector/plugins/processors/pod_based_enricher.go:176-206 | a container whose key is in neither map gets its stub with its status values appended |
| Processors.PodBasedEnricher.PodInfoSetsStubsHaveNoRestartCount | collector/plugins/processors/pod_based_enricher.go:185-206 | every container set addPodInfo adds has the primary metrics and no restart count |
| Processors.PodBasedEnricher.AddPodInfo | collector/plugins/processors/pod_based_enricher.go:148-207 | returns early for a non-Running pod (registry unchanged); the pod set becomes `PodInfoSet`, the new sets `PodInfoSets` |
| Processors.PodBasedEnricher.ContainerInfoSetLabels | collector/plugins/processors/pod_based_enricher.go:91-117 | addContainerInfo's stamps touch the labels only as `ContainerInfoLabels` says |
| Processors.PodBasedEnricher.ContainerInfoLabelsContent | collector/plugins/processors/pod_based_enricher.go:94-117 | copied pod labels win; workload labels and pod_id are added; the base image is written only when absent and a spec container matches; other labels stay |
| Processors.PodBasedEnricher.SpecStampedLabels | collector/plugins/processors/pod_based_enricher.go:94-96 | the spec loop adds the base image only when absent and a container matches |
| Processors.PodBasedEnricher.ContainerInfoSetOwnLabels | collector/plugins/processors/pod_based_enricher.go:112-117 | with a copier avoiding own keys: pod_id and workload are the pod's, type, identity, node and host labels are kept, so the owner pod key is unchanged |
| Processors.PodBasedEnricher.PodStampedOwnLabels | collector/plugins/processors/pod_based_enricher.go:112-117 | the same for the workload, pod_id and copy stamps alone |
| Processors.PodBasedEnricher.SpecStampedIdentity | collector/plugins/processors/pod_based_enricher.go:91-99 | the spec loop writes no identity, node or host label |
| Processors.PodBasedEnricher.ContainerInfoSetValues | collector/plugins/processors/pod_based_enricher.go:91-110 | values gain the matched container's request metrics and primary metrics, and the restart count of the matched status; unchanged when nothing matches |
| Processors.PodBasedEnricher.ContainerInfoSetStatus | collector/plugins/processors/pod_based_enricher.go:101-110 | a matched status appends its value and sets the start time when known; otherwise labeled values and times stay |
| Processors.PodBasedEnricher.ContainerInfoSetAgreesWithStatusUpdate | collector/plugins/processors/pod_based_enricher.go:101-110 | with distinct status names, a scraped container set gets exactly the status values updateContainerStatus gives a stub |
| Processors.PodBasedEnricher.PodStubContent | collector/plugins/processors/pod_based_enricher.go:128-141 | the pod stub has exactly type pod, namespace, pod name, nodename, hostname, host_id from the container set, no values, the pod's start time, and the container set's owner key |
| Processors.PodBasedEnricher.ContainerInfoSetsPodSet | collector/plugins/processors/pod_based_enricher.go:119-145 | nothing changes when the pod key is in the batch or the new sets; otherwise the key gets the (enriched) stub; afterwards the pod has a set in one of them |
| Processors.PodBasedEnricher.ContainerInfoSetsKeep | collector/plugins/processors/pod_based_enricher.go:119-145 | creating the stub keeps every present new set, changing only the pod's container sets and an ownerless Running pod's workload status |
| Processors.PodBasedEnricher.StampContainerSpec | collector/plugins/processors/pod_based_enricher.go:91-99 | the spec loop leaves `SpecStamped` for the visiting order of the matched container's requests |
| Processors.PodBasedEnricher.StampContainerStatus | collector/plugins/processors/pod_based_enricher.go:101-110 | the status loop leaves `StatusStamped` |
| Processors.PodBasedEnricher.NewPodStub | collector/plugins/processors/pod_based_enricher.go:128-141 | builds `PodStub` |
| Processors.PodBasedEnricher.AddPodStub | collector/plugins/processors/pod_based_enricher.go:119-145 | the new sets become `ContainerInfoSets`: the stub inserted and enriched only when the pod key is in neither map |
| Processors.PodBasedEnricher.PodInfoSetsFit | collector/plugins/processors/pod_based_enricher.go:148-207 | addPodInfo loses no new set and adds only pod-container or workload-status keys, never a batch key but a workload-status one |
| Processors.PodBasedEnricher.ContainerInfoSetsFit | collector/plugins/processors/pod_based_enricher.go:119-145 | the same for addContainerInfo (plus the pod key) |
| Processors.PodBasedEnricher.StepNewFit | collector/plugins/processors/pod_based_enricher.go:45-67 | the same for any step of the scan loop |
| Processors.PodBasedEnricher.LoopSetsUnvisited | collector/plugins/processors/pod_based_enricher.go:45-67 | the scan loop adds no key to the batch and leaves unvisited keys unchanged |
| Processors.PodBasedEnricher.LoopSetsVisited | collector/plugins/processors/pod_based_enricher.go:45-67 | a visited key holds what its own step made of its original set, or is gone iff the step deleted it |
| Processors.PodBasedEnricher.LoopNewFit | collector/plugins/processors/pod_based_enricher.go:45-67 | every new set is under a pod, container or workload-status key, and only a workload-status key can also be left in the batch |
| Processors.PodBasedEnricher.ScanOutcome | collector/plugins/processors/pod_based_enricher.go:45-67 | a set of any other type is neither deleted nor changed; a pod or container set whose pod cannot be got is deleted |
| Processors.PodBasedEnricher.ProcessOutcome | collector/plugins/processors/pod_based_enricher.go:43-75 | after the merge a non-workload-status key holds its step's result, or, if the step deleted it, at most a new set |
| Processors.PodBasedEnricher.ProcessNewKeys | collector/plugins/processors/pod_based_enricher.go:43-75 | Process adds no key of another kind than pod, container or workload status |
| Processors.PodBasedEnricher.AddContainerInfo | collector/plugins/processors/pod_based_enricher.go:90-146 | the container set becomes `ContainerInfoSet` and the new sets `ContainerInfoSets` |
| Processors.PodBasedEnricher.EnrichEntry | collector/plugins/processors/pod_based_enricher.go:46-66 | a pod or container set's step: None when the pod cannot be got, else the enriched set, with the step's new sets |
| Processors.PodBasedEnricher.ProcessEntry | collector/plugins/processors/pod_based_enricher.go:45-67 | one iteration of the scan: batch sets become `ApplyStep` of the step's result, new sets `StepNew`; timestamp kept |
| Processors.PodBasedEnricher.ScanSets | collector/plugins/processors/pod_based_enricher.go:44-68 | visits every original key once; the batch ends as `LoopSets` and the new sets as `LoopNew` |
| Processors.PodBasedEnricher.MergeSets | collector/plugins/processors/pod_based_enricher.go:70-72 | every new set ends in the batch under its key, over any set there; nothing else changes |
| Processors.PodBasedEnricher.Process | collector/plugins/processors/pod_based_enricher.go:43-75 | returns the batch itself and no error; its sets end as `LoopSets + LoopNew` for the order visited; the registry only grows; HierarchyComplete, SpecContainersCovered and WorkloadStatusOfPod state what that final batch holds |
| Processors.PodBasedEnricher.KeptInBatch | collector/plugins/processors/pod_based_enricher.go:45-67 | a set of the batch that is no pod or container set, or whose pod is got, is still in the batch after the scan |
| Processors.PodBasedEnricher.NamedPodSetKept | collector/plugins/processors/pod_based_enricher.go:45-67 | in a batch whose sets name their keys, the set under the pod or container key of the pod a got set names is kept too |
| Processors.PodBasedEnricher.ContainerStepPodSet | collector/plugins/processors/pod_based_enricher.go:119-145 | a step on a container set whose pod is got leaves a set under its pod's key, in the batch or among the new sets |
| Processors.PodBasedEnricher.PodStepContainerSets | collector/plugins/processors/pod_based_enricher.go:176-205 | a step on a Running pod's set leaves a set for each spec container, in the batch or among the new sets |
| Processors.PodBasedEnricher.HierarchyComplete | collector/plugins/processors/pod_based_enricher.go:43-75 | after Process, every batch container set whose pod is got is still present, and so is a set under its pod's key (batch pod set or stub) |
| Processors.PodBasedEnricher.SpecContainersCovered | collector/plugins/processors/pod_based_enricher.go:43-75 | after Process, every spec container of a Running pod whose set is in the batch has a set under its container key |
| Processors.PodBasedEnricher.PodInfoSetsWorkloadStatuses | collector/plugins/processors/pod_based_enricher.go:170-173 | addPodInfo keeps every workload-status set equal to the one built for the pod its key names |
| Processors.PodBasedEnricher.ContainerInfoSetsWorkloadStatuses | collector/plugins/processors/pod_based_enricher.go:119-145 | so does addContainerInfo, through the pod stub's addPodInfo |
| Processors.PodBasedEnricher.StepNewWorkloadStatuses | collector/plugins/processors/pod_based_enricher.go:45-67 | so does every scan step, through a consistent lister |
| Processors.PodBasedEnricher.LoopNewWorkloadStatuses | collector/plugins/processors/pod_based_enricher.go:43-68 | every workload-status set Process creates is WorkloadStatusSet of the pod its key names, with that pod's cached workload |
| Processors.PodBasedEnricher.WorkloadStatusOfPod | collector/plugins/processors/pod_based_enricher.go:43-75 | after Process, an ownerless Running pod whose set is in the batch has its workload-status key, holding exactly its own WorkloadStatusSet |

## Left out

- Pointer aliasing of sets: Go passes `*Set` and mutates in place. The model returns the changed set and writes it back under its key. The enricher builds every set it stores fresh, so no set is reachable under two keys, but two batch keys sharing one `*Set` on input is not modelled.
- Float values, the value type other than int64, and nil versus empty maps (a nil labels map for the workload-status value is the empty map) are not modelled.
- Logging (`log.Debugf`) and `Name()` are left out; they have no effect on the batch.
- The names of the request, limit, restart-count, status, phase and workload-status metrics are defined outside the modelled files: they are chosen constants whose only relied-on property is that they are pairwise distinct and that new request names end in `/request`.
- The pod lister, workload cache, label copier, `ConvertPodPhase`, `HasOwnerReference`, `NewContainerStateInfo` with `AddMetricTags`, and Quantity's `MilliValue`/`Value` are values the enricher is built with, not implemented. Properties that need them to behave (a copier that never writes the enricher's own keys, a lister whose pods carry their own namespace and name, a registry with the primary resources registered) are lemma hypotheses, not preconditions of the methods.
- Go's map iteration order is unspecified: each range over a map is a `:|` choice, and its order is a ghost out-parameter. Results are stated for the order taken; ApplyRequestsOrderIndependent shows the request loop does not depend on it when names are distinct.
- `time.Time` is integer nanoseconds: `IsZero` is `None`, `After` is `>` and `Add(-interval)` is subtraction without overflow.
- The global `ResourceRequestMetrics` map is unsynchronised in Go; concurrent enrichers are not modelled.
- Some Go functions are split into several methods (StampContainerSpec, StampContainerStatus, AddPodStub, NewPodStub, StampRunningPod, NewContainerStub, AddContainerStubs, EnrichEntry, ProcessEntry, ScanSets, MergeSets) so that each proof stays small; together they run the same statements in the same order.
- StepNew: a step's visiting orders are padded (`FitOrders`) when their number does not match the pod's containers; every actual run produces matching orders, so the padding is never used by Process itself.
- ResourceValuesRequests: states a resource's amount only when no other request shares its metric name (SoleRequest). An unregistered resource `r` is reported under `r + "/request"`, so a request for `ephemeral_storage` lands on the same name as the primary `ephemeral-storage` request. The value left under that name is then the one written last in the range over the requests map (pod_based_enricher.go:264-268), and Go leaves map iteration order unspecified, so the source's value depends on that order as well; the same holds for ResourceValuesOtherRequest.
- ResourceKey: the source's keys are strings built by `metrics.PodKey`, `metrics.PodContainerKey` and `metrics.WorkloadStatusPodKey`, which are not part of this model. Making them constructors of one datatype assumes that each is injective and that their images, and the keys of other entities, are pairwise disjoint.
- HierarchyComplete and SpecContainersCovered: hold for batches whose pod and container sets name, in their namespace and pod-name labels, the pod of the key they are filed under (SetsNameTheirKeys), through a copier that never writes the enricher's own keys or a lister that files each pod under its own namespace and name. Without the first, a pod set filed under `PodKey(ns, p)` but naming another pod is deleted when that pod cannot be got, and the container sets of `p` are left without a pod set; the Go code behaves the same way.
- SpecContainersCovered: stated for Running pods whose pod set is in the original batch; for a pod whose set is the stub addContainerInfo creates, coverage is proved for that step only (PodInfoSetsCover inside ContainerInfoSets).
- ProcessOutcome: states the final content only for keys that are not workload-status keys; a workload-status set in the original batch can be overwritten by a new one. WorkloadStatusOfPod gives the final set for the key of an ownerless Running pod whose set is in the batch.
- ScanOutcome: a pod or container set whose pod cannot be got is shown deleted by the scan; whether a new set later takes its key is only bounded by ProcessOutcome.
- Process: the error result is always nil in the source, and the model returns None; `PodError` models only getPod's errors, which are swallowed.

## Findings

| source | as written | input that shows it | evidently intended | confidence | as-written member | corrected member |
|---|---|---|---|---|---|---|
| collector/internal/metrics/labels.go:226-231 | both `copy` calls write from index 0, so the custom label overwrites resource_id and the second slot stays the zero descriptor | none needed: MetricLabels() returns [custom_metric_name, zero descriptor] | the custom labels copied after the metric labels: [resource_id, custom_metric_name] | high, not executed | Labels.MetricLabelsDropsResourceId | Labels.MetricLabelsCorrected |
