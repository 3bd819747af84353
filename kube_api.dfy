/**
 * The part of a Kubernetes Pod the enricher reads: phase, UID, start time,
 * owner references, labels, spec containers and container statuses.
 */
module KubeApi {
  import opened Wrappers
  import opened Metrics

  type ResourceName = string

  const ResourceCPU: ResourceName := "cpu"
  const ResourceMemory: ResourceName := "memory"
  const ResourceEphemeralStorage: ResourceName := "ephemeral-storage"

  /** A resource quantity, as seen through its MilliValue() and Value(). */
  datatype Quantity = Quantity(milliValue: Int64, value: Int64)

  datatype ResourceRequirements = ResourceRequirements(
    limits: map<ResourceName, Quantity>,
    requests: map<ResourceName, Quantity>)

  datatype Container = Container(name: string, image: string, resources: ResourceRequirements)

  datatype ContainerStateWaiting = ContainerStateWaiting(reason: string, message: string)
  datatype ContainerStateRunning = ContainerStateRunning(startedAt: Time)
  datatype ContainerStateTerminated = ContainerStateTerminated(
    exitCode: Int32, reason: string, message: string, finishedAt: Time)

  /** At most one of the three is set in a well-formed state; the model does not rely on it. */
  datatype ContainerState = ContainerState(
    waiting: Option<ContainerStateWaiting>,
    running: Option<ContainerStateRunning>,
    terminated: Option<ContainerStateTerminated>)

  datatype ContainerStatus = ContainerStatus(
    name: string,
    state: ContainerState,
    lastTerminationState: ContainerState,
    ready: bool,
    restartCount: Int32)

  datatype PodPhase = PodPending | PodRunning | PodSucceeded | PodFailed | PodUnknown

  /** The string form of a phase, as `string(pod.Status.Phase)` gives it. */
  function PhaseName(p: PodPhase): string
  {
    match p
    case PodPending => "Pending"
    case PodRunning => "Running"
    case PodSucceeded => "Succeeded"
    case PodFailed => "Failed"
    case PodUnknown => "Unknown"
  }

  datatype OwnerReference = OwnerReference(kind: string, name: string, uid: string)

  /** A nil or zero StartTime is None. */
  datatype Pod = Pod(
    namespace: string,
    name: string,
    uid: string,
    labels: map<string, string>,
    ownerReferences: seq<OwnerReference>,
    containers: seq<Container>,
    phase: PodPhase,
    startTime: Option<Time>,
    containerStatuses: seq<ContainerStatus>)
}
