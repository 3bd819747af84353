/**
 * The enricher's collaborators, none of which is modelled beyond its
 * interface: the pod lister, the workload cache, the label copier and the
 * helper functions of the util package. Each is a value the enricher is
 * built with; its behaviour is whatever that value says.
 */
module Collaborators {
  import opened Wrappers
  import opened Metrics
  import opened KubeApi

  datatype ListerError = NotFound(namespace: string, name: string)

  /**
   * A snapshot of the pod lister's cache. An absent entry is a not-found
   * error; an entry holding None is the lister returning neither a pod nor
   * an error.
   */
  datatype PodLister = PodLister(pods: map<(string, string), Option<Pod>>)
  {
    /** `podLister.Pods(namespace).Get(name)`. */
    function Get(namespace: string, name: string): Result<Option<Pod>, ListerError>
    {
      if (namespace, name) in pods then Ok(pods[(namespace, name)]) else Err(NotFound(namespace, name))
    }

    /** A cached pod is filed under its own namespace and name. */
    ghost predicate Consistent()
    {
      forall ref :: ref in pods && pods[ref].Some? ==>
        pods[ref].value.namespace == ref.0 && pods[ref].value.name == ref.1
    }
  }

  /** WorkloadCache.GetWorkloadForPod: (workload name, workload kind), empty strings on a miss. */
  datatype WorkloadCache = WorkloadCache(getWorkloadForPod: Pod -> (string, string))

  /**
   * LabelCopier.Copy(in, out): writes the pairs `contribution(in)` into
   * `out`, overwriting keys already there and removing none.
   */
  datatype LabelCopier = LabelCopier(contribution: map<string, string> -> map<string, string>)
  {
    function Copy(input: map<string, string>, output: map<string, string>): (r: map<string, string>)
      ensures r.Keys == output.Keys + contribution(input).Keys
      ensures forall k :: k in r ==> r[k] == if k in contribution(input) then contribution(input)[k] else output[k]
    {
      output + contribution(input)
    }

    /** The copier never writes any of the given keys. */
    ghost predicate Avoids(reserved: set<string>)
    {
      forall input :: contribution(input).Keys !! reserved
    }
  }

  /** util.ContainerStateInfo: a status code and the tags its AddMetricTags writes. */
  datatype ContainerStateInfo = ContainerStateInfo(value: Int64, tags: map<string, string>)

  /** util.ConvertPodPhase, util.HasOwnerReference and util.NewContainerStateInfo. */
  datatype Util = Util(
    convertPodPhase: PodPhase -> Int64,
    hasOwnerReference: seq<OwnerReference> -> bool,
    newContainerStateInfo: ContainerState -> ContainerStateInfo)
}
