/**
 * The parts of an orchestrator workload (a pod) that the health-checking core
 * reads. Pods are owned by the external workload store; the core never
 * changes them, so they are plain values here.
 */
module Pods {
  import opened Wrappers

  /** A pod's lifecycle phase; `PhaseUnset` is the phase of an empty status. */
  datatype PodPhase = PhaseUnset | Pending | Running | Succeeded | Failed | PhaseUnknown

  /** A running container's name and its runtime identifier. */
  datatype ContainerStatus = ContainerStatus(name: string, containerID: string)

  datatype PodStatus = PodStatus(
    phase: PodPhase,
    reason: string,
    podIP: string,
    containerStatuses: seq<ContainerStatus>)

  /** The zero value of a pod status. */
  const EmptyStatus := PodStatus(PhaseUnset, "", "", [])

  /** A pod; `deletionTimestamp` is nil until the pod is marked for deletion. */
  datatype Pod = Pod(
    namespace: string,
    name: string,
    uid: string,
    deletionTimestamp: Option<int>,
    status: PodStatus)
}
