/**
 * The readiness tracker: a three-level map namespace -> pod name ->
 * container name -> ready, filled from readiness events that name a pod by
 * its UID and a container by its runtime ID, and read per pod.
 *
 * The pod list (the resource manager's `GetPods()`) is passed to each
 * operation as a snapshot.
 */
module Readiness {
  import opened Wrappers
  import opened Pods
  import opened Scan

  type ReadinessMap = map<string, map<string, map<string, bool>>>

  // ---------------------------------------------------------------------
  // Lookups

  /** The index of the first pod with UID `uid`, if any. */
  function FirstPodWithUID(pods: seq<Pod>, uid: string): (r: Option<nat>)
    ensures r.None? ==> forall j :: 0 <= j < |pods| ==> pods[j].uid != uid
    ensures r.Some? ==> r.value < |pods| && pods[r.value].uid == uid &&
                        forall j :: 0 <= j < r.value ==> pods[j].uid != uid
  {
    FirstWhere(pods, (pod: Pod) => pod.uid == uid)
  }

  /** The index of the last pod with UID `uid`, if any. */
  function LastPodWithUID(pods: seq<Pod>, uid: string): (r: Option<nat>)
    ensures r.None? ==> forall j :: 0 <= j < |pods| ==> pods[j].uid != uid
    ensures r.Some? ==> r.value < |pods| && pods[r.value].uid == uid &&
                        forall j :: r.value < j < |pods| ==> pods[j].uid != uid
  {
    if pods == [] then None
    else if pods[|pods| - 1].uid == uid then Some(|pods| - 1)
    else LastPodWithUID(pods[..|pods| - 1], uid)
  }

  /** The index of the first container status with runtime ID `cid`, if any. */
  function FirstContainerWithID(statuses: seq<ContainerStatus>, cid: string): (r: Option<nat>)
    ensures r.None? ==> forall j :: 0 <= j < |statuses| ==> statuses[j].containerID != cid
    ensures r.Some? ==> r.value < |statuses| && statuses[r.value].containerID == cid &&
                        forall j :: 0 <= j < r.value ==> statuses[j].containerID != cid
  {
    FirstWhere(statuses, (status: ContainerStatus) => status.containerID == cid)
  }

  /** The cell a readiness event addresses: namespace, pod name, container name. */
  datatype Target = Target(namespace: string, pod: string, container: string)

  /**
   * Resolves a readiness event: the last pod with the UID, then the first of
   * its container statuses with the runtime ID.
   */
  function Resolve(pods: seq<Pod>, podUID: string, cid: string): (t: Option<Target>)
    ensures t.Some? <==>
              && LastPodWithUID(pods, podUID).Some?
              && FirstContainerWithID(pods[LastPodWithUID(pods, podUID).value].status.containerStatuses, cid).Some?
    ensures t.Some? ==>
              var i := LastPodWithUID(pods, podUID).value;
              var k := FirstContainerWithID(pods[i].status.containerStatuses, cid).value;
              t.value == Target(pods[i].namespace, pods[i].name, pods[i].status.containerStatuses[k].name)
  {
    match LastPodWithUID(pods, podUID)
    case None => None
    case Some(i) =>
      var pod := pods[i];
      match FirstContainerWithID(pod.status.containerStatuses, cid)
      case None => None
      case Some(k) => Some(Target(pod.namespace, pod.name, pod.status.containerStatuses[k].name))
  }

  /** The per-container map of a pod, or nil when either level is missing. */
  function PodReadiness(r: ReadinessMap, namespace: string, pod: string): Option<map<string, bool>>
  {
    if namespace in r && pod in r[namespace] then Some(r[namespace][pod]) else None
  }

  // ---------------------------------------------------------------------
  // Writes

  /**
   * The write as the source performs it: the cell is set only when its
   * namespace and pod levels already exist; maps made for missing levels
   * are never stored, so the write is lost.
   */
  function StoreIfPresent(r: ReadinessMap, t: Target, ready: bool): ReadinessMap
  {
    if t.namespace in r && t.pod in r[t.namespace] then
      r[t.namespace := r[t.namespace][t.pod := r[t.namespace][t.pod][t.container := ready]]]
    else r
  }

  /** The write as intended: missing levels are created and stored. */
  function StoreThrough(r: ReadinessMap, t: Target, ready: bool): ReadinessMap
  {
    var nsLevel := if t.namespace in r then r[t.namespace] else map[];
    var podLevel := if t.pod in nsLevel then nsLevel[t.pod] else map[];
    r[t.namespace := nsLevel[t.pod := podLevel[t.container := ready]]]
  }

  /** The readiness map after one readiness event, as written. */
  function SetAsWritten(r: ReadinessMap, pods: seq<Pod>, podUID: string, cid: string, ready: bool): ReadinessMap
  {
    match Resolve(pods, podUID, cid)
    case None => r
    case Some(t) => StoreIfPresent(r, t, ready)
  }

  /** The readiness map after one readiness event, as intended. */
  function SetWriteThrough(r: ReadinessMap, pods: seq<Pod>, podUID: string, cid: string, ready: bool): ReadinessMap
  {
    match Resolve(pods, podUID, cid)
    case None => r
    case Some(t) => StoreThrough(r, t, ready)
  }

  // ---------------------------------------------------------------------
  // Properties of the writes

  /** An event whose pod or container does not resolve changes nothing. */
  lemma UnresolvedEventIsNoOp(r: ReadinessMap, pods: seq<Pod>, podUID: string, cid: string, ready: bool)
    requires (forall j :: 0 <= j < |pods| ==> pods[j].uid != podUID) ||
             (exists i :: 0 <= i < |pods| && pods[i].uid == podUID &&
                (forall j :: i < j < |pods| ==> pods[j].uid != podUID) &&
                (forall k :: 0 <= k < |pods[i].status.containerStatuses| ==>
                   pods[i].status.containerStatuses[k].containerID != cid))
    ensures SetAsWritten(r, pods, podUID, cid, ready) == r
    ensures SetWriteThrough(r, pods, podUID, cid, ready) == r
  {
  }

  /**
   * When the pod's levels exist, the as-written event sets exactly the
   * resolved container's entry; every other pod's map is untouched.
   */
  lemma SetAsWrittenWithLevels(r: ReadinessMap, pods: seq<Pod>, podUID: string, cid: string, ready: bool,
                               ns: string, pod: string)
    requires Resolve(pods, podUID, cid).Some?
    requires var t := Resolve(pods, podUID, cid).value; PodReadiness(r, t.namespace, t.pod).Some?
    ensures var t := Resolve(pods, podUID, cid).value;
            var after := SetAsWritten(r, pods, podUID, cid, ready);
            && PodReadiness(after, t.namespace, t.pod) == Some(PodReadiness(r, t.namespace, t.pod).value[t.container := ready])
            && ((ns, pod) != (t.namespace, t.pod) ==> PodReadiness(after, ns, pod) == PodReadiness(r, ns, pod))
            && after.Keys == r.Keys
  {
  }

  /** When the namespace or pod level is missing, the as-written event changes nothing. */
  lemma SetAsWrittenWithoutLevels(r: ReadinessMap, pods: seq<Pod>, podUID: string, cid: string, ready: bool)
    requires Resolve(pods, podUID, cid).Some?
    requires var t := Resolve(pods, podUID, cid).value; PodReadiness(r, t.namespace, t.pod).None?
    ensures SetAsWritten(r, pods, podUID, cid, ready) == r
  {
  }

  /** As written, a tracker that starts empty stays empty whatever events arrive. */
  lemma {:induction false} AsWrittenStaysEmpty(events: seq<(string, string, bool)>, pods: seq<Pod>)
    ensures ApplyAsWritten(map[], pods, events) == map[]
  {
    if events != [] {
      AsWrittenStaysEmpty(events[..|events| - 1], pods);
    }
  }

  /** The readiness map after a series of `(pod UID, container ID, ready)` events, as written. */
  function ApplyAsWritten(r: ReadinessMap, pods: seq<Pod>, events: seq<(string, string, bool)>): ReadinessMap
  {
    if events == [] then r
    else
      var e := events[|events| - 1];
      SetAsWritten(ApplyAsWritten(r, pods, events[..|events| - 1]), pods, e.0, e.1, e.2)
  }

  /**
   * As intended, a resolved event is visible at once: the pod's map holds
   * the new value for the container, keeps its other containers' values,
   * and no other pod's map changes.
   */
  lemma WriteThroughThenRead(r: ReadinessMap, pods: seq<Pod>, podUID: string, cid: string, ready: bool,
                             ns: string, pod: string, container: string)
    requires Resolve(pods, podUID, cid).Some?
    ensures var t := Resolve(pods, podUID, cid).value;
            var after := SetWriteThrough(r, pods, podUID, cid, ready);
            && PodReadiness(after, t.namespace, t.pod).Some?
            && PodReadiness(after, t.namespace, t.pod).value[t.container] == ready
            && PodReadiness(after, t.namespace, t.pod) ==
                 Some((if PodReadiness(r, t.namespace, t.pod).Some? then PodReadiness(r, t.namespace, t.pod).value
                       else map[])[t.container := ready])
            && after.Keys == r.Keys + {t.namespace}
            && (container != t.container && PodReadiness(r, t.namespace, t.pod).Some? &&
                container in PodReadiness(r, t.namespace, t.pod).value ==>
                  container in PodReadiness(after, t.namespace, t.pod).value &&
                  PodReadiness(after, t.namespace, t.pod).value[container] ==
                  PodReadiness(r, t.namespace, t.pod).value[container])
            && ((ns, pod) != (t.namespace, t.pod) ==> PodReadiness(after, ns, pod) == PodReadiness(r, ns, pod))
  {
  }

  /**
   * The example of a pod "web" in namespace "default" with UID "u1" and a
   * container "app" whose runtime ID is "c1": after marking it ready, the
   * intended tracker reports {"app": true}; the tracker as written reports
   * nothing.
   */
  lemma ReadyExample()
    ensures var pods := [Pod("default", "web", "u1", None,
                             PodStatus(Running, "", "10.0.0.1", [ContainerStatus("app", "c1")]))];
            && PodReadiness(SetWriteThrough(map[], pods, "u1", "c1", true), "default", "web") == Some(map["app" := true])
            && PodReadiness(SetAsWritten(map[], pods, "u1", "c1", true), "default", "web") == None
  {
  }

  // ---------------------------------------------------------------------
  // The tracker

  class ReadinessManager {
    var readiness: ReadinessMap

    /** A new tracker holds no entries. */
    constructor ()
      ensures readiness == map[]
    {
      readiness := map[];
    }

    /** The status of the first pod with UID `uid`, or an empty status. */
    method GetPodStatus(pods: seq<Pod>, uid: string) returns (status: PodStatus, found: bool)
      ensures found <==> exists j :: 0 <= j < |pods| && pods[j].uid == uid
      ensures found ==> status == pods[FirstPodWithUID(pods, uid).value].status
      ensures !found ==> status == EmptyStatus
    {
      for i := 0 to |pods|
        invariant forall j :: 0 <= j < i ==> pods[j].uid != uid
      {
        if pods[i].uid == uid {
          assert FirstPodWithUID(pods, uid) == Some(i);
          return pods[i].status, true;
        }
      }
      return EmptyStatus, false;
    }

    /** Status-manager hook; only logs. */
    method Start()
      ensures readiness == old(readiness)
    {
    }

    /** Status-manager hook; only logs. */
    method SetPodStatus(pod: Pod, status: PodStatus)
      ensures readiness == old(readiness)
    {
    }

    /** Status-manager hook; only logs. */
    method TerminatePod(pod: Pod)
      ensures readiness == old(readiness)
    {
    }

    /** Status-manager hook; only logs. */
    method RemoveOrphanedStatuses(podUIDs: set<string>)
      ensures readiness == old(readiness)
    {
    }

    /**
     * Records a readiness event as the source does: the last pod with the
     * UID, the first of its containers with the runtime ID, and a write that
     * only lands when both outer levels already exist.
     */
    method SetContainerReadiness(pods: seq<Pod>, podUID: string, containerID: string, ready: bool)
      modifies this
      ensures readiness == SetAsWritten(old(readiness), pods, podUID, containerID, ready)
      ensures old(readiness) == map[] ==> readiness == map[]
    {
      var target := FindTarget(pods, podUID, containerID);
      if target.Some? {
        var t := target.value;
        if t.namespace in readiness && t.pod in readiness[t.namespace] {
          readiness := readiness[t.namespace := readiness[t.namespace][t.pod := readiness[t.namespace][t.pod][t.container := ready]]];
        }
      }
    }

    /** Records a readiness event, creating the missing levels. */
    method SetContainerReadinessWriteThrough(pods: seq<Pod>, podUID: string, containerID: string, ready: bool)
      modifies this
      ensures readiness == SetWriteThrough(old(readiness), pods, podUID, containerID, ready)
    {
      var target := FindTarget(pods, podUID, containerID);
      if target.Some? {
        var t := target.value;
        var nsLevel := if t.namespace in readiness then readiness[t.namespace] else map[];
        var podLevel := if t.pod in nsLevel then nsLevel[t.pod] else map[];
        readiness := readiness[t.namespace := nsLevel[t.pod := podLevel[t.container := ready]]];
      }
    }

    /** The recorded map of one pod, or nil when its namespace or pod level is missing. */
    function GetPodContainersReadiness(namespace: string, pod: string): (r: Option<map<string, bool>>)
      reads this
      ensures r.Some? <==> namespace in readiness && pod in readiness[namespace]
      ensures r.Some? ==> r.value == readiness[namespace][pod]
    {
      PodReadiness(readiness, namespace, pod)
    }
  }

  /**
   * The two scans of a readiness event: every pod is visited and the last
   * one with the UID kept; then its container statuses are searched and the
   * first with the runtime ID taken.
   */
  method FindTarget(pods: seq<Pod>, podUID: string, containerID: string) returns (t: Option<Target>)
    ensures t == Resolve(pods, podUID, containerID)
  {
    var target: Option<nat> := None;
    for i := 0 to |pods|
      invariant target == LastPodWithUID(pods[..i], podUID)
    {
      assert pods[..i + 1][..i] == pods[..i];
      if pods[i].uid == podUID {
        target := Some(i);
      }
    }
    assert pods[..|pods|] == pods;
    if target.None? {
      return None;
    }
    var pod := pods[target.value];
    var statuses := pod.status.containerStatuses;
    for k := 0 to |statuses|
      invariant forall j :: 0 <= j < k ==> statuses[j].containerID != containerID
    {
      if statuses[k].containerID == containerID {
        assert FirstContainerWithID(statuses, containerID) == Some(k);
        return Some(Target(pod.namespace, pod.name, statuses[k].name));
      }
    }
    return None;
  }
}
