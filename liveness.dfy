/**
 * The liveness dispatcher: turns a container's failed probe result into a
 * notification naming its pod, unless the pod is gone or already terminal,
 * and queues the notification on a channel of capacity 20.
 *
 * The pod list (the resource manager's `GetPods()`) is passed to each
 * operation as a snapshot; the channel is the sequence of queued updates.
 */
module Liveness {
  import opened Wrappers
  import opened Pods
  import opened Prober

  /** The channel's buffer size. */
  const QueueCapacity: nat := 20

  /** The status reason a provider sets on a pod it failed to run. */
  const PodStatusReasonProviderFailed: string := "ProviderFailed"

  /** A notification that a pod has a failing container. */
  datatype LivenessUpdate = LivenessUpdate(namespace: string, pod: string)

  /** A raw probe-result event for one container of one pod. */
  datatype ResultUpdate = ResultUpdate(containerID: string, result: ProbeResult, podUID: string)

  /** A pod that has finished, was failed by its provider, or is being deleted. */
  function IsTerminated(pod: Pod): (b: bool)
    ensures pod.status.phase in {Succeeded, Failed} ==> b
    ensures pod.status.reason == PodStatusReasonProviderFailed ==> b
    ensures pod.deletionTimestamp.Some? ==> b
    ensures !b ==> pod.status.phase in {PhaseUnset, Pending, Running, PhaseUnknown}
    ensures b ==> pod.status.phase in {Succeeded, Failed} ||
                  pod.status.reason == PodStatusReasonProviderFailed ||
                  pod.deletionTimestamp.Some?
  {
    || pod.status.phase == Succeeded
    || pod.status.phase == Failed
    || pod.status.reason == PodStatusReasonProviderFailed
    || pod.deletionTimestamp.Some?
  }

  /**
   * The notifications one failure produces, scanning the pods in order:
   * each non-terminal pod with the UID adds one; the first terminal pod with
   * the UID ends the scan.
   */
  function Notifications(pods: seq<Pod>, uid: string): (ns: seq<LivenessUpdate>)
    ensures |ns| <= |pods|
    ensures forall u :: u in ns ==>
              exists p :: p in pods && p.uid == uid && !IsTerminated(p) && u == LivenessUpdate(p.namespace, p.name)
    ensures !HasTerminalMatch(pods, uid) ==>
              forall p :: p in pods && p.uid == uid ==> LivenessUpdate(p.namespace, p.name) in ns
  {
    if pods == [] then []
    else if pods[0].uid != uid then Notifications(pods[1..], uid)
    else if IsTerminated(pods[0]) then []
    else [LivenessUpdate(pods[0].namespace, pods[0].name)] + Notifications(pods[1..], uid)
  }

  /** Whether some pod with the UID is terminal: the scan stops at the first such pod. */
  predicate HasTerminalMatch(pods: seq<Pod>, uid: string)
  {
    exists p :: p in pods && p.uid == uid && IsTerminated(p)
  }

  /** A terminal match in a non-empty list is at its head or in its tail. */
  lemma HasTerminalMatchCons(pods: seq<Pod>, uid: string)
    requires pods != []
    ensures HasTerminalMatch(pods, uid) <==>
              (pods[0].uid == uid && IsTerminated(pods[0])) || HasTerminalMatch(pods[1..], uid)
  {
    assert forall p :: p in pods <==> p == pods[0] || p in pods[1..];
  }

  /**
   * Scanning a concatenation: the first part's notifications, then, unless
   * the first part holds a terminal pod with the UID, the second part's.
   */
  lemma {:induction false} NotificationsAppend(l1: seq<Pod>, l2: seq<Pod>, uid: string)
    ensures Notifications(l1 + l2, uid) ==
              if HasTerminalMatch(l1, uid) then Notifications(l1, uid)
              else Notifications(l1, uid) + Notifications(l2, uid)
  {
    if l1 == [] {
      assert l1 + l2 == l2;
    } else {
      assert (l1 + l2)[1..] == l1[1..] + l2;
      NotificationsAppend(l1[1..], l2, uid);
      HasTerminalMatchCons(l1, uid);
    }
  }

  /** The notifications one raw update produces; only failures produce any. */
  function UpdateNotifications(pods: seq<Pod>, update: ResultUpdate): seq<LivenessUpdate>
  {
    if update.result == Failure then Notifications(pods, update.podUID) else []
  }

  /** A success or unknown result produces no notification. */
  lemma NonFailureIsIgnored(pods: seq<Pod>, update: ResultUpdate)
    requires update.result != Failure
    ensures UpdateNotifications(pods, update) == []
  {
  }

  /** A failure for a UID no pod has produces no notification. */
  lemma {:induction false} UnknownPodIsIgnored(pods: seq<Pod>, uid: string)
    requires forall j :: 0 <= j < |pods| ==> pods[j].uid != uid
    ensures Notifications(pods, uid) == []
  {
    if pods != [] {
      UnknownPodIsIgnored(pods[1..], uid);
    }
  }

  /** When the first pod with the UID is terminal, nothing is produced. */
  lemma {:induction false} TerminalPodIsIgnored(pods: seq<Pod>, uid: string, i: nat)
    requires i < |pods| && pods[i].uid == uid && IsTerminated(pods[i])
    requires forall j :: 0 <= j < i ==> pods[j].uid != uid
    ensures Notifications(pods, uid) == []
  {
    if i > 0 {
      TerminalPodIsIgnored(pods[1..], uid, i - 1);
    }
  }

  /** A failure for the one pod with the UID, not terminal, produces exactly one notification. */
  lemma {:induction false} LivePodIsNotified(pods: seq<Pod>, uid: string, i: nat)
    requires i < |pods| && pods[i].uid == uid && !IsTerminated(pods[i])
    requires forall j :: 0 <= j < |pods| && j != i ==> pods[j].uid != uid
    ensures Notifications(pods, uid) == [LivenessUpdate(pods[i].namespace, pods[i].name)]
  {
    if i > 0 {
      LivePodIsNotified(pods[1..], uid, i - 1);
    } else {
      UnknownPodIsIgnored(pods[1..], uid);
    }
  }

  class LivenessManager {
    /** The buffered updates not yet taken by a consumer, oldest first. */
    var updates: seq<LivenessUpdate>

    ghost predicate Valid()
      reads this
    {
      |updates| <= QueueCapacity
    }

    /** A new dispatcher with an empty queue. */
    constructor ()
      ensures Valid() && updates == []
    {
      updates := [];
    }

    /** The queue consumers read notifications from. */
    function GetLivenessUpdate(): (q: seq<LivenessUpdate>)
      reads this
      ensures q == updates
    {
      updates
    }

    /**
     * A consumer's receive on the queue: the oldest notification leaves it
     * first, and the rest keep their order.
     */
    method Receive() returns (u: LivenessUpdate)
      requires Valid() && updates != []
      modifies this
      ensures Valid()
      ensures u == old(updates)[0] && updates == old(updates)[1..]
    {
      u := updates[0];
      updates := updates[1..];
    }

    /**
     * Handles one raw update: for a failure, scans the pods for the UID,
     * stops at a terminal pod, and queues a notification for each live one.
     * Notifications are appended after the queued ones; nothing is merged.
     */
    method UpdatePodLiveness(pods: seq<Pod>, update: ResultUpdate)
      requires Valid()
      requires |updates| + |UpdateNotifications(pods, update)| <= QueueCapacity
      modifies this
      ensures Valid()
      ensures updates == old(updates) + UpdateNotifications(pods, update)
    {
      if update.result != Failure {
        return;
      }
      var uid := update.podUID;
      for i := 0 to |pods|
        invariant updates + Notifications(pods[i..], uid) == old(updates) + Notifications(pods, uid)
      {
        var pod := pods[i];
        assert pods[i..][1..] == pods[i + 1..];
        if pod.uid == uid {
          if IsTerminated(pod) {
            return;
          }
          assert |updates| < QueueCapacity;
          updates := updates + [LivenessUpdate(pod.namespace, pod.name)];
        }
      }
    }
  }
}
