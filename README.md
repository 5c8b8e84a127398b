# Health checking and failure classification in virtual-kubelet, in Dafny

This project models the health-checking core of virtual-kubelet's node agent. It has four parts.

- **Provider error taxonomy** (`errors.dfy`, module `ProviderErrors`). It covers the seven error reasons, the error status with its optional retry-after hint, and the constructors. It also covers the three classifiers `IsNotFound`, `IsRetryable` and `SuggestsClientDelay`. An error that does not expose a status counts as `Unknown`.
- **Probe engine** (`prober.dfy`, module `Prober`). It covers:
  - protocol dispatch: exec first, then HTTP GET, then TCP socket;
  - port resolution: a number, a named container port, or a numeric string, followed by a range check;
  - header flattening;
  - the retry loop, which makes up to three attempts and retries only when an attempt reports an error;
  - the mapping of the final outcome to a Success/Failure verdict.
- **Readiness tracker** (`readiness.dfy`, module `Readiness`). A class holds the three-level map namespace → pod → container → ready. A readiness event is resolved by scanning the pod list for the pod UID and then the pod's container statuses for the container ID.
- **Liveness dispatcher** (`liveness.dfy`, module `Liveness`). A class holds the bounded queue of `LivenessUpdate`s. A failed probe result for a pod that is not terminal appends one notification.

`scan.dfy` (module `Scan`) holds the first-match search shared by the port, pod and container lookups. `pods.dfy` (module `Pods`) holds the pod fields these parts read. `goint.dfy` (module `GoInt`) holds Go's `int32` and its truncating conversion. `wrappers.dfy` holds `Option` and `Result`.

Each operation that changes state is a method on a class. It is proved against a specification function of the old state (`SetAsWritten`, `UpdateNotifications`). The lemmas beside each method prove what the source promises about that function. Loops in the source are loops here, with their invariants: the retry loop, the header loop, the port search, the pod and container scans, and the liveness scan.

In two places the code does something other than what it evidently intends. The model follows the code, and it also gives the intended version (see "## Findings").

- Only `InternalServerError` is retryable (`IsRetryable`). The switch at providers/errors/errors.go:92-96 groups three case labels. The descriptions of two of those reasons (lines 28-29 and 34-35) say to retry after a wait. But Go does not fall through from an empty case, so those two reasons return false.
- `SetContainerReadiness` never stores the levels it creates, so its writes are lost. At manager/readiness.go:98-106 the maps made for a missing namespace or pod are local and never assigned back. The tracker's map starts nil (line 30), and `GetPodContainersReadiness` (lines 134-152) could never return anything. `SetContainerReadinessWriteThrough` models the intended behaviour.

Two behaviours of `probe` are worth noting, and the model keeps both. A nil probe is Success without an attempt (manager/prober/prober.go:27-30). A probe that is declared but has no handler fails after three attempts with a "missing probe handler" error (`NoHandlerUsesAllAttempts`).

Where the Go text does not compile, the model follows its evident intent:

- `uid` means the pod UID being looked up;
- `range` over a pod or status slice visits the elements;
- `probe` receives the probe spec, pod and container it refers to;
- the `maxProbeRetries` argument at manager/prober/prober.go:32 is ignored, and the loop bound 3 is used.

## Model

| member | source | states |
|---|---|---|
| `GoInt.Int32Of` | providers/errors/errors.go:159 | `int32(x)` equals `x` when `x` fits in 32 bits, and always agrees with `x` modulo 2^32 (two's-complement wrap) |
| `ProviderErrors.ReasonName` | providers/errors/errors.go:12-43 | each reason's string constant (`"Unauthorized"`, `"NotFound"`, ...); only `Unknown` is the empty string |
| `ProviderErrors.ReasonNamesDistinct` | providers/errors/errors.go:12-43 | two reasons have the same string exactly when they are the same reason, so the model's comparisons of reason values decide what Go's string comparisons decide |
| `ProviderErrors.OperationError.Error` | providers/errors/errors.go:75-78 | the error's text is its status message |
| `ProviderErrors.OperationError.Status` | providers/errors/errors.go:80-83 | the status is the one the error was built with; each constructor's contract states its reason, details, message and cause through it |
| `ProviderErrors.ReasonForError` | providers/errors/errors.go:62-68 | an error exposing a status reports its status reason; nil and any other error report `Unknown` |
| `ProviderErrors.IsNotFound` | providers/errors/errors.go:86-88 | true exactly when the error exposes a status whose reason is `NotFound` |
| `ProviderErrors.IsRetryable` | providers/errors/errors.go:91-100 | true exactly when the error exposes a status whose reason is `InternalServerError`; the empty `TooManyRequests`/`ServiceUnavailable` cases give false |
| `ProviderErrors.IsRetryableIntended` | providers/errors/errors.go:93-95 | true exactly for `TooManyRequests`, `ServiceUnavailable` and `InternalServerError`, the three grouped case labels |
| `ProviderErrors.SuggestsClientDelay` | providers/errors/errors.go:105-121 | asks for a delay iff details are present and either the reason is `ServiceUnavailable` (any value, even zero or negative) or the hint is positive; the delay is then the hint, and otherwise `(0, false)` |
| `ProviderErrors.NewNotFound` | providers/errors/errors.go:124-130 | the result is NotFound and not retryable, carries no details and asks for no delay, and keeps message and cause |
| `ProviderErrors.NewUnauthorized` | providers/errors/errors.go:134-140 | reason `Unauthorized`: not NotFound, not retryable, no details and no delay; message and cause kept |
| `ProviderErrors.NewBadRequest` | providers/errors/errors.go:143-149 | reason `BadRequest`: not NotFound, not retryable, no details and no delay; message and cause kept |
| `ProviderErrors.NewTooManyRequests` | providers/errors/errors.go:154-163 | reason `TooManyRequests` with hint `int32(arg)`; not retryable as written; asks for a delay iff the wrapped hint is positive |
| `ProviderErrors.NewInternalServerError` | providers/errors/errors.go:167-176 | reason `InternalServerError` with hint `int32(arg)`; retryable; asks for a delay iff the wrapped hint is positive |
| `ProviderErrors.NewServiceUnavailable` | providers/errors/errors.go:179-188 | reason `ServiceUnavailable` with hint `int32(arg)`; always asks for a delay of exactly the wrapped hint |
| `ProviderErrors.NewUnknownError` | providers/errors/errors.go:191-197 | reason `Unknown`: not NotFound, not retryable, no details and no delay; message and cause kept |
| `ProviderErrors.NonConformingErrorIsUnknown` | providers/errors/errors.go:62-68 | nil, and any error without a status, is `Unknown`: not NotFound, not retryable either as written or as intended, and asks for no delay |
| `ProviderErrors.NoDetailsNoDelay` | providers/errors/errors.go:108 | any status without details gives `(0, false)` |
| `ProviderErrors.RetryableAsWrittenMissesTooManyRequests` | providers/errors/errors.go:92-96 | too-many-requests and service-unavailable errors are not retryable as written, though they are retryable as intended |
| `ProviderErrors.RetryableAsWrittenImpliesIntended` | providers/errors/errors.go:92-99 | the retryable set as written is contained in the intended one |
| `Prober.ToLower` | manager/prober/prober.go:89 | the scheme keeps its length; each upper-case ASCII letter becomes its lower-case letter, every other character is kept, and no upper-case ASCII letter remains |
| `Prober.ValuesForEmptyIff` | manager/prober/prober.go:73-79 | a name has values exactly when some header in the list carries it |
| `Prober.ValuesForAppend` | manager/prober/prober.go:75-77 | the values of a concatenated list are the first list's values followed by the second's: later entries append and never overwrite |
| `Prober.HeaderMapSnoc` | manager/prober/prober.go:76 | one more header appends its value to its name's list and leaves every other name alone |
| `Prober.BuildHeader` | manager/prober/prober.go:73-79 | the map's keys are exactly the header names, and each name maps to the values bearing it, in input order |
| `Prober.FirstPortNamed` | manager/prober/prober.go:145-149 | the first declared port with the name, or none when no port has it |
| `Prober.FindPortByName` | manager/prober/prober.go:144-151 | succeeds iff some declared port has the name, and returns the first such port's number; otherwise a port-not-found error |
| `Prober.CheckPort` | manager/prober/prober.go:137-140 | a port is accepted iff `0 < port < 65536`; otherwise an invalid-port error carrying it |
| `Prober.ExtractPort` | manager/prober/prober.go:121-141 | any accepted port is in range. A number is range-checked. A string resolves to the named port when one exists, else is parsed as a number (a parse failure is returned). An untyped value is a no-kind error |
| `Prober.NamedPortShadowsNumber` | manager/prober/prober.go:128-133 | when a port has the name, the numeric parse is never consulted |
| `Prober.Dispatch` | manager/prober/prober.go:81-119 | exec wins over HTTP over TCP. For HTTP/TCP a port error ends the attempt as `(Unknown, "", err)` without a backend. Otherwise HTTP gets the lower-cased scheme, the host or the pod IP, the checked port, the flattened headers and the timeout, and TCP gets the host or the pod IP and the port. No handler gives a missing-handler error |
| `Prober.FormatURL` | manager/prober/prober.go:154-165 | the URL carries the given scheme, host, port and path |
| `Prober.RunProbe` | manager/prober/prober.go:81-119 | one attempt: when dispatch calls a backend (exec, or HTTP/TCP with a resolved port) the outcome is the backend's reply; otherwise it is dispatch's own finish, `(Unknown, "", err)` for a port error or a missing handler. A clean outcome, or any result other than `Unknown`, therefore always came from the backend |
| `Prober.Retry` | manager/prober/prober.go:62-68 | attempts run in order until the first without an error; if all err, the last is kept; returns the kept outcome and the number of attempts |
| `Prober.RetryStopsAt` | manager/prober/prober.go:62-68 | the retry result is fixed by the position of the first clean attempt |
| `Prober.CleanAttemptNotRetried` | manager/prober/prober.go:64-66 | a first attempt without an error, even a `Failure`, is returned after one attempt |
| `Prober.AllErrorsKeepLast` | manager/prober/prober.go:62-68 | if every attempt errs, all are made and the last attempt's result, output and error are returned |
| `Prober.RunProbeWithRetries` | manager/prober/prober.go:58-69 | the loop makes the attempts the retry rule prescribes, at most three, and returns the kept outcome and the count |
| `Prober.Probe` | manager/prober/prober.go:25-54 | a nil probe is Success with no attempt. Otherwise the verdict is Success iff the retried outcome has no error and a `Success` result, else Failure. The error is the retried one; the verdict is never `Unknown` |
| `Prober.PortErrorSkipsBackend` | manager/prober/prober.go:94-97 | with an unresolvable HTTP port, every attempt is `(Unknown, "", err)`, whatever the backend would have answered |
| `Prober.NoHandlerUsesAllAttempts` | manager/prober/prober.go:117-118 | a declared probe with no handler errs three times, and the missing-handler outcome is kept |
| `Readiness.FirstPodWithUID` | manager/readiness.go:41-47 | the first pod with the UID, or none when no pod has it |
| `Readiness.LastPodWithUID` | manager/readiness.go:75-80 | the last pod with the UID (the scan has no `break`), or none |
| `Readiness.FirstContainerWithID` | manager/readiness.go:91-93 | the first container status with the runtime ID, or none |
| `Readiness.Resolve` | manager/readiness.go:74-112 | an event resolves iff some pod has the UID and the last such pod has a container status with the ID; the target is that last pod's namespace and name, and the container name of its first status with the ID |
| `Readiness.UnresolvedEventIsNoOp` | manager/readiness.go:82-86 | an unknown pod UID, or a container ID matching none of the pod's statuses, leaves the map unchanged |
| `Readiness.SetAsWrittenWithLevels` | manager/readiness.go:98-108 | when the namespace and pod levels exist, only the resolved container's entry is set to `ready`, and every other pod's map is unchanged |
| `Readiness.SetAsWrittenWithoutLevels` | manager/readiness.go:98-106 | when either level is missing, the freshly made maps are dropped and the map is unchanged |
| `Readiness.AsWrittenStaysEmpty` | manager/readiness.go:29-31 | starting from the empty map the constructor leaves, any series of events as written leaves it empty |
| `Readiness.WriteThroughThenRead` | manager/readiness.go:98-108 | with write-through, the pod's map becomes its old map (or the empty map) with exactly the target container set to `ready`; the outer keys gain only the target namespace; no other pod's map changes |
| `Readiness.ReadyExample` | manager/readiness.go:68-117 | for pod default/web (UID u1) with container app (ID c1), marking it ready yields `{"app": true}` with write-through, and nil as written |
| `Readiness.FindTarget` | manager/readiness.go:74-93 | the two scans find the resolved target |
| `Readiness.ReadinessManager.constructor` | manager/readiness.go:29-31 | a new tracker holds no entries |
| `Readiness.ReadinessManager.GetPodStatus` | manager/readiness.go:34-52 | found iff some pod has the UID; the first such pod's status, else the empty status |
| `Readiness.ReadinessManager.Start` | manager/readiness.go:55-58 | the readiness map is unchanged |
| `Readiness.ReadinessManager.SetPodStatus` | manager/readiness.go:61-65 | the readiness map is unchanged |
| `Readiness.ReadinessManager.TerminatePod` | manager/readiness.go:120-124 | the readiness map is unchanged |
| `Readiness.ReadinessManager.RemoveOrphanedStatuses` | manager/readiness.go:127-131 | the readiness map is unchanged |
| `Readiness.ReadinessManager.SetContainerReadiness` | manager/readiness.go:68-117 | the new map is the as-written update of the old one; an empty map stays empty |
| `Readiness.ReadinessManager.SetContainerReadinessWriteThrough` | manager/readiness.go:98-108 | the new map is the write-through update of the old one |
| `Readiness.ReadinessManager.GetPodContainersReadiness` | manager/readiness.go:134-152 | returns the pod's map iff both the namespace and pod levels exist, else nil; reads only |
| `Liveness.IsTerminated` | manager/liveness.go:64-67 | a pod is terminal exactly when it succeeded, failed, was failed by its provider or is being deleted; a pod that is not terminal is in one of the four other phases |
| `Liveness.Notifications` | manager/liveness.go:60-77 | no more notifications than pods; each names a pod that has the UID and is not terminal; when no pod with the UID is terminal, every pod with the UID is notified |
| `Liveness.NotificationsAppend` | manager/liveness.go:60-77 | scanning `l1 + l2` gives `l1`'s notifications, then `l2`'s unless `l1` holds a terminal pod with the UID: each live match is notified in order, and the first terminal match ends the scan |
| `Liveness.NonFailureIsIgnored` | manager/liveness.go:59 | a result other than `Failure` produces nothing |
| `Liveness.UnknownPodIsIgnored` | manager/liveness.go:60-61 | a failure whose UID matches no pod produces nothing |
| `Liveness.TerminalPodIsIgnored` | manager/liveness.go:64-71 | a failure whose first matching pod is terminal produces nothing: Succeeded, Failed, provider-failed reason, or marked for deletion |
| `Liveness.LivePodIsNotified` | manager/liveness.go:73-75 | a failure for the single, non-terminal pod with the UID produces exactly `LivenessUpdate{namespace, name}` |
| `Liveness.LivenessManager.constructor` | manager/liveness.go:28-34 | a new dispatcher has an empty queue within its capacity of 20 |
| `Liveness.LivenessManager.GetLivenessUpdate` | manager/liveness.go:49-51 | returns the dispatcher's own queue |
| `Liveness.LivenessManager.Receive` | manager/liveness.go:49-51 | a consumer's receive on the queue returns the oldest notification and leaves the rest in order |
| `Liveness.LivenessManager.UpdatePodLiveness` | manager/liveness.go:53-79 | the queue becomes the old queue followed by the update's notifications, with no deduplication, and stays within 20 entries |

## Findings

| source | as written | input that shows it | evidently intended | confidence | as-written member | corrected member |
|---|---|---|---|---|---|---|
| providers/errors/errors.go:92-96 | the `TooManyRequests` and `ServiceUnavailable` cases are empty. Go does not fall through, so both return false | `IsRetryable(NewTooManyRequests("m", 5, nil))` is false | all three reasons retryable: the case labels at lines 93-95 are grouped, and the reason descriptions at lines 28-29 and 34-35 say to retry after a wait | medium; not executed | `ProviderErrors.RetryableAsWrittenMissesTooManyRequests` | `ProviderErrors.IsRetryableIntended` |
| manager/readiness.go:98-106 | the maps made for a missing namespace or pod level are never stored. The map starts nil (line 30), so no write ever becomes visible | pod default/web (UID u1) with container app (ID c1): `SetContainerReadiness("u1", "c1", true)` then `GetPodContainersReadiness("default", "web")` returns nil | store the new levels so that the read returns `{"app": true}` | high; not executed | `Readiness.ReadyExample` | `Readiness.WriteThroughThenRead` |

## Left out

- Locking: the read/write lock of the readiness tracker is not modelled. The liveness consumer goroutine, with its `select` on cancellation, is not modelled either. Each operation is a sequential method.
- Liveness.LivenessManager.UpdatePodLiveness: requires room in the queue for all of its notifications. The Go channel send blocks when the queue is full, until a consumer drains it; the model does not capture that waiting.
- Tracing spans, log lines and `convertUpdateToString`: observational only.
- Event emission in `probe` (the reference manager and the recorder): side effects to an external sink.
- The exec, HTTP and TCP backends are an oracle. On attempt `i` the backend answers `replies[i]`, and its answer is used only when dispatch invokes it.
- `ExpandContainerCommandOnlyStatic`: the exec request carries the unexpanded command and the container's environment.
- `url.Parse` and `net.JoinHostPort` in `formatURL`: the URL is kept as its parts (scheme, host, port, raw path). The split of the path into query and fragment is not modelled.
- `strconv.Atoi` is the partial function parameter `atoi`. Its exact syntax and 64-bit range are not modelled.
- Timeouts: `time.Duration(TimeoutSeconds) * time.Second` is carried as the number of seconds.
- Prober.ToLower: lower-cases ASCII letters only. Go's `strings.ToLower` also maps non-ASCII upper-case letters.
- ProviderErrors.ReasonForError: a provider may set a reason string outside the seven constants; the model's reasons are the seven.
- ProviderErrors.ReasonForError: other error types that implement the status interface are modelled as an `OperationError` carrying their status. A nil status pointer, which would panic, is not modelled.
- Readiness.ReadinessManager.GetPodContainersReadiness: Go returns the tracker's own inner map, so a caller's writes to it would reach the tracker. The model returns a copy of the value.
- `podStatusReasonProviderFailed` is defined outside the modelled files. The model takes the value "ProviderFailed"; no property depends on it.
- manager/prober.go (wiring into the kubelet probe manager, `AddPod`/`RemovePod` forwarding) and manager/eventRecorder.go are not part of this model.
