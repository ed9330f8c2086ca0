# kubefed reconcile worker: scheduling policy in Dafny

This project models the reconcile worker of kubefed's controllers
(`pkg/controller/util/worker.go`). Callers hand the worker qualified
resource names. The worker schedules each name for delivery, after a delay
that may include a per-key backoff. When a delivery fires, the name goes into a
work queue. A processing step takes it from there and calls the user's
reconcile function. The returned `ReconciliationStatus` decides whether and
how the name is scheduled again.

The worker's three collaborators are reduced to the state the worker sees at
their call boundary:

- the backoff tracker (`flowcontrol.Backoff`): the current delay of each key
  and the clock reading of its last advance;
- the delaying deliverer: the delivery armed for each key (payload and delay),
  and whether its handler loop runs;
- the work queue: waiting items in order, items taken but not yet done, and the
  shut-down flag.

Two modules:

- `Scheduling` (`scheduling.dfy`) states every rule of the worker as a
  function on these values (`Sched`). It also holds the lemmas about runs of
  enqueue calls and about draining the queue.
- `Worker` (`worker.dfy`) is the worker itself: class `AsyncWorker`, whose
  fields are that same state. Its methods update the state in place as the Go
  methods do. Each method is proved to leave `State()` equal to the
  `Scheduling` rule applied to the old state. Its invariant `Valid()` has two
  parts. Every armed delivery carries a pointer to a name whose key it is armed
  under (`DeliveriesArmed()`, which the enqueue methods keep even while an item
  is in flight). And between steps no item is in flight, because every item
  taken is marked done.

Values that travel through the deliverer and the queue are Go `interface{}`
values. They are modelled by `Value`, which tells a `*QualifiedName` (what
`deliver` arms) apart from a `QualifiedName` (what the handler queues and what
`reconcileOnce` accepts) and from any other dynamic type.

Some behaviour of the code is easy to misread, and the model keeps it as written:

- A reconciliation that reports `StatusAllOK` schedules nothing. It also leaves
  the key's backoff entry alone, so it does not reset the backoff. Only an
  enqueue with `failed == false` resets it (`DrainLeavesQuietKeys`, `Step`).
- `EnqueueForError` arms a delay of 0 plus the advanced backoff. No retry delay
  is added.
- `EnqueueForRetry`, `EnqueueForClusterSync` and `EnqueueWithDelay` all pass
  `failed == false`, so each of them resets the key's backoff (`Apply`,
  `ResetRestartsBackoff`).

## Model

| member | source | states |
|---|---|---|
| `Scheduling.WithDefaults` | pkg/controller/util/worker.go:69-81 | Zero `Interval`, `RetryDelay`, `InitialBackoff` and `MaxBackoff` become 1s, 10s, 5s and 1m. Non-zero fields are kept. `ClusterSyncDelay` is never defaulted. |
| `Scheduling.WithDefaultsIdempotent` | pkg/controller/util/worker.go:69-81 | Defaulting a defaulted timing changes nothing. |
| `Worker.AsyncWorker.constructor` | pkg/controller/util/worker.go:69-90 | The new worker has the defaulted timing. Its backoff tracker is built from the defaulted `InitialBackoff`/`MaxBackoff`. Its backoff, deliveries and queue start empty, with the deliverer not yet running. |
| `Scheduling.Deliver` | pkg/controller/util/worker.go:140-151 | On failure the key's backoff is advanced once from its previous entry and stamped with the clock reading, and the armed delay is `delay` plus that new backoff. Otherwise the key's backoff entry is removed and the armed delay is exactly `delay`. The payload is a pointer to the name. Backoff and delivery use the same key. Other keys and the queue are unchanged. |
| `Worker.AsyncWorker.Deliver` | pkg/controller/util/worker.go:142-151 | Updates backoff and deliveries in place exactly as `Scheduling.Deliver`, keeps `DeliveriesArmed()` and leaves `timing` alone. |
| `Scheduling.Apply` | pkg/controller/util/worker.go:92-115 | `Enqueue` arms 0, `EnqueueForRetry` arms `RetryDelay`, `EnqueueForClusterSync` arms `ClusterSyncDelay` and `EnqueueWithDelay(d)` arms `d`, and each of these removes the key's backoff. `EnqueueForError` advances the backoff and arms exactly the new backoff value. A key has a backoff entry afterwards iff the call was `EnqueueForError`. |
| `Worker.AsyncWorker.Enqueue` | pkg/controller/util/worker.go:92-94 | New state is `Apply` of `Enqueue(q)` on the old state. |
| `Worker.AsyncWorker.EnqueueForError` | pkg/controller/util/worker.go:96-98 | New state is `Apply` of `EnqueueForError(q, now)`. |
| `Worker.AsyncWorker.EnqueueForRetry` | pkg/controller/util/worker.go:100-102 | New state is `Apply` of `EnqueueForRetry(q)` with the current timing. |
| `Worker.AsyncWorker.EnqueueForClusterSync` | pkg/controller/util/worker.go:104-106 | New state is `Apply` of `EnqueueForClusterSync(q)` with the current timing. |
| `Worker.AsyncWorker.EnqueueObject` | pkg/controller/util/worker.go:108-111 | Same as `Enqueue` of the name derived from the object. |
| `Worker.AsyncWorker.EnqueueWithDelay` | pkg/controller/util/worker.go:113-115 | New state is `Apply` of `EnqueueWithDelay(q, d)`. |
| `Scheduling.ApplyAllOtherKeys` | pkg/controller/util/worker.go:143-150 | A run of enqueue calls none of whose names has key `k` leaves `k`'s backoff entry and armed delivery as they were. |
| `Scheduling.LastCallWins` | pkg/controller/util/worker.go:143-150 | With re-arming modelled as replacement, after any run of calls, `k`'s armed delivery and backoff are those set by the last call for `k`, whatever came before it. |
| `Scheduling.ResetRestartsBackoff` | pkg/controller/util/worker.go:144-149 | After any non-error enqueue followed by failures at clock readings `nows`, the key's backoff entry is the tracker's advance applied from no entry over `nows` alone, stamped with the last of them. Older history is forgotten. The armed delay equals that backoff. |
| `Worker.AsyncWorker.SetDelay` | pkg/controller/util/worker.go:135-138 | Sets `RetryDelay` and `ClusterSyncDelay`. `Interval`, `InitialBackoff`, `MaxBackoff` and all collaborator state are unchanged. |
| `Scheduling.Handle` | pkg/controller/util/worker.go:119-124 | A `*QualifiedName` payload appends the name it points to, by value, to the queue. Any other payload leaves everything unchanged. |
| `Worker.AsyncWorker.HandleDelivery` | pkg/controller/util/worker.go:119-124 | Updates the queue in place exactly as `Scheduling.Handle`. |
| `Scheduling.Fire` | pkg/controller/util/worker.go:119-124 | A running deliverer removes the armed delivery and passes its payload to the handler. A `*QualifiedName` payload appends the name it points to, by value. Any other payload leaves the queue alone. A stopped deliverer, or a key with nothing armed, changes nothing. Backoff, in-flight items and both flags never change. |
| `Worker.AsyncWorker.Fire` | pkg/controller/util/worker.go:119-124 | As `Scheduling.Fire`. Under `Valid()`, a fired armed key always appends the name it was armed for. |
| `Scheduling.FireArmed` | pkg/controller/util/worker.go:119-124 | Under the armed-delivery invariant, firing key `k` appends exactly the name whose key is `k`. The handler's type check never drops a delivery the worker armed. |
| `Scheduling.ApplyKeepsArmed` | pkg/controller/util/worker.go:143-150 | Every enqueue call keeps the invariant that each armed delivery points at a name whose key it is armed under. |
| `Worker.AsyncWorker.Run` | pkg/controller/util/worker.go:117-125 | The deliverer starts firing into the handler. Nothing else changes. |
| `Worker.AsyncWorker.Stop` | pkg/controller/util/worker.go:128-132 | The queue is shut down and the deliverer stopped. Nothing else changes. |
| `Scheduling.Step` | pkg/controller/util/worker.go:158-182 | The step quits iff the queue is empty (then shut down), and then it changes nothing. Otherwise the head item is taken and marked done. A non-name item is dropped without reconciling. A name is reconciled. `AllOK` arms nothing and keeps the backoff. `Error` advances the backoff, stamps it with the clock reading and arms its delay. `NeedsRecheck` arms `RetryDelay` and `NotSynced` arms `ClusterSyncDelay`, and both of these reset the backoff. Other keys are unchanged. |
| `Worker.AsyncWorker.ReconcileOnce` | pkg/controller/util/worker.go:158-182 | Returns false iff the queue was empty, and updates the state in place exactly as `Scheduling.Step`. |
| `Scheduling.StepKeepsArmed` | pkg/controller/util/worker.go:158-182 | A processing step keeps the armed-delivery invariant. |
| `Scheduling.EnqueueReachesReconcile` | pkg/controller/util/worker.go:142-170 | With a running deliverer and an empty queue, any enqueue call for `q` followed by its delivery firing queues exactly `q`. The next step reconciles exactly `q`. |
| `Scheduling.Drain` | pkg/controller/util/worker.go:153-156 | Its own contract says only that repeating the step empties the queue and keeps both flags. What draining does to deliveries, backoff and in-flight items is stated by `DrainPendingKeys`, `DrainLeavesQuietKeys`, `DrainMarksDone` and `DrainKeepsArmed`. |
| `Worker.AsyncWorker.Worker` | pkg/controller/util/worker.go:153-156 | The loop's final state is `Scheduling.Drain` of the initial state, and it keeps `Valid()`, so nothing is left in flight. |
| `Scheduling.DrainPendingKeys` | pkg/controller/util/worker.go:170-181 | After a drain, deliveries are armed for exactly the previously armed keys plus the keys of queued names whose reconcile did not report `AllOK`. No failure is abandoned. |
| `Scheduling.DrainLeavesQuietKeys` | pkg/controller/util/worker.go:170-181 | A key that no drained name asked to reschedule keeps both its backoff entry and its armed delivery. |
| `Scheduling.DrainMarksDone` | pkg/controller/util/worker.go:163 | Every item a drain takes is marked done, so none of them is left in flight. |
| `Scheduling.DrainKeepsArmed` | pkg/controller/util/worker.go:153-156 | Draining keeps the armed-delivery invariant. |

## Left out

- The goroutines of `Run`: the `wait.Until` loop that restarts `worker` every
  `Interval` and the goroutine that waits on the stop channel. `Stop` models
  what that goroutine does once the channel closes. `Interval` is kept in the
  timing but nothing in the model reads it.
- `StartBackoffGC` and the internals of `flowcontrol.Backoff`. Its growth law
  and the expiry of old entries are the abstract `BackoffStep`, built from the
  initial and maximum backoff by a factory passed to the constructor. The step
  sees the key's previous entry, which holds the clock reading of its last
  advance, so expiry can be expressed by it. Which step the library uses is not
  modelled. Its garbage collection is concurrent housekeeping.
- Scheduling.Deliver, Scheduling.LastCallWins: re-arming a key is modelled as
  unconditional replacement of its armed delivery. What the deliverer does with
  a key that is already armed is its own rule, outside `worker.go`, and it may
  keep an earlier delivery time. So `pending[k].delay` is the last delay
  requested for `k`, not necessarily the delay that takes effect.
- The internals of the work queue, which is library code. `Add` appends.
  Dropping duplicates, dirty redelivery at `Done` and ignoring `Add` after
  `ShutDown` are not modelled. `Done` removes the item from the in-flight set.
- Worker.AsyncWorker.ReconcileOnce: requires a non-empty queue or a shut-down
  queue. On a live, empty queue `Get` blocks, and a sequential model has no step
  there.
- Worker.AsyncWorker.Worker: stops where `Get` would block instead of waiting
  for the next item. All steps of one call read the same clock value.
- The deliverer's timer heap. A delivery's delay is recorded, but time does not
  pass in the model: `Fire` lets any armed key fire at any moment.
- `time.Now()` is a clock-reading parameter. `deliver` reads the clock only when
  `failed` is true, so the non-failing enqueues pass a placeholder 0.
- `QualifiedName.String()` and `NewQualifiedName` are defined outside
  `worker.go`. They are parameters (`keyOf`, `newQualifiedName`).
- The reconcile function is a fixed function of the name. A reconcile function
  whose status changes from one call to the next is not captured.
- Scheduling.Deliver: durations are unbounded integers. An `int64` overflow of
  `delay` plus the backoff is not modelled.
- A `ReconciliationStatus` value outside the four named ones is not modelled.
  The Go `switch` has no default, so such a value would schedule nothing.
