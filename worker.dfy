/**
 * The reconcile worker of pkg/controller/util/worker.go as an object whose
 * methods update the state of its collaborators in place. Each method is
 * proved against the value-level rule of the same name in Scheduling.
 */
module Worker {
  import opened Scheduling

  class AsyncWorker {
    const name: string
    const reconcile: ReconcileFunc
    /** QualifiedName.String(), the key under which backoff and deliveries are tracked. */
    const keyOf: KeyFunc
    /** The backoff tracker's advance, as built from the bounds in `timing`. */
    const backoffNext: BackoffStep

    var timing: WorkerTiming

    // flowcontrol.Backoff: the current delay of each key that has an entry,
    // with the clock reading of its last advance
    var backoff: map<string, BackoffEntry>

    // DelayingDeliverer: the armed delivery of each key, and whether the
    // handler loop started by Run is firing them
    var pending: map<string, Delivery>
    var delivering: bool

    // workqueue: waiting items in order, items taken and not yet done,
    // and whether ShutDown has been called
    var queue: seq<Value>
    var processing: set<Value>
    var shuttingDown: bool

    function Env(): Hooks
    {
      Hooks(keyOf, reconcile, backoffNext)
    }

    function State(): Sched
      reads this
    {
      Sched(backoff, pending, delivering, queue, processing, shuttingDown)
    }

    /** Every armed delivery points at a name whose key it is armed under. */
    ghost predicate DeliveriesArmed()
      reads this
    {
      Armed(State(), Env())
    }

    /** Between steps, deliveries are armed well and no item is in flight: each one taken is marked done. */
    ghost predicate Valid()
      reads this
    {
      DeliveriesArmed() && processing == {}
    }

    /**
     * NewReconcileWorker. `newBackOff` stands for flowcontrol.NewBackOff:
     * given the initial and maximum delay it yields the tracker's advance.
     */
    constructor (name: string, reconcile: ReconcileFunc, keyOf: KeyFunc,
                 newBackOff: (int, int) -> BackoffStep, timing: WorkerTiming)
      ensures this.name == name && this.reconcile == reconcile && this.keyOf == keyOf
      ensures this.timing == WithDefaults(timing)
      ensures backoffNext == newBackOff(this.timing.initialBackoff, this.timing.maxBackoff)
      ensures State() == Sched(map[], map[], false, [], {}, false)
      ensures Valid()
    {
      var t := timing;
      if t.interval == 0 {
        t := t.(interval := Second);
      }
      if t.retryDelay == 0 {
        t := t.(retryDelay := 10 * Second);
      }
      if t.initialBackoff == 0 {
        t := t.(initialBackoff := 5 * Second);
      }
      if t.maxBackoff == 0 {
        t := t.(maxBackoff := Minute);
      }
      this.name := name;
      this.reconcile := reconcile;
      this.keyOf := keyOf;
      this.timing := t;
      this.backoffNext := newBackOff(t.initialBackoff, t.maxBackoff);
      backoff := map[];
      pending := map[];
      delivering := false;
      queue := [];
      processing := {};
      shuttingDown := false;
    }

    /** deliver; `now` is the clock reading, used only when `failed`. */
    method Deliver(q: QualifiedName, delay: int, failed: bool, now: int)
      requires DeliveriesArmed()
      modifies this
      ensures DeliveriesArmed() && timing == old(timing)
      ensures State() == Scheduling.Deliver(old(State()), Env(), q, delay, failed, now)
    {
      var key := keyOf(q);
      var total := delay;
      if failed {
        backoff := backoff[key := BackoffEntry(backoffNext(Get(backoff, key), now), now)];
        total := total + backoff[key].delay;
      } else {
        backoff := backoff - {key};
      }
      pending := pending[key := Delivery(NamePtr(q), total)];
    }

    method Enqueue(q: QualifiedName)
      requires DeliveriesArmed()
      modifies this
      ensures DeliveriesArmed() && timing == old(timing)
      ensures State() == Apply(old(State()), Env(), timing, Call.Enqueue(q))
    {
      Deliver(q, 0, false, 0);
    }

    method EnqueueForError(q: QualifiedName, now: int)
      requires DeliveriesArmed()
      modifies this
      ensures DeliveriesArmed() && timing == old(timing)
      ensures State() == Apply(old(State()), Env(), timing, Call.EnqueueForError(q, now))
    {
      Deliver(q, 0, true, now);
    }

    method EnqueueForRetry(q: QualifiedName)
      requires DeliveriesArmed()
      modifies this
      ensures DeliveriesArmed() && timing == old(timing)
      ensures State() == Apply(old(State()), Env(), timing, Call.EnqueueForRetry(q))
    {
      Deliver(q, timing.retryDelay, false, 0);
    }

    method EnqueueForClusterSync(q: QualifiedName)
      requires DeliveriesArmed()
      modifies this
      ensures DeliveriesArmed() && timing == old(timing)
      ensures State() == Apply(old(State()), Env(), timing, Call.EnqueueForClusterSync(q))
    {
      Deliver(q, timing.clusterSyncDelay, false, 0);
    }

    /** EnqueueObject; `newQualifiedName` stands for NewQualifiedName on a runtime object. */
    method EnqueueObject<Obj>(obj: Obj, newQualifiedName: Obj -> QualifiedName)
      requires DeliveriesArmed()
      modifies this
      ensures DeliveriesArmed() && timing == old(timing)
      ensures State() == Apply(old(State()), Env(), timing, Call.Enqueue(newQualifiedName(obj)))
    {
      Enqueue(newQualifiedName(obj));
    }

    method EnqueueWithDelay(q: QualifiedName, delay: int)
      requires DeliveriesArmed()
      modifies this
      ensures DeliveriesArmed() && timing == old(timing)
      ensures State() == Apply(old(State()), Env(), timing, Call.EnqueueWithDelay(q, delay))
    {
      Deliver(q, delay, false, 0);
    }

    method SetDelay(retryDelay: int, clusterSyncDelay: int)
      requires Valid()
      modifies this
      ensures Valid()
      ensures timing == old(timing).(retryDelay := retryDelay, clusterSyncDelay := clusterSyncDelay)
      ensures State() == old(State())
    {
      timing := timing.(retryDelay := retryDelay);
      timing := timing.(clusterSyncDelay := clusterSyncDelay);
    }

    /** Run, as far as it is sequential: the deliverer starts firing into the handler. */
    method Run()
      requires Valid()
      modifies this
      ensures Valid()
      ensures timing == old(timing)
      ensures State() == old(State()).(delivering := true)
    {
      delivering := true;
    }

    /** What closing the stop channel does: shut the queue down and stop the deliverer. */
    method Stop()
      requires Valid()
      modifies this
      ensures Valid()
      ensures timing == old(timing)
      ensures State() == old(State()).(shuttingDown := true, delivering := false)
    {
      shuttingDown := true;
      delivering := false;
    }

    /** The handler passed to the deliverer in Run. */
    method HandleDelivery(item: Value)
      requires Valid()
      modifies this
      ensures Valid()
      ensures timing == old(timing)
      ensures State() == Handle(old(State()), item)
    {
      if item.NamePtr? {
        queue := queue + [NameValue(item.target)];
      }
    }

    /** The deliverer's timer for `key` expires. */
    method Fire(key: string)
      requires Valid()
      modifies this
      ensures Valid() && timing == old(timing)
      ensures State() == Scheduling.Fire(old(State()), key)
      ensures old(delivering) && key in old(pending) ==>
        queue == old(queue) + [NameValue(old(pending)[key].payload.target)]
    {
      if delivering && key in pending {
        var d := pending[key];
        pending := pending - {key};
        HandleDelivery(d.payload);
        FireArmed(old(State()), Env(), key);
      }
    }

    /**
     * reconcileOnce; `now` is the clock reading used if the status is an
     * error. Only called where queue.Get returns: a live, empty queue blocks.
     */
    method ReconcileOnce(now: int) returns (more: bool)
      requires Valid()
      requires queue != [] || shuttingDown
      modifies this
      ensures Valid() && timing == old(timing)
      ensures more <==> old(queue) != []
      ensures State() == Step(old(State()), Env(), timing, now).after
    {
      if queue == [] {
        return false;
      }
      var item := queue[0];
      queue, processing := queue[1..], processing + {item};
      if item.NameValue? {
        var q := item.name;
        var status := reconcile(q);
        match status
        case StatusAllOK =>
        case StatusError => EnqueueForError(q, now);
        case StatusNeedsRecheck => EnqueueForRetry(q);
        case StatusNotSynced => EnqueueForClusterSync(q);
      }
      processing := processing - {item};
      return true;
    }

    /**
     * worker: reconcile until the queue quits, or, in this sequential
     * model, until queue.Get would block on an empty, live queue.
     */
    method Worker(now: int)
      requires Valid()
      modifies this
      ensures Valid() && timing == old(timing)
      ensures State() == Drain(old(State()), Env(), timing, now)
    {
      var more := true;
      while more && (queue != [] || shuttingDown)
        invariant Valid() && timing == old(timing)
        invariant Drain(State(), Env(), timing, now) == Drain(old(State()), Env(), timing, now)
        invariant !more ==> queue == []
        decreases |queue| + (if more then 1 else 0)
      {
        StepKeepsArmed(State(), Env(), timing, now);
        more := ReconcileOnce(now);
      }
    }
  }
}
