/**
 * The scheduling policy of the kubefed reconcile worker
 * (pkg/controller/util/worker.go), stated on values.
 *
 * The worker sits on three collaborators, each reduced here to the state it
 * exposes at the worker's call boundary:
 *   - the backoff tracker (flowcontrol.Backoff): per key, the current delay
 *     and the clock reading of its last advance;
 *   - the delaying deliverer: one armed delivery per key, and whether its
 *     handler loop is running;
 *   - the work queue: the items waiting, the items in flight, and whether it
 *     has been shut down.
 * Durations are time.Duration values, i.e. counts of nanoseconds.
 */
module Scheduling {

  const Second: int := 1_000_000_000
  const Minute: int := 60 * Second

  datatype Option<T> = None | Some(value: T)

  /** The entry of `k` in `m`, if there is one. */
  function Get<K, V>(m: map<K, V>, k: K): Option<V>
  {
    if k in m then Some(m[k]) else None
  }

  /** A namespaced resource name, the unit of work. */
  datatype QualifiedName = QualifiedName(namespace: string, name: string)

  /** What a reconciliation reports back to the worker. */
  datatype ReconciliationStatus =
    | StatusAllOK
    | StatusError
    | StatusNeedsRecheck
    | StatusNotSynced

  /**
   * A dynamically typed value as it travels through the deliverer and the
   * queue (both carry Go `interface{}` values). The deliverer is handed a
   * pointer to a name; the queue is meant to hold names by value.
   */
  datatype Value =
    | NamePtr(target: QualifiedName)   // a *QualifiedName
    | NameValue(name: QualifiedName)   // a QualifiedName
    | Other(tag: int)                  // a value of any other dynamic type

  datatype WorkerTiming = WorkerTiming(
    interval: int,
    retryDelay: int,
    clusterSyncDelay: int,
    initialBackoff: int,
    maxBackoff: int)

  /** An armed delivery: the payload handed to the handler once `delay` has passed. */
  datatype Delivery = Delivery(payload: Value, delay: int)

  /** QualifiedName.String(), whose format is defined outside worker.go. */
  type KeyFunc = QualifiedName -> string

  /** The user-supplied reconcile function. */
  type ReconcileFunc = QualifiedName -> ReconciliationStatus

  /** A backoff tracker entry: the key's current delay and when it was last advanced. */
  datatype BackoffEntry = BackoffEntry(delay: int, lastUpdate: int)

  /**
   * One advance of the backoff tracker for a key (Next): the new delay, from
   * the key's previous entry (None when it has none) and the clock reading.
   * Growth, and the expiry of an entry whose last advance is too old, belong
   * to flowcontrol.Backoff and are left abstract.
   */
  type BackoffStep = (Option<BackoffEntry>, int) -> int

  /** The functions the worker calls but does not define. */
  datatype Hooks = Hooks(key: KeyFunc, reconcile: ReconcileFunc, backoffNext: BackoffStep)

  /** The collaborators' state as far as the worker sees it. */
  datatype Sched = Sched(
    backoff: map<string, BackoffEntry>,
    pending: map<string, Delivery>,
    delivering: bool,
    queue: seq<Value>,
    processing: set<Value>,
    shuttingDown: bool)

  // ---------------------------------------------------------------------
  // Construction

  /** The timing a new worker runs with: every zero field that has a default gets it. */
  function WithDefaults(t: WorkerTiming): (r: WorkerTiming)
    ensures r.interval != 0 && r.retryDelay != 0 && r.initialBackoff != 0 && r.maxBackoff != 0
    ensures t.interval != 0 ==> r.interval == t.interval
    ensures t.retryDelay != 0 ==> r.retryDelay == t.retryDelay
    ensures t.initialBackoff != 0 ==> r.initialBackoff == t.initialBackoff
    ensures t.maxBackoff != 0 ==> r.maxBackoff == t.maxBackoff
    ensures t.interval == 0 ==> r.interval == Second
    ensures t.retryDelay == 0 ==> r.retryDelay == 10 * Second
    ensures t.initialBackoff == 0 ==> r.initialBackoff == 5 * Second
    ensures t.maxBackoff == 0 ==> r.maxBackoff == Minute
    ensures r.clusterSyncDelay == t.clusterSyncDelay
  {
    WorkerTiming(
      if t.interval == 0 then Second else t.interval,
      if t.retryDelay == 0 then 10 * Second else t.retryDelay,
      t.clusterSyncDelay,
      if t.initialBackoff == 0 then 5 * Second else t.initialBackoff,
      if t.maxBackoff == 0 then Minute else t.maxBackoff)
  }

  /** Defaulting an already defaulted timing changes nothing. */
  lemma WithDefaultsIdempotent(t: WorkerTiming)
    ensures WithDefaults(WithDefaults(t)) == WithDefaults(t)
  {
  }

  // ---------------------------------------------------------------------
  // The delivery rule

  /**
   * deliver: on failure advance the key's backoff (stamping it with the
   * clock reading) and add its new delay to `delay`; otherwise drop the key's
   * backoff. Either way, arm a delivery of a pointer to the name under the
   * same key. Re-arming is taken to replace what was armed before; the
   * deliverer's own rule for that lies outside worker.go. The clock is read
   * only on failure.
   */
  function Deliver(s: Sched, h: Hooks, q: QualifiedName, delay: int, failed: bool, now: int): (r: Sched)
    ensures var k := h.key(q);
      && k in r.pending && r.pending[k].payload == NamePtr(q)
      && (failed ==>
            && k in r.backoff
            && r.backoff[k] == BackoffEntry(h.backoffNext(Get(s.backoff, k), now), now)
            && r.pending[k].delay == delay + r.backoff[k].delay)
      && (!failed ==> k !in r.backoff && r.pending[k].delay == delay)
      && r.backoff - {k} == s.backoff - {k}
      && r.pending - {k} == s.pending - {k}
      && r.(backoff := s.backoff, pending := s.pending) == s
  {
    var k := h.key(q);
    var backoff := if failed then s.backoff[k := BackoffEntry(h.backoffNext(Get(s.backoff, k), now), now)] else s.backoff - {k};
    var total := if failed then delay + backoff[k].delay else delay;
    s.(backoff := backoff, pending := s.pending[k := Delivery(NamePtr(q), total)])
  }

  /** The five enqueue entry points; the error one carries the clock reading it uses. */
  datatype Call =
    | Enqueue(name: QualifiedName)
    | EnqueueForError(name: QualifiedName, now: int)
    | EnqueueForRetry(name: QualifiedName)
    | EnqueueForClusterSync(name: QualifiedName)
    | EnqueueWithDelay(name: QualifiedName, delay: int)

  /** The effect of one enqueue call, each of which goes through the delivery rule. */
  function Apply(s: Sched, h: Hooks, t: WorkerTiming, c: Call): (r: Sched)
    ensures var k := h.key(c.name);
      && k in r.pending && r.pending[k].payload == NamePtr(c.name)
      && (c.Enqueue? ==> r.pending[k].delay == 0)
      && (c.EnqueueForRetry? ==> r.pending[k].delay == t.retryDelay)
      && (c.EnqueueForClusterSync? ==> r.pending[k].delay == t.clusterSyncDelay)
      && (c.EnqueueWithDelay? ==> r.pending[k].delay == c.delay)
      && (c.EnqueueForError? ==>
            && k in r.backoff
            && r.backoff[k] == BackoffEntry(h.backoffNext(Get(s.backoff, k), c.now), c.now)
            && r.pending[k].delay == r.backoff[k].delay)
      && (c.EnqueueForError? <==> k in r.backoff)
      && r.backoff - {k} == s.backoff - {k}
      && r.pending - {k} == s.pending - {k}
      && r.(backoff := s.backoff, pending := s.pending) == s
  {
    match c
    case Enqueue(q) => Deliver(s, h, q, 0, false, 0)
    case EnqueueForError(q, now) => Deliver(s, h, q, 0, true, now)
    case EnqueueForRetry(q) => Deliver(s, h, q, t.retryDelay, false, 0)
    case EnqueueForClusterSync(q) => Deliver(s, h, q, t.clusterSyncDelay, false, 0)
    case EnqueueWithDelay(q, d) => Deliver(s, h, q, d, false, 0)
  }

  /** A run of enqueue calls, in order. */
  function ApplyAll(s: Sched, h: Hooks, t: WorkerTiming, calls: seq<Call>): Sched
    decreases |calls|
  {
    if calls == [] then s else ApplyAll(Apply(s, h, t, calls[0]), h, t, calls[1..])
  }

  lemma {:induction false} ApplyAllAppend(s: Sched, h: Hooks, t: WorkerTiming, a: seq<Call>, b: seq<Call>)
    ensures ApplyAll(s, h, t, a + b) == ApplyAll(ApplyAll(s, h, t, a), h, t, b)
    decreases |a|
  {
    if a == [] {
      assert a + b == b;
    } else {
      assert (a + b)[0] == a[0];
      assert (a + b)[1..] == a[1..] + b;
      ApplyAllAppend(Apply(s, h, t, a[0]), h, t, a[1..], b);
    }
  }

  /** Calls for other keys leave a key's backoff and armed delivery alone. */
  lemma {:induction false} ApplyAllOtherKeys(s: Sched, h: Hooks, t: WorkerTiming, calls: seq<Call>, k: string)
    requires forall i :: 0 <= i < |calls| ==> h.key(calls[i].name) != k
    ensures Get(ApplyAll(s, h, t, calls).backoff, k) == Get(s.backoff, k)
    ensures Get(ApplyAll(s, h, t, calls).pending, k) == Get(s.pending, k)
    decreases |calls|
  {
    if calls != [] {
      var s1 := Apply(s, h, t, calls[0]);
      var k0 := h.key(calls[0].name);
      assert Get(s1.backoff, k) == Get(s.backoff, k) by {
        assert k in s1.backoff - {k0} <==> k in s.backoff - {k0};
      }
      assert Get(s1.pending, k) == Get(s.pending, k) by {
        assert k in s1.pending - {k0} <==> k in s.pending - {k0};
      }
      ApplyAllOtherKeys(s1, h, t, calls[1..], k);
    }
  }

  /**
   * Last writer wins: the last call for a key decides the key's armed
   * delivery and backoff, whatever came before it for that key.
   */
  lemma LastCallWins(s: Sched, h: Hooks, t: WorkerTiming, before: seq<Call>, c: Call, after: seq<Call>)
    requires forall i :: 0 <= i < |after| ==> h.key(after[i].name) != h.key(c.name)
    ensures var k := h.key(c.name);
      var last := Apply(ApplyAll(s, h, t, before), h, t, c);
      var r := ApplyAll(s, h, t, before + [c] + after);
      && Get(r.pending, k) == Get(last.pending, k)
      && Get(r.backoff, k) == Get(last.backoff, k)
  {
    var mid := ApplyAll(s, h, t, before);
    ApplyAllAppend(s, h, t, before + [c], after);
    ApplyAllAppend(s, h, t, before, [c]);
    assert ApplyAll(mid, h, t, [c]) == Apply(mid, h, t, c);
    ApplyAllOtherKeys(Apply(mid, h, t, c), h, t, after, h.key(c.name));
  }

  /** The entry the backoff tracker holds after a failure streak starting from no entry. */
  function Streak(next: BackoffStep, nows: seq<int>): Option<BackoffEntry>
    decreases |nows|
  {
    if nows == [] then None
    else Some(BackoffEntry(next(Streak(next, nows[..|nows| - 1]), nows[|nows| - 1]), nows[|nows| - 1]))
  }

  /** Error enqueues of one name, at the given clock readings. */
  function Failures(q: QualifiedName, nows: seq<int>): seq<Call>
  {
    seq(|nows|, i requires 0 <= i < |nows| => EnqueueForError(q, nows[i]))
  }

  /**
   * Any non-error enqueue wipes a key's failure history: after it, the
   * key's backoff and the delay armed for it depend only on the failures
   * reported since.
   */
  lemma {:induction false} ResetRestartsBackoff(s: Sched, h: Hooks, t: WorkerTiming, c: Call, nows: seq<int>)
    requires !c.EnqueueForError?
    ensures var k := h.key(c.name);
      var r := ApplyAll(s, h, t, [c] + Failures(c.name, nows));
      && Get(r.backoff, k) == Streak(h.backoffNext, nows)
      && (nows != [] ==> k in r.pending && r.pending[k] == Delivery(NamePtr(c.name), r.backoff[k].delay))
    decreases |nows|
  {
    var k := h.key(c.name);
    if nows == [] {
      assert [c] + Failures(c.name, nows) == [c];
      assert ApplyAll(s, h, t, [c]) == Apply(s, h, t, c);
    } else {
      var n := |nows| - 1;
      var init := nows[..n];
      ResetRestartsBackoff(s, h, t, c, init);
      assert [c] + Failures(c.name, nows) == ([c] + Failures(c.name, init)) + [EnqueueForError(c.name, nows[n])];
      var mid := ApplyAll(s, h, t, [c] + Failures(c.name, init));
      ApplyAllAppend(s, h, t, [c] + Failures(c.name, init), [EnqueueForError(c.name, nows[n])]);
      assert ApplyAll(mid, h, t, [EnqueueForError(c.name, nows[n])]) == Apply(mid, h, t, EnqueueForError(c.name, nows[n]));
    }
  }

  // ---------------------------------------------------------------------
  // The delivery handler

  /** The handler installed by Run: queue the name a *QualifiedName payload points to; ignore anything else. */
  function Handle(s: Sched, payload: Value): (r: Sched)
    ensures payload.NamePtr? ==> r.queue == s.queue + [NameValue(payload.target)]
    ensures !payload.NamePtr? ==> r.queue == s.queue
    ensures r.(queue := s.queue) == s
  {
    if payload.NamePtr? then s.(queue := s.queue + [NameValue(payload.target)]) else s
  }

  /** The deliverer's timer for key `k` expires: a running deliverer hands the armed payload to the handler. */
  function Fire(s: Sched, k: string): (r: Sched)
    ensures s.delivering && k in s.pending ==>
      && r.pending == s.pending - {k}
      && (s.pending[k].payload.NamePtr? ==> r.queue == s.queue + [NameValue(s.pending[k].payload.target)])
      && (!s.pending[k].payload.NamePtr? ==> r.queue == s.queue)
    ensures r.(pending := s.pending, queue := s.queue) == s
    ensures !(s.delivering && k in s.pending) ==> r == s
  {
    if s.delivering && k in s.pending then Handle(s.(pending := s.pending - {k}), s.pending[k].payload) else s
  }

  /** Every armed delivery carries a pointer to a name whose key is the delivery's key. */
  ghost predicate Armed(s: Sched, h: Hooks)
  {
    forall k :: k in s.pending ==> s.pending[k].payload.NamePtr? && h.key(s.pending[k].payload.target) == k
  }

  lemma ApplyKeepsArmed(s: Sched, h: Hooks, t: WorkerTiming, c: Call)
    requires Armed(s, h)
    ensures Armed(Apply(s, h, t, c), h)
  {
  }

  /**
   * The handler never drops a delivery the worker armed: firing an armed key
   * queues exactly the name that key was derived from.
   */
  lemma FireArmed(s: Sched, h: Hooks, k: string)
    requires Armed(s, h) && s.delivering && k in s.pending
    ensures var r := Fire(s, k);
      && r.queue == s.queue + [NameValue(s.pending[k].payload.target)]
      && h.key(s.pending[k].payload.target) == k
      && Armed(r, h)
  {
  }

  // ---------------------------------------------------------------------
  // One processing step

  /** What one step did with the item it took. */
  datatype Outcome =
    | Quit
    | Dropped(item: Value)
    | Reconciled(name: QualifiedName, status: ReconciliationStatus)

  datatype StepResult = StepResult(outcome: Outcome, after: Sched)

  /** The enqueue call a reconciliation status asks for, if any. */
  function FollowUp(status: ReconciliationStatus, q: QualifiedName, now: int): Option<Call>
  {
    match status
    case StatusAllOK => None
    case StatusError => Some(EnqueueForError(q, now))
    case StatusNeedsRecheck => Some(EnqueueForRetry(q))
    case StatusNotSynced => Some(EnqueueForClusterSync(q))
  }

  /**
   * reconcileOnce: take the next item (a queue that is shut down and empty
   * reports quit; one that is live and empty blocks, so it is not a step),
   * reconcile it when it is a name, schedule the follow-up its status asks
   * for, and mark the item done.
   */
  function Step(s: Sched, h: Hooks, t: WorkerTiming, now: int): (r: StepResult)
    requires s.queue != [] || s.shuttingDown
    ensures r.outcome.Quit? <==> s.queue == []
    ensures s.queue == [] ==> r.after == s
    ensures s.queue != [] ==>
      && r.after.queue == s.queue[1..]
      && r.after.processing == s.processing - {s.queue[0]}
      && r.after.delivering == s.delivering
      && r.after.shuttingDown == s.shuttingDown
    ensures r.outcome.Dropped? <==> (s.queue != [] && !s.queue[0].NameValue?)
    ensures r.outcome.Reconciled? ==>
      s.queue[0] == NameValue(r.outcome.name) && r.outcome.status == h.reconcile(r.outcome.name)
    ensures !r.outcome.Reconciled? || r.outcome.status == StatusAllOK ==>
      r.after.backoff == s.backoff && r.after.pending == s.pending
    ensures r.outcome.Reconciled? && r.outcome.status != StatusAllOK ==>
      var q := r.outcome.name;
      var k := h.key(q);
      && k in r.after.pending && r.after.pending[k].payload == NamePtr(q)
      && (r.outcome.status == StatusError ==>
            && k in r.after.backoff
            && r.after.backoff[k] == BackoffEntry(h.backoffNext(Get(s.backoff, k), now), now)
            && r.after.pending[k].delay == r.after.backoff[k].delay)
      && (r.outcome.status == StatusNeedsRecheck ==>
            k !in r.after.backoff && r.after.pending[k].delay == t.retryDelay)
      && (r.outcome.status == StatusNotSynced ==>
            k !in r.after.backoff && r.after.pending[k].delay == t.clusterSyncDelay)
      && r.after.backoff - {k} == s.backoff - {k}
      && r.after.pending - {k} == s.pending - {k}
  {
    if s.queue == [] then StepResult(Quit, s)
    else
      var item := s.queue[0];
      var taken := s.(queue := s.queue[1..], processing := s.processing + {item});
      if item.NameValue? then
        var status := h.reconcile(item.name);
        var scheduled := match FollowUp(status, item.name, now)
          case None => taken
          case Some(c) => Apply(taken, h, t, c);
        StepResult(Reconciled(item.name, status), scheduled.(processing := scheduled.processing - {item}))
      else
        StepResult(Dropped(item), taken.(processing := taken.processing - {item}))
  }

  /** A step keeps every armed delivery well formed. */
  lemma StepKeepsArmed(s: Sched, h: Hooks, t: WorkerTiming, now: int)
    requires s.queue != [] || s.shuttingDown
    requires Armed(s, h)
    ensures Armed(Step(s, h, t, now).after, h)
  {
  }

  /**
   * An enqueued name comes back to reconcile: once its delivery fires, the
   * next step on an otherwise empty queue reconciles exactly that name.
   */
  lemma EnqueueReachesReconcile(s: Sched, h: Hooks, t: WorkerTiming, c: Call, now: int)
    requires s.delivering && s.queue == []
    ensures var fired := Fire(Apply(s, h, t, c), h.key(c.name));
      && fired.queue == [NameValue(c.name)]
      && Step(fired, h, t, now).outcome == Reconciled(c.name, h.reconcile(c.name))
  {
  }

  // ---------------------------------------------------------------------
  // The worker loop

  /** worker(): steps until the queue is empty (then it quits or blocks). */
  function Drain(s: Sched, h: Hooks, t: WorkerTiming, now: int): (r: Sched)
    ensures r.queue == []
    ensures r.delivering == s.delivering && r.shuttingDown == s.shuttingDown
    decreases |s.queue|
  {
    if s.queue == [] then s else Drain(Step(s, h, t, now).after, h, t, now)
  }

  /** The keys a run over `items` arms a delivery for: those of names whose reconcile does not report AllOK. */
  function RescheduledKeys(items: seq<Value>, h: Hooks): set<string>
    decreases |items|
  {
    if items == [] then {}
    else
      var rest := RescheduledKeys(items[1..], h);
      if items[0].NameValue? && h.reconcile(items[0].name) != StatusAllOK then {h.key(items[0].name)} + rest else rest
  }

  /** After a drain, deliveries are armed for exactly the keys armed before and those of rescheduled names. */
  lemma {:induction false} DrainPendingKeys(s: Sched, h: Hooks, t: WorkerTiming, now: int)
    ensures Drain(s, h, t, now).pending.Keys == s.pending.Keys + RescheduledKeys(s.queue, h)
    decreases |s.queue|
  {
    if s.queue != [] {
      var st := Step(s, h, t, now);
      DrainPendingKeys(st.after, h, t, now);
      if st.outcome.Reconciled? && st.outcome.status != StatusAllOK {
        var k := h.key(st.outcome.name);
        assert st.after.pending.Keys == s.pending.Keys + {k} by {
          forall x ensures x in st.after.pending <==> x in s.pending || x == k {
            if x != k {
              assert x in st.after.pending <==> x in st.after.pending - {k};
              assert x in s.pending <==> x in s.pending - {k};
            }
          }
        }
      }
    }
  }

  /**
   * Keys that no reconciled name in the queue asks to reschedule keep their
   * backoff and their armed delivery. In particular AllOK leaves a key's
   * backoff as it was: it does not reset it.
   */
  lemma {:induction false} DrainLeavesQuietKeys(s: Sched, h: Hooks, t: WorkerTiming, now: int, k: string)
    requires k !in RescheduledKeys(s.queue, h)
    ensures Get(Drain(s, h, t, now).backoff, k) == Get(s.backoff, k)
    ensures Get(Drain(s, h, t, now).pending, k) == Get(s.pending, k)
    decreases |s.queue|
  {
    if s.queue != [] {
      var st := Step(s, h, t, now);
      if st.outcome.Reconciled? && st.outcome.status != StatusAllOK {
        var k0 := h.key(st.outcome.name);
        assert k != k0;
        assert k in st.after.backoff - {k0} <==> k in s.backoff - {k0};
        assert k in st.after.pending - {k0} <==> k in s.pending - {k0};
      }
      DrainLeavesQuietKeys(st.after, h, t, now, k);
    }
  }

  /** Every item a drain takes is marked done: none of them is left in flight. */
  lemma {:induction false} DrainMarksDone(s: Sched, h: Hooks, t: WorkerTiming, now: int)
    ensures Drain(s, h, t, now).processing == s.processing - (set v | v in s.queue)
    decreases |s.queue|
  {
    if s.queue != [] {
      var st := Step(s, h, t, now);
      DrainMarksDone(st.after, h, t, now);
      assert (set v | v in s.queue) == {s.queue[0]} + (set v | v in s.queue[1..]) by {
        forall v ensures v in s.queue <==> v == s.queue[0] || v in s.queue[1..] {
          if v in s.queue {
            var i :| 0 <= i < |s.queue| && s.queue[i] == v;
            if i > 0 { assert s.queue[1..][i - 1] == v; }
          }
        }
      }
    }
  }

  lemma {:induction false} DrainKeepsArmed(s: Sched, h: Hooks, t: WorkerTiming, now: int)
    requires Armed(s, h)
    ensures Armed(Drain(s, h, t, now), h)
    decreases |s.queue|
  {
    if s.queue != [] {
      StepKeepsArmed(s, h, t, now);
      DrainKeepsArmed(Step(s, h, t, now).after, h, t, now);
    }
  }
}
