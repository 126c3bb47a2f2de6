/** The shared state of one queue (src/queue.rs) and what each critical section does to it. */
module Scheduler {
  import opened Wrappers
  import opened Tasks

  const DEFAULT_POOL: Pool := "default"
  const COMPLETED_TTL: Time := 60 * SECOND
  const MAX_DISPATCHERS := 2
  const RATE_LIMIT_DELAY: Time := 60 * SECOND

  /** Everything behind the queue's mutexes and semaphores. */
  datatype Shared = Shared(
    hashes: set<Hash>,
    queued: set<Id>,
    executing: set<Id>,
    completed: map<Id, Time>,
    pqs: map<Pool, multiset<Record>>,
    permits: map<Pool, nat>,
    counts: map<Pool, nat>)

  /** The shared state of a queue that opens a store: new pools, the hashes of live tasks. */
  function Opened(live: map<Id, Record>, caps: map<Pool, nat>): Shared {
    Shared(
      set id | id in live && live[id].payloadHash.Some? :: live[id].payloadHash.value,
      {}, {}, map[],
      map p | p in caps :: multiset{},
      caps,
      map p | p in caps :: 0)
  }

  // ------------------------------------------------------------- enqueue

  /** True when the payload is already pending, so the task is dropped. */
  predicate Duplicate(sh: Shared, r: Record) {
    r.payloadHash.Some? && r.payloadHash.value in sh.hashes
  }

  function RegisterHash(sh: Shared, r: Record): Shared {
    if r.payloadHash.Some? then sh.(hashes := sh.hashes + {r.payloadHash.value}) else sh
  }

  function ReleaseHash(sh: Shared, r: Record): Shared {
    if r.payloadHash.Some? then sh.(hashes := sh.hashes - {r.payloadHash.value}) else sh
  }

  // --------------------------------------------------------------- sweep

  /** The heap a due task goes to: its own pool, else the default one, else none. */
  function PoolFor(sh: Shared, r: Record): Option<Pool> {
    var name := if r.pool.Some? then r.pool.value else DEFAULT_POOL;
    if name in sh.pqs then Some(name)
    else if DEFAULT_POOL in sh.pqs then Some(DEFAULT_POOL)
    else None
  }

  predicate DepsDone(live: map<Id, Record>, r: Record) {
    forall i :: 0 <= i < |r.Deps()| ==> r.Deps()[i] !in live
  }

  /** Whether the sweep pushes `r`: its dependencies are gone from the store, it is due,
      and it is neither queued nor executing. */
  predicate Pushes(sh: Shared, live: map<Id, Record>, r: Record, now: Time) {
    && DepsDone(live, r)
    && r.executeAt <= now && r.retryAfterTime <= now && r.deletedAt.None?
    && r.id !in sh.executing && r.id !in sh.queued
    && PoolFor(sh, r).Some?
  }

  function Push(sh: Shared, p: Pool, r: Record): Shared
    requires p in sh.pqs
  {
    sh.(queued := sh.queued + {r.id}, pqs := sh.pqs[p := sh.pqs[p] + multiset{r}])
  }

  /** One turn of the sweep's loop. */
  function Visit(sh: Shared, live: map<Id, Record>, r: Record, now: Time): Shared {
    if Pushes(sh, live, r, now) then Push(sh, PoolFor(sh, r).value, r) else sh
  }

  // ---------------------------------------------------------- dispatcher

  /** `r` may be popped: it is in the heap and nothing there is more urgent. */
  ghost predicate Poppable(sh: Shared, p: Pool, r: Record) {
    && p in sh.pqs && r in sh.pqs[p]
    && forall x :: x in sh.pqs[p] ==> Urgency(x) <= Urgency(r)
  }

  function Pop(sh: Shared, p: Pool, r: Record): Shared
    requires p in sh.pqs
  {
    sh.(pqs := sh.pqs[p := sh.pqs[p] - multiset{r}])
  }

  function Unqueue(sh: Shared, id: Id): Shared {
    sh.(queued := sh.queued - {id})
  }

  /** The move from queued to executing; an id that already executes is only unqueued. */
  function Start(sh: Shared, id: Id): Shared {
    if id in sh.executing then Unqueue(sh, id)
    else Unqueue(sh, id).(executing := sh.executing + {id})
  }

  function TakePermit(sh: Shared, p: Pool): Shared
    requires p in sh.permits && sh.permits[p] > 0
  {
    sh.(permits := sh.permits[p := sh.permits[p] - 1])
  }

  function GivePermit(sh: Shared, p: Pool): Shared {
    sh.(permits := sh.permits[p := (if p in sh.permits then sh.permits[p] else 0) + 1])
  }

  function Loops(sh: Shared, p: Pool): nat {
    if p in sh.counts then sh.counts[p] else 0
  }

  function AddLoop(sh: Shared, p: Pool): Shared {
    sh.(counts := sh.counts[p := Loops(sh, p) + 1])
  }

  /** The decrement is on an unsigned count: it needs one to take away. */
  function DropLoop(sh: Shared, p: Pool): Shared
    requires Loops(sh, p) > 0
  {
    sh.(counts := sh.counts[p := Loops(sh, p) - 1])
  }

  // ----------------------------------------------------------- execution

  function MarkCompleted(sh: Shared, id: Id, now: Time): Shared {
    sh.(completed := sh.completed[id := now])
  }

  function Unguard(sh: Shared, id: Id): Shared {
    sh.(executing := sh.executing - {id})
  }

  /** `evict_expired_completed`. */
  function Evict(sh: Shared, now: Time): Shared {
    sh.(completed := map id | id in sh.completed && now - sh.completed[id] < COMPLETED_TTL :: sh.completed[id])
  }

  /** `task.retry_count < task.max_retries - 1`: another attempt is allowed. */
  predicate MayRetry(r: Record) {
    r.retryCount < r.maxRetries - 1
  }

  /** The record a cron task is saved with after a success. */
  function Rescheduled(r: Record, next: Time): Record {
    r.(executeAt := next, retryCount := 0, lastErrorObj := None, lastJobError := None)
  }

  /** The record a rate-limited task is saved with. */
  function Deferred(r: Record, now: Time): Record {
    r.(retryAfterTime := now + RATE_LIMIT_DELAY)
  }

  /** The tombstone of a child blocked by `parent`. */
  function Blocked(child: Record, parent: Id, now: Time): Record {
    child.UpdateRetryConfig(Some("blocked_by_failed_parent: " + parent), now).MarkDeleted(now)
  }
}
