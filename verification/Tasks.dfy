/** The task record of src/task.rs: what is written to a log line, the stamps that
    are not, and the order in which a pool heap hands tasks out. */
module Tasks {
  import opened Wrappers

  type Id = string
  type Hash = string
  type Pool = string
  type Time = int // nanoseconds

  const SECOND: Time := 1_000_000_000

  datatype JobError = JobError(message: string, retryWorthy: bool)

  /** The persisted fields of a task: exactly what one log line carries. */
  datatype Record = Record(
    id: Id,
    retryCount: int,
    maxRetries: int,
    retryAfterHours: real,
    retryAfterTime: Time,
    taskData: string,
    taskType: string,
    lastErrorObj: Option<string>,
    lastJobError: Option<JobError>,
    rateLimitGroup: Option<string>,
    maxPerMinute: Option<int>,
    autoDedupe: Option<bool>,
    urgencyScore: Option<real>,
    payloadHash: Option<Hash>,
    deletedAt: Option<Time>,
    executeAt: Time,
    cron: Option<string>,
    webhookUrl: Option<string>,
    maxExecutionSeconds: Option<nat>,
    pool: Option<Pool>,
    triggerAfterIds: Option<seq<Id>>)
  {
    /** `mark_deleted`, its persisted half. */
    function MarkDeleted(now: Time): Record {
      this.(deletedAt := Some(now))
    }

    /** `update_retry_config`, its persisted half. */
    function UpdateRetryConfig(error: Option<string>, now: Time): Record {
      this.(
        retryCount := retryCount + 1,
        retryAfterTime := now + TruncatedSeconds(retryAfterHours) * SECOND,
        lastErrorObj := error,
        lastJobError := if error.Some? then Some(JobError(error.value, true)) else None)
    }

    /** The ids this task waits for; no list and an empty list mean the same. */
    function Deps(): seq<Id> {
      if triggerAfterIds.Some? then triggerAfterIds.value else []
    }
  }

  /** A record in memory, with the stamps a log line does not carry. */
  datatype Task = Task(rec: Record, createdAt: Time, updatedAt: Time) {
    function MarkDeleted(now: Time): Task {
      this.(rec := rec.MarkDeleted(now), updatedAt := now)
    }
  }

  /** What `serde_json` makes of a line at time `stamp`: both stamps default to it. */
  function Parse(rec: Record, stamp: Time): Task {
    Task(rec, stamp, stamp)
  }

  /** Seconds in `hours`, cut toward zero as Rust's `as i64` does. */
  function TruncatedSeconds(hours: real): int {
    var s := hours * 3600.0;
    if s >= 0.0 then s.Floor else -(-s).Floor
  }

  /** `d` is the whole seconds in `s`, cut toward zero. */
  predicate CutSeconds(d: Time, s: real) {
    && d % SECOND == 0
    && (s >= 0.0 ==> (d / SECOND) as real <= s < (d / SECOND) as real + 1.0)
    && (s < 0.0 ==> (d / SECOND) as real - 1.0 < s <= (d / SECOND) as real)
  }

  /** `saved` is what an attempt at `r` that failed at `now` leaves: one more attempt on the
      count, the error in both places, the retry put off by the task's delay, the rest as it was. */
  predicate RetryOf(saved: Record, r: Record, error: string, now: Time) {
    && saved == r.(retryCount := saved.retryCount, retryAfterTime := saved.retryAfterTime,
                   lastErrorObj := saved.lastErrorObj, lastJobError := saved.lastJobError)
    && saved.retryCount == r.retryCount + 1
    && saved.lastErrorObj == Some(error) && saved.lastJobError == Some(JobError(error, true))
    && CutSeconds(saved.retryAfterTime - now, r.retryAfterHours * 3600.0)
  }

  /** A delay has one whole number of seconds, so a failed attempt leaves one record. */
  lemma RetryUnique(a: Record, b: Record, r: Record, error: string, now: Time)
    requires RetryOf(a, r, error, now) && RetryOf(b, r, error, now)
    ensures a == b
  {
    CutUnique(a.retryAfterTime - now, b.retryAfterTime - now, r.retryAfterHours * 3600.0);
  }

  lemma CutUnique(d: Time, e: Time, s: real)
    requires CutSeconds(d, s) && CutSeconds(e, s)
    ensures d == e
  {
    assert d / SECOND == e / SECOND;
    assert d == d / SECOND * SECOND && e == e / SECOND * SECOND;
  }

  lemma RetryMeans(r: Record, error: string, now: Time)
    ensures RetryOf(r.UpdateRetryConfig(Some(error), now), r, error, now)
  {}

  /** `Ord for PriorityTask`: a missing score counts as zero. */
  function Urgency(r: Record): real {
    if r.urgencyScore.Some? then r.urgencyScore.value else 0.0
  }
}
