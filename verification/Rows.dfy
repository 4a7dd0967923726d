// The two table rows, what each transaction does to a row, and the pure rules of
// the failure path.  Worker ids, row ids and times are integers and reals.
module Rows {
  import opened Wrappers
  import opened AutoId

  datatype RequestStatus = ReqReceived | ReqQueued | ReqProcessing | ReqCompleted | ReqFailed
  datatype JobStatus = Queued | Processing | Completed | Failed | Dead

  datatype Request = Request(
    userId: string, promptId: string, text: string, textHash: Digest, priority: int,
    embedding: Option<seq<real>>, status: RequestStatus, cached: Option<bool>,
    response: Option<string>, error: Option<string>, retryCount: int,
    updatedAt: real, completedAt: Option<real>)

  datatype Job = Job(
    requestId: int, status: JobStatus, worker: Option<int>, attempts: nat, maxAttempts: int,
    priority: int, scheduledAt: real, lockedUntil: Option<real>, heartbeatAt: Option<real>,
    startedAt: Option<real>, finishedAt: Option<real>, error: Option<string>)
  {
    predicate CanRetry() {
      attempts < maxAttempts
    }

    predicate LeaseExpired(now: real) {
      lockedUntil.Some? && lockedUntil.value < now
    }

    // Counted against the queue limit.
    predicate InFlight() {
      status == Queued || status == Processing
    }

    predicate Eligible(now: real) {
      status == Queued && scheduledAt <= now
    }

    // The reaper takes the row back, or buries it.
    predicate Reclaimable(now: real) {
      status == Processing && LeaseExpired(now) && CanRetry()
    }

    predicate Buried(now: real) {
      status == Processing && LeaseExpired(now) && !CanRetry()
    }
  }

  function NewRequest(user: string, promptId: string, text: string, hash: Digest, priority: int, now: real): Request {
    Request(user, promptId, text, hash, priority, None, ReqQueued, None, None, None, 0, now, None)
  }

  function NewJob(requestId: int, priority: int, maxAttempts: int, now: real): Job {
    Job(requestId, Queued, None, 0, maxAttempts, priority, now, None, None, None, None, None)
  }

  // A lease that has only begun has not run out, and giving the job back leaves nothing of
  // the claim but the attempt it used up and the two time stamps.
  function Claimed(row: Job, w: int, now: real, lease: real): (r: Job)
    ensures lease >= 0.0 ==> !r.LeaseExpired(now)
    ensures row.status == Queued && row.worker.None? && row.lockedUntil.None? ==>
              Released(r, row.scheduledAt) == row.(attempts := row.attempts + 1, heartbeatAt := r.heartbeatAt, startedAt := r.startedAt)
    ensures row.startedAt.Some? ==> r.startedAt == row.startedAt
  {
    row.(status := Processing, worker := Some(w), lockedUntil := Some(now + lease), heartbeatAt := Some(now),
         startedAt := if row.startedAt.Some? then row.startedAt else Some(now), attempts := row.attempts + 1)
  }

  function Extended(row: Job, now: real, lease: real): Job {
    row.(lockedUntil := Some(now + lease), heartbeatAt := Some(now))
  }

  // Due is when it can be claimed again, whatever happened before.
  function Released(row: Job, due: real): (r: Job)
    ensures forall now :: r.Eligible(now) <==> due <= now
  {
    row.(status := Queued, worker := None, lockedUntil := None, scheduledAt := due)
  }

  function JobDone(row: Job, now: real): Job {
    row.(status := Completed, finishedAt := Some(now), lockedUntil := None)
  }

  function JobKilled(row: Job, error: string, now: real): Job {
    row.(status := Dead, error := Some(error), finishedAt := Some(now), lockedUntil := None)
  }

  // A job that starts over is as good as new.
  function JobReset(row: Job, now: real): (r: Job)
    ensures r == NewJob(row.requestId, row.priority, row.maxAttempts, now)
  {
    row.(status := Queued, worker := None, attempts := 0, lockedUntil := None, heartbeatAt := None,
         startedAt := None, finishedAt := None, error := None, scheduledAt := now)
  }

  function JobReaped(row: Job, now: real): Job {
    if row.Reclaimable(now) then row.(status := Queued, worker := None, lockedUntil := None)
    else if row.Buried(now) then row.(status := Dead, finishedAt := Some(now))
    else row
  }

  function RequestReaped(request: Request, job: Job, now: real): Request {
    if job.Reclaimable(now) then request.(status := ReqQueued, updatedAt := now)
    else if job.Buried(now) then
      request.(status := ReqFailed, updatedAt := now,
               error := if job.error.Some? then job.error else Some("Max attempts exceeded"))
    else request
  }

  function RequestDone(request: Request, response: string, cached: bool, embedding: seq<real>, now: real): Request {
    request.(status := ReqCompleted, response := Some(response), cached := Some(cached), error := None,
             completedAt := Some(now), updatedAt := now, embedding := Some(embedding))
  }

  function RequestFailed(request: Request, error: string, retryCount: int, now: real): Request {
    request.(status := ReqFailed, error := Some(error), retryCount := retryCount, updatedAt := now)
  }

  function RequestRetried(request: Request, error: string, retryCount: int, now: real): Request {
    request.(status := ReqQueued, error := Some(error), retryCount := retryCount, updatedAt := now)
  }

  // (priority, scheduled_at) ascending.
  predicate NotAfter(a: Job, b: Job) {
    a.priority < b.priority || (a.priority == b.priority && a.scheduledAt <= b.scheduledAt)
  }

  // ---- The failure path ----

  datatype FaultKind =
    | LlmTimeout | LlmRandomFailure | DatabaseUnavailable | RedisUnavailable | JobLeaseExpired
    | RateLimitExceeded(wait: real)
    | Unclassified

  datatype Fault = Fault(kind: FaultKind, message: string)

  predicate IsRetryable(kind: FaultKind) {
    !kind.Unclassified?
  }

  function Pow2(n: nat): nat {
    if n == 0 then 1 else 2 * Pow2(n - 1)
  }

  // min(30, 2 ** (attempt - 1)) seconds.
  function Backoff(attempt: nat): real {
    var doubled := if attempt == 0 then 0.5 else Pow2(attempt - 1) as real;
    if doubled <= 30.0 then doubled else 30.0
  }

  datatype Verdict = Defer(wait: real) | GiveUp | RetryIn(delay: real)

  function OnFailure(job: Job, kind: FaultKind): Verdict {
    if kind.RateLimitExceeded? then Defer(kind.wait)
    else if !IsRetryable(kind) || !job.CanRetry() then GiveUp
    else RetryIn(Backoff(job.attempts))
  }
}
