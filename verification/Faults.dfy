// Which exceptions are retried, which bury the job, and which only put it off.
module Faults {
  import opened Wrappers
  import opened Rows
  import opened TokenBucket
  import opened Machine
  import opened Structure
  import opened CallsPerJob

  // The exceptions that count as transient.
  predicate Transient(kind: FaultKind) {
    kind == LlmTimeout || kind == LlmRandomFailure || kind == DatabaseUnavailable || kind == RedisUnavailable
    || kind == JobLeaseExpired
  }

  // The exception a step ends in for a slot, if any: one of an operation it waits for, one
  // the model raises, no answer from Redis, or a wait time for a rate of zero.
  function Thrown(c: Config, s: State, a: Action, w: int): Option<Fault>
    requires IsBusy(s, w)
  {
    match a
    case Raise(v, fault, _) => if v == w then Some(fault) else None
    case Advance(v, o, now) =>
      if v != w then None
      else if s.slots[w].pc.AwaitModel? && o.model.Raised? then Some(o.model.fault)
      else if s.slots[w].pc.TakeToken? then
        (match o.redis
         case ReplyLost(error) => Some(Fault(RedisUnavailable, error))
         case Unreachable(error) => Some(Fault(RedisUnavailable, error))
         case Answer =>
           if KeyGranted(c.capacity, c.rate, s.bucket, now) || c.rate != 0.0 then None
           else Some(Fault(Unclassified, "float division by zero")))
      else None
    case _ => None
  }

  // A rate limit puts the job off for as long as it says; a transient fault with an attempt
  // left is retried; everything else buries the job.
  lemma ThrownIsHandled(c: Config, s: State, a: Action, w: int)
    requires Enabled(c, s, a) && IsBusy(s, w) && Thrown(c, s, a, w).Some?
    ensures IsBusy(Next(c, s, a), w)
    ensures var fault, job, pc := Thrown(c, s, a, w).value, s.slots[w].job, Next(c, s, a).slots[w].pc;
      && (fault.kind.RateLimitExceeded? ==> pc == ReleaseJob(fault.kind.wait, Deferral))
      && (Transient(fault.kind) && job.attempts < job.maxAttempts ==> pc == ReleaseJob(Backoff(job.attempts), Retry(fault.message)))
      && (Transient(fault.kind) && job.attempts >= job.maxAttempts ==> pc == KillJob(fault.message))
      && (fault.kind.Unclassified? ==> pc == KillJob(fault.message))
  {
    hide NextDb, NextCache, NextBucket, NextClients, NextLog, Backoff, KeyGranted;
  }

  // Nothing else gets a slot there.
  lemma OnlyThrownIsHandled(c: Config, s: State, a: Action, w: int)
    requires Enabled(c, s, a) && IsBusy(s, w) && IsBusy(Next(c, s, a), w)
    requires var pc := Next(c, s, a).slots[w].pc;
      pc != s.slots[w].pc && (pc.KillJob? || (pc.ReleaseJob? && !pc.reason.Denied?))
    ensures Thrown(c, s, a, w).Some?
    ensures var fault, job, pc := Thrown(c, s, a, w).value, s.slots[w].job, Next(c, s, a).slots[w].pc;
      && (pc.KillJob? <==> fault.kind.Unclassified? || (Transient(fault.kind) && job.attempts >= job.maxAttempts))
      && (pc.ReleaseJob? && pc.reason.Deferral? <==> fault.kind.RateLimitExceeded?)
      && (pc.ReleaseJob? && pc.reason.Retry? <==> Transient(fault.kind) && job.attempts < job.maxAttempts)
  {
    hide NextDb, NextCache, NextBucket, NextClients, NextLog, Backoff, KeyGranted;
  }

  // A failure and a retry are recorded on the request with the error that caused them, and
  // count one more than when the job was claimed.
  lemma FailureRecorded(c: Config, s: State, a: Action)
    requires Enabled(c, s, a) && a.Advance? && (s.slots[a.w].pc.FailRequest? || s.slots[a.w].pc.WriteRetry?)
    requires SnapshotsOk(s)
    ensures var slot, r := s.slots[a.w], s.slots[a.w].job.requestId;
      && r in s.db.requests && r in NextDb(c, s, a).requests
      && var row := NextDb(c, s, a).requests[r];
      && row.retryCount == slot.request.retryCount + 1 && row.response == s.db.requests[r].response
      && (slot.pc.FailRequest? ==> row.status == ReqFailed && row.error == Some(slot.pc.failError))
      && (slot.pc.WriteRetry? ==> row.status == ReqQueued && row.error == Some(slot.pc.retryError))
  {
    SnapshotOf(s, a.w);
  }

  // ---- Over whole runs: what a dead job has been through ----

  // A step in which something nobody classified goes wrong for a job.
  ghost predicate FailsUnclassified(c: Config, s: State, a: Action, j: int) {
    && (a.Raise? || a.Advance?) && IsBusy(s, a.w) && s.slots[a.w].jobId == j
    && var fault := Thrown(c, s, a, a.w); fault.Some? && fault.value.kind.Unclassified?
  }

  ghost predicate OnlyTransient(c: Config, s: State, acts: seq<Action>, j: int)
    requires Legal(c, s, acts)
    decreases |acts|
  {
    acts == [] || (!FailsUnclassified(c, s, acts[0], j) && OnlyTransient(c, Next(c, s, acts[0]), acts[1..], j))
  }

  // The claim is no newer than the row, and gives up on it only without an attempt left.
  ghost predicate GivesUpLate(s: State, w: int, j: int)
    requires IsBusy(s, w) && j in s.db.jobs
  {
    var job, row := s.slots[w].job, s.db.jobs[j];
    && job.attempts <= row.attempts && job.maxAttempts == row.maxAttempts
    && (s.slots[w].pc.KillJob? ==> job.attempts >= job.maxAttempts)
  }

  ghost predicate DiesLate(s: State, j: int) {
    j in s.db.jobs ==>
      && (s.db.jobs[j].status == Dead ==> s.db.jobs[j].attempts >= s.db.jobs[j].maxAttempts)
      && forall w :: IsBusy(s, w) && s.slots[w].jobId == j ==> GivesUpLate(s, w, j)
  }

  lemma RowDiesLate(c: Config, s: State, a: Action, j: int)
    requires Enabled(c, s, a) && DiesLate(s, j) && !Resets(s, a, j)
    requires j in NextDb(c, s, a).jobs
    ensures var row := NextDb(c, s, a).jobs[j];
      && (row.status == Dead ==> row.attempts >= row.maxAttempts)
      && (j in s.db.jobs ==> row.attempts >= s.db.jobs[j].attempts && row.maxAttempts == s.db.jobs[j].maxAttempts)
  {
    match a
    case Advance(w, _, now) =>
    case Reap(now) => assert NextDb(c, s, a).jobs[j] == JobReaped(s.db.jobs[j], now);
    case _ =>
  }

  lemma SlotGivesUpLate(c: Config, s: State, a: Action, j: int, w: int)
    requires Enabled(c, s, a) && DiesLate(s, j) && SnapshotsOk(s) && !Resets(s, a, j) && !FailsUnclassified(c, s, a, j)
    requires IsBusy(Next(c, s, a), w) && Next(c, s, a).slots[w].jobId == j && j in Next(c, s, a).db.jobs
    ensures GivesUpLate(Next(c, s, a), w, j)
  {
    hide Next, NextDb, SnapshotsOk, Thrown, AfterFault, NextPc;
    NextParts(c, s, a);
    if a.Claim? && a.w == w {
      ClaimedNow(c, s, a);
    } else {
      SlotOrigin(c, s, a, w);
      assert SnapshotOk(s.db, s.slots[w]) by { SnapshotOf(s, w); }
      RowDiesLate(c, s, a, j);
      if Next(c, s, a).slots[w].pc != s.slots[w].pc && Next(c, s, a).slots[w].pc.KillJob? {
        OnlyThrownIsHandled(c, s, a, w);
        ThrownBySelf(c, s, a, w);
      }
    }
  }

  lemma NextParts(c: Config, s: State, a: Action)
    requires Enabled(c, s, a)
    ensures Next(c, s, a).db == NextDb(c, s, a) && Next(c, s, a).slots == NextSlots(c, s, a)
  {
  }

  lemma SnapshotOf(s: State, w: int)
    requires SnapshotsOk(s) && IsBusy(s, w)
    ensures SnapshotOk(s.db, s.slots[w])
  {
  }

  lemma ClaimedNow(c: Config, s: State, a: Action)
    requires Enabled(c, s, a) && a.Claim?
    ensures IsBusy(Next(c, s, a), a.w) && a.jobId in Next(c, s, a).db.jobs
    ensures var slot := Next(c, s, a).slots[a.w]; slot.jobId == a.jobId && slot.job == Next(c, s, a).db.jobs[a.jobId] && slot.pc.LookupExact?
  {
  }

  lemma ThrownBySelf(c: Config, s: State, a: Action, w: int)
    requires IsBusy(s, w) && Thrown(c, s, a, w).Some?
    ensures (a.Raise? || a.Advance?) && a.w == w
  {
  }

  lemma DiesLateKept(c: Config, s: State, a: Action, j: int)
    requires Enabled(c, s, a) && DiesLate(s, j) && SnapshotsOk(s) && !Resets(s, a, j) && !FailsUnclassified(c, s, a, j)
    ensures DiesLate(Next(c, s, a), j)
  {
    hide NextDb, NextSlots, NextCache, NextBucket, NextClients, NextLog, SnapshotsOk, FailsUnclassified, GivesUpLate, Resets, Enabled;
    if j in Next(c, s, a).db.jobs {
      RowDiesLate(c, s, a, j);
      forall w | IsBusy(Next(c, s, a), w) && Next(c, s, a).slots[w].jobId == j ensures GivesUpLate(Next(c, s, a), w, j) {
        SlotGivesUpLate(c, s, a, j, w);
      }
    }
  }

  lemma {:induction false} DiesLateAlong(c: Config, s: State, acts: seq<Action>, j: int)
    requires Legal(c, s, acts) && NeverReset(c, s, acts, j) && OnlyTransient(c, s, acts, j)
    requires DiesLate(s, j) && TablesOk(s) && SnapshotsOk(s)
    ensures DiesLate(Run(c, s, acts), j)
    decreases |acts|
  {
    hide Next, Enabled, DiesLate, TablesOk, SnapshotsOk, FailsUnclassified, Resets;
    if acts != [] {
      TablesKept(c, s, acts[0]);
      SnapshotsKept(c, s, acts[0]);
      DiesLateKept(c, s, acts[0], j);
      DiesLateAlong(c, Next(c, s, acts[0]), acts[1..], j);
    }
  }

  // In every run in which nothing but transient faults and rate limits happens to a job, and
  // nobody resets it, it is dead only with all its attempts used up.
  lemma DeadOnlyWithoutAttempts(c: Config, acts: seq<Action>, j: int)
    requires Legal(c, Initial, acts) && NeverReset(c, Initial, acts, j) && OnlyTransient(c, Initial, acts, j)
    ensures var s := Run(c, Initial, acts);
      j in s.db.jobs && s.db.jobs[j].status == Dead ==> s.db.jobs[j].attempts >= s.db.jobs[j].maxAttempts
  {
    hide Legal, Run, NeverReset, OnlyTransient;
    assert TablesOk(Initial) && SnapshotsOk(Initial) && DiesLate(Initial, j);
    DiesLateAlong(c, Initial, acts, j);
  }

  // 1, 2, 4, 8, 16 seconds, and 30 from the sixth attempt on.
  lemma {:induction false} BackoffTable(n: nat)
    ensures Backoff(1) == 1.0 && Backoff(2) == 2.0 && Backoff(3) == 4.0 && Backoff(4) == 8.0 && Backoff(5) == 16.0
    ensures n >= 6 ==> Backoff(n) == 30.0
  {
    assert Pow2(1) == 2 && Pow2(2) == 4 && Pow2(3) == 8 && Pow2(4) == 16;
    if n > 6 {
      BackoffTable(n - 1);
      assert Pow2(n - 1) == 2 * Pow2(n - 2);
    } else if n == 6 {
      assert Pow2(5) == 32;
    }
  }
}
