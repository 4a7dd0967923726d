// Attempt accounting in every run: where each attempt went, how often a job can be
// claimed, and how long its retries can wait in all.
module Attempts {
  import opened Rows
  import opened Tables
  import opened Machine
  import opened Structure

  function Owned(row: Job): nat {
    if row.worker.Some? then 1 else 0
  }

  function TotalBackoff(attempts: seq<nat>): real {
    if attempts == [] then 0.0
    else TotalBackoff(attempts[..|attempts| - 1]) + Backoff(attempts[|attempts| - 1])
  }

  // Retries happen at rising attempt numbers, all spent, all below the maximum.
  ghost predicate RetriesRise(attempts: seq<nat>, top: int, max: int) {
    && (forall i, k :: 0 <= i < k < |attempts| ==> attempts[i] < attempts[k])
    && (forall i :: 0 <= i < |attempts| ==> 1 <= attempts[i] <= top && attempts[i] < max)
  }

  ghost predicate Accounted(row: Job, h: History) {
    && h.claims == row.attempts
    && row.attempts == |h.retriedAt| + h.deferrals + h.reaps + Owned(row)
    && (|h.retriedAt| + h.reaps == 0 || |h.retriedAt| + h.reaps < row.maxAttempts)
    && RetriesRise(h.retriedAt, row.attempts - Owned(row), row.maxAttempts)
    && h.waited == TotalBackoff(h.retriedAt)
  }

  ghost predicate AccountsOk(s: State) {
    forall j :: j in s.db.jobs ==> j in s.log.histories && Accounted(s.db.jobs[j], s.log.histories[j])
  }

  // A slot about to release for a retry has judged its own attempt.
  ghost predicate RetryJudged(slot: Slot)
    requires slot.Busy?
  {
    slot.pc.ReleaseJob? && slot.pc.reason.Retry? ==> slot.job.CanRetry() && slot.pc.delay == Backoff(slot.job.attempts)
  }

  ghost predicate RetriesJudged(s: State) {
    forall w :: IsBusy(s, w) ==> RetryJudged(s.slots[w])
  }

  lemma RetriesJudgedKept(c: Config, s: State, a: Action)
    requires Enabled(c, s, a) && RetriesJudged(s)
    ensures RetriesJudged(Next(c, s, a))
  {
    hide NextDb, NextCache, NextBucket, NextClients, NextLog, Backoff;
  }

  // ---- One row and its history, transaction by transaction ----

  lemma ClaimAccounted(row: Job, h: History, w: int, now: real, lease: real)
    requires Accounted(row, h) && RowShape(row) && row.status == Queued
    ensures Accounted(Claimed(row, w, now, lease), h.(claims := h.claims + 1))
  {
  }

  lemma RetryAccounted(row: Job, h: History, delay: real, due: real)
    requires Accounted(row, h) && row.worker.Some? && row.CanRetry() && delay == Backoff(row.attempts)
    ensures Accounted(Released(row, due), h.(retriedAt := h.retriedAt + [row.attempts], waited := h.waited + delay))
  {
  }

  lemma DeferralAccounted(row: Job, h: History, due: real)
    requires Accounted(row, h) && row.worker.Some?
    ensures Accounted(Released(row, due), h.(deferrals := h.deferrals + 1))
  {
  }

  lemma ReleaseAccounted(row: Job, h: History, slot: Slot, due: real)
    requires slot.Busy? && slot.pc.ReleaseJob? && RetryJudged(slot)
    requires Accounted(row, h) && row.worker.Some?
    requires row.attempts == slot.job.attempts && row.maxAttempts == slot.job.maxAttempts
    ensures Accounted(Released(row, due), NewHistory(slot, h))
  {
    if slot.pc.reason.Retry? {
      RetryAccounted(row, h, slot.pc.delay, due);
    } else {
      DeferralAccounted(row, h, due);
    }
    hide Accounted, Backoff;
  }

  lemma ReapAccounted(row: Job, h: History, now: real)
    requires Accounted(row, h) && RowShape(row)
    ensures Accounted(JobReaped(row, now), if row.Reclaimable(now) then h.(reaps := h.reaps + 1) else h)
  {
  }

  // ---- Every step ----

  lemma AdvanceAccounts(c: Config, s: State, a: Action)
    requires Enabled(c, s, a) && a.Advance? && TablesOk(s) && SnapshotsOk(s) && FencingOk(s) && AccountsOk(s) && RetriesJudged(s)
    ensures AccountsOk(Next(c, s, a))
  {
    hide NextCache, NextBucket, NextClients, NextSlots, Accounted;
    var slot := s.slots[a.w];
    assert Fenced(s, a.w) && SnapshotOk(s.db, slot) && RetryJudged(slot);
    forall j | j in Next(c, s, a).db.jobs
      ensures j in Next(c, s, a).log.histories && Accounted(Next(c, s, a).db.jobs[j], Next(c, s, a).log.histories[j])
    {
      AdvanceAccounted(c, s, a, j);
    }
  }

  // Every other pipeline transaction leaves the accounted columns alone.
  lemma PipelineAccount(db: Db, w: int, slot: Slot, now: real, j: int)
    requires slot.Busy? && j in db.jobs
    requires !(slot.pc.ReleaseJob? && j == slot.jobId && Owns(db, w, j))
    ensures j in PipelineDb(db, w, slot, now).jobs
    ensures var row' := PipelineDb(db, w, slot, now).jobs[j];
            row'.attempts == db.jobs[j].attempts && row'.worker == db.jobs[j].worker && row'.maxAttempts == db.jobs[j].maxAttempts
  {
  }

  lemma SameAccount(row: Job, row': Job, h: History)
    requires Accounted(row, h)
    requires row'.attempts == row.attempts && row'.worker == row.worker && row'.maxAttempts == row.maxAttempts
    ensures Accounted(row', h)
  {
  }

  lemma AdvanceAccounted(c: Config, s: State, a: Action, j: int)
    requires Enabled(c, s, a) && a.Advance? && AccountsOk(s) && j in Next(c, s, a).db.jobs
    requires Fenced(s, a.w) && SnapshotOk(s.db, s.slots[a.w]) && RetryJudged(s.slots[a.w])
    ensures j in Next(c, s, a).log.histories && Accounted(Next(c, s, a).db.jobs[j], Next(c, s, a).log.histories[j])
  {
    hide NextCache, NextBucket, NextClients, NextSlots, Accounted;
    var slot := s.slots[a.w];
    PipelineColumns(s.db, a.w, slot, a.now);
    if slot.pc.ReleaseJob? && j == slot.jobId && Owns(s.db, a.w, j) {
      ReleaseAccounted(s.db.jobs[j], s.log.histories[j], slot, a.now + slot.pc.delay);
    } else {
      hide PipelineDb;
      PipelineAccount(s.db, a.w, slot, a.now, j);
      SameAccount(s.db.jobs[j], Next(c, s, a).db.jobs[j], s.log.histories[j]);
    }
  }

  lemma ReapAccounts(c: Config, s: State, a: Action)
    requires Enabled(c, s, a) && a.Reap? && TablesOk(s) && AccountsOk(s)
    ensures AccountsOk(Next(c, s, a))
  {
    hide NextCache, NextBucket, NextClients, NextSlots, Accounted;
    forall j | j in s.db.jobs
      ensures Accounted(JobReaped(s.db.jobs[j], a.now),
                        if s.db.jobs[j].Reclaimable(a.now) then s.log.histories[j].(reaps := s.log.histories[j].reaps + 1) else s.log.histories[j])
    {
      ReapAccounted(s.db.jobs[j], s.log.histories[j], a.now);
    }
  }

  lemma ResetAccounts(c: Config, s: State, a: Action)
    requires Enabled(c, s, a) && a.Reset? && TablesOk(s) && AccountsOk(s)
    ensures AccountsOk(Next(c, s, a))
  {
    hide NextCache, NextBucket, NextClients, NextSlots;
  }

  lemma OtherAccounts(c: Config, s: State, a: Action)
    requires Enabled(c, s, a) && !a.Reap? && !a.Reset? && !a.Advance? && TablesOk(s) && AccountsOk(s)
    ensures AccountsOk(Next(c, s, a))
  {
    hide NextCache, NextBucket, NextClients, NextSlots, Accounted, Constraints, EveryRequestHasJob, RequestShape, Inserts;
    match a
    case Claim(w, j, now) => ClaimAccounted(s.db.jobs[j], s.log.histories[j], w, now, c.lease);
    case Insert(_, r, j, now) => NewAccounted(r, s.clients[a.client].priority, c.maxAttempts, now);
    case Beat(w, now) =>
      var j := s.slots[w].jobId;
      if Extends(s.db, j, w) {
        ExtendAccounted(s.db.jobs[j], s.log.histories[j], now, c.lease);
      }
    case _ =>
  }

  lemma NewAccounted(r: int, priority: int, maxAttempts: int, now: real)
    ensures Accounted(NewJob(r, priority, maxAttempts, now), NoHistory)
  {
  }

  lemma ExtendAccounted(row: Job, h: History, now: real, lease: real)
    requires Accounted(row, h)
    ensures Accounted(Extended(row, now, lease), h)
  {
  }

  lemma AccountsKept(c: Config, s: State, a: Action)
    requires Enabled(c, s, a) && TablesOk(s) && SnapshotsOk(s) && FencingOk(s) && AccountsOk(s) && RetriesJudged(s)
    ensures AccountsOk(Next(c, s, a))
  {
    hide *;
    if a.Advance? {
      AdvanceAccounts(c, s, a);
    } else if a.Reap? {
      ReapAccounts(c, s, a);
    } else if a.Reset? {
      ResetAccounts(c, s, a);
    } else {
      OtherAccounts(c, s, a);
    }
  }

  // ---- Consequences ----

  // A job is claimed at most once more than max_attempts - 1 plus its deferrals; one that
  // is never deferred is claimed at most max_attempts times.
  lemma ClaimsBounded(row: Job, h: History)
    requires Accounted(row, h) && row.maxAttempts >= 1
    ensures h.claims <= row.maxAttempts + h.deferrals
  {
  }

  // The sum of min(30, 2^(a-1)) over a = 1 .. n.
  function Ceiling(n: nat): real {
    if n == 0 then 0.0 else Ceiling(n - 1) + Backoff(n)
  }

  lemma BackoffPositive(a: nat)
    ensures 0.0 < Backoff(a) <= 30.0
  {
    if a > 0 {
      Pow2Positive(a - 1);
    }
  }

  lemma {:induction false} Pow2Positive(n: nat)
    ensures Pow2(n) >= 1
  {
    if n > 0 {
      Pow2Positive(n - 1);
    }
  }

  lemma {:induction false} CeilingGrows(m: nat, n: nat)
    requires m <= n
    ensures Ceiling(m) <= Ceiling(n)
  {
    if m < n {
      CeilingGrows(m, n - 1);
      BackoffPositive(n);
    }
  }

  lemma {:induction false} RisingSum(attempts: seq<nat>, n: nat)
    requires forall i, k :: 0 <= i < k < |attempts| ==> attempts[i] < attempts[k]
    requires forall i :: 0 <= i < |attempts| ==> 1 <= attempts[i] <= n
    ensures TotalBackoff(attempts) <= Ceiling(n)
  {
    if attempts == [] {
      CeilingGrows(0, n);
    } else {
      var front, last := attempts[..|attempts| - 1], attempts[|attempts| - 1];
      RisingSum(front, last - 1);
      CeilingGrows(last, n);
    }
  }

  lemma {:induction false} CeilingClosed(n: nat)
    ensures n <= 5 ==> Ceiling(n) == (Pow2(n) - 1) as real
    ensures Ceiling(n) <= 30.0 * n as real
  {
    if n > 0 {
      CeilingClosed(n - 1);
      BackoffPositive(n);
      if n <= 5 {
        assert Pow2(0) == 1 && Pow2(1) == 2 && Pow2(2) == 4 && Pow2(3) == 8 && Pow2(4) == 16 && Pow2(5) == 32;
      }
    }
  }

  // All the time a job spends in retry back-off between two resets.
  lemma TotalBackoffBounded(row: Job, h: History)
    requires Accounted(row, h) && row.maxAttempts >= 1
    ensures h.waited <= Ceiling(row.maxAttempts - 1)
    ensures row.maxAttempts <= 6 ==> h.waited <= (Pow2(row.maxAttempts - 1) - 1) as real
    ensures h.waited <= 30.0 * (row.maxAttempts - 1) as real
  {
    RisingSum(h.retriedAt, row.maxAttempts - 1);
    CeilingClosed(row.maxAttempts - 1);
  }
}
