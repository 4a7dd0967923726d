// Attempts beyond the maximum.  A deferral uses an attempt up and claim_next does not look at
// the maximum, so attempt_count can pass max_attempts: exactly when a job that has none left
// is claimed, which takes a deferral, and without limit.
module Deferrals {
  import opened Wrappers
  import opened AutoId
  import opened Rows
  import opened Tables
  import opened Machine
  import opened Structure
  import opened TokenBucket
  import opened RealArith
  import opened Attempts
  import opened AllRuns
  import opened Scenarios

  // ---- When ----

  lemma PipelineAttempts(db: Db, w: int, slot: Slot, now: real, j: int)
    requires slot.Busy? && j in db.jobs
    ensures j in PipelineDb(db, w, slot, now).jobs && PipelineDb(db, w, slot, now).jobs[j].attempts == db.jobs[j].attempts
    ensures PipelineDb(db, w, slot, now).jobs[j].maxAttempts == db.jobs[j].maxAttempts
  {
  }

  // The one step that passes the maximum: a claim of a job that has reached it.
  lemma MaximumPassedIff(c: Config, s: State, a: Action, j: int)
    requires Enabled(c, s, a) && j in s.db.jobs
    requires s.db.jobs[j].attempts <= s.db.jobs[j].maxAttempts
    ensures j in NextDb(c, s, a).jobs
    ensures NextDb(c, s, a).jobs[j].attempts > NextDb(c, s, a).jobs[j].maxAttempts <==>
              a.Claim? && a.jobId == j && s.db.jobs[j].attempts == s.db.jobs[j].maxAttempts
  {
    hide PipelineDb;
    if a.Advance? {
      PipelineAttempts(s.db, a.w, s.slots[a.w], a.now, j);
    }
  }

  // And what lets such a job wait for a claim at all.
  lemma WaitingPastMaximumWasDeferred(c: Config, acts: seq<Action>, j: int)
    requires Legal(c, Initial, acts) && j in Run(c, Initial, acts).db.jobs
    ensures var s := Run(c, Initial, acts); var row := s.db.jobs[j];
      j in s.log.histories && (row.status == Queued && row.attempts >= row.maxAttempts >= 1 ==> s.log.histories[j].deferrals >= 1)
  {
    hide Run, Legal, Next;
    EveryRunSound(c, acts);
    var s := Run(c, Initial, acts);
    assert Accounted(s.db.jobs[j], s.log.histories[j]) && RowShape(s.db.jobs[j]);
  }

  // ---- How ----

  // The slot has been denied a token, and its job has no attempt left after this one.
  ghost predicate OnLastAttempt(s: State, w: int) {
    && IsBusy(s, w) && s.slots[w].pc.ReleaseJob? && s.slots[w].pc.reason.Denied?
    && Owns(s.db, w, s.slots[w].jobId) && s.db.jobs[s.slots[w].jobId].attempts == s.db.jobs[s.slots[w].jobId].maxAttempts
  }

  // A slot that has no token to use gives its job back, and the next claim counts again:
  // from every state where it stands there on its last attempt, two steps go past the maximum.
  lemma DeferralsExceedMaximum(c: Config, s: State, w: int, now: real)
    requires TablesOk(s) && OnLastAttempt(s, w)
    ensures var j := s.slots[w].jobId; var acts := [Advance(w, Missed, now), Claim(w, j, now + s.slots[w].pc.delay)];
      && Legal(c, s, acts) && j in Run(c, s, acts).db.jobs
      && Run(c, s, acts).db.jobs[j].attempts == Run(c, s, acts).db.jobs[j].maxAttempts + 1
  {
    var j := s.slots[w].jobId;
    var release, claim := Advance(w, Missed, now), Claim(w, j, now + s.slots[w].pc.delay);
    var s1 := Next(c, s, release);
    GivenBack(c, s, w, now);
    ClaimedRow(c, s1, claim);
    hide Enabled, NextDb, NextSlots, NextCache, NextBucket, NextClients, NextLog;
    OneStep(c, s1, claim);
    assert [release, claim][1..] == [claim];
  }

  lemma GivenBack(c: Config, s: State, w: int, now: real)
    requires TablesOk(s) && IsBusy(s, w) && s.slots[w].pc.ReleaseJob? && s.slots[w].pc.reason.Denied?
    requires Owns(s.db, w, s.slots[w].jobId)
    ensures var j, release := s.slots[w].jobId, Advance(w, Missed, now);
      && Enabled(c, s, release)
      && var s1 := Next(c, s, release);
      && Enabled(c, s1, Claim(w, j, now + s.slots[w].pc.delay))
      && s1.db.jobs[j].attempts == s.db.jobs[j].attempts && s1.db.jobs[j].maxAttempts == s.db.jobs[j].maxAttempts
  {
    hide NextCache, NextBucket, NextClients, NextLog;
  }

  // Jobs in the queue, nothing in the cache, and one slot with nothing to do.
  ghost predicate Resting(c: Config, s: State) {
    && s.slots == map[1 := Idle] && s.cache == map[] && 1 in s.db.jobs && s.db.requests.Keys == s.db.jobs.Keys
    && (forall j :: j in s.db.jobs ==>
          s.db.jobs[j].status == Queued && s.db.jobs[j].requestId == j && s.db.jobs[j].maxAttempts == c.maxAttempts)
  }

  // From the queue to the verdict of the rate limiter.
  lemma Asked(c: Config, s: State, j: int, now: real) returns (s': State)
    requires Reached(c, Initial, s) && Resting(c, s) && j in s.db.jobs && s.db.jobs[j].scheduledAt <= now && s.log.clock <= now && c.rate != 0.0
    ensures Reached(c, Initial, s') && s'.db == ClaimTx(s.db, j, 1, now, c.lease) && s'.cache == map[] && s'.log.clock == now
    ensures s'.slots.Keys == {1} && IsBusy(s', 1) && s'.slots[1].jobId == j && s'.bucket == KeyAfterCall(c.capacity, c.rate, s.bucket, now)
    ensures s'.slots[1].pc == if KeyGranted(c.capacity, c.rate, s.bucket, now) then CallModel else ReleaseJob(WaitTime(c.rate), Denied)
    ensures s'.log.calls == s.log.calls
  {
    hide Reached, Enabled, Next, KeyAfterCall, KeyGranted, WaitTime, HashText;
    var s1 := ClaimReached(c, Initial, s, 1, j, now);
    var s2 := MissReached(c, Initial, s1, 1, now);
    s' := TokenReached(c, Initial, s2, 1, now);
  }

  // Claimed, deferred, and back in the queue with one more attempt used up.
  lemma Deferred(c: Config, s: State, j: int, now: real) returns (s': State)
    requires Reached(c, Initial, s) && Resting(c, s) && j in s.db.jobs && s.db.jobs[j].scheduledAt <= now && s.log.clock <= now && c.rate != 0.0
    ensures Reached(c, Initial, s') && Resting(c, s') && s'.log.clock == now && s'.bucket == KeyAfterCall(c.capacity, c.rate, s.bucket, now)
    ensures s'.db.jobs.Keys == s.db.jobs.Keys && s'.db.jobs[j].attempts == s.db.jobs[j].attempts + 1
    ensures s'.db.jobs[j].scheduledAt == if KeyGranted(c.capacity, c.rate, s.bucket, now) then now else now + WaitTime(c.rate)
    ensures forall i :: i in s.db.jobs && i != j ==> s'.db.jobs[i] == s.db.jobs[i]
    ensures |s'.log.calls| == |s.log.calls| + if KeyGranted(c.capacity, c.rate, s.bucket, now) then 1 else 0
  {
    hide Reached, Enabled, Next, KeyAfterCall, KeyGranted, WaitTime;
    var s1 := Asked(c, s, j, now);
    if KeyGranted(c.capacity, c.rate, s.bucket, now) {
      var s2 := RefusalReached(c, Initial, s1, 1, now);
      s' := ReleaseReached(c, Initial, s2, 1, now);
    } else {
      s' := ReleaseReached(c, Initial, s1, 1, now);
    }
  }

  // Deferred n times over.
  lemma {:induction false} DeferredTimes(c: Config, s: State, j: int, n: nat) returns (s': State)
    requires Reached(c, Initial, s) && Resting(c, s) && j in s.db.jobs && c.rate > 0.0
    ensures Reached(c, Initial, s') && Resting(c, s') && s'.db.jobs.Keys == s.db.jobs.Keys
    ensures s'.db.jobs[j].attempts == s.db.jobs[j].attempts + n
    ensures forall i :: i in s.db.jobs && i != j ==> s'.db.jobs[i] == s.db.jobs[i]
    decreases n
  {
    hide Reached;
    if n == 0 {
      s' := s;
    } else {
      var s1 := DeferredTimes(c, s, j, n - 1);
      var now := if s1.log.clock <= s1.db.jobs[j].scheduledAt then s1.db.jobs[j].scheduledAt else s1.log.clock;
      s' := Deferred(c, s1, j, now);
    }
  }

  // What is in the bucket can be used up at one moment, here by the second job.
  lemma {:induction false} Drained(c: Config, s: State, now: real, n: nat) returns (s': State)
    requires Reached(c, Initial, s) && Resting(c, s) && c.rate > 0.0 && s.log.clock <= now
    requires 2 in s.db.jobs && s.db.jobs[2].scheduledAt <= now
    requires s.bucket.Present? && s.bucket.bucket.last == now < s.bucket.expiresAt && s.bucket.bucket.tokens < (n + 1) as real
    ensures Reached(c, Initial, s') && Resting(c, s') && s'.log.clock <= now && s'.db.jobs[1] == s.db.jobs[1]
    ensures !KeyGranted(c.capacity, c.rate, s'.bucket, now)
    decreases n
  {
    hide Reached, Accrued;
    AccruedNothing(c.rate, now);
    if !KeyGranted(c.capacity, c.rate, s.bucket, now) {
      s' := s;
    } else {
      var s1 := Deferred(c, s, 2, now);
      s' := Drained(c, s1, now, n - 1);
    }
  }

  lemma Emptied(c: Config, s: State, now: real) returns (s': State)
    requires Reached(c, Initial, s) && Resting(c, s) && c.rate > 0.0 && s.log.clock <= now
    requires 2 in s.db.jobs && s.db.jobs[2].scheduledAt <= now
    ensures Reached(c, Initial, s') && Resting(c, s') && s'.log.clock <= now && s'.db.jobs[1] == s.db.jobs[1]
    ensures !KeyGranted(c.capacity, c.rate, s'.bucket, now)
  {
    hide Reached, Accrued;
    AccruedNothing(c.rate, now);
    var s1 := Deferred(c, s, 2, now);
    if KeyGranted(c.capacity, c.rate, s.bucket, now) {
      var tokens := s1.bucket.bucket.tokens;
      s' := Drained(c, s1, now, if tokens < 1.0 then 0 else tokens.Floor);
    } else {
      s' := s1;
    }
  }

  lemma OneQueued(c: Config) returns (s: State)
    requires c.slotLimit >= 1 && c.maxDepth >= 1
    ensures Reached(c, Initial, s) && Resting(c, s) && s.db.jobs.Keys == {1} && s.db.jobs[1].attempts == 0 && s.log.calls == []
    ensures s.clients == map[] && s.db.requests[1].promptId == "1" && s.bucket == Missing
  {
    hide Reached, Enabled, Next, HashText;
    OriginReached(c, Initial);
    assert InFlightJobs(Initial.db) == {};
    FiledReached(c, Initial, Initial, 1, "user", Some("1"), "first", 0.0);
    var s1 := Filed(c, Initial, 1, "user", "1", "first", 0.0);
    Spawning(c, s1, 1, 0.0);
    StepReached(c, Initial, s1, Spawn(1, 0.0));
    s := Next(c, s1, Spawn(1, 0.0));
  }

  lemma TwoQueued(c: Config) returns (s: State)
    requires c.slotLimit >= 1 && c.maxDepth >= 2
    ensures Reached(c, Initial, s) && Resting(c, s) && s.db.jobs.Keys == {1, 2} && s.db.jobs[1].attempts == 0
  {
    hide Reached, Enabled, Next, HashText;
    var s1 := OneQueued(c);
    assert InFlightJobs(s1.db) == {1};
    FiledReached(c, Initial, s1, 2, "user", Some("2"), "second", s1.log.clock);
    s := Filed(c, s1, 2, "user", "2", "second", s1.log.clock);
  }

  // On one clock, in every configuration that ever refills its bucket: there is no number of
  // attempts that some run does not reach.
  lemma AttemptsWithoutLimit(c: Config, n: nat)
    requires c.slotLimit >= 1 && c.maxDepth >= 1 && c.rate > 0.0
    ensures exists acts :: (
      && ClockLegal(c, Initial, acts) && Legal(c, Initial, acts)
      && 1 in Run(c, Initial, acts).db.jobs && Run(c, Initial, acts).db.jobs[1].attempts == n)
  {
    hide Legal, ClockLegal, Run;
    var s := OneQueued(c);
    var s1 := DeferredTimes(c, s, 1, n);
    assert 1 in s1.db.jobs;
  }

  // And some run comes to the state that DeferralsExceedMaximum starts from.
  lemma LastAttemptDenied(c: Config)
    requires c.slotLimit >= 1 && c.maxDepth >= 2 && c.rate > 0.0 && c.maxAttempts >= 1
    ensures exists acts :: ClockLegal(c, Initial, acts) && Legal(c, Initial, acts) && OnLastAttempt(Run(c, Initial, acts), 1)
  {
    hide Legal, ClockLegal, Run, KeyGranted, KeyAfterCall, WaitTime;
    var s := TwoQueued(c);
    var s1 := DeferredTimes(c, s, 1, c.maxAttempts - 1);
    var due := if s1.db.jobs[1].scheduledAt <= s1.db.jobs[2].scheduledAt then s1.db.jobs[2].scheduledAt else s1.db.jobs[1].scheduledAt;
    var now := if due <= s1.log.clock then s1.log.clock else due;
    var s2 := Emptied(c, s1, now);
    var s3 := Asked(c, s2, 1, now);
    assert OnLastAttempt(s3, 1);
  }

  // Called n times for one job, each time on a full bucket.
  lemma {:induction false} CalledTimes(c: Config, s: State, n: nat) returns (s': State)
    requires Reached(c, Initial, s) && Resting(c, s) && s.db.jobs.Keys == {1} && c.capacity >= 1.0 && c.rate > 0.0
    requires s.bucket.Present? ==> s.bucket.expiresAt <= s.log.clock + ExpirySeconds
    ensures Reached(c, Initial, s') && Resting(c, s') && s'.db.jobs.Keys == {1} && |s'.log.calls| == |s.log.calls| + n
    ensures s'.bucket.Present? ==> s'.bucket.expiresAt <= s'.log.clock + ExpirySeconds
    decreases n
  {
    hide Reached, Accrued;
    if n == 0 {
      s' := s;
    } else {
      var s1 := CalledTimes(c, s, n - 1);
      var later := s1.log.clock + ExpirySeconds;
      var now := if later <= s1.db.jobs[1].scheduledAt then s1.db.jobs[1].scheduledAt else later;
      AccruedNothing(c.rate, now);
      s' := Deferred(c, s1, 1, now);
    }
  }

  // One prompt, any number of calls to the model: nothing but the job's attempts limits them.
  lemma CallsForOnePrompt(c: Config, n: nat)
    requires c.slotLimit >= 1 && c.maxDepth >= 1 && c.capacity >= 1.0 && c.rate > 0.0
    ensures exists acts :: (
      && ClockLegal(c, Initial, acts) && Legal(c, Initial, acts)
      && |Run(c, Initial, acts).db.requests| == 1 && |Run(c, Initial, acts).log.calls| == n)
  {
    hide Legal, ClockLegal, Run;
    var s := OneQueued(c);
    var s1 := CalledTimes(c, s, n);
    assert s1.db.requests.Keys == {1};
    assert |s1.db.requests| == |s1.db.requests.Keys|;
  }
}
