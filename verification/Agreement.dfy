// The two tables and the slots in a calm run.
module Agreement {
  import opened Rows
  import opened Tables
  import opened Machine
  import opened Structure
  import opened Calm
  import opened CalmRuns

  // Some slot stands between the two writes that complete or bury job j.
  ghost predicate BetweenWrites(s: State, j: int) {
    exists w :: IsBusy(s, w) && s.slots[w].jobId == j && MidPair(s.slots[w].pc)
  }

  // Request and job agree, except while the owner is between its paired writes: then the
  // request is ahead of a completion and behind a burial.
  lemma TablesAgree(c: Config, s: State, j: int)
    requires CalmOk(c, s) && j in s.db.jobs
    ensures s.db.jobs[j].requestId in s.db.requests
    ensures var job, request := s.db.jobs[j].status, s.db.requests[s.db.jobs[j].requestId].status;
      if !BetweenWrites(s, j) then
        && (request == ReqQueued <==> job == Queued || job == Processing)
        && (request == ReqCompleted <==> job == Completed)
        && (request == ReqFailed <==> job == Dead)
      else (request == ReqCompleted && job == Processing) || (request == ReqQueued && job == Dead)
  {
  }

  // A queued request is waiting for a claim, under a lease, or about to be marked failed.
  lemma QueuedIsServed(c: Config, s: State, r: int) returns (j: int)
    requires CalmOk(c, s) && r in s.db.requests && s.db.requests[r].status == ReqQueued
    ensures j in s.db.jobs && s.db.jobs[j].requestId == r
    ensures (s.db.jobs[j].status == Queued && s.db.jobs[j].Eligible(s.db.jobs[j].scheduledAt))
         || (s.db.jobs[j].status == Processing && s.db.jobs[j].lockedUntil.Some?)
         || (s.db.jobs[j].status == Dead && BetweenWrites(s, j))
  {
    assert JobOf(s.db.jobs, r).Some?;
    j := JobOf(s.db.jobs, r).value;
    assert CalmRow(s, j) && RowShape(s.db.jobs[j]);
    if s.db.jobs[j].status == Dead {
      assert IsBusy(s, s.db.jobs[j].worker.value);
    }
  }

  lemma OneSlotPerJob(c: Config, s: State, v: int, w: int)
    requires CalmOk(c, s) && IsBusy(s, v) && IsBusy(s, w) && v != w
    ensures s.slots[v].jobId != s.slots[w].jobId
  {
  }

  // What a step writes to a request, by whom.
  lemma RequestWriters(c: Config, s: State, a: Action, r: int)
    requires Calmly(c, s, a) && CalmOk(c, s) && r in s.db.requests && s.db.requests[r].status == ReqCompleted
    ensures r in NextDb(c, s, a).requests && NextDb(c, s, a).requests[r] == s.db.requests[r]
  {
    hide CalmRow, TablesOk, SnapshotOk, CalmSlot;
    match a
    case Advance(w, _, now) =>
      assert CalmSlot(c, s, w);
      WritersWait(c, s, w, r, now);
    case Reap(now) =>
      ReapSparesCompleted(c, s, r, now);
    case _ =>
  }

  lemma WritersWait(c: Config, s: State, w: int, r: int, now: real)
    requires IsBusy(s, w) && CalmSlot(c, s, w) && r in s.db.requests && s.db.requests[r].status == ReqCompleted
    ensures r in PipelineDb(s.db, w, s.slots[w], now).requests && PipelineDb(s.db, w, s.slots[w], now).requests[r] == s.db.requests[r]
  {
  }

  lemma ReapSparesCompleted(c: Config, s: State, r: int, now: real)
    requires CalmOk(c, s) && LeasesFresh(c, s, now) && r in s.db.requests && s.db.requests[r].status == ReqCompleted
    ensures r in ReapTx(s.db, now).requests && ReapTx(s.db, now).requests[r] == s.db.requests[r]
  {
    assert JobOf(s.db.jobs, r).Some?;
    var j := JobOf(s.db.jobs, r).value;
    assert CalmRow(s, j) && RowShape(s.db.jobs[j]);
    if s.db.jobs[j].status == Processing {
      var w := s.db.jobs[j].worker.value;
      assert IsBusy(s, w) && s.slots[w].pc.FinishJob?;
      ReaperSpares(c, s, now, w);
    }
  }

  lemma ResubmitSparesCompleted(c: Config, s: State, a: Action, r: int)
    requires CalmResubmit(c, s, a) && r in s.db.requests && s.db.requests[r].status == ReqCompleted
    ensures r in Resubmitted(c, s, a).db.requests && Resubmitted(c, s, a).db.requests[r] == s.db.requests[r]
  {
    ResubmitEffect(c, s, a);
  }

  // A completed request is final: its whole row stays the same for the rest of a calm run.
  lemma {:induction false} CompletedIsFinal(c: Config, s: State, acts: seq<Action>, r: int)
    requires CalmLegal(c, s, acts) && CalmOk(c, s) && r in s.db.requests && s.db.requests[r].status == ReqCompleted
    ensures r in CalmRun(c, s, acts).db.requests && CalmRun(c, s, acts).db.requests[r] == s.db.requests[r]
    decreases |acts|
  {
    hide CalmOk, Calmly, CalmResubmit, Resubmitted, NextDb, NextSlots, NextCache, NextBucket, NextLog, NextClients;
    if acts != [] {
      var a := acts[0];
      if Calmly(c, s, a) {
        RequestWriters(c, s, a, r);
      } else {
        ResubmitSparesCompleted(c, s, a, r);
      }
      CalmStepKept(c, s, a);
      CompletedIsFinal(c, AfterCalm(c, s, a), acts[1..], r);
    }
  }

  // ---- From the empty system ----

  lemma EveryCalmRunOk(c: Config, acts: seq<Action>)
    requires CalmLegal(c, Initial, acts)
    ensures CalmOk(c, CalmRun(c, Initial, acts))
  {
    InitialCalm(c);
    CalmRunOk(c, Initial, acts);
  }

  // In every calm run: a request is queued exactly while its job is queued or processing,
  // completed exactly when it is completed, failed exactly when it is dead, but for the
  // moments between the owner's paired writes.
  lemma AgreementInEveryCalmRun(c: Config, acts: seq<Action>, j: int)
    requires CalmLegal(c, Initial, acts)
    ensures var s := CalmRun(c, Initial, acts);
      j in s.db.jobs ==>
      && s.db.jobs[j].requestId in s.db.requests
      && var job, request := s.db.jobs[j].status, s.db.requests[s.db.jobs[j].requestId].status;
      if !BetweenWrites(s, j) then
        && (request == ReqQueued <==> job == Queued || job == Processing)
        && (request == ReqCompleted <==> job == Completed)
        && (request == ReqFailed <==> job == Dead)
      else (request == ReqCompleted && job == Processing) || (request == ReqQueued && job == Dead)
  {
    hide CalmLegal, CalmRun, CalmOk, BetweenWrites;
    EveryCalmRunOk(c, acts);
    if j in CalmRun(c, Initial, acts).db.jobs {
      TablesAgree(c, CalmRun(c, Initial, acts), j);
    }
  }
}
