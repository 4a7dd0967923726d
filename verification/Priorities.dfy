// The priority a prompt was submitted with is the one its job is claimed by, in every run.
module Priorities {
  import opened AutoId
  import opened Rows
  import opened Tables
  import opened Machine
  import opened Structure

  // What an insert puts on file: the call's user, id, text and priority, with the text's
  // hash, and one job that is due at once and has not been tried.
  lemma InsertFiles(c: Config, s: State, a: Action)
    requires Enabled(c, s, a) && Inserts(c, s, a)
    ensures a.requestId in NextDb(c, s, a).requests && a.jobId in NextDb(c, s, a).jobs
    ensures var x, row, job := s.clients[a.client], NextDb(c, s, a).requests[a.requestId], NextDb(c, s, a).jobs[a.jobId];
      && row.userId == x.user && row.promptId == x.promptId && row.text == x.text && row.textHash == HashText(c.sha, x.text)
      && row.priority == x.priority && row.status == ReqQueued && row.response.None? && row.error.None? && row.retryCount == 0
      && job.requestId == a.requestId && job.priority == x.priority && job.maxAttempts == c.maxAttempts
      && job.status == Queued && job.scheduledAt == a.now && job.attempts == 0 && job.worker.None? && job.lockedUntil.None?
  {
  }

  ghost predicate PrioritiesOk(s: State) {
    forall j :: j in s.db.jobs ==>
      s.db.jobs[j].requestId in s.db.requests && s.db.requests[s.db.jobs[j].requestId].priority == s.db.jobs[j].priority
  }

  lemma JobPriority(c: Config, s: State, a: Action, j: int)
    requires Enabled(c, s, a) && j in s.db.jobs
    ensures j in NextDb(c, s, a).jobs && NextDb(c, s, a).jobs[j].priority == s.db.jobs[j].priority
  {
    match a
    case Reap(now) => assert NextDb(c, s, a).jobs[j] == JobReaped(s.db.jobs[j], now);
    case _ =>
  }

  lemma RequestPriority(c: Config, s: State, a: Action, r: int)
    requires Enabled(c, s, a) && r in s.db.requests
    ensures r in NextDb(c, s, a).requests && NextDb(c, s, a).requests[r].priority == s.db.requests[r].priority
  {
    hide JobOf;
  }

  lemma PrioritiesKept(c: Config, s: State, a: Action)
    requires Enabled(c, s, a) && PrioritiesOk(s) && TablesOk(s)
    ensures PrioritiesOk(Next(c, s, a))
  {
    hide NextDb, NextCache, NextBucket, NextClients, NextSlots, NextLog, TablesOk, Enabled;
    ColumnsKept(c, s, a);
    var s' := Next(c, s, a);
    forall j | j in s'.db.jobs
      ensures s'.db.jobs[j].requestId in s'.db.requests && s'.db.requests[s'.db.jobs[j].requestId].priority == s'.db.jobs[j].priority
    {
      if j in s.db.jobs {
        JobPriority(c, s, a, j);
        RequestPriority(c, s, a, s.db.jobs[j].requestId);
      } else {
        OnlyInsertsAdd(c, s, a, j);
        InsertFiles(c, s, a);
      }
    }
  }

  lemma OnlyInsertsAdd(c: Config, s: State, a: Action, j: int)
    requires Enabled(c, s, a) && j in NextDb(c, s, a).jobs && j !in s.db.jobs
    ensures Inserts(c, s, a) && a.jobId == j
  {
  }

  lemma {:induction false} PrioritiesAlong(c: Config, s: State, acts: seq<Action>)
    requires Legal(c, s, acts) && PrioritiesOk(s) && TablesOk(s)
    ensures PrioritiesOk(Run(c, s, acts))
    decreases |acts|
  {
    hide Next, Enabled, PrioritiesOk, TablesOk;
    if acts != [] {
      PrioritiesKept(c, s, acts[0]);
      TablesKept(c, s, acts[0]);
      PrioritiesAlong(c, Next(c, s, acts[0]), acts[1..]);
    }
  }

  // A claim that goes by the job's priority goes by the request's.
  lemma PrioritiesInEveryRun(c: Config, acts: seq<Action>, j: int)
    requires Legal(c, Initial, acts) && j in Run(c, Initial, acts).db.jobs
    ensures var db := Run(c, Initial, acts).db;
      db.jobs[j].requestId in db.requests && db.requests[db.jobs[j].requestId].priority == db.jobs[j].priority
  {
    hide Legal, Run;
    assert PrioritiesOk(Initial) && TablesOk(Initial);
    PrioritiesAlong(c, Initial, acts);
  }
}
