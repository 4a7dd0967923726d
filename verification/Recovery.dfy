// Crash recovery: what a reap does to both tables, and how long a silent claim can last.
module Recovery {
  import opened Wrappers
  import opened Rows
  import opened Tables
  import opened Machine
  import opened Structure

  // After a reap no lease is overdue; the returned ids are exactly the jobs that went back
  // to the queue, the other overdue jobs are dead, their requests follow, and every other
  // row of either table is as before.
  lemma ReapSettlesLeases(s: State, now: real)
    requires TablesOk(s)
    ensures var db' := ReapTx(s.db, now);
      && (forall j :: j in db'.jobs && db'.jobs[j].status == Processing ==> !db'.jobs[j].LeaseExpired(now))
      && (forall j :: j in ReclaimedIds(s.db, now) <==>
            j in s.db.jobs && s.db.jobs[j].status == Processing && db'.jobs[j].status == Queued)
      && (forall j :: j in s.db.jobs ==> RequestFollows(s.db, db', j, now))
  {
    forall j | j in s.db.jobs ensures RequestFollows(s.db, ReapTx(s.db, now), j, now) {
      JobOfOwn(s.db, j);
    }
  }

  ghost predicate RequestFollows(db: Db, db': Db, j: int, now: real)
    requires j in db.jobs
  {
    var row, r := db.jobs[j], db.jobs[j].requestId;
    var overdue := row.status == Processing && row.lockedUntil.Some? && row.lockedUntil.value < now;
    && j in db'.jobs && r in db.requests && r in db'.requests
    && (!overdue ==> db'.jobs[j] == row && db'.requests[r] == db.requests[r])
    && (overdue && row.attempts < row.maxAttempts ==>
          && db'.jobs[j].status == Queued && db'.jobs[j].worker == None && db'.jobs[j].lockedUntil == None
          && db'.jobs[j].attempts == row.attempts && db'.jobs[j].scheduledAt == row.scheduledAt
          && db'.requests[r].status == ReqQueued && db'.requests[r].response == db.requests[r].response)
    && (overdue && row.attempts >= row.maxAttempts ==>
          && db'.jobs[j].status == Dead && db'.jobs[j].finishedAt == Some(now) && db'.requests[r].status == ReqFailed
          && db'.requests[r].error == (if row.error.Some? then row.error else Some("Max attempts exceeded")))
  }

  // ---- On one monotone clock ----

  ghost predicate OnClock(s: State, a: Action) {
    s.log.clock <= a.now
  }

  ghost predicate LeaseDated(c: Config, s: State, row: Job) {
    row.status == Processing ==>
      && row.heartbeatAt.Some? && row.lockedUntil == Some(row.heartbeatAt.value + c.lease)
      && s.log.lastReap <= row.lockedUntil.value
  }

  ghost predicate LeasesDated(c: Config, s: State) {
    && s.log.lastReap <= s.log.clock
    && forall j :: j in s.db.jobs ==> LeaseDated(c, s, s.db.jobs[j])
  }

  // What a step does to the lease columns of a processing row.
  lemma LeaseOrigin(c: Config, s: State, a: Action, j: int)
    requires Enabled(c, s, a) && j in NextDb(c, s, a).jobs && NextDb(c, s, a).jobs[j].status == Processing
    ensures var row' := NextDb(c, s, a).jobs[j];
      || (row'.heartbeatAt == Some(a.now) && row'.lockedUntil == Some(a.now + c.lease) && !a.Reap?)
      || (j in s.db.jobs && s.db.jobs[j].status == Processing && row'.heartbeatAt == s.db.jobs[j].heartbeatAt
          && row'.lockedUntil == s.db.jobs[j].lockedUntil
          && (a.Reap? && row'.lockedUntil.Some? ==> a.now <= row'.lockedUntil.value))
  {
  }

  lemma LeasesDatedKept(c: Config, s: State, a: Action)
    requires Enabled(c, s, a) && OnClock(s, a) && c.lease >= 0.0 && LeasesDated(c, s)
    ensures LeasesDated(c, Next(c, s, a))
  {
    hide NextDb, NextCache, NextBucket, NextClients, NextSlots, NextHistories;
    forall j | j in Next(c, s, a).db.jobs ensures LeaseDated(c, Next(c, s, a), Next(c, s, a).db.jobs[j]) {
      if Next(c, s, a).db.jobs[j].status == Processing {
        LeaseOrigin(c, s, a, j);
        if j in s.db.jobs {
          assert LeaseDated(c, s, s.db.jobs[j]);
        }
      }
    }
  }

  // With the reaper at most `gap` behind, a claim not renewed since `u` is gone once the
  // clock passes u + lease + gap.
  lemma SilentClaimEnds(c: Config, s: State, gap: real, j: int, u: real)
    requires LeasesDated(c, s) && s.log.clock - s.log.lastReap <= gap
    requires j in s.db.jobs && s.db.jobs[j].status == Processing && s.db.jobs[j].heartbeatAt.Some?
    requires s.db.jobs[j].heartbeatAt.value <= u
    ensures s.log.clock <= u + c.lease + gap
  {
  }
}
