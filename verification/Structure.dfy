// What every run keeps, whatever the clocks, crashes and races: the shape of the rows,
// one job per request, and the fencing of superseded claims.
module Structure {
  import opened Wrappers
  import opened AutoId
  import opened Rows
  import opened Tables
  import opened Machine

  // Queued rows have neither owner nor lease, processing rows have both.
  ghost predicate RowShape(row: Job) {
    && (row.status == Queued ==> row.worker.None? && row.lockedUntil.None?)
    && (row.status == Processing ==> row.worker.Some? && row.lockedUntil.Some?)
    && row.status != Failed
  }

  // The statuses a request is ever given; `received` and `processing` are never written.
  ghost predicate RequestShape(q: Request) {
    q.status == ReqQueued || q.status == ReqCompleted || q.status == ReqFailed
  }

  ghost predicate TablesOk(s: State) {
    && Constraints(s.db)
    && EveryRequestHasJob(s.db)
    && s.log.histories.Keys == s.db.jobs.Keys
    && (forall j :: j in s.db.jobs ==> RowShape(s.db.jobs[j]))
    && (forall r :: r in s.db.requests ==> RequestShape(s.db.requests[r]))
  }

  // The columns of a snapshot that never change still match the rows.
  ghost predicate SnapshotOk(db: Db, slot: Slot)
    requires slot.Busy?
  {
    && slot.jobId in db.jobs
    && slot.job.requestId == db.jobs[slot.jobId].requestId
    && slot.job.maxAttempts == db.jobs[slot.jobId].maxAttempts
    && slot.job.requestId in db.requests
    && slot.request.text == db.requests[slot.job.requestId].text
    && slot.request.textHash == db.requests[slot.job.requestId].textHash
    && slot.request.promptId == db.requests[slot.job.requestId].promptId
  }

  ghost predicate SnapshotsOk(s: State) {
    forall w :: IsBusy(s, w) ==> SnapshotOk(s.db, s.slots[w])
  }

  // Rows are never deleted, and no transaction writes these columns of an existing row.
  ghost predicate ColumnsFixed(db: Db, db': Db) {
    && db.jobs.Keys <= db'.jobs.Keys && db.requests.Keys <= db'.requests.Keys
    && (forall j :: j in db.jobs ==> db'.jobs[j].requestId == db.jobs[j].requestId && db'.jobs[j].maxAttempts == db.jobs[j].maxAttempts)
    && (forall r :: r in db.requests ==>
          && db'.requests[r].promptId == db.requests[r].promptId && db'.requests[r].text == db.requests[r].text
          && db'.requests[r].textHash == db.requests[r].textHash && db'.requests[r].userId == db.requests[r].userId)
  }

  ghost predicate SameColumns(db: Db, db': Db) {
    ColumnsFixed(db, db') && db'.jobs.Keys == db.jobs.Keys && db'.requests.Keys == db.requests.Keys
  }

  lemma JobWritten(db: Db, j: int, row: Job)
    requires j in db.jobs && row.requestId == db.jobs[j].requestId && row.maxAttempts == db.jobs[j].maxAttempts
    ensures SameColumns(db, db.(jobs := db.jobs[j := row]))
  {
  }

  lemma RequestWritten(db: Db, r: int, q: Request)
    requires r in db.requests && q.promptId == db.requests[r].promptId && q.text == db.requests[r].text
    requires q.textHash == db.requests[r].textHash && q.userId == db.requests[r].userId
    ensures SameColumns(db, db.(requests := db.requests[r := q]))
  {
  }

  lemma PipelineColumns(db: Db, w: int, slot: Slot, now: real)
    requires slot.Busy?
    ensures SameColumns(db, PipelineDb(db, w, slot, now))
  {
    var j, r := slot.jobId, slot.job.requestId;
    assert SameColumns(db, db);
    hide SameColumns;
    match slot.pc
    case FinishRequest(answer, cached, vector) =>
      if r in db.requests { RequestWritten(db, r, RequestDone(db.requests[r], answer, cached, vector, now)); }
    case FinishJob =>
      if j in db.jobs { JobWritten(db, j, JobDone(db.jobs[j], now)); }
    case ReleaseJob(delay, _) =>
      if Owns(db, w, j) { JobWritten(db, j, Released(db.jobs[j], now + delay)); }
    case WriteRetry(_, error) =>
      if r in db.requests { RequestWritten(db, r, RequestRetried(db.requests[r], error, slot.request.retryCount + 1, now)); }
    case KillJob(error) =>
      if j in db.jobs { JobWritten(db, j, JobKilled(db.jobs[j], error, now)); }
    case FailRequest(error) =>
      if r in db.requests { RequestWritten(db, r, RequestFailed(db.requests[r], error, slot.request.retryCount + 1, now)); }
    case _ =>
  }

  lemma BulkColumns(db: Db, r: int, now: real)
    ensures SameColumns(db, ReapTx(db, now)) && SameColumns(db, ResetJobTx(db, r, now))
  {
  }

  lemma SameColumnsKept(c: Config, s: State, a: Action)
    requires Enabled(c, s, a) && !Inserts(c, s, a)
    ensures SameColumns(s.db, NextDb(c, s, a))
  {
    hide PipelineDb, ReapTx, ResetJobTx;
    match a
    case Advance(w, _, now) => PipelineColumns(s.db, w, s.slots[w], now);
    case Reset(cl, now) => BulkColumns(s.db, s.clients[cl].requestId, now);
    case Reap(now) => BulkColumns(s.db, 0, now);
    case _ =>
  }

  lemma ColumnsKept(c: Config, s: State, a: Action)
    requires Enabled(c, s, a)
    ensures ColumnsFixed(s.db, NextDb(c, s, a))
  {
    if !Inserts(c, s, a) {
      SameColumnsKept(c, s, a);
    }
  }

  lemma SameColumnsKeepConstraints(db: Db, db': Db)
    requires SameColumns(db, db') && Constraints(db) && EveryRequestHasJob(db)
    ensures Constraints(db') && EveryRequestHasJob(db')
  {
  }

  lemma InsertKeepsConstraints(db: Db, r: int, request: Request, j: int, job: Job)
    requires Constraints(db) && EveryRequestHasJob(db)
    requires r !in db.requests && j !in db.jobs && job.requestId == r
    requires RequestWithId(db.requests, request.promptId).None?
    ensures Constraints(InsertTx(db, r, request, j, job)) && EveryRequestHasJob(InsertTx(db, r, request, j, job))
  {
    var db' := InsertTx(db, r, request, j, job);
    forall q | q in db'.requests ensures JobOf(db'.jobs, q).Some? {
      if q != r {
        assert JobOf(db.jobs, q).Some?;
        var i := JobOf(db.jobs, q).value;
        assert i in db'.jobs && db'.jobs[i].requestId == q;
      } else {
        assert db'.jobs[j].requestId == q;
      }
    }
  }

  lemma TablesKept(c: Config, s: State, a: Action)
    requires Enabled(c, s, a) && TablesOk(s)
    ensures TablesOk(Next(c, s, a))
  {
    hide Constraints, EveryRequestHasJob, RowShape, RequestShape, NextDb, NextHistories, NextSlots, NextCache, NextBucket, NextClients;
    ConstraintsKept(c, s, a);
    HistoryKeys(c, s, a);
    RowShapeKept(c, s, a);
    RequestShapeKept(c, s, a);
  }

  lemma ConstraintsKept(c: Config, s: State, a: Action)
    requires Enabled(c, s, a) && Constraints(s.db) && EveryRequestHasJob(s.db)
    ensures Constraints(NextDb(c, s, a)) && EveryRequestHasJob(NextDb(c, s, a))
  {
    hide Constraints, EveryRequestHasJob, SameColumns, InsertTx, PipelineDb, ReapTx, HashText;
    if Inserts(c, s, a) {
      var x := s.clients[a.client];
      InsertKeepsConstraints(s.db, a.requestId,
        NewRequest(x.user, x.promptId, x.text, HashText(c.sha, x.text), x.priority, a.now),
        a.jobId, NewJob(a.requestId, x.priority, c.maxAttempts, a.now));
    } else {
      SameColumnsKept(c, s, a);
      hide NextDb;
      SameColumnsKeepConstraints(s.db, NextDb(c, s, a));
    }
  }

  lemma HistoryKeys(c: Config, s: State, a: Action)
    requires Enabled(c, s, a) && TablesOk(s)
    ensures NextHistories(c, s, a).Keys == NextDb(c, s, a).jobs.Keys
  {
    hide Constraints, EveryRequestHasJob, RowShape, RequestShape, Inserts, HashText, NewHistory;
  }

  lemma RowShapeKept(c: Config, s: State, a: Action)
    requires Enabled(c, s, a) && TablesOk(s)
    ensures forall j :: j in NextDb(c, s, a).jobs ==> RowShape(NextDb(c, s, a).jobs[j])
  {
    hide Constraints, EveryRequestHasJob, RequestShape, Inserts, HashText;
  }

  lemma RequestShapeKept(c: Config, s: State, a: Action)
    requires Enabled(c, s, a) && TablesOk(s)
    ensures forall r :: r in NextDb(c, s, a).requests ==> RequestShape(NextDb(c, s, a).requests[r])
  {
    hide Constraints, EveryRequestHasJob, RowShape, Inserts;
  }

  ghost predicate SameClaim(x: Slot, y: Slot) {
    x.Busy? && y.Busy? && x.jobId == y.jobId && x.job == y.job && x.request == y.request && x.serial == y.serial
  }

  // A busy slot has just claimed its job, or goes on with the claim it had.
  lemma SlotOrigin(c: Config, s: State, a: Action, w: int)
    requires Enabled(c, s, a) && IsBusy(Next(c, s, a), w)
    ensures (a.Claim? && a.w == w && Next(c, s, a).slots[w] == Claimant(c, s, w, a.jobId, a.now))
         || (!(a.Claim? && a.w == w) && IsBusy(s, w) && SameClaim(s.slots[w], Next(c, s, a).slots[w]))
  {
    hide NextDb, NextCache, NextBucket, NextClients, NextLog, NextPc, AfterFault, Claimant;
  }

  lemma SnapshotsKept(c: Config, s: State, a: Action)
    requires Enabled(c, s, a) && TablesOk(s) && SnapshotsOk(s)
    ensures SnapshotsOk(Next(c, s, a))
  {
    var s' := Next(c, s, a);
    forall w | IsBusy(s', w) ensures SnapshotOk(s'.db, s'.slots[w]) {
      SlotOrigin(c, s, a, w);
      ColumnsKept(c, s, a);
      SnapshotKept(c, s, s', a, w);
    }
  }

  lemma SnapshotKept(c: Config, s: State, s': State, a: Action, w: int)
    requires Enabled(c, s, a) && TablesOk(s) && SnapshotsOk(s) && IsBusy(s', w)
    requires ColumnsFixed(s.db, s'.db)
    requires (a.Claim? && a.w == w && s'.slots[w] == Claimant(c, s, w, a.jobId, a.now))
          || (IsBusy(s, w) && SameClaim(s.slots[w], s'.slots[w]))
    ensures SnapshotOk(s'.db, s'.slots[w])
  {
  }

  // ---- Fencing ----

  // If the row still names the slot as its owner, it is the very claim the slot holds.
  ghost predicate Fenced(s: State, w: int)
    requires IsBusy(s, w)
  {
    var slot := s.slots[w];
    && slot.serial < s.log.claims
    && slot.job.worker == Some(w) && slot.job.attempts >= 1
    && (Owns(s.db, w, slot.jobId) ==>
          && s.db.jobs[slot.jobId].attempts == slot.job.attempts
          && slot.jobId in s.log.serials && s.log.serials[slot.jobId] == slot.serial)
  }

  ghost predicate FencingOk(s: State) {
    && (forall w :: IsBusy(s, w) ==> Fenced(s, w))
    && (forall j :: j in s.log.serials ==> s.log.serials[j] < s.log.claims)
  }

  // Ownership comes from one's own claim and from nothing else.
  lemma OwnerOrigin(c: Config, s: State, a: Action, w: int, j: int)
    requires Enabled(c, s, a) && Owns(NextDb(c, s, a), w, j)
    ensures (a.Claim? && a.w == w && a.jobId == j)
         || (!(a.Claim? && a.jobId == j) && Owns(s.db, w, j) && NextDb(c, s, a).jobs[j].attempts == s.db.jobs[j].attempts)
  {
  }

  lemma FencingKept(c: Config, s: State, a: Action)
    requires Enabled(c, s, a) && FencingOk(s)
    ensures FencingOk(Next(c, s, a))
  {
    var s' := Next(c, s, a);
    forall w | IsBusy(s', w) ensures Fenced(s', w) {
      FencedKept(c, s, a, w);
    }
  }

  lemma FencedKept(c: Config, s: State, a: Action, w: int)
    requires Enabled(c, s, a) && FencingOk(s) && IsBusy(Next(c, s, a), w)
    ensures Fenced(Next(c, s, a), w)
  {
    hide NextDb, NextSlots, NextCache, NextBucket, NextClients, NextHistories;
    SlotOrigin(c, s, a, w);
    var s' := Next(c, s, a);
    if Owns(s'.db, w, s'.slots[w].jobId) {
      OwnerOrigin(c, s, a, w, s'.slots[w].jobId);
    }
    if a.Claim? && a.w == w {
      ClaimedRow(c, s, a);
    }
  }

  lemma ClaimedRow(c: Config, s: State, a: Action)
    requires Enabled(c, s, a) && a.Claim?
    ensures a.jobId in NextDb(c, s, a).jobs && NextDb(c, s, a).jobs[a.jobId] == Claimed(s.db.jobs[a.jobId], a.w, a.now, c.lease)
  {
  }

  // The job has been claimed again since this slot's claim.
  ghost predicate Superseded(s: State, w: int)
    requires IsBusy(s, w)
  {
    s.slots[w].jobId !in s.log.serials || s.log.serials[s.slots[w].jobId] != s.slots[w].serial
  }

  // Renewing or releasing on behalf of a superseded claim leaves every row as it was.
  lemma SupersededIsHarmless(s: State, w: int, now: real, lease: real, due: real)
    requires FencingOk(s) && IsBusy(s, w) && Superseded(s, w)
    ensures ExtendTx(s.db, s.slots[w].jobId, w, now, lease) == s.db
    ensures ReleaseTx(s.db, s.slots[w].jobId, w, due) == s.db
  {
  }

  lemma SupersededBeat(c: Config, s: State, w: int, now: real)
    requires FencingOk(s) && IsBusy(s, w) && Superseded(s, w) && Enabled(c, s, Beat(w, now))
    ensures Next(c, s, Beat(w, now)).db == s.db && Next(c, s, Beat(w, now)).slots == s.slots[w := s.slots[w].(lost := true)]
  {
    assert Fenced(s, w);
    hide NextCache, NextBucket, NextClients, NextLog;
  }

  lemma SupersededRelease(c: Config, s: State, a: Action, w: int)
    requires FencingOk(s) && IsBusy(s, w) && Superseded(s, w) && Enabled(c, s, a)
    requires a.Advance? && a.w == w && s.slots[w].pc.ReleaseJob?
    ensures Next(c, s, a).db == s.db && Next(c, s, a).log.histories == s.log.histories && Next(c, s, a).slots == s.slots[w := Idle]
  {
    assert Fenced(s, w);
    hide NextCache, NextBucket, NextClients;
  }

  lemma SupersededStays(c: Config, s: State, a: Action, w: int)
    requires Enabled(c, s, a) && FencingOk(s) && IsBusy(s, w) && Superseded(s, w)
    requires IsBusy(Next(c, s, a), w) && Next(c, s, a).slots[w].serial == s.slots[w].serial
    ensures Superseded(Next(c, s, a), w)
  {
    hide NextDb, NextSlots, NextCache, NextBucket, NextClients, NextHistories;
    assert Fenced(s, w);
    SlotOrigin(c, s, a, w);
  }

  // The heartbeat of a superseded claim changes nothing but its own flag, and its release
  // nothing but its own slot; and once superseded it stays so for as long as it is held.
  lemma SupersededStep(c: Config, s: State, a: Action, w: int)
    requires Enabled(c, s, a) && FencingOk(s) && IsBusy(s, w) && Superseded(s, w)
    ensures a == Beat(w, a.now) ==> Next(c, s, a).db == s.db && Next(c, s, a).slots == s.slots[w := s.slots[w].(lost := true)]
    ensures a.Advance? && a.w == w && s.slots[w].pc.ReleaseJob? ==>
              Next(c, s, a).db == s.db && Next(c, s, a).log.histories == s.log.histories && Next(c, s, a).slots == s.slots[w := Idle]
    ensures IsBusy(Next(c, s, a), w) && Next(c, s, a).slots[w].serial == s.slots[w].serial ==> Superseded(Next(c, s, a), w)
  {
    hide Enabled, Next, FencingOk, Superseded;
    if a == Beat(w, a.now) {
      SupersededBeat(c, s, w, a.now);
    }
    if a.Advance? && a.w == w && s.slots[w].pc.ReleaseJob? {
      SupersededRelease(c, s, a, w);
    }
    if IsBusy(Next(c, s, a), w) && Next(c, s, a).slots[w].serial == s.slots[w].serial {
      SupersededStays(c, s, a, w);
    }
  }
}
