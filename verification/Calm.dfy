// Calm runs: the assumptions under which the two tables agree and no two slots ever work on
// the same job.
//   (a) when the reaper runs, the last claim or renewal of every slot that still holds its
//       job is at most one lease old, on one monotone clock;
//   (b) the paired writes that complete or bury a job are not split by a crash, a
//       cancellation or a database error;
//   (c) a re-enqueue's check and its two writes act as one step;
//   (d) the retry path writes its request before the job's new scheduled_at.
// Worker ids are unique by construction: slots are keyed by them.
module Calm {
  import opened Wrappers
  import opened AutoId
  import opened Rows
  import opened Tables
  import opened Machine
  import opened Structure
  import opened Recovery

  predicate MidPair(pc: Pc) {
    pc.FinishJob? || pc.FailRequest?
  }

  // The slot has not yet given its job back, completed it or buried it.
  predicate Holding(pc: Pc) {
    !pc.WriteRetry? && !pc.FailRequest?
  }

  ghost predicate LeasesFresh(c: Config, s: State, now: real) {
    forall w :: IsBusy(s, w) && Holding(s.slots[w].pc) ==> now - s.slots[w].lastOk <= c.lease
  }

  ghost predicate RetryWritesInTime(s: State, now: real) {
    forall w :: IsBusy(s, w) && s.slots[w].pc.WriteRetry? ==> now < s.slots[w].pc.due
  }

  ghost predicate SplitsPair(s: State, a: Action) {
    (a.Crash? || a.Cancel? || a.Raise?) && IsBusy(s, a.w) && MidPair(s.slots[a.w].pc)
  }

  ghost predicate DecidesReenqueue(c: Config, s: State, a: Action) {
    a.Submit? && Idempotency.Check(Existing(s.db, ResolvedPromptId(c.sha, a.user, a.givenId, a.text)), HashText(c.sha, a.text)).Reenqueue?
  }

  // The guard on one action of a calm run.
  ghost predicate Calmly(c: Config, s: State, a: Action) {
    && Enabled(c, s, a)
    && OnClock(s, a)
    && (a.Reap? ==> LeasesFresh(c, s, a.now))
    && !SplitsPair(s, a)
    && !a.Requeue? && !a.Reset? && !DecidesReenqueue(c, s, a)
    && RetryWritesInTime(s, a.now)
  }

  // A whole re-enqueue: the check, the request's update, the job's reset.
  ghost predicate CalmResubmit(c: Config, s: State, a: Action) {
    && Enabled(c, s, a) && DecidesReenqueue(c, s, a)
    && OnClock(s, a) && RetryWritesInTime(s, a.now)
  }

  ghost function Resubmitted(c: Config, s: State, a: Action): State
    requires CalmResubmit(c, s, a)
  {
    var checked := Next(c, s, a);
    var requeued := Next(c, checked, Requeue(a.client, a.now));
    Next(c, requeued, Reset(a.client, a.now))
  }

  // ---- The invariant ----

  ghost predicate CalmSlot(c: Config, s: State, w: int)
    requires IsBusy(s, w)
  {
    var slot := s.slots[w];
    && SnapshotOk(s.db, slot)
    && var row, q := s.db.jobs[slot.jobId], s.db.requests[slot.job.requestId];
    match slot.pc
    case WriteRetry(due, _) => row.status == Queued && row.scheduledAt == due && q.status == ReqQueued
    case FailRequest(_) => row.status == Dead && row.worker == Some(w) && q.status == ReqQueued
    case pc =>
      && row.status == Processing && row.worker == Some(w) && row.lockedUntil == Some(slot.lastOk + c.lease)
      && q.status == (if pc.FinishJob? then ReqCompleted else ReqQueued)
  }

  // Where the slot named by the row stands with this job.
  ghost function OwnerPc(s: State, j: int): Option<Pc>
    requires j in s.db.jobs
  {
    match s.db.jobs[j].worker
    case Some(w) => if IsBusy(s, w) && s.slots[w].jobId == j then Some(s.slots[w].pc) else None
    case None => None
  }

  ghost predicate CalmRow(s: State, j: int)
    requires j in s.db.jobs
  {
    && s.db.jobs[j].requestId in s.db.requests
    && var status := s.db.requests[s.db.jobs[j].requestId].status;
    match s.db.jobs[j].status
    case Queued => status == ReqQueued
    case Processing => status == ReqQueued || (status == ReqCompleted && OwnerPc(s, j) == Some(FinishJob))
    case Completed => status == ReqCompleted
    case Dead => status == ReqFailed || (status == ReqQueued && OwnerPc(s, j).Some? && OwnerPc(s, j).value.FailRequest?)
    case Failed => false
  }

  ghost predicate Exclusive(s: State) {
    forall v, w :: IsBusy(s, v) && IsBusy(s, w) && s.slots[v].jobId == s.slots[w].jobId ==> v == w
  }

  ghost predicate NoSplitReenqueue(s: State) {
    forall cl :: cl in s.clients ==> s.clients[cl].Admitting? || s.clients[cl].Inserting?
  }

  ghost predicate CalmOk(c: Config, s: State) {
    && TablesOk(s) && SnapshotsOk(s) && NoSplitReenqueue(s)
    && (forall w :: IsBusy(s, w) ==> CalmSlot(c, s, w))
    && (forall j :: j in s.db.jobs ==> CalmRow(s, j))
    && Exclusive(s)
  }

  // ---- Steps that touch one job and one slot ----

  ghost predicate OnlyJob(db: Db, db': Db, j: int) {
    && db'.jobs.Keys == db.jobs.Keys && db'.requests.Keys == db.requests.Keys
    && (forall i :: i in db.jobs && i != j ==>
          && db'.jobs[i] == db.jobs[i]
          && (db.jobs[i].requestId in db.requests ==> db'.requests[db.jobs[i].requestId] == db.requests[db.jobs[i].requestId]))
  }

  ghost predicate OnlySlot(s: State, s': State, w: int, j: int) {
    && (forall v :: v != w ==> (v in s'.slots <==> v in s.slots) && (v in s.slots ==> s'.slots[v] == s.slots[v]))
    && (IsBusy(s, w) ==> s.slots[w].jobId == j)
    && (IsBusy(s', w) ==> s'.slots[w].jobId == j)
    && (forall v :: v != w && IsBusy(s, v) ==> s.slots[v].jobId != j)
  }

  lemma FrameSlot(c: Config, s: State, s': State, j: int, v: int)
    requires TablesOk(s) && SnapshotsOk(s') && OnlyJob(s.db, s'.db, j)
    requires IsBusy(s, v) && IsBusy(s', v) && s'.slots[v] == s.slots[v] && s.slots[v].jobId != j && CalmSlot(c, s, v)
    ensures CalmSlot(c, s', v)
  {
  }

  lemma FrameRow(s: State, s': State, j: int, i: int)
    requires TablesOk(s) && OnlyJob(s.db, s'.db, j) && i != j && i in s.db.jobs && CalmRow(s, i)
    requires OwnerPc(s', i) == OwnerPc(s, i)
    ensures CalmRow(s', i)
  {
  }

  // What remains to be shown after such a step is about that job and that slot.
  lemma CalmFrame(c: Config, s: State, s': State, w: int, j: int)
    requires CalmOk(c, s) && TablesOk(s') && SnapshotsOk(s') && NoSplitReenqueue(s')
    requires OnlyJob(s.db, s'.db, j) && OnlySlot(s, s', w, j)
    requires j in s.db.jobs ==> CalmRow(s', j)
    requires IsBusy(s', w) ==> CalmSlot(c, s', w)
    ensures CalmOk(c, s')
  {
    hide CalmSlot, CalmRow, SnapshotOk, TablesOk;
    forall v | IsBusy(s', v) ensures CalmSlot(c, s', v) {
      if v != w {
        FrameSlot(c, s, s', j, v);
      }
    }
    forall i | i in s'.db.jobs ensures CalmRow(s', i) {
      if i != j {
        FrameRow(s, s', j, i);
      }
    }
  }

  lemma PipelineOnlyJob(s: State, w: int, now: real)
    requires TablesOk(s) && SnapshotsOk(s) && IsBusy(s, w)
    ensures OnlyJob(s.db, PipelineDb(s.db, w, s.slots[w], now), s.slots[w].jobId)
  {
    var db, slot := s.db, s.slots[w];
    var j, r := slot.jobId, slot.job.requestId;
    assert SnapshotOk(db, slot);
    assert OnlyJob(db, db, j);
    hide OnlyJob, SnapshotOk, SnapshotsOk, TablesOk;
    match slot.pc
    case FinishRequest(answer, cached, vector) => RequestOnly(s, w, RequestDone(db.requests[r], answer, cached, vector, now));
    case FinishJob => JobOnly(db, j, JobDone(db.jobs[j], now));
    case ReleaseJob(delay, _) =>
      if Owns(db, w, j) { JobOnly(db, j, Released(db.jobs[j], now + delay)); }
    case WriteRetry(_, error) => RequestOnly(s, w, RequestRetried(db.requests[r], error, slot.request.retryCount + 1, now));
    case KillJob(error) => JobOnly(db, j, JobKilled(db.jobs[j], error, now));
    case FailRequest(error) => RequestOnly(s, w, RequestFailed(db.requests[r], error, slot.request.retryCount + 1, now));
    case _ =>
  }

  lemma JobOnly(db: Db, j: int, row: Job)
    requires j in db.jobs
    ensures OnlyJob(db, db.(jobs := db.jobs[j := row]), j)
  {
  }

  lemma RequestOnly(s: State, w: int, q: Request)
    requires TablesOk(s) && SnapshotsOk(s) && IsBusy(s, w)
    ensures s.slots[w].job.requestId in s.db.requests
    ensures OnlyJob(s.db, s.db.(requests := s.db.requests[s.slots[w].job.requestId := q]), s.slots[w].jobId)
  {
    assert SnapshotOk(s.db, s.slots[w]);
  }

  lemma AdvanceCalm(c: Config, s: State, a: Action)
    requires Calmly(c, s, a) && CalmOk(c, s) && a.Advance?
    requires TablesOk(Next(c, s, a)) && SnapshotsOk(Next(c, s, a))
    ensures CalmOk(c, Next(c, s, a))
  {
    hide PipelineDb, CalmSlot, CalmRow, NextPc, NextCache, NextBucket, NextLog, TablesOk, SnapshotOk;
    var s', w := Next(c, s, a), a.w;
    PipelineOnlyJob(s, w, a.now);
    AdvanceOwn(c, s, a);
    CalmFrame(c, s, s', w, s.slots[w].jobId);
  }

  predicate Writes(pc: Pc) {
    pc.FinishRequest? || pc.FinishJob? || pc.ReleaseJob? || pc.WriteRetry? || pc.KillJob? || pc.FailRequest?
  }

  lemma AdvanceOwn(c: Config, s: State, a: Action)
    requires Calmly(c, s, a) && CalmOk(c, s) && a.Advance?
    requires TablesOk(Next(c, s, a)) && SnapshotsOk(Next(c, s, a))
    ensures s.slots[a.w].jobId in Next(c, s, a).db.jobs && CalmRow(Next(c, s, a), s.slots[a.w].jobId)
    ensures IsBusy(Next(c, s, a), a.w) ==> CalmSlot(c, Next(c, s, a), a.w)
  {
    hide NextCache, NextBucket, NextLog, NextPc, TablesOk, PipelineDb, CalmSlot, CalmRow, SnapshotOk;
    var s', w, slot := Next(c, s, a), a.w, s.slots[a.w];
    SnapshotFacts(s, w);
    AdvanceMoves(c, s, a);
    var next := NextPc(c, s, w, a.oracle, a.now);
    if Writes(slot.pc) {
      OwnWrite(c, s, s', w, a.now, next);
    } else {
      NoWrite(s.db, w, slot, a.now);
      OwnRead(c, s, s', w, next.value);
    }
  }

  lemma NoWrite(db: Db, w: int, slot: Slot, now: real)
    requires slot.Busy? && !Writes(slot.pc)
    ensures PipelineDb(db, w, slot, now) == db
  {
  }

  lemma OwnRead(c: Config, s: State, s': State, w: int, pc: Pc)
    requires IsBusy(s, w) && s'.db == s.db && s'.slots == s.slots[w := s.slots[w].(pc := pc)]
    requires !Writes(s.slots[w].pc) && !pc.FinishJob? && !pc.WriteRetry? && !pc.FailRequest?
    requires CalmSlot(c, s, w) && s.slots[w].jobId in s.db.jobs && CalmRow(s, s.slots[w].jobId)
    ensures CalmRow(s', s.slots[w].jobId) && CalmSlot(c, s', w)
  {
  }

  lemma OwnWrite(c: Config, s: State, s': State, w: int, now: real, next: Option<Pc>)
    requires IsBusy(s, w) && s'.db == PipelineDb(s.db, w, s.slots[w], now) && s'.slots == s.slots[w := Moved(s.slots[w], next)]
    requires CalmSlot(c, s, w) && s.slots[w].jobId in s.db.jobs && CalmRow(s, s.slots[w].jobId)
    requires var pc := s.slots[w].pc;
      && Writes(pc)
      && (pc.FinishRequest? ==> next == Some(FinishJob))
      && (pc.FinishJob? || pc.WriteRetry? || pc.FailRequest? ==> next == None)
      && (pc.KillJob? ==> next.Some? && next.value.FailRequest?)
      && (pc.ReleaseJob? ==> next == None || (next.Some? && next.value.WriteRetry? && next.value.due == now + pc.delay))
    ensures s.slots[w].jobId in s'.db.jobs && CalmRow(s', s.slots[w].jobId)
    ensures IsBusy(s', w) ==> CalmSlot(c, s', w)
  {
  }

  // The order of the steps, without what they carry.
  lemma AdvanceMoves(c: Config, s: State, a: Action)
    requires Enabled(c, s, a) && a.Advance?
    ensures var pc := s.slots[a.w].pc; var next := NextPc(c, s, a.w, a.oracle, a.now);
      && (pc.FinishRequest? ==> next == Some(FinishJob))
      && (next == Some(FinishJob) ==> pc.FinishRequest?)
      && (pc.FinishJob? || pc.WriteRetry? || pc.FailRequest? ==> next == None)
      && (next == None ==> pc.FinishJob? || pc.WriteRetry? || pc.FailRequest? || pc.ReleaseJob?)
      && (pc.KillJob? <==> next.Some? && next.value.FailRequest?)
      && (pc.ReleaseJob? ==> next == None || (Owns(s.db, a.w, s.slots[a.w].jobId) && next == Some(WriteRetry(a.now + pc.delay, pc.reason.error))))
      && (next.Some? && next.value.WriteRetry? ==> pc.ReleaseJob?)
  {
  }

  lemma ClaimCalm(c: Config, s: State, a: Action)
    requires Calmly(c, s, a) && CalmOk(c, s) && a.Claim?
    requires TablesOk(Next(c, s, a)) && SnapshotsOk(Next(c, s, a))
    ensures CalmOk(c, Next(c, s, a))
  {
    hide NextCache, NextBucket, NextLog, TablesOk, CalmSlot, CalmRow, SnapshotOk;
    var s', j := Next(c, s, a), a.jobId;
    forall v | v != a.w && IsBusy(s, v) ensures s.slots[v].jobId != j {
      NobodyHasDue(c, s, a, v);
    }
    ClaimOwn(c, s, a);
    CalmFrame(c, s, s', a.w, j);
  }

  // A slot before its retry write is the only one to have a queued job, and the job is not
  // due yet.
  lemma NobodyHasDue(c: Config, s: State, a: Action, v: int)
    requires Calmly(c, s, a) && a.Claim? && IsBusy(s, v) && CalmSlot(c, s, v)
    ensures s.slots[v].jobId != a.jobId
  {
  }

  lemma ClaimOwn(c: Config, s: State, a: Action)
    requires Calmly(c, s, a) && a.Claim? && a.jobId in s.db.jobs && CalmRow(s, a.jobId) && SnapshotsOk(Next(c, s, a))
    ensures CalmRow(Next(c, s, a), a.jobId) && CalmSlot(c, Next(c, s, a), a.w)
  {
    hide NextCache, NextBucket, NextLog;
    assert SnapshotOk(Next(c, s, a).db, Next(c, s, a).slots[a.w]);
  }

  lemma BeatCalm(c: Config, s: State, a: Action)
    requires Calmly(c, s, a) && CalmOk(c, s) && a.Beat?
    requires TablesOk(Next(c, s, a)) && SnapshotsOk(Next(c, s, a))
    ensures CalmOk(c, Next(c, s, a))
  {
    hide NextCache, NextBucket, NextLog, NextPc, TablesOk, CalmSlot, CalmRow, SnapshotOk;
    var s', w := Next(c, s, a), a.w;
    SnapshotFacts(s, w);
    BeatOwn(c, s, s', w, a.now);
    CalmFrame(c, s, s', w, s.slots[w].jobId);
  }

  lemma BeatOwn(c: Config, s: State, s': State, w: int, now: real)
    requires IsBusy(s, w) && s'.db == ExtendTx(s.db, s.slots[w].jobId, w, now, c.lease)
    requires CalmSlot(c, s, w) && s.slots[w].jobId in s.db.jobs && CalmRow(s, s.slots[w].jobId)
    requires IsBusy(s', w) && SameClaim(s.slots[w], s'.slots[w]) && s'.slots[w].pc == s.slots[w].pc && OnlyOthers(s, s', w)
    requires s'.slots[w].lastOk == if Extends(s.db, s.slots[w].jobId, w) then now else s.slots[w].lastOk
    ensures s.slots[w].jobId in s'.db.jobs && CalmRow(s', s.slots[w].jobId) && CalmSlot(c, s', w)
  {
  }

  // An exception, a failed renewal, a cancellation, a crash: the tables stay, and away from
  // the paired writes nothing depends on where the slot was.
  lemma OwnSlotCalm(c: Config, s: State, a: Action)
    requires Calmly(c, s, a) && CalmOk(c, s) && (a.Raise? || a.BeatError? || a.Cancel? || a.Crash? || a.Spawn?)
    requires TablesOk(Next(c, s, a)) && SnapshotsOk(Next(c, s, a))
    ensures CalmOk(c, Next(c, s, a))
  {
    hide NextCache, NextBucket, NextLog, NextPc, TablesOk, CalmSlot, CalmRow, SnapshotOk, AfterFault;
    var s', w := Next(c, s, a), a.w;
    if IsBusy(s, w) {
      var j := s.slots[w].jobId;
      OwnSlotMoves(c, s, a);
      assert CalmSlot(c, s, w) && j in s.db.jobs by {
        SnapshotFacts(s, w);
      }
      assert CalmRow(s, j);
      OwnRowStays(c, s, s', w);
      CalmFrame(c, s, s', w, j);
    } else {
      SlotOnly(c, s, s', w);
    }
  }

  lemma SnapshotFacts(s: State, w: int)
    requires SnapshotsOk(s) && IsBusy(s, w)
    ensures s.slots[w].jobId in s.db.jobs
  {
  }

  // Where such a step leaves its slot: gone, idle, as before, or judging the exception.
  ghost predicate Interrupted(s: State, s': State, w: int)
    requires IsBusy(s, w)
  {
    var x := s.slots[w];
    && s'.db == s.db && OnlyOthers(s, s', w)
    && (!IsBusy(s', w) ==> !MidPair(x.pc))
    && (IsBusy(s', w) ==> SameClaim(x, s'.slots[w]) && s'.slots[w].lastOk == x.lastOk)
    && (IsBusy(s', w) && s'.slots[w].pc != x.pc ==> InRun(x.pc) && !x.pc.FinishJob? && (s'.slots[w].pc.ReleaseJob? || s'.slots[w].pc.KillJob?))
  }

  ghost predicate OnlyOthers(s: State, s': State, w: int) {
    forall v :: v != w ==> (v in s'.slots <==> v in s.slots) && (v in s.slots ==> s'.slots[v] == s.slots[v])
  }

  lemma OwnSlotMoves(c: Config, s: State, a: Action)
    requires Calmly(c, s, a) && (a.Raise? || a.BeatError? || a.Cancel? || a.Crash?) && IsBusy(s, a.w)
    ensures Interrupted(s, Next(c, s, a), a.w) && Next(c, s, a).clients == s.clients
  {
    hide NextCache, NextBucket, NextLog, Backoff;
  }

  lemma OwnRowStays(c: Config, s: State, s': State, w: int)
    requires IsBusy(s, w) && Interrupted(s, s', w)
    requires CalmSlot(c, s, w) && s.slots[w].jobId in s.db.jobs && CalmRow(s, s.slots[w].jobId)
    ensures CalmRow(s', s.slots[w].jobId)
    ensures IsBusy(s', w) ==> CalmSlot(c, s', w)
  {
  }

  // An idle slot coming or going changes nothing for the jobs.
  lemma SlotOnly(c: Config, s: State, s': State, w: int)
    requires CalmOk(c, s) && TablesOk(s') && SnapshotsOk(s') && NoSplitReenqueue(s') && s'.db == s.db
    requires !IsBusy(s, w) && !IsBusy(s', w)
    requires forall v :: v != w ==> (v in s'.slots <==> v in s.slots) && (v in s.slots ==> s'.slots[v] == s.slots[v])
    ensures CalmOk(c, s')
  {
    hide TablesOk;
    forall v | IsBusy(s', v) ensures CalmSlot(c, s', v) {
      assert IsBusy(s, v) && CalmSlot(c, s, v);
    }
    forall i | i in s'.db.jobs ensures i in s.db.jobs && CalmRow(s', i) {
      assert CalmRow(s, i);
    }
  }

  lemma ClientCalm(c: Config, s: State, a: Action)
    requires Calmly(c, s, a) && CalmOk(c, s) && (a.Submit? || a.Admit? || a.Drop? || (a.Insert? && !Inserts(c, s, a)))
    requires TablesOk(Next(c, s, a)) && SnapshotsOk(Next(c, s, a))
    ensures CalmOk(c, Next(c, s, a))
  {
    hide NextCache, NextBucket, NextLog;
    SameWork(c, s, Next(c, s, a));
  }

  lemma SameWork(c: Config, s: State, s': State)
    requires CalmOk(c, s) && TablesOk(s') && SnapshotsOk(s') && NoSplitReenqueue(s') && s'.db == s.db && s'.slots == s.slots
    ensures CalmOk(c, s')
  {
    hide TablesOk, CalmSlot, CalmRow, OwnerPc;
    forall v | IsBusy(s', v) ensures CalmSlot(c, s', v) {
      SameSlot(c, s, s', v);
    }
    forall i | i in s'.db.jobs ensures CalmRow(s', i) {
      SameRow(s, s', i);
    }
  }

  lemma SameSlot(c: Config, s: State, s': State, v: int)
    requires s'.db == s.db && s'.slots == s.slots && IsBusy(s, v) && CalmSlot(c, s, v)
    ensures CalmSlot(c, s', v)
  {
  }

  lemma SameRow(s: State, s': State, i: int)
    requires s'.db == s.db && s'.slots == s.slots && i in s.db.jobs && CalmRow(s, i)
    ensures CalmRow(s', i)
  {
  }

  lemma InsertCalm(c: Config, s: State, a: Action)
    requires Calmly(c, s, a) && CalmOk(c, s) && a.Insert? && Inserts(c, s, a)
    requires TablesOk(Next(c, s, a)) && SnapshotsOk(Next(c, s, a))
    ensures CalmOk(c, Next(c, s, a))
  {
    hide NextCache, NextBucket, NextLog, TablesOk, CalmSlot, CalmRow, SnapshotOk;
    var s' := Next(c, s, a);
    forall v | IsBusy(s', v) ensures CalmSlot(c, s', v) {
      InsertKeeps(c, s, s', v);
    }
    forall i | i in s'.db.jobs ensures CalmRow(s', i) {
      if i != a.jobId {
        InsertKeepsRow(s, s', i);
      } else {
        NewRow(s', i);
      }
    }
  }

  ghost predicate Grows(db: Db, db': Db) {
    && (forall j :: j in db.jobs ==> j in db'.jobs && db'.jobs[j] == db.jobs[j])
    && (forall r :: r in db.requests ==> r in db'.requests && db'.requests[r] == db.requests[r])
  }

  lemma InsertKeeps(c: Config, s: State, s': State, v: int)
    requires Grows(s.db, s'.db) && s'.slots == s.slots && IsBusy(s, v) && CalmSlot(c, s, v)
    ensures CalmSlot(c, s', v)
  {
  }

  lemma InsertKeepsRow(s: State, s': State, i: int)
    requires Grows(s.db, s'.db) && s'.slots == s.slots && i in s.db.jobs && CalmRow(s, i)
    ensures CalmRow(s', i)
  {
  }

  lemma NewRow(s: State, i: int)
    requires i in s.db.jobs && s.db.jobs[i].status == Queued
    requires s.db.jobs[i].requestId in s.db.requests && s.db.requests[s.db.jobs[i].requestId].status == ReqQueued
    ensures CalmRow(s, i)
  {
  }

  // Under (a) the reaper finds no executing slot's job overdue.
  lemma ReaperSpares(c: Config, s: State, now: real, w: int)
    requires CalmOk(c, s) && LeasesFresh(c, s, now) && IsBusy(s, w)
    ensures s.slots[w].jobId in s.db.jobs && s.slots[w].job.requestId in s.db.requests
    ensures ReapTx(s.db, now).jobs[s.slots[w].jobId] == s.db.jobs[s.slots[w].jobId]
    ensures ReapTx(s.db, now).requests[s.slots[w].job.requestId] == s.db.requests[s.slots[w].job.requestId]
  {
    assert SnapshotOk(s.db, s.slots[w]) && CalmSlot(c, s, w);
    JobOfOwn(s.db, s.slots[w].jobId);
  }

  lemma ReapCalm(c: Config, s: State, a: Action)
    requires Calmly(c, s, a) && CalmOk(c, s) && a.Reap?
    requires TablesOk(Next(c, s, a)) && SnapshotsOk(Next(c, s, a))
    ensures CalmOk(c, Next(c, s, a))
  {
    hide NextCache, NextBucket, NextLog, TablesOk, CalmSlot, CalmRow, SnapshotOk, ReapTx;
    var s' := Next(c, s, a);
    forall v | IsBusy(s', v) ensures CalmSlot(c, s', v) {
      ReapedSlot(c, s, s', a.now, v);
    }
    SameColumnsKept(c, s, a);
    forall i | i in s'.db.jobs ensures CalmRow(s', i) {
      ReapedRow(c, s, s', a.now, i);
    }
  }

  lemma ReapedSlot(c: Config, s: State, s': State, now: real, v: int)
    requires CalmOk(c, s) && LeasesFresh(c, s, now) && s'.db == ReapTx(s.db, now) && s'.slots == s.slots && IsBusy(s, v)
    ensures CalmSlot(c, s', v)
  {
    ReaperSpares(c, s, now, v);
    assert CalmSlot(c, s, v) && SnapshotOk(s.db, s.slots[v]);
    hide TablesOk, JobReaped, RequestReaped, ReapedRequest;
  }

  lemma ReapedRow(c: Config, s: State, s': State, now: real, i: int)
    requires CalmOk(c, s) && LeasesFresh(c, s, now) && s'.db == ReapTx(s.db, now) && s'.slots == s.slots && i in s.db.jobs
    ensures CalmRow(s', i)
  {
  }

  // Every action of a calm run.
  lemma CalmKept(c: Config, s: State, a: Action)
    requires Calmly(c, s, a) && CalmOk(c, s)
    ensures CalmOk(c, Next(c, s, a))
  {
    assert TablesOk(Next(c, s, a)) && SnapshotsOk(Next(c, s, a)) by {
      hide *;
      BasicsOf(c, s, a);
      TablesKept(c, s, a);
      SnapshotsKept(c, s, a);
    }
    hide CalmOk, Next, TablesOk, SnapshotsOk, Inserts;
    match a
    case Advance(_, _, _) => AdvanceCalm(c, s, a);
    case Claim(_, _, _) => ClaimCalm(c, s, a);
    case Beat(_, _) => BeatCalm(c, s, a);
    case Reap(_) => ReapCalm(c, s, a);
    case Insert(_, _, _, _) => if Inserts(c, s, a) { InsertCalm(c, s, a); } else { ClientCalm(c, s, a); }
    case Submit(_, _, _, _, _, _) => ClientCalm(c, s, a);
    case Admit(_, _) => ClientCalm(c, s, a);
    case Drop(_, _) => ClientCalm(c, s, a);
    case _ => OwnSlotCalm(c, s, a);
  }

  lemma BasicsOf(c: Config, s: State, a: Action)
    requires Calmly(c, s, a) && CalmOk(c, s)
    ensures Enabled(c, s, a) && TablesOk(s) && SnapshotsOk(s)
  {
  }
}
