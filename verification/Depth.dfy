// How the queue depth moves: which jobs every action brings into the count and which it takes
// out, in terms of the columns the count looks at.
module Depth {
  import opened Rows
  import opened Tables
  import opened Machine

  // Jobs waiting or being worked on.
  ghost function Pending(db: Db): set<int> {
    set j | j in db.jobs && (db.jobs[j].status == Queued || db.jobs[j].status == Processing)
  }

  lemma DepthIsPending(db: Db)
    ensures InFlightJobs(db) == Pending(db) && QueuedDepth(db) == |Pending(db)|
  {
    forall j ensures j in InFlightJobs(db) <==> j in Pending(db) {
      assert j in InFlightJobs(db) <==> j in db.jobs && db.jobs[j].InFlight();
    }
  }

  // What a reap buries.
  ghost function Overdue(db: Db, now: real): set<int> {
    set j | j in db.jobs && db.jobs[j].status == Processing && db.jobs[j].lockedUntil.Some?
            && db.jobs[j].lockedUntil.value < now && db.jobs[j].attempts >= db.jobs[j].maxAttempts
  }

  ghost function JobsOf(db: Db, r: int): set<int> {
    set j | j in db.jobs && db.jobs[j].requestId == r
  }

  // The whole effect of every action on the set that is counted.
  ghost function PendingAfter(c: Config, s: State, a: Action): set<int>
    requires Enabled(c, s, a)
  {
    match a
    case Insert(_, _, j, _) => Pending(s.db) + if Inserts(c, s, a) then {j} else {}
    case Reset(cl, _) => Pending(s.db) + JobsOf(s.db, s.clients[cl].requestId)
    case Reap(now) => Pending(s.db) - Overdue(s.db, now)
    case Advance(w, _, _) =>
      var slot := s.slots[w];
      if slot.pc.FinishJob? || slot.pc.KillJob? then Pending(s.db) - {slot.jobId}
      else if slot.pc.ReleaseJob? && Owns(s.db, w, slot.jobId) then Pending(s.db) + {slot.jobId}
      else Pending(s.db)
    case _ => Pending(s.db)
  }

  lemma DepthMoves(c: Config, s: State, a: Action)
    requires Enabled(c, s, a)
    ensures Pending(NextDb(c, s, a)) == PendingAfter(c, s, a)
  {
    hide NextPc;
    match a
    case Advance(w, _, now) => PipelineMoves(s.db, w, s.slots[w], now);
    case Reap(now) => ReapMoves(s.db, now);
    case Reset(cl, now) => ResetMoves(s.db, s.clients[cl].requestId, now);
    case _ =>
  }

  lemma PipelineMoves(db: Db, w: int, slot: Slot, now: real)
    requires slot.Busy?
    ensures Pending(PipelineDb(db, w, slot, now)) ==
      if slot.pc.FinishJob? || slot.pc.KillJob? then Pending(db) - {slot.jobId}
      else if slot.pc.ReleaseJob? && Owns(db, w, slot.jobId) then Pending(db) + {slot.jobId}
      else Pending(db)
  {
  }

  lemma ReapMoves(db: Db, now: real)
    ensures Pending(ReapTx(db, now)) == Pending(db) - Overdue(db, now)
  {
    forall j ensures j in Pending(ReapTx(db, now)) <==> j in Pending(db) && j !in Overdue(db, now) {
      if j in db.jobs {
        assert ReapTx(db, now).jobs[j] == JobReaped(db.jobs[j], now);
      }
    }
  }

  lemma ResetMoves(db: Db, r: int, now: real)
    ensures Pending(ResetJobTx(db, r, now)) == Pending(db) + JobsOf(db, r)
  {
    var db' := ResetJobTx(db, r, now);
    forall j ensures j in Pending(db') <==> j in Pending(db) || j in JobsOf(db, r) {
      if j in db.jobs {
        assert db'.jobs[j] == if db.jobs[j].requestId == r then JobReset(db.jobs[j], now) else db.jobs[j];
      }
    }
  }

  // In numbers: an insert counts one more; completing or burying a pending job, one fewer;
  // renewals, requests' writes and releases of pending jobs, the same.
  lemma DepthSteps(c: Config, s: State, a: Action)
    requires Enabled(c, s, a)
    ensures Inserts(c, s, a) ==> QueuedDepth(NextDb(c, s, a)) == QueuedDepth(s.db) + 1
    ensures a.Advance? && (s.slots[a.w].pc.FinishJob? || s.slots[a.w].pc.KillJob?) ==>
              QueuedDepth(NextDb(c, s, a)) == QueuedDepth(s.db) - (if s.slots[a.w].jobId in Pending(s.db) then 1 else 0)
    ensures a.Advance? && s.slots[a.w].pc.ReleaseJob? && s.slots[a.w].jobId in Pending(s.db) ==> QueuedDepth(NextDb(c, s, a)) == QueuedDepth(s.db)
    ensures a.Claim? || a.Beat? ==> QueuedDepth(NextDb(c, s, a)) == QueuedDepth(s.db)
    ensures a.Reap? ==> QueuedDepth(NextDb(c, s, a)) == QueuedDepth(s.db) - |Overdue(s.db, a.now)|
  {
    DepthMoves(c, s, a);
    DepthIsPending(s.db);
    DepthIsPending(NextDb(c, s, a));
    hide NextDb, QueuedDepth, NextPc;
    if a.Advance? && s.slots[a.w].jobId in Pending(s.db) {
      assert Pending(s.db) + {s.slots[a.w].jobId} == Pending(s.db);
    }
    if a.Reap? {
      assert Overdue(s.db, a.now) <= Pending(s.db);
    }
  }

  // A call at the depth check goes on exactly if fewer jobs than the limit are pending.
  lemma AdmittedIff(c: Config, s: State, a: Action)
    requires Enabled(c, s, a) && a.Admit?
    ensures a.client in NextClients(c, s, a) <==> |Pending(s.db)| < c.maxDepth
    ensures |Pending(s.db)| < c.maxDepth ==>
      NextClients(c, s, a)[a.client] ==
        Inserting(s.clients[a.client].user, s.clients[a.client].promptId, s.clients[a.client].text, s.clients[a.client].priority)
  {
    DepthIsPending(s.db);
  }

  // However many jobs there have been: with all of them settled, everybody gets in.
  lemma SettledQueueAdmits(c: Config, s: State, a: Action)
    requires Enabled(c, s, a) && a.Admit? && c.maxDepth >= 1
    requires forall j :: j in s.db.jobs ==> s.db.jobs[j].status == Completed || s.db.jobs[j].status == Dead
    ensures QueuedDepth(s.db) == 0 && a.client in NextClients(c, s, a)
  {
    forall j ensures j !in Pending(s.db) {
      assert j in s.db.jobs ==> s.db.jobs[j].status == Completed || s.db.jobs[j].status == Dead;
    }
    assert Pending(s.db) == {};
    DepthIsPending(s.db);
    AdmittedIff(c, s, a);
  }
}
