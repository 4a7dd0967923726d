// When a queued request is lost for good, exactly.
module Losing {
  import opened Wrappers
  import opened Rows
  import opened Tables
  import opened Machine
  import opened Structure
  import opened CacheWork
  import opened AllRuns
  import opened Repositories

  // The slot can do nothing more for its job: it only has the request's row left to write
  // back to queued, or a job to release that is not its own any more.
  predicate Spent(db: Db, w: int, slot: Slot)
    requires slot.Busy?
  {
    slot.pc.WriteRetry? || (slot.pc.ReleaseJob? && !slot.pc.reason.Denied? && !Owns(db, w, slot.jobId))
  }

  // Queued, with its job dead or completed, no re-enqueue under way, and nobody left who
  // could complete or fail it.
  ghost predicate Lost(s: State, r: int) {
    && r in s.db.requests && s.db.requests[r].status == ReqQueued
    && (forall j :: j in s.db.jobs && s.db.jobs[j].requestId == r ==> s.db.jobs[j].status == Dead || s.db.jobs[j].status == Completed)
    && (forall cl :: cl in s.clients ==> s.clients[cl] != Requeueing(r) && s.clients[cl] != Resetting(r))
    && (forall w :: IsBusy(s, w) && s.slots[w].job.requestId == r ==> Spent(s.db, w, s.slots[w]))
  }

  ghost predicate Settled(s: State, r: int) {
    r in s.db.requests && (s.db.requests[r].status == ReqCompleted || s.db.requests[r].status == ReqFailed)
  }

  // Some continuation settles the request.
  ghost predicate CanSettle(c: Config, s: State, r: int) {
    exists acts :: Legal(c, s, acts) && Settled(Run(c, s, acts), r)
  }

  // ---- Lost is for good ----

  lemma LostRequest(c: Config, s: State, a: Action, r: int)
    requires Enabled(c, s, a) && TablesOk(s) && SnapshotsOk(s) && Lost(s, r)
    ensures r in NextDb(c, s, a).requests && NextDb(c, s, a).requests[r].status == ReqQueued
  {
    hide PipelineDb, ReapTx, Inserts, TablesOk, SnapshotsOk, Spent;
    match a
    case Advance(w, _, now) => LostInPipeline(s, w, now, r);
    case Reap(now) => LostInReap(s, now, r);
    case _ =>
  }

  lemma LostInPipeline(s: State, w: int, now: real, r: int)
    requires TablesOk(s) && SnapshotsOk(s) && Lost(s, r) && IsBusy(s, w)
    ensures var db' := PipelineDb(s.db, w, s.slots[w], now);
      && r in db'.requests && db'.requests[r].status == ReqQueued
      && forall j :: j in db'.jobs && db'.jobs[j].requestId == r ==> db'.jobs[j].status == Dead || db'.jobs[j].status == Completed
  {
    assert SnapshotOk(s.db, s.slots[w]);
  }

  lemma LostInReap(s: State, now: real, r: int)
    requires TablesOk(s) && Lost(s, r)
    ensures var db' := ReapTx(s.db, now);
      && r in db'.requests && db'.requests[r].status == ReqQueued
      && forall j :: j in db'.jobs && db'.jobs[j].requestId == r ==> db'.jobs[j].status == Dead || db'.jobs[j].status == Completed
  {
  }

  lemma LostJob(c: Config, s: State, a: Action, r: int, j: int)
    requires Enabled(c, s, a) && TablesOk(s) && SnapshotsOk(s) && Lost(s, r)
    requires j in NextDb(c, s, a).jobs && NextDb(c, s, a).jobs[j].requestId == r
    ensures NextDb(c, s, a).jobs[j].status == Dead || NextDb(c, s, a).jobs[j].status == Completed
  {
    hide PipelineDb, ReapTx, Inserts, TablesOk, SnapshotsOk, Spent;
    match a
    case Advance(w, _, now) => LostInPipeline(s, w, now, r);
    case Reap(now) => LostInReap(s, now, r);
    case _ =>
  }

  lemma LostSlot(c: Config, s: State, a: Action, r: int, w: int)
    requires Enabled(c, s, a) && TablesOk(s) && SnapshotsOk(s) && Lost(s, r)
    requires IsBusy(Next(c, s, a), w) && Next(c, s, a).slots[w].job.requestId == r
    ensures Spent(Next(c, s, a).db, w, Next(c, s, a).slots[w])
  {
    hide NextDb, NextSlots, NextCache, NextBucket, NextClients, NextLog, TablesOk, SnapshotsOk;
    SlotOrigin(c, s, a, w);
    SpentStays(c, s, a, w);
    var j := Next(c, s, a).slots[w].jobId;
    if Owns(Next(c, s, a).db, w, j) {
      OwnerOrigin(c, s, a, w, j);
    }
  }

  // All such a slot can do is to stop.
  lemma SpentStays(c: Config, s: State, a: Action, w: int)
    requires Enabled(c, s, a) && IsBusy(s, w) && Spent(s.db, w, s.slots[w])
    requires IsBusy(Next(c, s, a), w) && !(a.Claim? && a.w == w)
    ensures Next(c, s, a).slots[w].pc == s.slots[w].pc
  {
    hide NextDb, NextCache, NextBucket, NextClients, NextLog, AfterFault;
  }

  // Nobody starts a re-enqueue: the request has not failed.
  lemma LostClients(c: Config, s: State, a: Action, r: int)
    requires Enabled(c, s, a) && Lost(s, r)
    ensures forall cl :: cl in NextClients(c, s, a) ==>
      NextClients(c, s, a)[cl] != Requeueing(r) && NextClients(c, s, a)[cl] != Resetting(r)
  {
    hide Inserts, Spent;
  }

  lemma LostKept(c: Config, s: State, a: Action, r: int)
    requires Enabled(c, s, a) && TablesOk(s) && SnapshotsOk(s) && Lost(s, r)
    ensures Lost(Next(c, s, a), r)
  {
    hide NextDb, NextSlots, NextCache, NextBucket, NextClients, NextLog, TablesOk, SnapshotsOk, Spent;
    LostRequest(c, s, a, r);
    LostClients(c, s, a, r);
    var s' := Next(c, s, a);
    forall j | j in s'.db.jobs && s'.db.jobs[j].requestId == r ensures s'.db.jobs[j].status == Dead || s'.db.jobs[j].status == Completed {
      LostJob(c, s, a, r, j);
    }
    forall w | IsBusy(s', w) && s'.slots[w].job.requestId == r ensures Spent(s'.db, w, s'.slots[w]) {
      LostSlot(c, s, a, r, w);
    }
  }

  // Once lost, lost in every continuation, whatever happens.
  lemma {:induction false} LostForever(c: Config, s: State, acts: seq<Action>, r: int)
    requires Legal(c, s, acts) && TablesOk(s) && SnapshotsOk(s) && Lost(s, r)
    ensures Lost(Run(c, s, acts), r)
    decreases |acts|
  {
    hide Next, Enabled, Lost, TablesOk, SnapshotsOk;
    if acts != [] {
      TablesKept(c, s, acts[0]);
      SnapshotsKept(c, s, acts[0]);
      LostKept(c, s, acts[0], r);
      LostForever(c, Next(c, s, acts[0]), acts[1..], r);
    }
  }

  // ---- Whatever is not lost can be settled ----

  lemma SettleLater(c: Config, s: State, a: Action, r: int)
    requires Enabled(c, s, a) && CanSettle(c, Next(c, s, a), r)
    ensures CanSettle(c, s, r)
  {
    hide Enabled, Next, Settled;
    var acts :| Legal(c, Next(c, s, a), acts) && Settled(Run(c, Next(c, s, a), acts), r);
    assert ([a] + acts)[1..] == acts && ([a] + acts)[0] == a;
    assert Legal(c, s, [a] + acts) && Run(c, s, [a] + acts) == Run(c, Next(c, s, a), acts);
  }

  lemma AlreadySettled(c: Config, s: State, r: int)
    requires Settled(s, r)
    ensures CanSettle(c, s, r)
  {
    var acts: seq<Action> := [];
    assert Legal(c, s, acts) && Run(c, s, acts) == s;
  }

  const Any := Oracle(None, Answer, Response(""))

  predicate WorksOn(s: State, w: int, r: int) {
    IsBusy(s, w) && s.slots[w].job.requestId == r
  }

  lemma SettleFromFailRequest(c: Config, s: State, w: int, r: int)
    requires WorksOn(s, w, r) && s.slots[w].pc.FailRequest? && r in s.db.requests
    ensures CanSettle(c, s, r)
  {
    hide NextSlots, NextCache, NextBucket, NextClients, NextLog;
    AlreadySettled(c, Next(c, s, Advance(w, Any, 0.0)), r);
    SettleLater(c, s, Advance(w, Any, 0.0), r);
  }

  lemma SettleFromKillJob(c: Config, s: State, w: int, r: int)
    requires WorksOn(s, w, r) && s.slots[w].pc.KillJob? && r in s.db.requests
    ensures CanSettle(c, s, r)
  {
    hide NextCache, NextBucket, NextClients, NextLog, CanSettle;
    SettleFromFailRequest(c, Next(c, s, Advance(w, Any, 0.0)), w, r);
    SettleLater(c, s, Advance(w, Any, 0.0), r);
  }

  // Any stage of _run can end in an exception that is not retryable.
  lemma SettleFromRun(c: Config, s: State, w: int, r: int)
    requires WorksOn(s, w, r) && InRun(s.slots[w].pc) && r in s.db.requests
    ensures CanSettle(c, s, r)
  {
    hide NextCache, NextBucket, NextClients, NextLog, CanSettle;
    var fault := Raise(w, Fault(Unclassified, ""), 0.0);
    SettleFromKillJob(c, Next(c, s, fault), w, r);
    SettleLater(c, s, fault, r);
  }

  lemma SettleByClaim(c: Config, s: State, w: int, r: int, j: int)
    requires w in s.slots && s.slots[w].Idle? && r in s.db.requests
    requires j in s.db.jobs && s.db.jobs[j].requestId == r && s.db.jobs[j].status == Queued
    ensures CanSettle(c, s, r)
  {
    hide NextCache, NextBucket, NextClients, NextLog, CanSettle;
    var claim := Claim(w, j, s.db.jobs[j].scheduledAt);
    SettleFromRun(c, Next(c, s, claim), w, r);
    SettleLater(c, s, claim, r);
  }

  lemma SettleBySpawn(c: Config, s: State, w: int, r: int, j: int)
    requires w !in s.slots && |s.slots| < c.slotLimit && r in s.db.requests
    requires j in s.db.jobs && s.db.jobs[j].requestId == r && s.db.jobs[j].status == Queued
    ensures CanSettle(c, s, r)
  {
    hide NextCache, NextBucket, NextClients, NextLog, CanSettle;
    SettleByClaim(c, Next(c, s, Spawn(w, 0.0)), w, r, j);
    SettleLater(c, s, Spawn(w, 0.0), r);
  }

  // A slot can be made free, at the cost of what it was doing.
  lemma SettleFromQueue(c: Config, s: State, r: int, j: int)
    requires SlotsWithin(c, s) && c.slotLimit >= 1 && r in s.db.requests
    requires j in s.db.jobs && s.db.jobs[j].requestId == r && s.db.jobs[j].status == Queued
    ensures CanSettle(c, s, r)
  {
    hide NextCache, NextBucket, NextClients, NextLog, CanSettle;
    if s.slots.Keys != {} {
      SomeMember(s.slots.Keys);
      var w :| w in s.slots.Keys;
      var s1 := Next(c, s, Crash(w, 0.0));
      assert s1.slots.Keys == s.slots.Keys - {w} && |s.slots.Keys| == |s.slots| && |s1.slots.Keys| == |s1.slots|;
      SettleBySpawn(c, s1, w, r, j);
      SettleLater(c, s, Crash(w, 0.0), r);
    } else {
      assert |s.slots| == |s.slots.Keys|;
      SettleBySpawn(c, s, 0, r, j);
    }
  }

  lemma SettleFromLease(c: Config, s: State, r: int, j: int)
    requires TablesOk(s) && SlotsWithin(c, s) && c.slotLimit >= 1 && r in s.db.requests
    requires j in s.db.jobs && s.db.jobs[j].requestId == r && s.db.jobs[j].status == Processing
    ensures CanSettle(c, s, r)
  {
    hide NextCache, NextBucket, NextClients, NextLog, CanSettle;
    assert RowShape(s.db.jobs[j]);
    JobOfOwn(s.db, j);
    var reap := Reap(s.db.jobs[j].lockedUntil.value + 1.0);
    var s1 := Next(c, s, reap);
    if s.db.jobs[j].CanRetry() {
      SettleFromQueue(c, s1, r, j);
    } else {
      AlreadySettled(c, s1, r);
    }
    SettleLater(c, s, reap, r);
  }

  lemma SettleFromRelease(c: Config, s: State, w: int, r: int)
    requires SlotsWithin(c, s) && c.slotLimit >= 1 && r in s.db.requests && SnapshotsOk(s)
    requires WorksOn(s, w, r) && s.slots[w].pc.ReleaseJob? && Owns(s.db, w, s.slots[w].jobId)
    ensures CanSettle(c, s, r)
  {
    hide NextCache, NextBucket, NextClients, NextLog, CanSettle, NextPc;
    assert SnapshotOk(s.db, s.slots[w]);
    var release := Advance(w, Any, 0.0);
    assert Next(c, s, release).slots.Keys == s.slots.Keys && |s.slots.Keys| == |s.slots|;
    assert |Next(c, s, release).slots.Keys| == |Next(c, s, release).slots|;
    SettleFromQueue(c, Next(c, s, release), r, s.slots[w].jobId);
    SettleLater(c, s, release, r);
  }

  lemma SettleFromResetting(c: Config, s: State, cl: int, r: int, j: int)
    requires SlotsWithin(c, s) && c.slotLimit >= 1 && r in s.db.requests && j in s.db.jobs && s.db.jobs[j].requestId == r
    requires cl in s.clients && s.clients[cl] == Resetting(r)
    ensures CanSettle(c, s, r)
  {
    hide NextCache, NextBucket, NextLog, CanSettle;
    SettleFromQueue(c, Next(c, s, Reset(cl, 0.0)), r, j);
    SettleLater(c, s, Reset(cl, 0.0), r);
  }

  lemma SettleFromRequeueing(c: Config, s: State, cl: int, r: int, j: int)
    requires SlotsWithin(c, s) && c.slotLimit >= 1 && r in s.db.requests && j in s.db.jobs && s.db.jobs[j].requestId == r
    requires cl in s.clients && s.clients[cl] == Requeueing(r)
    ensures CanSettle(c, s, r)
  {
    hide NextCache, NextBucket, NextLog, CanSettle;
    SettleFromResetting(c, Next(c, s, Requeue(cl, 0.0)), cl, r, j);
    SettleLater(c, s, Requeue(cl, 0.0), r);
  }

  // ---- Exactly ----

  // In every state a run can come to, a queued request has a continuation that completes or
  // fails it if and only if it is not lost.
  lemma SettlesIffNotLost(c: Config, s: State, r: int)
    requires Sound(c, s) && c.slotLimit >= 1 && r in s.db.requests && s.db.requests[r].status == ReqQueued
    ensures CanSettle(c, s, r) <==> !Lost(s, r)
  {
    SoundBasics(c, s);
    hide CanSettle, Sound;
    if Lost(s, r) {
      LostCannotSettle(c, s, r);
    } else {
      NotLostSettles(c, s, r);
    }
  }

  lemma SoundBasics(c: Config, s: State)
    requires Sound(c, s)
    ensures TablesOk(s) && SnapshotsOk(s) && SlotsWithin(c, s)
  {
  }

  lemma LostCannotSettle(c: Config, s: State, r: int)
    requires TablesOk(s) && SnapshotsOk(s) && Lost(s, r)
    ensures !CanSettle(c, s, r)
  {
    hide Legal, Run, TablesOk, SnapshotsOk;
    forall acts | Legal(c, s, acts) ensures !Settled(Run(c, s, acts), r) {
      LostForever(c, s, acts, r);
    }
  }

  lemma NotLostSettles(c: Config, s: State, r: int)
    requires TablesOk(s) && SnapshotsOk(s) && SlotsWithin(c, s) && c.slotLimit >= 1
    requires r in s.db.requests && s.db.requests[r].status == ReqQueued && !Lost(s, r)
    ensures CanSettle(c, s, r)
  {
    assert JobOf(s.db.jobs, r).Some?;
    var j := JobOf(s.db.jobs, r).value;
    assert RowShape(s.db.jobs[j]);
    hide CanSettle, SlotsWithin, SnapshotOk;
    if s.db.jobs[j].status == Queued {
      SettleFromQueue(c, s, r, j);
    } else if s.db.jobs[j].status == Processing {
      SettleFromLease(c, s, r, j);
    } else if cl :| cl in s.clients && s.clients[cl] == Requeueing(r) {
      SettleFromRequeueing(c, s, cl, r, j);
    } else if cl :| cl in s.clients && s.clients[cl] == Resetting(r) {
      SettleFromResetting(c, s, cl, r, j);
    } else {
      var w :| IsBusy(s, w) && s.slots[w].job.requestId == r && !Spent(s.db, w, s.slots[w]);
      SettleFromSlot(c, s, w, r);
    }
  }

  lemma SettleFromSlot(c: Config, s: State, w: int, r: int)
    requires SnapshotsOk(s) && SlotsWithin(c, s) && c.slotLimit >= 1 && r in s.db.requests
    requires WorksOn(s, w, r) && !Spent(s.db, w, s.slots[w])
    ensures CanSettle(c, s, r)
  {
    hide CanSettle, SlotsWithin, SnapshotOk;
    var pc := s.slots[w].pc;
    if pc.FailRequest? {
      SettleFromFailRequest(c, s, w, r);
    } else if pc.KillJob? {
      SettleFromKillJob(c, s, w, r);
    } else if InRun(pc) {
      SettleFromRun(c, s, w, r);
    } else {
      SettleFromRelease(c, s, w, r);
    }
  }
}
