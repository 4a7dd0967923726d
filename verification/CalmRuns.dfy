// Calm runs: re-enqueueing in one piece, the runs made of calm steps, and the invariant of
// Calm along them.
module CalmRuns {
  import opened AutoId
  import opened Rows
  import opened Tables
  import opened Machine
  import opened Structure
  import opened Calm

  // ---- Re-enqueueing in one piece ----

  ghost function ReenqueuedId(c: Config, s: State, a: Action): int
    requires CalmResubmit(c, s, a)
  {
    RequestWithId(s.db.requests, ResolvedPromptId(c.sha, a.user, a.givenId, a.text)).value
  }

  lemma ResubmitEffect(c: Config, s: State, a: Action)
    requires CalmResubmit(c, s, a)
    ensures var s', r := Resubmitted(c, s, a), ReenqueuedId(c, s, a);
      && r in s.db.requests && s.db.requests[r].status == ReqFailed
      && s'.db == ResetJobTx(RequeueRequestTx(s.db, r, a.now), r, a.now)
      && s'.slots == s.slots && s'.clients == s.clients
  {
    hide NextCache, NextBucket, NextLog, NextSlots;
    var s', r := Resubmitted(c, s, a), ReenqueuedId(c, s, a);
    assert s'.clients == s.clients[a.client := Requeueing(r)][a.client := Resetting(r)] - {a.client};
    assert s'.slots == s.slots by {
      ClientsLeaveSlots(c, s, a);
      var checked := Next(c, s, a);
      ClientsLeaveSlots(c, checked, Requeue(a.client, a.now));
      ClientsLeaveSlots(c, Next(c, checked, Requeue(a.client, a.now)), Reset(a.client, a.now));
    }
  }

  lemma ClientsLeaveSlots(c: Config, s: State, a: Action)
    requires Enabled(c, s, a) && (a.Submit? || a.Requeue? || a.Reset?)
    ensures Next(c, s, a).slots == s.slots
  {
  }

  lemma ResubmitBasics(c: Config, s: State, a: Action)
    requires CalmResubmit(c, s, a) && TablesOk(s) && SnapshotsOk(s)
    ensures TablesOk(Resubmitted(c, s, a)) && SnapshotsOk(Resubmitted(c, s, a))
  {
    hide NextDb, NextSlots, NextClients, NextCache, NextBucket, NextLog, TablesOk, SnapshotsOk;
    var checked := Next(c, s, a);
    TablesKept(c, s, a);
    SnapshotsKept(c, s, a);
    assert Enabled(c, checked, Requeue(a.client, a.now)) by {
      EnabledRequeue(c, s, a);
    }
    TablesKept(c, checked, Requeue(a.client, a.now));
    SnapshotsKept(c, checked, Requeue(a.client, a.now));
    var requeued := Next(c, checked, Requeue(a.client, a.now));
    assert Enabled(c, requeued, Reset(a.client, a.now)) by {
      EnabledReset(c, checked, a.client, a.now);
    }
    TablesKept(c, requeued, Reset(a.client, a.now));
    SnapshotsKept(c, requeued, Reset(a.client, a.now));
  }

  lemma EnabledRequeue(c: Config, s: State, a: Action)
    requires CalmResubmit(c, s, a)
    ensures Enabled(c, Next(c, s, a), Requeue(a.client, a.now))
  {
  }

  lemma EnabledReset(c: Config, s: State, cl: int, now: real)
    requires Enabled(c, s, Requeue(cl, now))
    ensures Enabled(c, Next(c, s, Requeue(cl, now)), Reset(cl, now))
  {
  }

  // A failed request's job is dead and nobody works on it.
  lemma FailedIsIdle(c: Config, s: State, j: int)
    requires CalmOk(c, s) && j in s.db.jobs && s.db.jobs[j].requestId in s.db.requests
    requires s.db.requests[s.db.jobs[j].requestId].status == ReqFailed
    ensures s.db.jobs[j].status == Dead
    ensures forall v :: IsBusy(s, v) ==> s.slots[v].jobId != j
  {
  }

  lemma ResubmitCalm(c: Config, s: State, a: Action)
    requires CalmResubmit(c, s, a) && CalmOk(c, s)
    ensures CalmOk(c, Resubmitted(c, s, a))
  {
    ResubmitBasics(c, s, a);
    ResubmitEffect(c, s, a);
    var s', r := Resubmitted(c, s, a), ReenqueuedId(c, s, a);
    assert JobOf(s.db.jobs, r).Some?;
    var j := JobOf(s.db.jobs, r).value;
    FailedIsIdle(c, s, j);
    ReenqueuePair(s.db, r, j, a.now);
    hide Resubmitted, CalmResubmit;
    ReenqueueFrame(c, s, s', j);
  }

  lemma ReenqueueFrame(c: Config, s: State, s': State, j: int)
    requires CalmOk(c, s) && TablesOk(s') && SnapshotsOk(s') && NoSplitReenqueue(s') && s'.slots == s.slots
    requires OnlyJob(s.db, s'.db, j) && j in s'.db.jobs && s'.db.jobs[j].status == Queued
    requires s'.db.jobs[j].requestId in s'.db.requests && s'.db.requests[s'.db.jobs[j].requestId].status == ReqQueued
    requires forall v :: IsBusy(s, v) ==> s.slots[v].jobId != j
    ensures CalmOk(c, s')
  {
    hide TablesOk, CalmSlot, CalmRow, SnapshotOk;
    forall v | IsBusy(s', v) ensures CalmSlot(c, s', v) {
      FrameSlot(c, s, s', j, v);
    }
    forall i | i in s'.db.jobs ensures CalmRow(s', i) {
      if i == j {
        NewRow(s', j);
      } else {
        SameOwnerPc(s, s', j, i);
        FrameRow(s, s', j, i);
      }
    }
  }

  lemma SameOwnerPc(s: State, s': State, j: int, i: int)
    requires OnlyJob(s.db, s'.db, j) && s'.slots == s.slots && i != j && i in s.db.jobs
    ensures OwnerPc(s', i) == OwnerPc(s, i)
  {
  }

  lemma ReenqueuePair(db: Db, r: int, j: int, now: real)
    requires Constraints(db) && r in db.requests && j in db.jobs && db.jobs[j].requestId == r
    ensures var db' := ResetJobTx(RequeueRequestTx(db, r, now), r, now);
      && OnlyJob(db, db', j)
      && db'.jobs[j].status == Queued && db'.jobs[j].requestId == r && db'.requests[r].status == ReqQueued
  {
  }

  // ---- Runs ----

  ghost predicate CalmStep(c: Config, s: State, a: Action) {
    Calmly(c, s, a) || CalmResubmit(c, s, a)
  }

  ghost function AfterCalm(c: Config, s: State, a: Action): State
    requires CalmStep(c, s, a)
  {
    if Calmly(c, s, a) then Next(c, s, a) else Resubmitted(c, s, a)
  }

  ghost predicate CalmLegal(c: Config, s: State, acts: seq<Action>)
    decreases |acts|
  {
    acts == [] || (CalmStep(c, s, acts[0]) && CalmLegal(c, AfterCalm(c, s, acts[0]), acts[1..]))
  }

  ghost function CalmRun(c: Config, s: State, acts: seq<Action>): State
    requires CalmLegal(c, s, acts)
    decreases |acts|
  {
    if acts == [] then s else CalmRun(c, AfterCalm(c, s, acts[0]), acts[1..])
  }

  lemma CalmStepKept(c: Config, s: State, a: Action)
    requires CalmStep(c, s, a) && CalmOk(c, s)
    ensures CalmOk(c, AfterCalm(c, s, a))
  {
    hide CalmOk, Calmly, CalmResubmit, Next, Resubmitted;
    if Calmly(c, s, a) {
      CalmKept(c, s, a);
    } else {
      ResubmitCalm(c, s, a);
    }
  }

  lemma {:induction false} CalmRunOk(c: Config, s: State, acts: seq<Action>)
    requires CalmLegal(c, s, acts) && CalmOk(c, s)
    ensures CalmOk(c, CalmRun(c, s, acts))
    decreases |acts|
  {
    hide CalmOk, CalmStep, AfterCalm;
    if acts != [] {
      CalmStepKept(c, s, acts[0]);
      CalmRunOk(c, AfterCalm(c, s, acts[0]), acts[1..]);
    }
  }

  lemma InitialCalm(c: Config)
    ensures CalmOk(c, Initial)
  {
  }

  // A calm run is a run: each re-enqueue stands for its three steps.
  function Spelled(a: Action, resubmit: bool): seq<Action>
    requires resubmit ==> a.Submit?
  {
    if resubmit then [a, Requeue(a.client, a.now), Reset(a.client, a.now)] else [a]
  }

  lemma {:induction false} CalmRunIsRun(c: Config, s: State, acts: seq<Action>) returns (all: seq<Action>)
    requires CalmLegal(c, s, acts)
    ensures Legal(c, s, all) && Run(c, s, all) == CalmRun(c, s, acts)
    decreases |acts|
  {
    if acts == [] {
      all := [];
    } else {
      var a := acts[0];
      var rest := CalmRunIsRun(c, AfterCalm(c, s, a), acts[1..]);
      var head := Spelled(a, !Calmly(c, s, a));
      SpelledRuns(c, s, a);
      RunAppend(c, s, head, rest);
      all := head + rest;
    }
  }

  lemma SpelledRuns(c: Config, s: State, a: Action)
    requires CalmStep(c, s, a)
    ensures var head := Spelled(a, !Calmly(c, s, a));
            Legal(c, s, head) && Run(c, s, head) == AfterCalm(c, s, a)
  {
    hide NextDb, NextSlots, NextCache, NextBucket, NextLog;
    if Calmly(c, s, a) {
      OneStep(c, s, a);
    } else {
      var s1 := Next(c, s, a);
      EnabledRequeue(c, s, a);
      EnabledReset(c, s1, a.client, a.now);
      var s2 := Next(c, s1, Requeue(a.client, a.now));
      hide Enabled, Next;
      OneStep(c, s2, Reset(a.client, a.now));
      assert [Requeue(a.client, a.now), Reset(a.client, a.now)][1..] == [Reset(a.client, a.now)];
      assert Spelled(a, true)[1..] == [Requeue(a.client, a.now), Reset(a.client, a.now)];
    }
  }
}
