// What the assumptions of calm runs protect against.  Without (b) a heartbeat between the two
// writes that bury a job cancels the pipeline before the request is marked failed; without
// (c) an API call that dies between the two writes of a re-enqueue leaves the job dead;
// without (d) a retry's late write puts a completed request back to queued.  Each time the
// request is lost for good.
module Witness {
  import opened Wrappers
  import opened AutoId
  import opened Rows
  import opened RealArith
  import opened Tables
  import opened Machine
  import opened Structure
  import opened Calm
  import opened CalmRuns
  import opened Scenarios
  import opened Losing

  // ---- Without (b) ----

  // Bury the job, let the heartbeat look, cancel.
  function BurialCut(w: int, now: real): seq<Action> {
    [Advance(w, Missed, now), Beat(w, now), Cancel(w, now)]
  }

  // From every state a calm run can reach in which a slot is about to bury its job.
  lemma BurialCanLose(c: Config, s: State, w: int, now: real)
    requires CalmOk(c, s) && IsBusy(s, w) && s.slots[w].pc.KillJob? && !s.slots[w].lost
    ensures Legal(c, s, BurialCut(w, now)) && Lost(Run(c, s, BurialCut(w, now)), s.slots[w].job.requestId)
  {
    var acts := BurialCut(w, now);
    var s1 := Buried(c, s, w, now);
    var s2 := LostHeartbeat(c, s1, w, now);
    hide Next, Enabled, CalmOk, Lost;
    ThreeActions(c, s, acts);
    CancelLoses(c, s2, w, now, s.slots[w].job.requestId, s.slots[w].jobId);
  }

  lemma ThreeActions(c: Config, s: State, acts: seq<Action>)
    requires |acts| == 3 && Enabled(c, s, acts[0])
    requires Enabled(c, Next(c, s, acts[0]), acts[1]) && Enabled(c, Next(c, Next(c, s, acts[0]), acts[1]), acts[2])
    ensures Legal(c, s, acts) && Run(c, s, acts) == Next(c, Next(c, Next(c, s, acts[0]), acts[1]), acts[2])
  {
    hide Enabled, Next;
    var s1 := Next(c, s, acts[0]);
    var s2 := Next(c, s1, acts[1]);
    OneStep(c, s2, acts[2]);
    assert acts[1..][1..] == [acts[2]] && acts[1..][0] == acts[1];
    assert Legal(c, s1, acts[1..]) && Run(c, s1, acts[1..]) == Run(c, s2, [acts[2]]);
  }

  // The state between the two writes, held by w alone.
  ghost predicate HalfBuried(s: State, w: int, r: int, j: int, lost: bool) {
    && TablesOk(s) && SnapshotsOk(s)
    && IsBusy(s, w) && s.slots[w].jobId == j && s.slots[w].lost == lost
    && r in s.db.requests && s.db.requests[r].status == ReqQueued
    && j in s.db.jobs && s.db.jobs[j].requestId == r && s.db.jobs[j].status == Dead
    && (forall v :: v != w && IsBusy(s, v) ==> s.slots[v].jobId != j)
    && NoSplitReenqueue(s)
  }

  lemma Buried(c: Config, s: State, w: int, now: real) returns (s1: State)
    requires CalmOk(c, s) && IsBusy(s, w) && s.slots[w].pc.KillJob? && !s.slots[w].lost
    ensures Enabled(c, s, Advance(w, Missed, now)) && s1 == Next(c, s, Advance(w, Missed, now))
    ensures HalfBuried(s1, w, s.slots[w].job.requestId, s.slots[w].jobId, false)
  {
    hide NextCache, NextBucket, NextClients, NextLog, TablesOk, SnapshotsOk, CalmRow;
    var a := Advance(w, Missed, now);
    assert CalmSlot(c, s, w);
    s1 := Next(c, s, a);
    TablesKept(c, s, a);
    SnapshotsKept(c, s, a);
    ClientsStay(c, s, a);
  }

  lemma ClientsStay(c: Config, s: State, a: Action)
    requires Enabled(c, s, a) && (a.Advance? || a.Beat?)
    ensures NextClients(c, s, a) == s.clients
  {
  }

  lemma LostHeartbeat(c: Config, s: State, w: int, now: real) returns (s1: State)
    requires IsBusy(s, w) && HalfBuried(s, w, s.slots[w].job.requestId, s.slots[w].jobId, false)
    ensures Enabled(c, s, Beat(w, now)) && s1 == Next(c, s, Beat(w, now))
    ensures HalfBuried(s1, w, s.slots[w].job.requestId, s.slots[w].jobId, true)
    ensures Enabled(c, s1, Cancel(w, now))
  {
    hide NextCache, NextBucket, NextClients, NextLog, TablesOk, SnapshotsOk;
    var a := Beat(w, now);
    s1 := Next(c, s, a);
    TablesKept(c, s, a);
    SnapshotsKept(c, s, a);
    ClientsStay(c, s, a);
  }

  lemma CancelLoses(c: Config, s: State, w: int, now: real, r: int, j: int)
    requires HalfBuried(s, w, r, j, true) && Enabled(c, s, Cancel(w, now))
    ensures Lost(Next(c, s, Cancel(w, now)), r)
  {
    hide NextCache, NextBucket, NextLog;
    forall v | v != w && IsBusy(s, v) ensures s.slots[v].job.requestId != r {
      assert SnapshotOk(s.db, s.slots[v]);
    }
  }

  // ---- Without (c) ----

  // Resubmit, write the request, and die before the job is reset.
  function ReenqueueCut(cl: int, user: string, promptId: string, text: string, now: real): seq<Action> {
    [Submit(cl, user, Some(promptId), text, 2, now), Requeue(cl, now), Drop(cl, now)]
  }

  // From every calm state with a failed request.
  lemma ReenqueueCanLose(c: Config, s: State, cl: int, r: int, user: string, text: string, now: real)
    requires CalmOk(c, s) && cl !in s.clients && r in s.db.requests && s.db.requests[r].status == ReqFailed
    requires s.db.requests[r].promptId != "" && s.db.requests[r].textHash == HashText(c.sha, text)
    ensures var acts := ReenqueueCut(cl, user, s.db.requests[r].promptId, text, now);
      Legal(c, s, acts) && Lost(Run(c, s, acts), r)
  {
    var acts := ReenqueueCut(cl, user, s.db.requests[r].promptId, text, now);
    ReenqueueStarts(c, s, cl, r, user, text, now);
    var s1 := Next(c, s, acts[0]);
    ReenqueueHalf(c, s1, cl, r, now);
    hide Next, Enabled, CalmOk, Lost;
    ThreeActions(c, s, acts);
    CutLoses(c, s, Next(c, Next(c, s1, acts[1]), acts[2]), r, cl, now);
  }

  lemma ReenqueueStarts(c: Config, s: State, cl: int, r: int, user: string, text: string, now: real)
    requires CalmOk(c, s) && cl !in s.clients && r in s.db.requests && s.db.requests[r].status == ReqFailed
    requires s.db.requests[r].promptId != "" && s.db.requests[r].textHash == HashText(c.sha, text)
    ensures var submit := Submit(cl, user, Some(s.db.requests[r].promptId), text, 2, now);
      && Enabled(c, s, submit)
      && var s1 := Next(c, s, submit);
      s1.db == s.db && s1.slots == s.slots && s1.clients == s.clients[cl := Requeueing(r)]
  {
    hide NextHistories, CalmRow, CalmSlot, HashText;
    var o := RequestWithId(s.db.requests, s.db.requests[r].promptId);
    assert o.Some? && s.db.requests[o.value].promptId == s.db.requests[r].promptId;
    assert o.value == r;
  }

  lemma ReenqueueHalf(c: Config, s: State, cl: int, r: int, now: real)
    requires cl in s.clients && s.clients[cl] == Requeueing(r)
    ensures Enabled(c, s, Requeue(cl, now))
    ensures var s1 := Next(c, s, Requeue(cl, now));
      && Enabled(c, s1, Drop(cl, now))
      && var s2 := Next(c, s1, Drop(cl, now));
      s2.db == RequeueRequestTx(s.db, r, now) && s2.slots == s.slots && s2.clients == s.clients - {cl}
  {
    hide NextHistories;
  }

  lemma CutLoses(c: Config, s: State, s': State, r: int, cl: int, now: real)
    requires CalmOk(c, s) && cl !in s.clients && r in s.db.requests && s.db.requests[r].status == ReqFailed
    requires s'.db == RequeueRequestTx(s.db, r, now) && s'.slots == s.slots && s'.clients == s.clients[cl := Requeueing(r)] - {cl}
    ensures Lost(s', r)
  {
    assert JobOf(s.db.jobs, r).Some?;
    var j := JobOf(s.db.jobs, r).value;
    FailedIsIdle(c, s, j);
    forall v | IsBusy(s, v) ensures s.slots[v].job.requestId != r {
      assert SnapshotOk(s.db, s.slots[v]);
    }
    hide CalmRow, CalmSlot;
  }

  // ---- Without (d) ----

  function Latest(a: real, b: real): real {
    if a <= b then b else a
  }

  // When the retry is due and the bucket is sure to be full.
  function LateEnough(s: State, w: int): real
    requires IsBusy(s, w) && s.slots[w].pc.WriteRetry?
  {
    Latest(s.log.clock, Latest(s.slots[w].pc.due, if s.bucket.Present? then s.bucket.expiresAt else s.log.clock))
  }

  // A slot that has just claimed finds an answer in the cache or gets one from the model.
  lemma AnsweredReached(c: Config, o: State, s: State, v: int, now: real) returns (s': State)
    requires Reached(c, o, s) && IsBusy(s, v) && s.slots[v].pc.LookupExact? && s.log.clock <= now && c.capacity >= 1.0
    requires s.bucket.Present? ==> s.bucket.expiresAt <= now
    ensures Reached(c, o, s') && s'.db == s.db && s'.clients == s.clients && s'.log.clock == now
    ensures IsBusy(s', v) && s'.slots == s.slots[v := s.slots[v].(pc := s'.slots[v].pc)] && s'.slots[v].pc.FinishRequest?
  {
    hide Reached, HashText, Accrued;
    if KeyOf(c, s.slots[v]) in s.cache {
      s' := HitReached(c, o, s, v, now);
    } else {
      AccruedNothing(c.rate, now);
      var s1 := MissReached(c, o, s, v, now);
      var s2 := TokenReached(c, o, s1, v, now);
      s' := AnswerReached(c, o, s2, v, now);
    }
  }

  // From every calm state in which a slot has given its job back for a retry and not yet
  // written the request, another slot is free, and an answer can be had: the job is due,
  // claimed and completed before that write.
  lemma LateRetryCanLose(c: Config, s: State, w: int, v: int)
    requires CalmOk(c, s) && IsBusy(s, w) && s.slots[w].pc.WriteRetry? && v in s.slots && s.slots[v].Idle?
    requires c.capacity >= 1.0
    ensures exists acts :: Legal(c, s, acts) && Lost(Run(c, s, acts), s.slots[w].job.requestId)
  {
    hide CalmOk, Lost, Reached, HashText, Enabled, Next, ClaimTx, CompleteJobTx, CompleteRequestTx, RetryRequestTx, Legal, Run;
    var j, now := s.slots[w].jobId, LateEnough(s, w);
    RetryIsWaiting(c, s, w);
    OriginReached(c, s);
    var s1 := ClaimReached(c, s, s, v, j, now);
    var s2 := AnsweredReached(c, s, s1, v, now);
    var s3 := FinishReached(c, s, s2, v, now);
    var s4 := RetryWriteReached(c, s, s3, w, now);
    LateWriteLoses(c, s, s2, s4, w, v, now);
    LosingRun(c, s, s4, s.slots[w].job.requestId);
  }

  lemma LosingRun(c: Config, s: State, s': State, r: int)
    requires Reached(c, s, s') && Lost(s', r)
    ensures exists acts :: Legal(c, s, acts) && Lost(Run(c, s, acts), r)
  {
    hide Lost, Legal, Run;
  }

  // The retry's write, which looks neither at the job nor at the request.
  lemma RetryWriteReached(c: Config, o: State, s: State, w: int, now: real) returns (s': State)
    requires Reached(c, o, s) && IsBusy(s, w) && s.slots[w].pc.WriteRetry? && s.log.clock <= now
    ensures Reached(c, o, s') && s'.clients == s.clients && s'.slots == s.slots[w := Idle]
    ensures var slot := s.slots[w];
      s'.db == RetryRequestTx(s.db, slot.job.requestId, slot.pc.retryError, slot.request.retryCount + 1, now)
  {
    hide Reached, Enabled, Next, RetryRequestTx;
    Advancing(c, s, w, Missed, now);
    StepReached(c, o, s, Advance(w, Missed, now));
    s' := Next(c, s, Advance(w, Missed, now));
  }

  lemma RetryIsWaiting(c: Config, s: State, w: int)
    requires CalmOk(c, s) && IsBusy(s, w) && s.slots[w].pc.WriteRetry?
    ensures var j := s.slots[w].jobId;
      && Eligible(s.db, j, s.slots[w].pc.due) && s.db.jobs[j].requestId == s.slots[w].job.requestId && s.db.jobs[j].requestId in s.db.requests
  {
    assert CalmSlot(c, s, w);
  }

  lemma LateWriteLoses(c: Config, s: State, s2: State, s': State, w: int, v: int, now: real)
    requires CalmOk(c, s) && IsBusy(s, w) && s.slots[w].pc.WriteRetry? && v in s.slots && s.slots[v].Idle?
    requires IsBusy(s2, v) && s2.slots[v].pc.FinishRequest? && s2.slots[v].jobId == s.slots[w].jobId
    requires s2.slots[v].job.requestId == s.slots[w].job.requestId
    requires s2.db == ClaimTx(s.db, s.slots[w].jobId, v, now, c.lease)
    requires var pc := s2.slots[v].pc; var r, j := s.slots[w].job.requestId, s.slots[w].jobId;
      s'.db == RetryRequestTx(CompleteJobTx(CompleteRequestTx(s2.db, r, pc.final, pc.cached, pc.embedding, now), j, now),
                              r, s.slots[w].pc.retryError, s.slots[w].request.retryCount + 1, now)
    requires s'.clients == s.clients && s'.slots == s.slots[v := Idle][w := Idle]
    ensures Lost(s', s.slots[w].job.requestId)
  {
    assert CalmSlot(c, s, w);
    forall u | u != w && IsBusy(s, u) ensures s.slots[u].job.requestId != s.slots[w].job.requestId {
      assert SnapshotOk(s.db, s.slots[u]) && SnapshotOk(s.db, s.slots[w]);
    }
    hide CalmRow, CalmSlot;
  }

  // ---- Calm runs come to such states ----

  // Such a state is a few calm steps away from the empty system: submit, claim, and an
  // exception that is not on the retryable list, as every database error is.
  function BurialSteps(user: string, id: string, text: string): seq<Action> {
    [Submit(1, user, Some(id), text, 2, 0.0), Admit(1, 0.0), Insert(1, 1, 1, 0.0), Spawn(1, 0.0), Claim(1, 1, 0.0),
     Raise(1, Fault(Unclassified, "connection lost"), 0.0)]
  }

  lemma CalmCons(c: Config, s: State, a: Action, rest: seq<Action>)
    requires Calmly(c, s, a) && CalmLegal(c, Next(c, s, a), rest)
    ensures CalmLegal(c, s, [a] + rest) && CalmRun(c, s, [a] + rest) == CalmRun(c, Next(c, s, a), rest)
  {
    hide Calmly, Next, CalmResubmit;
    assert ([a] + rest)[1..] == rest;
  }

  lemma Submitted(c: Config, user: string, id: string, text: string) returns (s: State)
    requires id != "" && c.maxDepth >= 1
    ensures var a := Submit(1, user, Some(id), text, 2, 0.0); Calmly(c, Initial, a) && s == Next(c, Initial, a)
    ensures s.db == EmptyDb && s.slots == map[] && s.clients == map[1 := Admitting(user, id, text, 2)] && s.log.clock == 0.0
  {
    s := Next(c, Initial, Submit(1, user, Some(id), text, 2, 0.0));
  }

  lemma Admitted(c: Config, s: State, user: string, id: string, text: string) returns (s2: State)
    requires c.maxDepth >= 1
    requires s.db == EmptyDb && s.slots == map[] && s.clients == map[1 := Admitting(user, id, text, 2)] && s.log.clock == 0.0
    ensures Calmly(c, s, Admit(1, 0.0)) && s2 == Next(c, s, Admit(1, 0.0))
    ensures s2.db == EmptyDb && s2.slots == map[] && s2.clients == map[1 := Inserting(user, id, text, 2)] && s2.log.clock == 0.0
  {
    hide NextCache, NextBucket, NextHistories;
    assert InFlightJobs(s.db) == {};
    s2 := Next(c, s, Admit(1, 0.0));
  }

  lemma Inserted(c: Config, s2: State, user: string, id: string, text: string) returns (s3: State)
    requires s2.db == EmptyDb && s2.slots == map[] && s2.clients == map[1 := Inserting(user, id, text, 2)] && s2.log.clock == 0.0
    ensures Calmly(c, s2, Insert(1, 1, 1, 0.0)) && s3 == Next(c, s2, Insert(1, 1, 1, 0.0))
    ensures s3.slots == map[] && s3.log.clock == 0.0
    ensures 1 in s3.db.jobs && s3.db.jobs[1] == NewJob(1, 2, c.maxAttempts, 0.0) && 1 in s3.db.requests
  {
    hide NextCache, NextBucket, NextHistories;
    s3 := Next(c, s2, Insert(1, 1, 1, 0.0));
  }

  lemma SlotSpawned(c: Config, s: State) returns (s4: State)
    requires c.slotLimit >= 1 && s.slots == map[] && s.log.clock == 0.0
    ensures Calmly(c, s, Spawn(1, 0.0)) && s4 == Next(c, s, Spawn(1, 0.0))
    ensures s4.slots == map[1 := Idle] && s4.db == s.db && s4.log.clock == 0.0
  {
    hide NextCache, NextBucket, NextHistories, NextClients;
    s4 := Next(c, s, Spawn(1, 0.0));
  }

  lemma JobClaimed(c: Config, s4: State) returns (s5: State)
    requires s4.slots == map[1 := Idle] && s4.log.clock == 0.0
    requires 1 in s4.db.jobs && s4.db.jobs[1] == NewJob(1, 2, c.maxAttempts, 0.0) && 1 in s4.db.requests
    ensures Calmly(c, s4, Claim(1, 1, 0.0)) && s5 == Next(c, s4, Claim(1, 1, 0.0))
    ensures s5.slots.Keys == {1} && IsBusy(s5, 1) && s5.slots[1].pc.LookupExact? && !s5.slots[1].lost && s5.log.clock == 0.0
    ensures s5.slots[1].job.attempts == 1 && s5.slots[1].job.maxAttempts == c.maxAttempts
  {
    hide NextDb, NextCache, NextBucket, NextHistories, NextClients;
    s5 := Next(c, s4, Claim(1, 1, 0.0));
  }

  lemma FailedOutright(c: Config, s5: State) returns (s6: State)
    requires s5.slots.Keys == {1} && IsBusy(s5, 1) && s5.slots[1].pc.LookupExact? && !s5.slots[1].lost && s5.log.clock == 0.0
    ensures var a := Raise(1, Fault(Unclassified, "connection lost"), 0.0); Calmly(c, s5, a) && s6 == Next(c, s5, a)
    ensures IsBusy(s6, 1) && s6.slots[1].pc.KillJob? && !s6.slots[1].lost && OneSlot(s6)
  {
    s6 := Next(c, s5, Raise(1, Fault(Unclassified, "connection lost"), 0.0));
  }

  lemma NoSteps(c: Config, s: State)
    ensures CalmLegal(c, s, []) && CalmRun(c, s, []) == s
  {
  }

  lemma StepByStep(user: string, id: string, text: string)
    ensures var acts := BurialSteps(user, id, text);
      acts == [acts[0]] + ([acts[1]] + ([acts[2]] + ([acts[3]] + ([acts[4]] + ([acts[5]] + [])))))
    ensures var acts := BurialSteps(user, id, text);
      && acts[0] == Submit(1, user, Some(id), text, 2, 0.0) && acts[1] == Admit(1, 0.0) && acts[2] == Insert(1, 1, 1, 0.0)
      && acts[3] == Spawn(1, 0.0) && acts[4] == Claim(1, 1, 0.0) && acts[5] == Raise(1, Fault(Unclassified, "connection lost"), 0.0)
  {
  }

  lemma BurialIsReachable(c: Config, user: string, id: string, text: string)
    requires id != "" && c.maxDepth >= 1 && c.slotLimit >= 1
    ensures CalmLegal(c, Initial, BurialSteps(user, id, text))
    ensures var s := CalmRun(c, Initial, BurialSteps(user, id, text));
      CalmOk(c, s) && IsBusy(s, 1) && s.slots[1].pc.KillJob? && !s.slots[1].lost && OneSlot(s)
  {
    hide Next, Calmly, CalmOk, CalmLegal, CalmRun, IsBusy, CalmStep, AfterCalm, Legal, Run;
    StepByStep(user, id, text);
    var acts := BurialSteps(user, id, text);
    var s1 := Submitted(c, user, id, text);
    var s2 := Admitted(c, s1, user, id, text);
    var s3 := Inserted(c, s2, user, id, text);
    var s4 := SlotSpawned(c, s3);
    var s5 := JobClaimed(c, s4);
    var s6 := FailedOutright(c, s5);
    NoSteps(c, s6);
    CalmCons(c, s5, acts[5], []);
    CalmCons(c, s4, acts[4], [acts[5]] + []);
    CalmCons(c, s3, acts[3], [acts[4]] + ([acts[5]] + []));
    CalmCons(c, s2, acts[2], [acts[3]] + ([acts[4]] + ([acts[5]] + [])));
    CalmCons(c, s1, acts[1], [acts[2]] + ([acts[3]] + ([acts[4]] + ([acts[5]] + []))));
    CalmCons(c, Initial, acts[0], [acts[1]] + ([acts[2]] + ([acts[3]] + ([acts[4]] + ([acts[5]] + [])))));
    InitialCalm(c);
    CalmRunOk(c, Initial, acts);
  }

  // ---- And to a failed request, and to a retry half done ----

  ghost predicate CalmReached(c: Config, s: State) {
    exists acts :: CalmLegal(c, Initial, acts) && CalmRun(c, Initial, acts) == s
  }

  lemma {:induction false} CalmAppend(c: Config, o: State, acts: seq<Action>, a: Action)
    requires CalmLegal(c, o, acts) && Calmly(c, CalmRun(c, o, acts), a)
    ensures CalmLegal(c, o, acts + [a]) && CalmRun(c, o, acts + [a]) == Next(c, CalmRun(c, o, acts), a)
    decreases |acts|
  {
    hide Enabled, Next, CalmResubmit, Resubmitted;
    if acts == [] {
      assert acts + [a] == [a] && [a][1..] == [];
      NoSteps(c, Next(c, o, a));
    } else {
      assert (acts + [a])[1..] == acts[1..] + [a];
      CalmAppend(c, AfterCalm(c, o, acts[0]), acts[1..], a);
    }
  }

  lemma CalmStepReached(c: Config, s: State, a: Action)
    requires CalmReached(c, s) && Calmly(c, s, a)
    ensures CalmReached(c, Next(c, s, a))
  {
    hide Calmly, Next, CalmLegal, CalmRun;
    var acts :| CalmLegal(c, Initial, acts) && CalmRun(c, Initial, acts) == s;
    CalmAppend(c, Initial, acts, a);
  }

  lemma FailedRequestIsReachable(c: Config, user: string, id: string, text: string) returns (s: State)
    requires id != "" && c.maxDepth >= 1 && c.slotLimit >= 1
    ensures CalmReached(c, s) && CalmOk(c, s)
    ensures exists r :: r in s.db.requests && s.db.requests[r].status == ReqFailed
  {
    var acts := BurialSteps(user, id, text);
    BurialIsReachable(c, user, id, text);
    var s1 := CalmRun(c, Initial, acts);
    assert CalmReached(c, s1);
    hide CalmReached, CalmLegal, CalmRun;
    var s2 := BuriedCalmly(c, s1);
    s := RequestFailedCalmly(c, s2);
  }

  lemma BuriedCalmly(c: Config, s: State) returns (s': State)
    requires CalmReached(c, s) && CalmOk(c, s) && IsBusy(s, 1) && s.slots[1].pc.KillJob? && OneSlot(s)
    ensures CalmReached(c, s') && CalmOk(c, s') && IsBusy(s', 1) && s'.slots[1].pc.FailRequest? && OneSlot(s')
  {
    hide CalmReached, CalmOk;
    var a := Advance(1, Missed, s.log.clock);
    s' := Next(c, s, a);
    CalmlyOn(c, s, a);
  }

  ghost predicate OneSlot(s: State) {
    forall w :: w in s.slots ==> w == 1
  }

  lemma RequestFailedCalmly(c: Config, s: State) returns (s': State)
    requires CalmReached(c, s) && CalmOk(c, s) && IsBusy(s, 1) && s.slots[1].pc.FailRequest? && OneSlot(s)
    ensures CalmReached(c, s') && CalmOk(c, s')
    ensures exists r :: r in s'.db.requests && s'.db.requests[r].status == ReqFailed
  {
    hide CalmReached, CalmOk, NextDb;
    var a := Advance(1, Missed, s.log.clock);
    s' := Next(c, s, a);
    RequestNowFailed(c, s, a);
    CalmlyOn(c, s, a);
  }

  lemma RequestNowFailed(c: Config, s: State, a: Action)
    requires CalmOk(c, s) && a.Advance? && IsBusy(s, a.w) && s.slots[a.w].pc.FailRequest? && Enabled(c, s, a)
    ensures var r := s.slots[a.w].job.requestId; r in NextDb(c, s, a).requests && NextDb(c, s, a).requests[r].status == ReqFailed
  {
    assert CalmSlot(c, s, a.w);
  }

  lemma ClaimedCalmly(c: Config, user: string, id: string, text: string) returns (s: State)
    requires id != "" && c.maxDepth >= 1 && c.slotLimit >= 1
    ensures CalmReached(c, s) && CalmOk(c, s)
    ensures s.slots.Keys == {1} && IsBusy(s, 1) && s.slots[1].pc.LookupExact? && s.log.clock == 0.0
    ensures s.slots[1].job.attempts == 1 && s.slots[1].job.maxAttempts == c.maxAttempts
  {
    hide CalmOk, Calmly, Next;
    assert CalmReached(c, Initial) by {
      NoSteps(c, Initial);
    }
    hide CalmReached;
    InitialCalm(c);
    var s1 := Submitted(c, user, id, text);
    CalmlyOn(c, Initial, Submit(1, user, Some(id), text, 2, 0.0));
    var s2 := Admitted(c, s1, user, id, text);
    CalmlyOn(c, s1, Admit(1, 0.0));
    var s3 := Inserted(c, s2, user, id, text);
    CalmlyOn(c, s2, Insert(1, 1, 1, 0.0));
    var s4 := SlotSpawned(c, s3);
    CalmlyOn(c, s3, Spawn(1, 0.0));
    s := JobClaimed(c, s4);
    CalmlyOn(c, s4, Claim(1, 1, 0.0));
  }

  lemma CalmlyOn(c: Config, s: State, a: Action)
    requires CalmReached(c, s) && CalmOk(c, s) && Calmly(c, s, a)
    ensures CalmReached(c, Next(c, s, a)) && CalmOk(c, Next(c, s, a))
  {
    hide CalmReached, CalmOk, Calmly, Next;
    CalmStepReached(c, s, a);
    CalmKept(c, s, a);
  }

  // A timeout on the first of several attempts: the job given back, the request not written.
  lemma HalfRetryIsReachable(c: Config, user: string, id: string, text: string) returns (s: State)
    requires id != "" && c.maxDepth >= 1 && c.slotLimit >= 2 && c.maxAttempts >= 2
    ensures CalmReached(c, s) && CalmOk(c, s)
    ensures IsBusy(s, 1) && s.slots[1].pc.WriteRetry? && 2 in s.slots && s.slots[2].Idle?
  {
    var s5 := ClaimedCalmly(c, user, id, text);
    var s6 := TimedOut(c, s5);
    var s7 := GivenBack(c, s6);
    s := SecondSlot(c, s7);
  }

  lemma TimedOut(c: Config, s: State) returns (s': State)
    requires CalmReached(c, s) && CalmOk(c, s) && c.maxAttempts >= 2
    requires s.slots.Keys == {1} && IsBusy(s, 1) && s.slots[1].pc.LookupExact? && s.log.clock == 0.0
    requires s.slots[1].job.attempts == 1 && s.slots[1].job.maxAttempts == c.maxAttempts
    ensures CalmReached(c, s') && CalmOk(c, s') && s'.slots.Keys == {1} && s'.log.clock == 0.0
    ensures IsBusy(s', 1) && s'.slots[1].pc.ReleaseJob? && s'.slots[1].pc.reason.Retry? && s'.slots[1].pc.delay == 1.0
  {
    hide CalmReached, CalmOk, NextDb;
    var a := Raise(1, Fault(LlmTimeout, "timed out"), 0.0);
    s' := Next(c, s, a);
    CalmlyOn(c, s, a);
  }

  lemma GivenBack(c: Config, s: State) returns (s': State)
    requires CalmReached(c, s) && CalmOk(c, s) && s.slots.Keys == {1} && s.log.clock == 0.0
    requires IsBusy(s, 1) && s.slots[1].pc.ReleaseJob? && s.slots[1].pc.reason.Retry? && s.slots[1].pc.delay == 1.0
    ensures CalmReached(c, s') && CalmOk(c, s') && s'.slots.Keys == {1} && s'.log.clock == 0.0
    ensures IsBusy(s', 1) && s'.slots[1].pc.WriteRetry? && s'.slots[1].pc.due == 1.0
  {
    hide CalmReached, CalmOk, NextDb;
    OwnsItsJob(c, s, 1);
    var a := Advance(1, Missed, 0.0);
    s' := Next(c, s, a);
    CalmlyOn(c, s, a);
  }

  lemma OwnsItsJob(c: Config, s: State, w: int)
    requires CalmOk(c, s) && IsBusy(s, w) && s.slots[w].pc.ReleaseJob?
    ensures Owns(s.db, w, s.slots[w].jobId)
  {
    assert CalmSlot(c, s, w);
  }

  lemma SecondSlot(c: Config, s: State) returns (s': State)
    requires CalmReached(c, s) && CalmOk(c, s) && s.slots.Keys == {1} && s.log.clock == 0.0 && c.slotLimit >= 2
    requires IsBusy(s, 1) && s.slots[1].pc.WriteRetry? && s.slots[1].pc.due == 1.0
    ensures CalmReached(c, s') && CalmOk(c, s')
    ensures IsBusy(s', 1) && s'.slots[1].pc.WriteRetry? && 2 in s'.slots && s'.slots[2].Idle?
  {
    hide CalmReached, CalmOk, NextDb;
    var a := Spawn(2, 0.0);
    assert |s.slots| == |s.slots.Keys| == 1;
    s' := Next(c, s, a);
    CalmlyOn(c, s, a);
  }
}
