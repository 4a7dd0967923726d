// Building runs: what the actions of a scenario do to a state, and runs on one clock put
// together step by step.
module Scenarios {
  import opened Wrappers
  import opened AutoId
  import opened Rows
  import opened Tables
  import opened Machine
  import opened Recovery
  import opened TokenBucket
  import opened AllRuns

  // ---- States that a run on one clock comes to from a given state ----

  ghost predicate Reached(c: Config, o: State, s: State) {
    exists acts :: ClockLegal(c, o, acts) && Legal(c, o, acts) && Run(c, o, acts) == s
  }

  lemma OriginReached(c: Config, o: State)
    ensures Reached(c, o, o)
  {
    var acts: seq<Action> := [];
    assert ClockLegal(c, o, acts) && Legal(c, o, acts) && Run(c, o, acts) == o;
  }

  lemma {:induction false} ClockAppend(c: Config, s: State, acts: seq<Action>, a: Action)
    requires ClockLegal(c, s, acts) && Legal(c, s, acts)
    requires Enabled(c, Run(c, s, acts), a) && OnClock(Run(c, s, acts), a)
    ensures ClockLegal(c, s, acts + [a])
    decreases |acts|
  {
    hide Next, Enabled, OnClock;
    if acts == [] {
      assert acts + [a] == [a] && [a][1..] == [];
    } else {
      assert (acts + [a])[1..] == acts[1..] + [a];
      ClockAppend(c, Next(c, s, acts[0]), acts[1..], a);
    }
  }

  lemma StepReached(c: Config, o: State, s: State, a: Action)
    requires Reached(c, o, s) && Enabled(c, s, a) && OnClock(s, a)
    ensures Reached(c, o, Next(c, s, a))
  {
    hide Next, Enabled, OnClock, ClockLegal, Legal, Run;
    var acts :| ClockLegal(c, o, acts) && Legal(c, o, acts) && Run(c, o, acts) == s;
    OneStep(c, s, a);
    RunAppend(c, o, acts, [a]);
    ClockAppend(c, o, acts, a);
  }

  // ---- Submitting, start to end ----

  ghost predicate CanFile(c: Config, s: State, k: int, id: string) {
    && k !in s.clients && k !in s.db.jobs && k !in s.db.requests
    && RequestWithId(s.db.requests, id).None? && QueuedDepth(s.db) < c.maxDepth
  }

  // After the check, the depth check and the insert of a new prompt id.
  ghost function Filed(c: Config, s: State, k: int, user: string, id: string, text: string, now: real): State {
    s.(db := InsertTx(s.db, k, NewRequest(user, id, text, HashText(c.sha, text), 2, now), k, NewJob(k, 2, c.maxAttempts, now)),
       log := s.log.(histories := s.log.histories[k := NoHistory], clock := now))
  }

  lemma SubmitDone(c: Config, s: State, k: int, user: string, givenId: Option<string>, text: string, now: real)
    requires CanFile(c, s, k, ResolvedPromptId(c.sha, user, givenId, text))
    ensures var submit := Submit(k, user, givenId, text, 2, now);
      Enabled(c, s, submit) && Next(c, s, submit) ==
        s.(clients := s.clients[k := Admitting(user, ResolvedPromptId(c.sha, user, givenId, text), text, 2)], log := s.log.(clock := now))
  {
    hide ResolvedPromptId, HashText, QueuedDepth, RequestWithId;
  }

  lemma AdmitDone(c: Config, s: State, k: int, user: string, id: string, text: string, now: real)
    requires k in s.clients && s.clients[k] == Admitting(user, id, text, 2) && QueuedDepth(s.db) < c.maxDepth
    ensures Enabled(c, s, Admit(k, now)) && Next(c, s, Admit(k, now)) ==
      s.(clients := s.clients[k := Inserting(user, id, text, 2)], log := s.log.(clock := now))
  {
    hide QueuedDepth;
  }

  lemma InsertDone(c: Config, s: State, k: int, user: string, id: string, text: string, now: real)
    requires k in s.clients && s.clients[k] == Inserting(user, id, text, 2)
    requires k !in s.db.jobs && k !in s.db.requests && RequestWithId(s.db.requests, id).None?
    ensures Enabled(c, s, Insert(k, k, k, now))
    ensures Next(c, s, Insert(k, k, k, now)) == Filed(c, s, k, user, id, text, now).(clients := s.clients - {k})
  {
    hide HashText, RequestWithId;
  }

  lemma Filing(c: Config, s: State, k: int, user: string, givenId: Option<string>, text: string, now: real)
    requires CanFile(c, s, k, ResolvedPromptId(c.sha, user, givenId, text))
    ensures var submit, admit, insert := Submit(k, user, givenId, text, 2, now), Admit(k, now), Insert(k, k, k, now);
      && Enabled(c, s, submit)
      && var s1 := Next(c, s, submit);
      && Enabled(c, s1, admit) && s1.log.clock == now
      && var s2 := Next(c, s1, admit);
      && Enabled(c, s2, insert) && s2.log.clock == now
      && Next(c, s2, insert) == Filed(c, s, k, user, ResolvedPromptId(c.sha, user, givenId, text), text, now)
  {
    hide ResolvedPromptId, HashText, QueuedDepth, RequestWithId, Next, Enabled;
    var id := ResolvedPromptId(c.sha, user, givenId, text);
    SubmitDone(c, s, k, user, givenId, text, now);
    var s1 := Next(c, s, Submit(k, user, givenId, text, 2, now));
    AdmitDone(c, s1, k, user, id, text, now);
    var s2 := Next(c, s1, Admit(k, now));
    InsertDone(c, s2, k, user, id, text, now);
    assert s2.clients - {k} == s.clients;
  }

  lemma FiledReached(c: Config, o: State, s: State, k: int, user: string, givenId: Option<string>, text: string, now: real)
    requires Reached(c, o, s) && CanFile(c, s, k, ResolvedPromptId(c.sha, user, givenId, text)) && s.log.clock <= now
    ensures Reached(c, o, Filed(c, s, k, user, ResolvedPromptId(c.sha, user, givenId, text), text, now))
  {
    hide Reached, Enabled, Next, CanFile, Filed;
    Filing(c, s, k, user, givenId, text, now);
    var s1 := Next(c, s, Submit(k, user, givenId, text, 2, now));
    StepReached(c, o, s, Submit(k, user, givenId, text, 2, now));
    StepReached(c, o, s1, Admit(k, now));
    StepReached(c, o, Next(c, s1, Admit(k, now)), Insert(k, k, k, now));
  }

  // ---- Steps of a slot ----

  lemma Spawning(c: Config, s: State, w: int, now: real)
    requires w !in s.slots && |s.slots| < c.slotLimit
    ensures Enabled(c, s, Spawn(w, now))
    ensures Next(c, s, Spawn(w, now)) == s.(slots := s.slots[w := Idle], log := s.log.(clock := now))
  {
  }

  lemma Claiming(c: Config, s: State, w: int, j: int, now: real)
    requires w in s.slots && s.slots[w].Idle? && Eligible(s.db, j, now) && s.db.jobs[j].requestId in s.db.requests
    ensures Enabled(c, s, Claim(w, j, now))
    ensures var s' := Next(c, s, Claim(w, j, now));
      && s'.db == ClaimTx(s.db, j, w, now, c.lease) && s'.slots == s.slots[w := Claimant(c, s, w, j, now)]
      && s'.cache == s.cache && s'.bucket == s.bucket && s'.clients == s.clients && s'.log.clock == now
      && s'.log.calls == s.log.calls && s'.log.lateCalls == s.log.lateCalls && s'.log.lateStores == s.log.lateStores
  {
  }

  lemma Advancing(c: Config, s: State, w: int, o: Oracle, now: real)
    requires IsBusy(s, w) && (s.slots[w].pc.LookupNearest? ==> o.nearest.None?)
    ensures var a := Advance(w, o, now);
      && Enabled(c, s, a)
      && var s' := Next(c, s, a);
      && s'.db == PipelineDb(s.db, w, s.slots[w], now) && s'.slots == s.slots[w := Moved(s.slots[w], NextPc(c, s, w, o, now))]
      && s'.cache == NextCache(c, s, a) && s'.bucket == NextBucket(c, s, a) && s'.clients == s.clients && s'.log.clock == now
      && s'.log.lateCalls == NextLate(c, s, a, s.log.lateCalls, CallsModel(s, a))
      && s'.log.lateStores == NextLate(c, s, a, s.log.lateStores, StoresAnswer(s, a))
      && s'.log.calls == if CallsModel(s, a) then s.log.calls + [now] else s.log.calls
  {
    hide PipelineDb, NextCache, NextBucket, NextPc, NextLate, NextHistories;
  }

  // ---- A slot's way through the pipeline, at one reading of the clock ----

  // The state with one slot elsewhere and nothing else different but the clock and the log.
  ghost predicate SlotMoved(s: State, s': State, w: int, slot: Slot, now: real) {
    && s'.db == s.db && s'.cache == s.cache && s'.clients == s.clients && s'.slots == s.slots[w := slot]
    && s'.log.clock == now
  }

  ghost predicate SameCounts(s: State, s': State) {
    s'.log.calls == s.log.calls && s'.log.lateCalls == s.log.lateCalls && s'.log.lateStores == s.log.lateStores
  }

  const Missed := Oracle(None, Answer, Response(""))

  // Neither lookup finds anything.
  lemma MissReached(c: Config, o: State, s: State, w: int, now: real) returns (s': State)
    requires Reached(c, o, s) && IsBusy(s, w) && s.slots[w].pc.LookupExact? && KeyOf(c, s.slots[w]) !in s.cache && s.log.clock <= now
    ensures Reached(c, o, s') && SlotMoved(s, s', w, s.slots[w].(pc := TakeToken), now) && s'.bucket == s.bucket && SameCounts(s, s')
  {
    hide Reached, HashText, Enabled, Next;
    Advancing(c, s, w, Missed, now);
    StepReached(c, o, s, Advance(w, Missed, now));
    var s1 := Next(c, s, Advance(w, Missed, now));
    Advancing(c, s1, w, Missed, now);
    StepReached(c, o, s1, Advance(w, Missed, now));
    s' := Next(c, s1, Advance(w, Missed, now));
  }

  lemma TokenReached(c: Config, o: State, s: State, w: int, now: real) returns (s': State)
    requires Reached(c, o, s) && IsBusy(s, w) && s.slots[w].pc.TakeToken? && s.log.clock <= now
    requires c.rate != 0.0 || KeyGranted(c.capacity, c.rate, s.bucket, now)
    ensures Reached(c, o, s') && s'.bucket == KeyAfterCall(c.capacity, c.rate, s.bucket, now) && SameCounts(s, s')
    ensures SlotMoved(s, s', w, s.slots[w].(pc :=
      if KeyGranted(c.capacity, c.rate, s.bucket, now) then CallModel else ReleaseJob(WaitTime(c.rate), Denied)), now)
  {
    hide Reached, KeyAfterCall, KeyGranted, WaitTime, Enabled, Next;
    Advancing(c, s, w, Missed, now);
    StepReached(c, o, s, Advance(w, Missed, now));
    s' := Next(c, s, Advance(w, Missed, now));
  }

  // The model's own guard refuses the call.
  const Refused := Oracle(None, Answer, Raised(Fault(RateLimitExceeded(0.0), "Rate limit exceeded; retry after 0.00s")))

  lemma RefusalReached(c: Config, o: State, s: State, w: int, now: real) returns (s': State)
    requires Reached(c, o, s) && IsBusy(s, w) && s.slots[w].pc.CallModel? && s.log.clock <= now
    ensures Reached(c, o, s') && s'.bucket == s.bucket && SlotMoved(s, s', w, s.slots[w].(pc := ReleaseJob(0.0, Deferral)), now)
    ensures s'.log.calls == s.log.calls + [now]
  {
    hide Reached, Enabled, Next, NextLate;
    Advancing(c, s, w, Refused, now);
    StepReached(c, o, s, Advance(w, Refused, now));
    var s1 := Next(c, s, Advance(w, Refused, now));
    Advancing(c, s1, w, Refused, now);
    StepReached(c, o, s1, Advance(w, Refused, now));
    s' := Next(c, s1, Advance(w, Refused, now));
  }

  lemma ReleaseReached(c: Config, o: State, s: State, w: int, now: real) returns (s': State)
    requires Reached(c, o, s) && IsBusy(s, w) && s.slots[w].pc.ReleaseJob? && !s.slots[w].pc.reason.Retry? && s.log.clock <= now
    ensures Reached(c, o, s') && s'.slots == s.slots[w := Idle] && s'.clients == s.clients && s'.cache == s.cache && s'.bucket == s.bucket
    ensures s'.db == ReleaseTx(s.db, s.slots[w].jobId, w, now + s.slots[w].pc.delay) && s'.log.clock == now && SameCounts(s, s')
  {
    hide Reached, Enabled, Next, ReleaseTx;
    Advancing(c, s, w, Missed, now);
    StepReached(c, o, s, Advance(w, Missed, now));
    s' := Next(c, s, Advance(w, Missed, now));
  }

  lemma ClaimReached(c: Config, o: State, s: State, w: int, j: int, now: real) returns (s': State)
    requires Reached(c, o, s) && w in s.slots && s.slots[w].Idle? && Eligible(s.db, j, now) && s.db.jobs[j].requestId in s.db.requests
    requires s.log.clock <= now
    ensures Reached(c, o, s') && s' == Next(c, s, Claim(w, j, now))
    ensures s'.db == ClaimTx(s.db, j, w, now, c.lease) && s'.slots == s.slots[w := Claimant(c, s, w, j, now)]
    ensures s'.cache == s.cache && s'.bucket == s.bucket && s'.clients == s.clients && s'.log.clock == now && SameCounts(s, s')
  {
    hide Reached, Enabled, Next;
    Claiming(c, s, w, j, now);
    StepReached(c, o, s, Claim(w, j, now));
    s' := Next(c, s, Claim(w, j, now));
  }

  const Answered := Oracle(None, Answer, Response("an answer"))

  // A slot calls, hears, and stores.
  lemma AnswerReached(c: Config, o: State, s: State, w: int, now: real) returns (s': State)
    requires Reached(c, o, s) && IsBusy(s, w) && s.slots[w].pc.CallModel? && s.log.clock <= now
    ensures var key := KeyOf(c, s.slots[w]);
      && Reached(c, o, s') && key in s'.cache && |s'.log.calls| == |s.log.calls| + 1
      && Count(s'.log.lateCalls, key) == Count(s.log.lateCalls, key) + (if key in s.cache then 1 else 0)
      && Count(s'.log.lateStores, key) == Count(s.log.lateStores, key) + (if key in s.cache then 1 else 0)
      && s'.db == s.db && s'.clients == s.clients && s'.log.clock == now
      && s'.slots == s.slots[w := s.slots[w].(pc := FinishRequest("an answer", false, c.embed(s.slots[w].request.text)))]
  {
    hide Reached, HashText, Enabled, Next;
    Advancing(c, s, w, Answered, now);
    StepReached(c, o, s, Advance(w, Answered, now));
    var s1 := Next(c, s, Advance(w, Answered, now));
    Advancing(c, s1, w, Answered, now);
    StepReached(c, o, s1, Advance(w, Answered, now));
    var s2 := Next(c, s1, Advance(w, Answered, now));
    Advancing(c, s2, w, Answered, now);
    StepReached(c, o, s2, Advance(w, Answered, now));
    s' := Next(c, s2, Advance(w, Answered, now));
  }

  // Both rows are written.
  lemma FinishReached(c: Config, o: State, s: State, w: int, now: real) returns (s': State)
    requires Reached(c, o, s) && IsBusy(s, w) && s.slots[w].pc.FinishRequest? && s.log.clock <= now
    ensures var slot := s.slots[w];
      && Reached(c, o, s') && s'.slots == s.slots[w := Idle] && s'.clients == s.clients && s'.log.clock == now
      && s'.db == CompleteJobTx(CompleteRequestTx(s.db, slot.job.requestId, slot.pc.final, slot.pc.cached, slot.pc.embedding, now), slot.jobId, now)
  {
    hide Reached, Enabled, Next, CompleteJobTx, CompleteRequestTx;
    Advancing(c, s, w, Missed, now);
    StepReached(c, o, s, Advance(w, Missed, now));
    var s1 := Next(c, s, Advance(w, Missed, now));
    Advancing(c, s1, w, Missed, now);
    StepReached(c, o, s1, Advance(w, Missed, now));
    s' := Next(c, s1, Advance(w, Missed, now));
  }

  lemma HitReached(c: Config, o: State, s: State, w: int, now: real) returns (s': State)
    requires Reached(c, o, s) && IsBusy(s, w) && s.slots[w].pc.LookupExact? && KeyOf(c, s.slots[w]) in s.cache && s.log.clock <= now
    ensures Reached(c, o, s') && s'.db == s.db && s'.clients == s.clients && s'.log.clock == now
    ensures IsBusy(s', w) && s'.slots == s.slots[w := s.slots[w].(pc := s'.slots[w].pc)] && s'.slots[w].pc.FinishRequest?
  {
    hide Reached, HashText, Enabled, Next;
    Advancing(c, s, w, Missed, now);
    StepReached(c, o, s, Advance(w, Missed, now));
    var s1 := Next(c, s, Advance(w, Missed, now));
    Advancing(c, s1, w, Missed, now);
    StepReached(c, o, s1, Advance(w, Missed, now));
    s' := Next(c, s1, Advance(w, Missed, now));
  }
}
