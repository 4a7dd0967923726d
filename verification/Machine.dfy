// The whole system as a step machine: API submissions, worker slots running the
// pipeline, heartbeats, the reaper, crashes.  Every database transaction is one
// step.  An action carries everything that is not determined by the state: the
// caller's clock reading, the outcome of an external call, which row an index
// returned.  `log` is history; no step reads it.
module Machine {
  import opened Wrappers
  import opened AutoId
  import opened Rows
  import opened Tables
  import opened TokenBucket
  import Idempotency

  datatype Config = Config(
    lease: real, interval: real, threshold: real, capacity: real, rate: real,
    maxDepth: int, maxAttempts: int, slotLimit: nat,
    sha: string -> Digest, embed: string -> seq<real>, cosine: (seq<real>, seq<real>) -> real)

  // A semantic_cache row; the table is keyed by its unique text_hash.
  datatype Entry = Entry(promptText: string, embedding: seq<real>, response: string, sourcePromptId: string, hits: nat)

  // Why a job is released: no token, a rate limit reported by the model, or a retry with
  // the error that caused it.  The first happens inside _run, the others in its handler.
  datatype Reason = Denied | Deferral | Retry(error: string)

  // Where a slot stands in PromptPipeline; each value is the next step to run.
  datatype Pc =
    | LookupExact
    | BumpHits(key: Digest, answer: string, vector: seq<real>)
    | LookupNearest
    | TakeToken
    | CallModel
    | AwaitModel
    | StoreAnswer(response: string)
    | FinishRequest(final: string, cached: bool, embedding: seq<real>)
    | FinishJob
    | ReleaseJob(delay: real, reason: Reason)
    | WriteRetry(due: real, retryError: string)
    | KillJob(killError: string)
    | FailRequest(failError: string)

  // A busy slot holds the rows as they were at claim time.  `serial` numbers its claim;
  // lastOk, nextBeat, fails and lost belong to its heartbeat.
  datatype Slot =
    | Idle
    | Busy(pc: Pc, jobId: int, job: Job, request: Request, serial: nat,
           lastOk: real, nextBeat: real, fails: nat, lost: bool)

  // An API call between its reads and its writes.
  datatype Client =
    | Admitting(user: string, promptId: string, text: string, priority: int)
    | Inserting(user: string, promptId: string, text: string, priority: int)
    | Requeueing(requestId: int)
    | Resetting(requestId: int)

  // Since the job's last reset.
  datatype History = History(claims: nat, deferrals: nat, reaps: nat, retriedAt: seq<nat>, waited: real)

  const NoHistory := History(0, 0, 0, [], 0.0)

  datatype Log = Log(
    histories: map<int, History>, serials: map<int, nat>, claims: nat,
    clock: real, lastReap: real, grants: seq<real>, calls: seq<real>,
    outputs: set<(string, string)>, lateCalls: map<Digest, nat>, lateStores: map<Digest, nat>)

  datatype State = State(
    db: Db, cache: map<Digest, Entry>, bucket: Key,
    slots: map<int, Slot>, clients: map<int, Client>, log: Log)

  datatype ModelOutcome = Response(text: string) | Raised(fault: Fault)
  datatype RedisOutcome = Answer | ReplyLost(error: string) | Unreachable(error: string)

  // What the outside world contributes to a pipeline step.
  datatype Oracle = Oracle(nearest: Option<Digest>, redis: RedisOutcome, model: ModelOutcome)

  datatype Action =
    | Submit(client: int, user: string, givenId: Option<string>, text: string, priority: int, now: real)
    | Admit(client: int, now: real)
    | Insert(client: int, requestId: int, jobId: int, now: real)
    | Requeue(client: int, now: real)
    | Reset(client: int, now: real)
    | Drop(client: int, now: real)
    | Spawn(w: int, now: real)
    | Crash(w: int, now: real)
    | Claim(w: int, jobId: int, now: real)
    | Advance(w: int, oracle: Oracle, now: real)
    | Raise(w: int, fault: Fault, now: real)
    | Beat(w: int, now: real)
    | BeatError(w: int, now: real)
    | Cancel(w: int, now: real)
    | Reap(now: real)

  ghost const Initial := State(EmptyDb, map[], Missing, map[], map[],
    Log(map[], map[], 0, 0.0, 0.0, [], [], {}, map[], map[]))

  predicate IsBusy(s: State, w: int) {
    w in s.slots && s.slots[w].Busy?
  }

  // A stage of _run, where an exception is caught and judged.
  predicate InRun(pc: Pc) {
    (pc.ReleaseJob? ==> pc.reason.Denied?) && !pc.WriteRetry? && !pc.KillJob? && !pc.FailRequest?
  }

  ghost predicate Enabled(c: Config, s: State, a: Action) {
    match a
    case Submit(cl, _, _, _, _, _) => cl !in s.clients
    case Admit(cl, _) => cl in s.clients && s.clients[cl].Admitting?
    case Insert(cl, r, j, _) => cl in s.clients && s.clients[cl].Inserting? && r !in s.db.requests && j !in s.db.jobs
    case Requeue(cl, _) => cl in s.clients && s.clients[cl].Requeueing?
    case Reset(cl, _) => cl in s.clients && s.clients[cl].Resetting?
    case Drop(cl, _) => cl in s.clients
    case Spawn(w, _) => w !in s.slots && |s.slots| < c.slotLimit
    case Crash(w, _) => w in s.slots
    case Claim(w, j, now) => w in s.slots && s.slots[w].Idle? && Eligible(s.db, j, now) && s.db.jobs[j].requestId in s.db.requests
    case Advance(w, o, _) => IsBusy(s, w) && (s.slots[w].pc.LookupNearest? && o.nearest.Some? ==> o.nearest.value in s.cache)
    case Raise(w, _, _) => IsBusy(s, w) && InRun(s.slots[w].pc)
    case Beat(w, _) => IsBusy(s, w) && !s.slots[w].lost
    case BeatError(w, _) => IsBusy(s, w) && !s.slots[w].lost
    case Cancel(w, _) => IsBusy(s, w) && s.slots[w].lost
    case Reap(_) => true
  }

  // Both rows go in unless the prompt id is taken (IntegrityError).
  ghost predicate Inserts(c: Config, s: State, a: Action)
    requires Enabled(c, s, a)
  {
    a.Insert? && RequestWithId(s.db.requests, s.clients[a.client].promptId).None?
  }

  // ---- Tables ----

  ghost function NextDb(c: Config, s: State, a: Action): Db
    requires Enabled(c, s, a)
  {
    match a
    case Insert(cl, r, j, now) =>
      var x := s.clients[cl];
      if !Inserts(c, s, a) then s.db
      else InsertTx(s.db, r, NewRequest(x.user, x.promptId, x.text, HashText(c.sha, x.text), x.priority, now),
                    j, NewJob(r, x.priority, c.maxAttempts, now))
    case Requeue(cl, now) => RequeueRequestTx(s.db, s.clients[cl].requestId, now)
    case Reset(cl, now) => ResetJobTx(s.db, s.clients[cl].requestId, now)
    case Claim(w, j, now) => ClaimTx(s.db, j, w, now, c.lease)
    case Advance(w, _, now) => PipelineDb(s.db, w, s.slots[w], now)
    case Beat(w, now) => ExtendTx(s.db, s.slots[w].jobId, w, now, c.lease)
    case Reap(now) => ReapTx(s.db, now)
    case _ => s.db
  }

  function PipelineDb(db: Db, w: int, slot: Slot, now: real): Db
    requires slot.Busy?
  {
    match slot.pc
    case FinishRequest(answer, cached, vector) => CompleteRequestTx(db, slot.job.requestId, answer, cached, vector, now)
    case FinishJob => CompleteJobTx(db, slot.jobId, now)
    case ReleaseJob(delay, _) => ReleaseTx(db, slot.jobId, w, now + delay)
    case WriteRetry(_, error) => RetryRequestTx(db, slot.job.requestId, error, slot.request.retryCount + 1, now)
    case KillJob(error) => KillJobTx(db, slot.jobId, error, now)
    case FailRequest(error) => FailRequestTx(db, slot.job.requestId, error, slot.request.retryCount + 1, now)
    case _ => db
  }

  // ---- Semantic cache: insert or leave alone, count hits ----

  function NextCache(c: Config, s: State, a: Action): map<Digest, Entry> {
    if a.Advance? && IsBusy(s, a.w) then
      var slot := s.slots[a.w];
      match slot.pc
      case BumpHits(key, _, _) => if key in s.cache then s.cache[key := s.cache[key].(hits := s.cache[key].hits + 1)] else s.cache
      case StoreAnswer(response) =>
        var key := HashText(c.sha, slot.request.text);
        if key in s.cache then s.cache
        else s.cache[key := Entry(slot.request.text, c.embed(slot.request.text), response, slot.request.promptId, 0)]
      case _ => s.cache
    else s.cache
  }

  // ---- Rate limiter ----

  predicate AsksForToken(s: State, a: Action) {
    a.Advance? && IsBusy(s, a.w) && s.slots[a.w].pc.TakeToken? && !a.oracle.redis.Unreachable?
  }

  function NextBucket(c: Config, s: State, a: Action): Key {
    if AsksForToken(s, a) then KeyAfterCall(c.capacity, c.rate, s.bucket, a.now) else s.bucket
  }

  // ---- Slots ----

  function AfterFault(job: Job, fault: Fault): Pc {
    match OnFailure(job, fault.kind)
    case Defer(wait) => ReleaseJob(wait, Deferral)
    case GiveUp => KillJob(fault.message)
    case RetryIn(delay) => ReleaseJob(delay, Retry(fault.message))
  }

  function NextPc(c: Config, s: State, w: int, o: Oracle, now: real): Option<Pc>
    requires IsBusy(s, w)
    requires s.slots[w].pc.LookupNearest? && o.nearest.Some? ==> o.nearest.value in s.cache
  {
    var slot := s.slots[w];
    var text := slot.request.text;
    match slot.pc
    case LookupExact =>
      var key := HashText(c.sha, text);
      if key in s.cache then Some(BumpHits(key, s.cache[key].response, s.cache[key].embedding)) else Some(LookupNearest)
    case BumpHits(_, answer, vector) => Some(FinishRequest(answer, true, vector))
    case LookupNearest =>
      if o.nearest.Some? && c.cosine(s.cache[o.nearest.value].embedding, c.embed(text)) > c.threshold then
        Some(BumpHits(o.nearest.value, s.cache[o.nearest.value].response, c.embed(text)))
      else Some(TakeToken)
    case TakeToken =>
      (match o.redis
       case Answer =>
         if KeyGranted(c.capacity, c.rate, s.bucket, now) then Some(CallModel)
         else if c.rate == 0.0 then Some(AfterFault(slot.job, Fault(Unclassified, "float division by zero")))
         else Some(ReleaseJob(WaitTime(c.rate), Denied))
       case ReplyLost(error) => Some(AfterFault(slot.job, Fault(RedisUnavailable, error)))
       case Unreachable(error) => Some(AfterFault(slot.job, Fault(RedisUnavailable, error))))
    case CallModel => Some(AwaitModel)
    case AwaitModel =>
      (match o.model
       case Response(answer) => Some(StoreAnswer(answer))
       case Raised(fault) => Some(AfterFault(slot.job, fault)))
    case StoreAnswer(response) => Some(FinishRequest(response, false, c.embed(text)))
    case FinishRequest(_, _, _) => Some(FinishJob)
    case FinishJob => None
    case ReleaseJob(_, Denied) => None
    case ReleaseJob(_, Deferral) => None
    case ReleaseJob(delay, Retry(error)) => if Owns(s.db, w, slot.jobId) then Some(WriteRetry(now + delay, error)) else None
    case WriteRetry(_, _) => None
    case KillJob(error) => Some(FailRequest(error))
    case FailRequest(_) => None
  }

  function Moved(slot: Slot, next: Option<Pc>): Slot
    requires slot.Busy?
  {
    match next
    case None => Idle
    case Some(pc) => slot.(pc := pc)
  }

  function Claimant(c: Config, s: State, w: int, j: int, now: real): Slot
    requires j in s.db.jobs && s.db.jobs[j].requestId in s.db.requests
  {
    Busy(LookupExact, j, Claimed(s.db.jobs[j], w, now, c.lease), s.db.requests[s.db.jobs[j].requestId],
         s.log.claims, now, now + c.interval, 0, false)
  }

  ghost function NextSlots(c: Config, s: State, a: Action): map<int, Slot>
    requires Enabled(c, s, a)
  {
    match a
    case Spawn(w, _) => s.slots[w := Idle]
    case Crash(w, _) => s.slots - {w}
    case Claim(w, j, now) => s.slots[w := Claimant(c, s, w, j, now)]
    case Advance(w, o, now) => s.slots[w := Moved(s.slots[w], NextPc(c, s, w, o, now))]
    case Raise(w, fault, _) => s.slots[w := s.slots[w].(pc := AfterFault(s.slots[w].job, fault))]
    case Beat(w, now) =>
      var slot := s.slots[w];
      s.slots[w := if Extends(s.db, slot.jobId, w) then slot.(lastOk := now, nextBeat := now + c.interval, fails := 0)
                   else slot.(lost := true)]
    case BeatError(w, now) => s.slots[w := s.slots[w].(nextBeat := now + c.interval, fails := s.slots[w].fails + 1)]
    case Cancel(w, _) => s.slots[w := Idle]
    case _ => s.slots
  }

  // ---- API calls ----

  ghost function Existing(db: Db, promptId: string): Option<Request> {
    match RequestWithId(db.requests, promptId)
    case None => None
    case Some(r) => Some(db.requests[r])
  }

  ghost function NextClients(c: Config, s: State, a: Action): map<int, Client>
    requires Enabled(c, s, a)
  {
    match a
    case Submit(cl, user, givenId, text, priority, _) =>
      var id := ResolvedPromptId(c.sha, user, givenId, text);
      (match Idempotency.Check(Existing(s.db, id), HashText(c.sha, text))
       case InsertNew => s.clients[cl := Admitting(user, id, text, priority)]
       case Reenqueue => s.clients[cl := Requeueing(RequestWithId(s.db.requests, id).value)]
       case _ => s.clients)
    case Admit(cl, _) =>
      var x := s.clients[cl];
      if QueuedDepth(s.db) >= c.maxDepth then s.clients - {cl}
      else s.clients[cl := Inserting(x.user, x.promptId, x.text, x.priority)]
    case Insert(cl, _, _, _) => s.clients - {cl}
    case Requeue(cl, _) => s.clients[cl := Resetting(s.clients[cl].requestId)]
    case Reset(cl, _) => s.clients - {cl}
    case Drop(cl, _) => s.clients - {cl}
    case _ => s.clients
  }

  // ---- History ----

  function NewHistory(slot: Slot, h: History): History
    requires slot.Busy?
  {
    match slot.pc
    case ReleaseJob(_, Denied) => h.(deferrals := h.deferrals + 1)
    case ReleaseJob(_, Deferral) => h.(deferrals := h.deferrals + 1)
    case ReleaseJob(delay, Retry(_)) => h.(retriedAt := h.retriedAt + [slot.job.attempts], waited := h.waited + delay)
    case _ => h
  }

  ghost function NextHistories(c: Config, s: State, a: Action): map<int, History>
    requires Enabled(c, s, a)
  {
    var hs := s.log.histories;
    match a
    case Insert(_, _, j, _) => if Inserts(c, s, a) then hs[j := NoHistory] else hs
    case Claim(_, j, _) => if j in hs then hs[j := hs[j].(claims := hs[j].claims + 1)] else hs
    case Advance(w, _, _) =>
      var j := s.slots[w].jobId;
      if s.slots[w].pc.ReleaseJob? && Owns(s.db, w, j) && j in hs then hs[j := NewHistory(s.slots[w], hs[j])] else hs
    case Reset(cl, _) =>
      map j | j in hs :: if j in s.db.jobs && s.db.jobs[j].requestId == s.clients[cl].requestId then NoHistory else hs[j]
    case Reap(now) =>
      map j | j in hs :: if j in s.db.jobs && s.db.jobs[j].Reclaimable(now) then hs[j].(reaps := hs[j].reaps + 1) else hs[j]
    case _ => hs
  }

  predicate CallsModel(s: State, a: Action) {
    a.Advance? && IsBusy(s, a.w) && s.slots[a.w].pc.CallModel?
  }

  predicate HearsModel(s: State, a: Action) {
    a.Advance? && IsBusy(s, a.w) && s.slots[a.w].pc.AwaitModel? && a.oracle.model.Response?
  }

  predicate StoresAnswer(s: State, a: Action) {
    a.Advance? && IsBusy(s, a.w) && s.slots[a.w].pc.StoreAnswer?
  }

  predicate TakesGrant(c: Config, s: State, a: Action) {
    AsksForToken(s, a) && a.oracle.redis.Answer? && KeyGranted(c.capacity, c.rate, s.bucket, a.now)
  }

  function KeyOf(c: Config, slot: Slot): Digest
    requires slot.Busy?
  {
    HashText(c.sha, slot.request.text)
  }

  function Count(counts: map<Digest, nat>, key: Digest): nat {
    if key in counts then counts[key] else 0
  }

  ghost function NextLog(c: Config, s: State, a: Action): Log
    requires Enabled(c, s, a)
  {
    var g := s.log;
    Log(
      NextHistories(c, s, a),
      if a.Claim? then g.serials[a.jobId := g.claims] else g.serials,
      if a.Claim? then g.claims + 1 else g.claims,
      a.now,
      if a.Reap? then a.now else g.lastReap,
      if TakesGrant(c, s, a) then g.grants + [a.now] else g.grants,
      if CallsModel(s, a) then g.calls + [a.now] else g.calls,
      if HearsModel(s, a) then g.outputs + {(s.slots[a.w].request.text, a.oracle.model.text)} else g.outputs,
      NextLate(c, s, a, g.lateCalls, CallsModel(s, a)),
      NextLate(c, s, a, g.lateStores, StoresAnswer(s, a)))
  }

  // Counts what a slot does for a text whose answer is in the cache already.
  function NextLate(c: Config, s: State, a: Action, counts: map<Digest, nat>, happens: bool): map<Digest, nat>
    requires happens ==> a.Advance? && IsBusy(s, a.w)
  {
    if happens && KeyOf(c, s.slots[a.w]) in s.cache then
      counts[KeyOf(c, s.slots[a.w]) := Count(counts, KeyOf(c, s.slots[a.w])) + 1]
    else counts
  }

  ghost function Next(c: Config, s: State, a: Action): State
    requires Enabled(c, s, a)
  {
    State(NextDb(c, s, a), NextCache(c, s, a), NextBucket(c, s, a), NextSlots(c, s, a), NextClients(c, s, a), NextLog(c, s, a))
  }

  // ---- Runs ----

  ghost predicate Legal(c: Config, s: State, acts: seq<Action>)
    decreases |acts|
  {
    acts == [] || (Enabled(c, s, acts[0]) && Legal(c, Next(c, s, acts[0]), acts[1..]))
  }

  ghost function Run(c: Config, s: State, acts: seq<Action>): State
    requires Legal(c, s, acts)
    decreases |acts|
  {
    if acts == [] then s else Run(c, Next(c, s, acts[0]), acts[1..])
  }

  lemma OneStep(c: Config, s: State, a: Action)
    requires Enabled(c, s, a)
    ensures Legal(c, s, [a]) && Run(c, s, [a]) == Next(c, s, a)
  {
    hide Enabled, Next;
    assert [a][1..] == [];
  }

  // Runs compose.
  lemma {:induction false} RunAppend(c: Config, s: State, xs: seq<Action>, ys: seq<Action>)
    requires Legal(c, s, xs) && Legal(c, Run(c, s, xs), ys)
    ensures Legal(c, s, xs + ys) && Run(c, s, xs + ys) == Run(c, Run(c, s, xs), ys)
    decreases |xs|
  {
    hide Next, Enabled;
    if xs == [] {
      assert xs + ys == ys;
    } else {
      assert (xs + ys)[1..] == xs[1..] + ys;
      RunAppend(c, Next(c, s, xs[0]), xs[1..], ys);
    }
  }
}
