// PromptPipeline as the program it is, run against the shared objects while every other
// program may act at each await.  Each write is paired with the machine step it is, so
// whatever this program does is part of a run of the machine.
module Pipeline {
  import opened Wrappers
  import opened AutoId
  import opened Rows
  import opened Tables
  import opened TokenBucket
  import opened Machine
  import opened Stories
  import opened Repositories
  import opened Cluster
  import opened Tiers

  // What a task works on: the job and the request as they were when it was claimed.
  datatype Work = Work(jobId: int, job: Job, request: Request)

  // How an await ends, and how _run ends: with a value, cancelled, or with an exception.
  datatype Outcome = Returned | Cancelled | Threw(fault: Fault)

  // ---- What a pipeline did ----

  ghost predicate Stages(path: seq<Deed>) {
    forall i :: 0 <= i < |path| ==> path[i].DidStage?
  }

  // A stretch of stages that came to its end, and then did `full`; or was cut short by a
  // cancellation; or ended in an exception, of an operation it waited for or of its own at
  // the limiter or the model.
  ghost predicate Went(c: Config, o: Oracle, path: seq<Deed>, outcome: Outcome, full: seq<Deed>) {
    match outcome
    case Returned => path == full
    case Cancelled => path != [] && Stages(path[..|path| - 1]) && path[|path| - 1] == DidCancel
    case Threw(fault) =>
      && path != [] && Stages(path[..|path| - 1])
      && var last := path[|path| - 1];
         || last == DidRaise(fault)
         || (last == DidStage(TakeToken) && LimiterFails(c, o.redis, fault))
         || (last == DidStage(AwaitModel) && o.model == Raised(fault))
  }

  // Redis does not answer; or there is no token, and no wait time for a rate of zero.
  predicate LimiterFails(c: Config, redis: RedisOutcome, fault: Fault) {
    match redis
    case ReplyLost(error) => fault == Fault(RedisUnavailable, error)
    case Unreachable(error) => fault == Fault(RedisUnavailable, error)
    case Answer => c.rate == 0.0 && fault == Fault(Unclassified, "float division by zero")
  }

  lemma WentOn(c: Config, o: Oracle, p: seq<Deed>, q: seq<Deed>, outcome: Outcome, full: seq<Deed>)
    requires Stages(p) && Went(c, o, q, outcome, full)
    ensures Went(c, o, p + q, outcome, p + full)
  {
    if !outcome.Returned? {
      assert (p + q)[..|p + q| - 1] == p + q[..|q| - 1];
    }
  }

  // A lookup: a miss, an exact hit, or a hit by similarity; hits are counted.
  ghost predicate LookedUp(path: seq<Deed>, hit: Option<string>, vector: seq<real>) {
    match hit
    case None => path == [DidStage(LookupExact), DidStage(LookupNearest)]
    case Some(answer) =>
      && (|path| == 2 || (|path| == 3 && path[1] == DidStage(LookupNearest)))
      && path[0] == DidStage(LookupExact)
      && var last := path[|path| - 1];
         last.DidStage? && last.pc.BumpHits? && last.pc.answer == answer && last.pc.vector == vector
  }

  // What the tables of the two lookups call for: the row of the text's hash; without one, the
  // candidate if it is close enough, with the text's own vector; otherwise no hit.
  predicate HitAsDue(c: Config, text: string, exactly: map<Digest, Entry>, nearby: map<Digest, Entry>, near: Option<Digest>,
                     hit: Option<string>, vector: seq<real>)
  {
    var key := HashText(c.sha, text);
    if key in exactly then hit == Some(exactly[key].response) && vector == exactly[key].embedding
    else if Similar(c, nearby, near, text) then hit == Some(nearby[near.value].response) && vector == c.embed(text)
    else hit.None?
  }

  ghost predicate Finished(path: seq<Deed>, answer: string, cached: bool, vector: seq<real>) {
    path == [DidStage(FinishRequest(answer, cached, vector)), DidStage(FinishJob)]
  }

  // With a token: called, heard, stored, and both rows written.
  function WithAnswer(answer: string, vector: seq<real>): seq<Deed> {
    [DidStage(CallModel), DidStage(AwaitModel), DidStage(StoreAnswer(answer)),
     DidStage(FinishRequest(answer, false, vector)), DidStage(FinishJob)]
  }

  // _run to its end: a cached answer; no token; or the model's answer, stored first.
  ghost predicate RanThrough(c: Config, o: Oracle, it: Work, path: seq<Deed>) {
    || (exists n, answer, vector :: 0 <= n <= |path| && LookedUp(path[..n], Some(answer), vector) && Finished(path[n..], answer, true, vector))
    || (|path| >= 2 && path[..2] == [DidStage(LookupExact), DidStage(LookupNearest)] && RanOn(c, o, it, path[2..]))
  }

  ghost predicate RanOn(c: Config, o: Oracle, it: Work, path: seq<Deed>) {
    && o.redis.Answer?
    && (|| (c.rate != 0.0 && path == [DidStage(TakeToken), DidStage(ReleaseJob(WaitTime(c.rate), Denied))])
        || (o.model.Response? && path == [DidStage(TakeToken)] + WithAnswer(o.model.text, c.embed(it.request.text))))
  }

  // The failure path to its end, by the kind of the exception: deferred; buried; or released
  // and, by the row's owner, recorded.
  ghost predicate FailedAsDue(it: Work, fault: Fault, path: seq<Deed>) {
    match fault.kind
    case RateLimitExceeded(wait) => path == [DidStage(ReleaseJob(wait, Deferral))]
    case Unclassified => BuriedFor(fault, path)
    case LlmTimeout | LlmRandomFailure | DatabaseUnavailable | RedisUnavailable | JobLeaseExpired =>
      if it.job.attempts < it.job.maxAttempts then RetriedFor(it, fault, path) else BuriedFor(fault, path)
  }

  ghost predicate BuriedFor(fault: Fault, path: seq<Deed>) {
    path == [DidStage(KillJob(fault.message)), DidStage(FailRequest(fault.message))]
  }

  ghost predicate RetriedFor(it: Work, fault: Fault, path: seq<Deed>) {
    && 1 <= |path| <= 2 && path[0] == DidStage(ReleaseJob(Backoff(it.job.attempts), Retry(fault.message)))
    && (|path| == 2 ==> path[1].DidStage? && path[1].pc.WriteRetry? && path[1].pc.retryError == fault.message)
  }

  // A whole execution: through to the end, or into an exception and through its handling; a
  // cancelled one ends with the cancellation.
  ghost predicate Executed(c: Config, o: Oracle, it: Work, path: seq<Deed>, cancelled: bool) {
    if cancelled then
      && path != [] && path[|path| - 1] == DidCancel
      && forall i :: 0 <= i < |path| - 1 ==> path[i].DidStage? || path[i].DidRaise?
    else
      || RanThrough(c, o, it, path)
      || exists n, fault :: 0 <= n <= |path| && Went(c, o, path[..n], Threw(fault), []) && FailedAsDue(it, fault, path[n..])
  }

  lemma HitRunsThrough(c: Config, o: Oracle, it: Work, p: seq<Deed>, q: seq<Deed>, answer: string, vector: seq<real>)
    requires LookedUp(p, Some(answer), vector) && Finished(q, answer, true, vector)
    ensures RanThrough(c, o, it, p + q)
  {
    assert (p + q)[..|p|] == p && (p + q)[|p|..] == q;
  }

  lemma MissRunsThrough(c: Config, o: Oracle, it: Work, p: seq<Deed>, q: seq<Deed>)
    requires LookedUp(p, None, []) && RanOn(c, o, it, q)
    ensures RanThrough(c, o, it, p + q)
  {
    assert (p + q)[..2] == p && (p + q)[2..] == q;
  }

  lemma FailedAndHandled(c: Config, o: Oracle, it: Work, p: seq<Deed>, q: seq<Deed>, fault: Fault, cancelled: bool)
    requires Went(c, o, p, Threw(fault), p) && (if cancelled then Went(c, o, q, Cancelled, []) else FailedAsDue(it, fault, q))
    ensures Executed(c, o, it, p + q, cancelled)
  {
    hide FailedAsDue, LimiterFails;
    if !cancelled {
      assert (p + q)[..|p|] == p && (p + q)[|p|..] == q;
    }
  }

  const Nothing := Oracle(None, Answer, Response(""))

  class PromptPipeline {
    const cluster: Cluster
    const requests: PromptRequestRepository
    const jobs: ProcessingJobRepository

    constructor (cluster: Cluster)
      ensures this.cluster == cluster && Wired()
    {
      this.cluster := cluster;
      requests := new PromptRequestRepository(cluster.db);
      jobs := new ProcessingJobRepository(cluster.db);
    }

    ghost predicate Wired() {
      requests.db == cluster.db && jobs.db == cluster.db
    }

    ghost predicate WentFor(task: nat, path: seq<Deed>, outcome: Outcome, full: seq<Deed>) {
      Went(cluster.config, cluster.outside(task), path, outcome, full)
    }

    // Slot w runs this task, and pc is its next step.
    ghost predicate At(w: int, task: nat, pc: Pc, it: Work)
      reads cluster
    {
      && IsBusy(cluster.world, w)
      && var slot := cluster.world.slots[w];
         slot.serial == task && slot.pc == pc && slot.jobId == it.jobId && slot.job == it.job && slot.request == it.request
    }

    // The slot is free again.
    ghost predicate Free(w: int)
      reads cluster
    {
      w in cluster.world.slots && cluster.world.slots[w].Idle?
    }

    // Let the others run, then see whether a cancellation arrives.
    method Await(w: int, task: nat, ghost pc: Pc, ghost it: Work) returns (cancelled: bool)
      requires cluster.Coherent() && At(w, task, pc, it)
      modifies cluster, cluster.db, cluster.cache, cluster.limiter
      ensures cluster.Coherent() && old(cluster.trace) <= cluster.trace
      ensures cluster.Story(Worker(w)) == old(cluster.Story(Worker(w))) + if cancelled then [DidCancel] else []
      ensures if cancelled then Free(w) else At(w, task, pc, it)
    {
      hide StoryOf, Legal, Run, CancelsOk, Enabled, Next;
      cluster.Pause(w);
      ghost var before := cluster.world;
      cancelled := cluster.Deliver(w, task);
      if cancelled {
        ghost var now :| Happened(cluster.config, before, Cancel(w, now), cluster.world);
        SlotAfter(cluster.config, before, Cancel(w, now), w);
      }
    }

    // An await inside _run: the operation may also fail before it has any effect.
    method Try(w: int, task: nat, ghost pc: Pc, it: Work) returns (outcome: Outcome, ghost path: seq<Deed>)
      requires cluster.Coherent() && At(w, task, pc, it) && InRun(pc)
      modifies cluster, cluster.db, cluster.cache, cluster.limiter
      ensures cluster.Coherent() && old(cluster.trace) <= cluster.trace
      ensures cluster.Story(Worker(w)) == old(cluster.Story(Worker(w))) + path && WentFor(task, path, outcome, [])
      ensures Continues(w, task, it, outcome, Some(pc))
    {
      hide StoryOf, Legal, Run, CancelsOk, Enabled, Next, AfterFault;
      var cancelled := Await(w, task, pc, it);
      if cancelled {
        return Cancelled, [DidCancel];
      }
      ghost var before := cluster.world;
      var fault := cluster.Suffer(w);
      if fault.Some? {
        ghost var now :| Happened(cluster.config, before, Raise(w, fault.value, now), cluster.world);
        SlotAfter(cluster.config, before, Raise(w, fault.value, now), w);
        return Threw(fault.value), [DidRaise(fault.value)];
      }
      return Returned, [];
    }

    // The step just made: the tables are as it prescribes, and the slot moves on.
    ghost method Step(w: int, task: nat, pc: Pc, it: Work, o: Oracle, now: real)
      requires cluster.OnTrace() && At(w, task, pc, it)
      requires pc.LookupNearest? && o.nearest.Some? ==> o.nearest.value in cluster.world.cache
      requires cluster.db.Content() == PipelineDb(cluster.world.db, w, cluster.world.slots[w], now)
      requires cluster.cache.rows == NextCache(cluster.config, cluster.world, Advance(w, o, now))
      requires cluster.limiter.key == NextBucket(cluster.config, cluster.world, Advance(w, o, now))
      modifies cluster`world, cluster`trace
      ensures cluster.Coherent() && cluster.trace == old(cluster.trace) + [Advance(w, o, now)]
      ensures cluster.Story(Worker(w)) == old(cluster.Story(Worker(w))) + [DidStage(pc)]
      ensures Stands(w, task, it, NextPc(cluster.config, old(cluster.world), w, o, now))
    {
      hide StoryOf, Legal, Run, CancelsOk, Enabled, Next, NextCache, NextBucket, NextDb, NextPc, PipelineDb;
      ghost var before := cluster.world;
      CanAdvance(cluster.config, before, w, o, now);
      cluster.Take(Worker(w), Advance(w, o, now));
      SlotAfter(cluster.config, before, Advance(w, o, now), w);
    }

    // A step that writes to the tables only.
    ghost method StepWrite(w: int, task: nat, pc: Pc, it: Work, now: real)
      requires cluster.OnTrace() && At(w, task, pc, it) && WritesTables(pc)
      requires cluster.db.Content() == PipelineDb(cluster.world.db, w, cluster.world.slots[w], now)
      requires cluster.cache.rows == cluster.world.cache && cluster.limiter.key == cluster.world.bucket
      modifies cluster`world, cluster`trace
      ensures cluster.Coherent() && old(cluster.trace) <= cluster.trace
      ensures cluster.Story(Worker(w)) == old(cluster.Story(Worker(w))) + [DidStage(pc)]
      ensures Stands(w, task, it, AfterWrite(pc, Owns(old(cluster.world).db, w, it.jobId), now))
    {
      hide StoryOf, Legal, Run, CancelsOk, Enabled, Next, PipelineDb, NextPc, NextCache, NextBucket;
      WriteOnly(cluster.config, cluster.world, w, now);
      Step(w, task, pc, it, Nothing, now);
    }

    // A step that writes nothing.
    ghost method StepRead(w: int, task: nat, pc: Pc, it: Work, o: Oracle, now: real)
      requires cluster.Coherent() && At(w, task, pc, it) && (pc.LookupExact? || pc.LookupNearest? || pc.CallModel? || pc.AwaitModel?)
      requires pc.LookupNearest? && o.nearest.Some? ==> o.nearest.value in cluster.world.cache
      modifies cluster`world, cluster`trace
      ensures cluster.Coherent() && old(cluster.trace) <= cluster.trace
      ensures cluster.Story(Worker(w)) == old(cluster.Story(Worker(w))) + [DidStage(pc)]
      ensures Stands(w, task, it, NextPc(cluster.config, old(cluster.world), w, o, now))
    {
      hide StoryOf, Legal, Run, CancelsOk, Enabled, Next, PipelineDb, NextPc, NextCache, NextBucket;
      ReadOnly(cluster.config, cluster.world, w, o, now);
      Step(w, task, pc, it, o, now);
    }

    ghost predicate Stands(w: int, task: nat, it: Work, next: Option<Pc>)
      reads cluster
    {
      match next
      case None => Free(w)
      case Some(pc) => At(w, task, pc, it)
    }

    // How a stage ends: with its slot standing at `next`, cancelled, or in the failure path.
    ghost predicate Continues(w: int, task: nat, it: Work, outcome: Outcome, next: Option<Pc>)
      reads cluster
    {
      match outcome
      case Returned => Stands(w, task, it, next)
      case Cancelled => Free(w)
      case Threw(fault) => At(w, task, AfterFault(it.job, fault), it)
    }

    // ---- SemanticCacheService ----

    method CountHit(w: int, task: nat, it: Work, key: Digest, answer: string, vector: seq<real>)
      returns (outcome: Outcome, ghost path: seq<Deed>)
      requires Wired() && cluster.Coherent() && At(w, task, BumpHits(key, answer, vector), it)
      modifies cluster, cluster.db, cluster.cache, cluster.limiter
      ensures cluster.Coherent() && old(cluster.trace) <= cluster.trace
      ensures cluster.Story(Worker(w)) == old(cluster.Story(Worker(w))) + path
      ensures Continues(w, task, it, outcome, Some(FinishRequest(answer, true, vector)))
      ensures WentFor(task, path, outcome, [DidStage(BumpHits(key, answer, vector))])
    {
      hide StoryOf, Legal, Run, CancelsOk, Enabled, Next, AfterFault, HashText;
      outcome, path := Try(w, task, BumpHits(key, answer, vector), it);
      if outcome.Returned? {
        cluster.cache.IncrementHitCount(key);
        ghost var now: real := *;
        Step(w, task, BumpHits(key, answer, vector), it, Nothing, now);
        path := [DidStage(BumpHits(key, answer, vector))];
      }
    }

    // `at` is the state the lookup ran in.
    method LookupExactly(w: int, task: nat, it: Work)
      returns (outcome: Outcome, found: Option<Entry>, ghost path: seq<Deed>, ghost at: State)
      requires Wired() && cluster.Coherent() && At(w, task, LookupExact, it)
      modifies cluster, cluster.db, cluster.cache, cluster.limiter
      ensures cluster.Coherent() && old(cluster.trace) <= cluster.trace
      ensures cluster.Story(Worker(w)) == old(cluster.Story(Worker(w))) + path
      ensures Continues(w, task, it, outcome, Some(
        match found
        case None => LookupNearest
        case Some(entry) => BumpHits(HashText(cluster.config.sha, it.request.text), entry.response, entry.embedding)))
      ensures WentFor(task, path, outcome, [DidStage(LookupExact)])
      ensures outcome.Returned? ==>
        && Passed(cluster.config, old(cluster.trace), cluster.trace, at)
        && var key := HashText(cluster.config.sha, it.request.text);
           if key in at.cache then found == Some(at.cache[key]) else found.None?
    {
      hide StoryOf, Legal, Run, CancelsOk, Enabled, Next, AfterFault, HashText, NextCache, NextBucket, PipelineDb;
      outcome, path := Try(w, task, LookupExact, it);
      found := None;
      at := cluster.world;
      if outcome.Returned? {
        PassedNow(cluster.config, old(cluster.trace), cluster.trace);
        ghost var sofar := cluster.trace;
        var key := HashText(cluster.config.sha, it.request.text);
        found := cluster.cache.FindExact(key);
        ghost var now: real := *;
        StepRead(w, task, LookupExact, it, Nothing, now);
        PassedWider(cluster.config, old(cluster.trace), sofar, old(cluster.trace), cluster.trace, at);
        path := [DidStage(LookupExact)];
      }
    }

    // The row the index comes up with is used exactly if it is close enough.
    method LookupByVector(w: int, task: nat, it: Work, vector: seq<real>)
      returns (outcome: Outcome, found: Option<(Digest, string)>, ghost path: seq<Deed>, ghost at: State)
      requires Wired() && cluster.Coherent() && At(w, task, LookupNearest, it) && vector == cluster.config.embed(it.request.text)
      modifies cluster, cluster.db, cluster.cache, cluster.limiter
      ensures cluster.Coherent() && old(cluster.trace) <= cluster.trace
      ensures cluster.Story(Worker(w)) == old(cluster.Story(Worker(w))) + path
      ensures Continues(w, task, it, outcome, Some(
        match found
        case None => TakeToken
        case Some((key, answer)) => BumpHits(key, answer, vector)))
      ensures WentFor(task, path, outcome, [DidStage(LookupNearest)])
      ensures outcome.Returned? ==>
        && Passed(cluster.config, old(cluster.trace), cluster.trace, at)
        && var near := cluster.outside(task).nearest;
           if Similar(cluster.config, at.cache, near, it.request.text) then found == Some((near.value, at.cache[near.value].response))
           else found.None?
    {
      hide StoryOf, Legal, Run, CancelsOk, Enabled, Next, AfterFault, HashText, NextCache, NextBucket, PipelineDb;
      outcome, path := Try(w, task, LookupNearest, it);
      found := None;
      at := cluster.world;
      if outcome.Returned? {
        PassedNow(cluster.config, old(cluster.trace), cluster.trace);
        ghost var sofar := cluster.trace;
        var candidate := cluster.outside(task).nearest;
        if candidate.Some? && candidate.value !in cluster.cache.rows {
          candidate := None;
        }
        var near := cluster.cache.FindNearest(vector, cluster.config.threshold, cluster.config.cosine, candidate);
        found := if near.None? then None else Some((near.value, cluster.cache.rows[near.value].response));
        ghost var now: real := *;
        StepRead(w, task, LookupNearest, it, Nothing.(nearest := candidate), now);
        PassedWider(cluster.config, old(cluster.trace), sofar, old(cluster.trace), cluster.trace, at);
        path := [DidStage(LookupNearest)];
      }
    }

    // An answer with its embedding, or only the embedding of the text.  `exactly` and `nearby`
    // are the states the two tiers were looked up in.
    method Lookup(w: int, task: nat, it: Work)
      returns (outcome: Outcome, hit: Option<string>, vector: seq<real>, ghost path: seq<Deed>, ghost exactly: State, ghost nearby: State)
      requires Wired() && cluster.Coherent() && At(w, task, LookupExact, it)
      modifies cluster, cluster.db, cluster.cache, cluster.limiter
      ensures cluster.Coherent() && old(cluster.trace) <= cluster.trace
      ensures cluster.Story(Worker(w)) == old(cluster.Story(Worker(w))) + path
      ensures Continues(w, task, it, outcome, Some(if hit.None? then TakeToken else FinishRequest(hit.value, true, vector)))
      ensures WentFor(task, path, outcome, path) && (outcome.Returned? ==> LookedUp(path, hit, vector))
      ensures hit.None? ==> vector == cluster.config.embed(it.request.text)
      ensures outcome.Returned? ==>
        && Passed(cluster.config, old(cluster.trace), cluster.trace, exactly) && Passed(cluster.config, old(cluster.trace), cluster.trace, nearby)
        && HitAsDue(cluster.config, it.request.text, exactly.cache, nearby.cache, cluster.outside(task).nearest, hit, vector)
    {
      hide StoryOf, Legal, Run, CancelsOk, Enabled, Next, AfterFault, HashText, At, Free, Similar, Passed, LimiterFails, cluster.Coherent;
      vector := cluster.config.embed(it.request.text);
      hit := None;
      var exact;
      outcome, exact, path, exactly := LookupExactly(w, task, it);
      nearby := exactly;
      if !outcome.Returned? {
        return;
      }
      ghost var sofar := cluster.trace;
      ghost var more;
      if exact.Some? {
        hit, vector := Some(exact.value.response), exact.value.embedding;
        outcome, more := CountHit(w, task, it, HashText(cluster.config.sha, it.request.text), exact.value.response, vector);
        PassedWider(cluster.config, old(cluster.trace), sofar, old(cluster.trace), cluster.trace, exactly);
        path := Joined(cluster.config, cluster.outside(task), path, more, outcome);
        return;
      }
      var near;
      outcome, near, more, nearby := LookupByVector(w, task, it, vector);
      PassedWider(cluster.config, old(cluster.trace), sofar, old(cluster.trace), cluster.trace, exactly);
      if outcome.Returned? {
        PassedWider(cluster.config, sofar, cluster.trace, old(cluster.trace), cluster.trace, nearby);
      }
      ghost var onward := cluster.trace;
      path := Joined(cluster.config, cluster.outside(task), path, more, outcome);
      if outcome.Returned? && near.Some? {
        hit := Some(near.value.1);
        outcome, more := CountHit(w, task, it, near.value.0, near.value.1, vector);
        PassedWider(cluster.config, old(cluster.trace), onward, old(cluster.trace), cluster.trace, exactly);
        PassedWider(cluster.config, old(cluster.trace), onward, old(cluster.trace), cluster.trace, nearby);
        path := Joined(cluster.config, cluster.outside(task), path, more, outcome);
      }
    }

    method Store(w: int, task: nat, it: Work, vector: seq<real>, response: string) returns (outcome: Outcome, ghost path: seq<Deed>)
      requires Wired() && cluster.Coherent() && At(w, task, StoreAnswer(response), it) && vector == cluster.config.embed(it.request.text)
      modifies cluster, cluster.db, cluster.cache, cluster.limiter
      ensures cluster.Coherent() && old(cluster.trace) <= cluster.trace
      ensures cluster.Story(Worker(w)) == old(cluster.Story(Worker(w))) + path
      ensures Continues(w, task, it, outcome, Some(FinishRequest(response, false, vector)))
      ensures WentFor(task, path, outcome, [DidStage(StoreAnswer(response))])
    {
      hide StoryOf, Legal, Run, CancelsOk, Enabled, Next, AfterFault, HashText;
      outcome, path := Try(w, task, StoreAnswer(response), it);
      if outcome.Returned? {
        var text := it.request.text;
        cluster.cache.Upsert(HashText(cluster.config.sha, text), Entry(text, vector, response, it.request.promptId, 0));
        ghost var now: real := *;
        Step(w, task, StoreAnswer(response), it, Nothing, now);
        path := [DidStage(StoreAnswer(response))];
      }
    }

    // ---- Rate limiter and model ----

    // Redis may not answer; a rate of zero has no wait time to compute.
    method TryAcquire(w: int, task: nat, it: Work) returns (outcome: Outcome, granted: bool, ghost path: seq<Deed>)
      requires Wired() && cluster.Coherent() && At(w, task, TakeToken, it)
      modifies cluster, cluster.db, cluster.cache, cluster.limiter
      ensures cluster.Coherent() && old(cluster.trace) <= cluster.trace
      ensures cluster.Story(Worker(w)) == old(cluster.Story(Worker(w))) + path
      ensures outcome.Returned? ==> cluster.outside(task).redis.Answer? && (granted || cluster.config.rate != 0.0)
      ensures Continues(w, task, it, outcome, Some(
        if granted || cluster.config.rate == 0.0 then CallModel else ReleaseJob(WaitTime(cluster.config.rate), Denied)))
      ensures WentFor(task, path, outcome, [DidStage(TakeToken)])
    {
      hide StoryOf, Legal, Run, CancelsOk, Enabled, Next, HashText, NextPc, NextCache, NextBucket, PipelineDb, KeyGranted, KeyAfterCall, AfterFault;
      outcome, path := Try(w, task, TakeToken, it);
      granted := false;
      if outcome.Returned? {
        var now: real := *;
        var link := cluster.outside(task).redis;
        TokenStep(cluster.config, cluster.world, w, Nothing.(redis := link), now);
        var reply := cluster.limiter.TryAcquire(now, link);
        Step(w, task, TakeToken, it, Nothing.(redis := link), now);
        path := [DidStage(TakeToken)];
        if reply.Unavailable? {
          return Threw(reply.fault), false, path;
        }
        granted := reply.granted;
        if !granted && cluster.config.rate == 0.0 {
          return Threw(Fault(Unclassified, "float division by zero")), false, path;
        }
      }
    }

    // The call goes out without an await in between; what comes back, or whether it
    // raises, is the model's affair.
    method Complete(w: int, task: nat, it: Work) returns (outcome: Outcome, response: string, ghost path: seq<Deed>)
      requires Wired() && cluster.Coherent() && At(w, task, CallModel, it)
      modifies cluster, cluster.db, cluster.cache, cluster.limiter
      ensures cluster.Coherent() && old(cluster.trace) <= cluster.trace
      ensures cluster.Story(Worker(w)) == old(cluster.Story(Worker(w))) + path
      ensures Continues(w, task, it, outcome, Some(StoreAnswer(response)))
      ensures WentFor(task, path, outcome, [DidStage(CallModel), DidStage(AwaitModel)])
      ensures outcome.Returned? ==> cluster.outside(task).model == Response(response)
    {
      hide StoryOf, Legal, Run, CancelsOk, Enabled, Next, HashText, NextCache, NextBucket, PipelineDb;
      ghost var now: real := *;
      StepRead(w, task, CallModel, it, Nothing, now);
      var cancelled := Await(w, task, AwaitModel, it);
      if cancelled {
        return Cancelled, "", [DidStage(CallModel), DidCancel];
      }
      outcome, response := Hear(w, task, it);
      path := [DidStage(CallModel), DidStage(AwaitModel)];
    }

    method Hear(w: int, task: nat, it: Work) returns (outcome: Outcome, response: string)
      requires cluster.Coherent() && At(w, task, AwaitModel, it)
      modifies cluster`world, cluster`trace
      ensures cluster.Coherent() && old(cluster.trace) <= cluster.trace
      ensures cluster.Story(Worker(w)) == old(cluster.Story(Worker(w))) + [DidStage(AwaitModel)]
      ensures Continues(w, task, it, outcome, Some(StoreAnswer(response)))
      ensures match outcome
              case Returned => cluster.outside(task).model == Response(response)
              case Threw(fault) => cluster.outside(task).model == Raised(fault)
              case Cancelled => false
    {
      hide StoryOf, Legal, Run, CancelsOk, Enabled, Next, HashText, NextCache, NextBucket, PipelineDb;
      var reply := cluster.outside(task).model;
      ghost var now: real := *;
      StepRead(w, task, AwaitModel, it, Nothing.(model := reply), now);
      match reply
      case Response(text) => return Returned, text;
      case Raised(fault) => return Threw(fault), "";
    }

    // ---- Outcomes ----

    // The request first, then the job.
    method Finish(w: int, task: nat, it: Work, response: string, cached: bool, vector: seq<real>)
      returns (outcome: Outcome, ghost path: seq<Deed>)
      requires Wired() && cluster.Coherent() && At(w, task, FinishRequest(response, cached, vector), it)
      modifies cluster, cluster.db, cluster.cache, cluster.limiter
      ensures cluster.Coherent() && old(cluster.trace) <= cluster.trace
      ensures cluster.Story(Worker(w)) == old(cluster.Story(Worker(w))) + path
      ensures Continues(w, task, it, outcome, None)
      ensures WentFor(task, path, outcome, [DidStage(FinishRequest(response, cached, vector)), DidStage(FinishJob)])
    {
      hide StoryOf, Legal, Run, CancelsOk, Enabled, Next, AfterFault, At, Free;
      outcome, path := FinishRequestRow(w, task, it, response, cached, vector);
      if outcome.Returned? {
        ghost var more;
        outcome, more := FinishJobRow(w, task, it);
        path := Joined(cluster.config, cluster.outside(task), path, more, outcome);
      }
    }

    method FinishRequestRow(w: int, task: nat, it: Work, response: string, cached: bool, vector: seq<real>)
      returns (outcome: Outcome, ghost path: seq<Deed>)
      requires Wired() && cluster.Coherent() && At(w, task, FinishRequest(response, cached, vector), it)
      modifies cluster, cluster.db, cluster.cache, cluster.limiter
      ensures cluster.Coherent() && old(cluster.trace) <= cluster.trace
      ensures cluster.Story(Worker(w)) == old(cluster.Story(Worker(w))) + path
      ensures Continues(w, task, it, outcome, Some(FinishJob))
      ensures WentFor(task, path, outcome, [DidStage(FinishRequest(response, cached, vector))])
    {
      hide StoryOf, Legal, Run, CancelsOk, Enabled, Next, AfterFault, NextPc, NextCache, NextBucket, LimiterFails, AnswerColumns;
      outcome, path := Try(w, task, FinishRequest(response, cached, vector), it);
      if outcome.Returned? {
        var now: real := *;
        requests.MarkCompleted(it.job.requestId, response, cached, vector, now);
        StepWrite(w, task, FinishRequest(response, cached, vector), it, now);
        path := [DidStage(FinishRequest(response, cached, vector))];
      }
    }

    method FinishJobRow(w: int, task: nat, it: Work) returns (outcome: Outcome, ghost path: seq<Deed>)
      requires Wired() && cluster.Coherent() && At(w, task, FinishJob, it)
      modifies cluster, cluster.db, cluster.cache, cluster.limiter
      ensures cluster.Coherent() && old(cluster.trace) <= cluster.trace
      ensures cluster.Story(Worker(w)) == old(cluster.Story(Worker(w))) + path
      ensures Continues(w, task, it, outcome, None)
      ensures WentFor(task, path, outcome, [DidStage(FinishJob)])
    {
      hide StoryOf, Legal, Run, CancelsOk, Enabled, Next, AfterFault, NextPc, NextCache, NextBucket, LimiterFails;
      outcome, path := Try(w, task, FinishJob, it);
      if outcome.Returned? {
        var now: real := *;
        jobs.MarkCompleted(it.jobId, now);
        StepWrite(w, task, FinishJob, it, now);
        path := [DidStage(FinishJob)];
      }
    }

    // No token: the job goes back to the queue for as long as one token takes.
    method DeferDenied(w: int, task: nat, it: Work) returns (outcome: Outcome, ghost path: seq<Deed>)
      requires Wired() && cluster.Coherent() && it.job.worker == Some(w) && cluster.config.rate != 0.0
      requires At(w, task, ReleaseJob(WaitTime(cluster.config.rate), Denied), it)
      modifies cluster, cluster.db, cluster.cache, cluster.limiter
      ensures cluster.Coherent() && old(cluster.trace) <= cluster.trace
      ensures cluster.Story(Worker(w)) == old(cluster.Story(Worker(w))) + path
      ensures Continues(w, task, it, outcome, None)
      ensures WentFor(task, path, outcome, [DidStage(ReleaseJob(WaitTime(cluster.config.rate), Denied))])
    {
      hide StoryOf, Legal, Run, CancelsOk, Enabled, Next, AfterFault, NextPc, NextCache, NextBucket;
      var wait := WaitTime(cluster.config.rate);
      outcome, path := Try(w, task, ReleaseJob(wait, Denied), it);
      if outcome.Returned? {
        var now: real := *;
        var _ := jobs.ReleaseLease(it.jobId, it.job.worker.value, now, wait);
        StepWrite(w, task, ReleaseJob(wait, Denied), it, now);
        path := [DidStage(ReleaseJob(wait, Denied))];
      }
    }

    // ---- _run ----

    method RunStages(w: int, task: nat, it: Work) returns (outcome: Outcome, ghost path: seq<Deed>)
      requires Wired() && cluster.Coherent() && At(w, task, LookupExact, it) && it.job.worker == Some(w)
      modifies cluster, cluster.db, cluster.cache, cluster.limiter
      ensures cluster.Coherent() && old(cluster.trace) <= cluster.trace
      ensures cluster.Story(Worker(w)) == old(cluster.Story(Worker(w))) + path
      ensures Continues(w, task, it, outcome, None)
      ensures WentFor(task, path, outcome, path) && (outcome.Returned? ==> RanThrough(cluster.config, cluster.outside(task), it, path))
    {
      hide StoryOf, Legal, Run, CancelsOk, Enabled, Next, At, Free, WaitTime, AfterFault, HitAsDue, Passed, LimiterFails, RanOn, cluster.Coherent;
      var hit, vector;
      ghost var exactly, nearby;
      outcome, hit, vector, path, exactly, nearby := Lookup(w, task, it);
      if !outcome.Returned? {
        return;
      }
      ghost var looked, more := path, [];
      if hit.Some? {
        outcome, more := Finish(w, task, it, hit.value, true, vector);
        path := Joined(cluster.config, cluster.outside(task), looked, more, outcome);
        if outcome.Returned? {
          HitRunsThrough(cluster.config, cluster.outside(task), it, looked, more, hit.value, vector);
        }
        return;
      }
      outcome, more := RunOnMiss(w, task, it, vector);
      path := Joined(cluster.config, cluster.outside(task), looked, more, outcome);
      if outcome.Returned? {
        MissRunsThrough(cluster.config, cluster.outside(task), it, looked, more);
      }
    }

    // After a miss.
    method RunOnMiss(w: int, task: nat, it: Work, vector: seq<real>) returns (outcome: Outcome, ghost path: seq<Deed>)
      requires Wired() && cluster.Coherent() && At(w, task, TakeToken, it) && it.job.worker == Some(w)
      requires vector == cluster.config.embed(it.request.text)
      modifies cluster, cluster.db, cluster.cache, cluster.limiter
      ensures cluster.Coherent() && old(cluster.trace) <= cluster.trace
      ensures cluster.Story(Worker(w)) == old(cluster.Story(Worker(w))) + path
      ensures Continues(w, task, it, outcome, None)
      ensures WentFor(task, path, outcome, path) && (outcome.Returned? ==> RanOn(cluster.config, cluster.outside(task), it, path))
    {
      hide StoryOf, Legal, Run, CancelsOk, Enabled, Next, At, Free, WaitTime, AfterFault;
      var granted;
      outcome, granted, path := TryAcquire(w, task, it);
      if !outcome.Returned? {
        return;
      }
      ghost var more;
      if !granted {
        outcome, more := DeferDenied(w, task, it);
        path := Joined(cluster.config, cluster.outside(task), path, more, outcome);
        return;
      }
      outcome, more := RunWithToken(w, task, it, vector);
      path := Joined(cluster.config, cluster.outside(task), path, more, outcome);
    }

    // With a token.
    method RunWithToken(w: int, task: nat, it: Work, vector: seq<real>) returns (outcome: Outcome, ghost path: seq<Deed>)
      requires Wired() && cluster.Coherent() && At(w, task, CallModel, it)
      requires vector == cluster.config.embed(it.request.text)
      modifies cluster, cluster.db, cluster.cache, cluster.limiter
      ensures cluster.Coherent() && old(cluster.trace) <= cluster.trace
      ensures cluster.Story(Worker(w)) == old(cluster.Story(Worker(w))) + path
      ensures Continues(w, task, it, outcome, None)
      ensures WentFor(task, path, outcome, path)
      ensures outcome.Returned? ==> cluster.outside(task).model.Response? && path == WithAnswer(cluster.outside(task).model.text, vector)
    {
      hide StoryOf, Legal, Run, CancelsOk, Enabled, Next, At, Free, AfterFault;
      var response;
      outcome, response, path := Complete(w, task, it);
      if !outcome.Returned? {
        return;
      }
      ghost var more;
      outcome, more := Store(w, task, it, vector, response);
      path := Joined(cluster.config, cluster.outside(task), path, more, outcome);
      if !outcome.Returned? {
        return;
      }
      outcome, more := Finish(w, task, it, response, false, vector);
      path := Joined(cluster.config, cluster.outside(task), path, more, outcome);
      if outcome.Returned? {
        assert path == WithAnswer(response, vector);
      }
    }

    // ---- _handle_failure ----

    // `released` says whether the row was this worker's when it was released; `before` is the
    // state it was released in.  A row of somebody else's is left alone.
    method Release(w: int, task: nat, it: Work, wait: real, reason: Reason)
      returns (released: bool, cancelled: bool, ghost due: real, ghost before: State)
      requires Wired() && cluster.Coherent() && At(w, task, ReleaseJob(wait, reason), it) && it.job.worker == Some(w)
      modifies cluster, cluster.db, cluster.cache, cluster.limiter
      ensures cluster.Coherent() && old(cluster.trace) <= cluster.trace
      ensures cluster.Story(Worker(w)) == old(cluster.Story(Worker(w))) + if cancelled then [DidCancel] else [DidStage(ReleaseJob(wait, reason))]
      ensures !cancelled ==>
        && Passed(cluster.config, old(cluster.trace), cluster.trace, before)
        && released == Owns(before.db, w, it.jobId) && cluster.world.db == ReleaseTx(before.db, it.jobId, w, due)
      ensures if cancelled || !released || !reason.Retry? then Free(w) else At(w, task, WriteRetry(due, reason.error), it)
    {
      hide StoryOf, Legal, Run, CancelsOk, Enabled, Next, AfterFault, NextPc, NextCache, NextBucket;
      released, due := false, 0.0;
      cancelled := Await(w, task, ReleaseJob(wait, reason), it);
      before := cluster.world;
      if !cancelled {
        PassedNow(cluster.config, old(cluster.trace), cluster.trace);
        ghost var atRelease := cluster.trace;
        var now: real := *;
        released := jobs.ReleaseLease(it.jobId, it.job.worker.value, now, wait);
        due := now + wait;
        StepWrite(w, task, ReleaseJob(wait, reason), it, now);
        PassedWider(cluster.config, old(cluster.trace), atRelease, old(cluster.trace), cluster.trace, before);
      }
    }

    method KillJobRow(w: int, task: nat, it: Work, error: string) returns (cancelled: bool)
      requires Wired() && cluster.Coherent() && At(w, task, KillJob(error), it)
      modifies cluster, cluster.db, cluster.cache, cluster.limiter
      ensures cluster.Coherent() && old(cluster.trace) <= cluster.trace
      ensures cluster.Story(Worker(w)) == old(cluster.Story(Worker(w))) + if cancelled then [DidCancel] else [DidStage(KillJob(error))]
      ensures if cancelled then Free(w) else At(w, task, FailRequest(error), it)
    {
      hide StoryOf, Legal, Run, CancelsOk, Enabled, Next, AfterFault, NextPc, NextCache, NextBucket;
      cancelled := Await(w, task, KillJob(error), it);
      if !cancelled {
        var now: real := *;
        jobs.MarkDead(it.jobId, error, now);
        StepWrite(w, task, KillJob(error), it, now);
      }
    }

    method FailRequestRow(w: int, task: nat, it: Work, error: string) returns (cancelled: bool)
      requires Wired() && cluster.Coherent() && At(w, task, FailRequest(error), it)
      modifies cluster, cluster.db, cluster.cache, cluster.limiter
      ensures cluster.Coherent() && old(cluster.trace) <= cluster.trace && Free(w)
      ensures cluster.Story(Worker(w)) == old(cluster.Story(Worker(w))) + if cancelled then [DidCancel] else [DidStage(FailRequest(error))]
    {
      hide StoryOf, Legal, Run, CancelsOk, Enabled, Next, AfterFault, NextPc, NextCache, NextBucket;
      cancelled := Await(w, task, FailRequest(error), it);
      if !cancelled {
        var now: real := *;
        requests.MarkFailed(it.job.requestId, error, it.request.retryCount + 1, now);
        StepWrite(w, task, FailRequest(error), it, now);
      }
    }

    method RecordRetry(w: int, task: nat, it: Work, ghost due: real, error: string) returns (cancelled: bool)
      requires Wired() && cluster.Coherent() && At(w, task, WriteRetry(due, error), it)
      modifies cluster, cluster.db, cluster.cache, cluster.limiter
      ensures cluster.Coherent() && old(cluster.trace) <= cluster.trace && Free(w)
      ensures cluster.Story(Worker(w)) == old(cluster.Story(Worker(w))) + if cancelled then [DidCancel] else [DidStage(WriteRetry(due, error))]
    {
      hide StoryOf, Legal, Run, CancelsOk, Enabled, Next, AfterFault, NextPc, NextCache, NextBucket;
      cancelled := Await(w, task, WriteRetry(due, error), it);
      if !cancelled {
        var now: real := *;
        requests.UpdateStatus(it.job.requestId, Some(it.request.retryCount + 1), error, now);
        StepWrite(w, task, WriteRetry(due, error), it, now);
      }
    }

    // Defer on a rate limit; bury what cannot or must not be tried again; else release with
    // back-off and record the retry, if the job was still this worker's.
    method HandleFailure(w: int, task: nat, it: Work, fault: Fault) returns (cancelled: bool, ghost path: seq<Deed>)
      requires Wired() && cluster.Coherent() && At(w, task, AfterFault(it.job, fault), it) && it.job.worker == Some(w)
      modifies cluster, cluster.db, cluster.cache, cluster.limiter
      ensures cluster.Coherent() && old(cluster.trace) <= cluster.trace
      ensures cluster.Story(Worker(w)) == old(cluster.Story(Worker(w))) + path
      ensures Free(w)
      ensures if cancelled then WentFor(task, path, Cancelled, []) else FailedAsDue(it, fault, path)
    {
      hide StoryOf, Legal, Run, CancelsOk, Enabled, Next, Backoff, Passed;
      var released;
      ghost var due, before;
      if fault.kind.RateLimitExceeded? {
        released, cancelled, due, before := Release(w, task, it, fault.kind.wait, Deferral);
        path := if cancelled then [DidCancel] else [DidStage(ReleaseJob(fault.kind.wait, Deferral))];
        return;
      }
      if !IsRetryable(fault.kind) || !it.job.CanRetry() {
        cancelled, path := Bury(w, task, it, fault.message);
        return;
      }
      cancelled, path := RetryLater(w, task, it, Backoff(it.job.attempts), fault.message);
    }

    // The job first, then the request.
    method Bury(w: int, task: nat, it: Work, error: string) returns (cancelled: bool, ghost path: seq<Deed>)
      requires Wired() && cluster.Coherent() && At(w, task, KillJob(error), it)
      modifies cluster, cluster.db, cluster.cache, cluster.limiter
      ensures cluster.Coherent() && old(cluster.trace) <= cluster.trace
      ensures cluster.Story(Worker(w)) == old(cluster.Story(Worker(w))) + path
      ensures Free(w)
      ensures if cancelled then WentFor(task, path, Cancelled, []) else path == [DidStage(KillJob(error)), DidStage(FailRequest(error))]
    {
      hide StoryOf, Legal, Run, CancelsOk, Enabled, Next, At, Free;
      cancelled := KillJobRow(w, task, it, error);
      path := [DidCancel];
      if !cancelled {
        cancelled := FailRequestRow(w, task, it, error);
        path := [DidStage(KillJob(error)), if cancelled then DidCancel else DidStage(FailRequest(error))];
      }
    }

    // The job back to the queue; the request only if that took the job from nobody else.
    method RetryLater(w: int, task: nat, it: Work, delay: real, error: string) returns (cancelled: bool, ghost path: seq<Deed>)
      requires Wired() && cluster.Coherent() && At(w, task, ReleaseJob(delay, Retry(error)), it) && it.job.worker == Some(w)
      modifies cluster, cluster.db, cluster.cache, cluster.limiter
      ensures cluster.Coherent() && old(cluster.trace) <= cluster.trace
      ensures cluster.Story(Worker(w)) == old(cluster.Story(Worker(w))) + path
      ensures Free(w)
      ensures if cancelled then WentFor(task, path, Cancelled, [])
        else
          && 1 <= |path| <= 2 && path[0] == DidStage(ReleaseJob(delay, Retry(error)))
          && (|path| == 2 ==> path[1].DidStage? && path[1].pc.WriteRetry? && path[1].pc.retryError == error)
    {
      hide StoryOf, Legal, Run, CancelsOk, Enabled, Next, At, Passed;
      var released;
      ghost var due, before;
      released, cancelled, due, before := Release(w, task, it, delay, Retry(error));
      path := [if cancelled then DidCancel else DidStage(ReleaseJob(delay, Retry(error)))];
      if released && !cancelled {
        cancelled := RecordRetry(w, task, it, due, error);
        path := path + [if cancelled then DidCancel else DidStage(WriteRetry(due, error))];
      }
    }

    // Cancellation passes through; any other exception is handled here.
    method Execute(w: int, task: nat, it: Work) returns (cancelled: bool, ghost path: seq<Deed>)
      requires Wired() && cluster.Coherent() && At(w, task, LookupExact, it) && it.job.worker == Some(w)
      modifies cluster, cluster.db, cluster.cache, cluster.limiter
      ensures cluster.Coherent() && old(cluster.trace) <= cluster.trace
      ensures cluster.Story(Worker(w)) == old(cluster.Story(Worker(w))) + path
      ensures Free(w) && Executed(cluster.config, cluster.outside(task), it, path, cancelled)
    {
      hide StoryOf, Legal, Run, CancelsOk, Enabled, Next, At, Free, AfterFault, RanThrough, FailedAsDue;
      var outcome;
      outcome, path := RunStages(w, task, it);
      match outcome
      case Returned => cancelled := false;
      case Cancelled => cancelled := true;
      case Threw(fault) =>
        ghost var ran, more := path, [];
        cancelled, more := HandleFailure(w, task, it, fault);
        path := ran + more;
        FailedAndHandled(cluster.config, cluster.outside(task), it, ran, more, fault, cancelled);
    }
  }

  lemma CanAdvance(c: Config, s: State, w: int, o: Oracle, now: real)
    requires IsBusy(s, w) && (s.slots[w].pc.LookupNearest? && o.nearest.Some? ==> o.nearest.value in s.cache)
    ensures Enabled(c, s, Advance(w, o, now)) && NextDb(c, s, Advance(w, o, now)) == PipelineDb(s.db, w, s.slots[w], now)
    ensures DeedOf(c, s, Advance(w, o, now)) == DidStage(s.slots[w].pc)
  {
  }

  // Where a step, an exception or a cancellation leaves the slot.
  lemma SlotAfter(c: Config, s: State, a: Action, w: int)
    requires Enabled(c, s, a) && (a.Advance? || a.Raise? || a.Cancel?) && a.w == w
    ensures w in Next(c, s, a).slots && Next(c, s, a).slots[w] ==
      match a
      case Advance(_, o, now) => Moved(s.slots[w], NextPc(c, s, w, o, now))
      case Raise(_, fault, _) => s.slots[w].(pc := AfterFault(s.slots[w].job, fault))
      case Cancel(_, _) => Idle
  {
    hide NextDb, NextCache, NextBucket, NextClients, NextLog, NextPc, AfterFault;
  }

  predicate WritesTables(pc: Pc) {
    pc.FinishRequest? || pc.FinishJob? || pc.ReleaseJob? || pc.WriteRetry? || pc.KillJob? || pc.FailRequest?
  }

  // Where such a step leads.
  function AfterWrite(pc: Pc, owns: bool, now: real): Option<Pc> {
    match pc
    case FinishRequest(_, _, _) => Some(FinishJob)
    case KillJob(error) => Some(FailRequest(error))
    case ReleaseJob(delay, Retry(error)) => if owns then Some(WriteRetry(now + delay, error)) else None
    case _ => None
  }

  lemma WriteOnly(c: Config, s: State, w: int, now: real)
    requires IsBusy(s, w) && WritesTables(s.slots[w].pc)
    ensures NextCache(c, s, Advance(w, Nothing, now)) == s.cache && NextBucket(c, s, Advance(w, Nothing, now)) == s.bucket
    ensures NextPc(c, s, w, Nothing, now) == AfterWrite(s.slots[w].pc, Owns(s.db, w, s.slots[w].jobId), now)
  {
  }

  lemma TokenStep(c: Config, s: State, w: int, o: Oracle, now: real)
    requires IsBusy(s, w) && s.slots[w].pc.TakeToken?
    ensures NextCache(c, s, Advance(w, o, now)) == s.cache && PipelineDb(s.db, w, s.slots[w], now) == s.db
    ensures NextBucket(c, s, Advance(w, o, now)) == if o.redis.Unreachable? then s.bucket else KeyAfterCall(c.capacity, c.rate, s.bucket, now)
    ensures NextPc(c, s, w, o, now) == Some(
      match o.redis
      case ReplyLost(error) => AfterFault(s.slots[w].job, Fault(RedisUnavailable, error))
      case Unreachable(error) => AfterFault(s.slots[w].job, Fault(RedisUnavailable, error))
      case Answer =>
        if KeyGranted(c.capacity, c.rate, s.bucket, now) then CallModel
        else if c.rate == 0.0 then AfterFault(s.slots[w].job, Fault(Unclassified, "float division by zero"))
        else ReleaseJob(WaitTime(c.rate), Denied))
  {
    hide AfterFault, KeyGranted, KeyAfterCall;
  }

  lemma ReadOnly(c: Config, s: State, w: int, o: Oracle, now: real)
    requires IsBusy(s, w)
    requires var pc := s.slots[w].pc; pc.LookupExact? || pc.LookupNearest? || pc.CallModel? || pc.AwaitModel?
    ensures NextCache(c, s, Advance(w, o, now)) == s.cache && NextBucket(c, s, Advance(w, o, now)) == s.bucket
    ensures PipelineDb(s.db, w, s.slots[w], now) == s.db
  {
  }

  // Two stretches in a row.
  ghost function Joined(c: Config, o: Oracle, p: seq<Deed>, q: seq<Deed>, outcome: Outcome): (path: seq<Deed>)
    requires Stages(p) && Went(c, o, q, outcome, q)
    ensures path == p + q && Went(c, o, path, outcome, path)
    ensures outcome.Returned? && Stages(q) ==> Stages(path)
  {
    WentOn(c, o, p, q, outcome, q);
    p + q
  }
}
