// PromptProcessor.submit_and_wait as the program it is, run against the shared objects
// while every other program may act at each await.
module Processor {
  import opened Wrappers
  import opened AutoId
  import opened Rows
  import opened Tables
  import opened Machine
  import opened Depth
  import opened Structure
  import opened Stories
  import opened Provenance
  import opened AllRuns
  import opened Repositories
  import opened Cluster
  import opened Workers

  // 409, 503, any other exception, or the row as last read.
  datatype Submission = ConflictError | QueueFullError | OtherError | Served(row: Request)

  // ---- What an API call keeps while others act ----

  // Rows stay, with their prompt id and their text's hash.
  ghost predicate RowsStay(db: Db, db': Db) {
    forall r :: r in db.requests ==>
      r in db'.requests && db'.requests[r].promptId == db.requests[r].promptId && db'.requests[r].textHash == db.requests[r].textHash
  }

  ghost predicate CallKept(s: State, s': State, cl: int) {
    && (cl in s.clients <==> cl in s'.clients) && (cl in s.clients ==> s'.clients[cl] == s.clients[cl])
    && RowsStay(s.db, s'.db)
  }

  lemma StepKeepsRows(c: Config, s: State, a: Action)
    requires Enabled(c, s, a)
    ensures RowsStay(s.db, Next(c, s, a).db)
  {
    hide NextDb, NextCache, NextBucket, NextSlots, NextLog, NextClients;
    ColumnsKept(c, s, a);
  }

  lemma OtherStepKeepsCall(c: Config, s: State, a: Action, cl: int)
    requires Enabled(c, s, a) && !Concerns(Call(cl), a)
    ensures CallKept(s, Next(c, s, a), cl)
  {
    hide NextDb, NextCache, NextBucket, NextSlots, NextLog, RowsStay, Inserts, HashText, ResolvedPromptId, QueuedDepth;
    StepKeepsRows(c, s, a);
  }

  lemma {:induction false} OthersKeepCall(c: Config, s: State, acts: seq<Action>, cl: int)
    requires Legal(c, s, acts) && Others(Call(cl), acts)
    ensures CallKept(s, Run(c, s, acts), cl)
    decreases |acts|
  {
    hide Next, Enabled;
    if acts != [] {
      OtherStepKeepsCall(c, s, acts[0], cl);
      OthersKeepCall(c, Next(c, s, acts[0]), acts[1..], cl);
    }
  }

  // With prompt ids unique, the row that was found is the row there is.
  lemma FoundIsExisting(db: Db, promptId: string, found: Option<(int, Request)>)
    requires Constraints(db)
    requires found.Some? ==> found.value.0 in db.requests && db.requests[found.value.0] == found.value.1 && found.value.1.promptId == promptId
    requires found.None? ==> forall r :: r in db.requests ==> db.requests[r].promptId != promptId
    ensures RequestWithId(db.requests, promptId) == if found.None? then None else Some(found.value.0)
    ensures Existing(db, promptId) == if found.None? then None else Some(found.value.1)
  {
    var o := RequestWithId(db.requests, promptId);
    if found.Some? {
      assert o.Some?;
      assert db.requests[o.value].promptId == db.requests[found.value.0].promptId;
      assert o.value == found.value.0;
    }
  }

  // What submitting, passing the depth check, and giving up do: they only read.
  lemma CallReads(c: Config, s: State, a: Action)
    requires Enabled(c, s, a) && (a.Submit? || a.Admit? || a.Drop?)
    ensures NextDb(c, s, a) == s.db && NextCache(c, s, a) == s.cache && NextBucket(c, s, a) == s.bucket
  {
  }

  // What the two steps of a re-enqueue write.
  lemma CallWrites(c: Config, s: State, a: Action)
    requires Enabled(c, s, a) && (a.Requeue? || a.Reset?)
    ensures NextCache(c, s, a) == s.cache && NextBucket(c, s, a) == s.bucket
    ensures var r := s.clients[a.client].requestId;
      if a.Requeue? then NextDb(c, s, a) == RequeueRequestTx(s.db, r, a.now) && NextClients(c, s, a) == s.clients[a.client := Resetting(r)]
      else NextDb(c, s, a) == ResetJobTx(s.db, r, a.now) && NextClients(c, s, a) == s.clients - {a.client}
  {
  }

  lemma SubmitDecides(c: Config, s: State, a: Action, found: Option<(int, Request)>)
    requires a.Submit? && Enabled(c, s, a)
    requires var id := ResolvedPromptId(c.sha, a.user, a.givenId, a.text);
      RequestWithId(s.db.requests, id) == if found.None? then None else Some(found.value.0)
    requires found.Some? ==> found.value.0 in s.db.requests && s.db.requests[found.value.0] == found.value.1
    ensures var id := ResolvedPromptId(c.sha, a.user, a.givenId, a.text);
      NextClients(c, s, a) ==
        match Idempotency.Check(if found.None? then None else Some(found.value.1), HashText(c.sha, a.text))
        case InsertNew => s.clients[a.client := Admitting(a.user, id, a.text, a.priority)]
        case Reenqueue => s.clients[a.client := Requeueing(found.value.0)]
        case _ => s.clients
  {
  }

  class PromptProcessor {
    const cluster: Cluster
    const requests: PromptRequestRepository
    const jobs: ProcessingJobRepository

    constructor (cluster: Cluster)
      ensures this.cluster == cluster && Wired()
    {
      this.cluster := cluster;
      requests := new PromptRequestRepository(cluster.db);
      jobs := new ProcessingJobRepository(cluster.db);
    }

    ghost predicate Wired() {
      requests.db == cluster.db && jobs.db == cluster.db
    }

    ghost predicate Absent(cl: int)
      reads cluster
    {
      cl !in cluster.world.clients
    }

    ghost predicate Stands(cl: int, call: Client)
      reads cluster
    {
      cl in cluster.world.clients && cluster.world.clients[cl] == call
    }

    method Await(cl: int)
      requires cluster.Coherent()
      modifies cluster, cluster.db, cluster.cache, cluster.limiter
      ensures cluster.Coherent() && old(cluster.trace) <= cluster.trace && CallKept(old(cluster.world), cluster.world, cl)
      ensures cluster.Looks(Call(cl)) == old(cluster.Looks(Call(cl))) + [cluster.world]
      ensures cluster.Story(Call(cl)) == old(cluster.Story(Call(cl)))
    {
      hide StoryOf;
      ghost var before := cluster.world;
      cluster.Yield(Call(cl));
      ghost var acts :| Others(Call(cl), acts) && Legal(cluster.config, before, acts)
                     && cluster.world == Run(cluster.config, before, acts) && cluster.trace == old(cluster.trace) + acts;
      OthersKeepCall(cluster.config, before, acts, cl);
    }

    // The request a prompt id stands for, and the hash of its text where that is known.
    ghost predicate Filed(r: int, promptId: string, hash: Option<Digest>)
      reads cluster
    {
      && r in cluster.world.db.requests && cluster.world.db.requests[r].promptId == promptId
      && (hash.Some? ==> cluster.world.db.requests[r].textHash == hash.value)
    }

    // An await in the middle of the call; an exception there ends the call.
    method Try(cl: int, ghost call: Client) returns (failed: bool)
      requires cluster.Coherent() && Stands(cl, call)
      modifies cluster, cluster.db, cluster.cache, cluster.limiter
      ensures cluster.Coherent() && old(cluster.trace) <= cluster.trace
      ensures old(cluster.Looks(Call(cl))) <= cluster.Looks(Call(cl))
      ensures cluster.Story(Call(cl)) == old(cluster.Story(Call(cl))) + if failed then [DidDrop] else []
      ensures RowsStay(old(cluster.world).db, cluster.world.db)
      ensures if failed then Absent(cl) else Stands(cl, call)
    {
      hide StoryOf, Legal, Run, CancelsOk, NextDb, NextCache, NextBucket, NextLog, NextSlots;
      Await(cl);
      ghost var before := cluster.world;
      failed := cluster.FailCall(cl);
      if failed {
        ghost var now :| Happened(cluster.config, before, Drop(cl, now), cluster.world);
        StepKeepsRows(cluster.config, before, Drop(cl, now));
      }
    }

    // The row of a prompt id, and what it decides.
    method Decide(id: string, hash: Digest) returns (decision: Idempotency.Decision, existing: Option<(int, Request)>)
      requires Wired() && cluster.Coherent()
      ensures decision == Idempotency.Check(if existing.None? then None else Some(existing.value.1), hash)
      ensures existing.Some? ==>
        existing.value.0 in cluster.world.db.requests && cluster.world.db.requests[existing.value.0] == existing.value.1 && existing.value.1.promptId == id
      ensures RequestWithId(cluster.world.db.requests, id) == if existing.None? then None else Some(existing.value.0)
      ensures DecidedOn(cluster.world.db, id, hash, decision)
    {
      hide TablesOk, RequestWithId, Existing, DecidedOn;
      existing := requests.GetByPromptId(id);
      decision := Idempotency.Check(if existing.None? then None else Some(existing.value.1), hash);
      assert Constraints(cluster.world.db) by { TablesInEveryRun(cluster.config, cluster.trace); ConstraintsOf(cluster.world); }
      FoundIsExisting(cluster.world.db, id, existing);
      DecisionIsDue(cluster.world.db, id, hash, existing);
    }

    // IdempotencyService.check, made in the state `checked`.  The request the decision is about
    // is on file under this id, and but for a conflict with the same text hash.
    method Check(cl: int, user: string, givenId: Option<string>, text: string, priority: int)
      returns (decision: Idempotency.Decision, existing: Option<(int, Request)>, ghost checked: State)
      requires Wired() && cluster.Coherent() && Absent(cl)
      modifies cluster, cluster.db, cluster.cache, cluster.limiter
      ensures cluster.Coherent() && old(cluster.trace) <= cluster.trace
      ensures old(cluster.Looks(Call(cl))) <= cluster.Looks(Call(cl))
      ensures cluster.Story(Call(cl)) == old(cluster.Story(Call(cl))) + [DidSubmit]
      ensures decision.InsertNew? <==> existing.None?
      ensures Passed(cluster.config, old(cluster.trace), cluster.trace, checked)
      ensures DecidedOn(checked.db, ResolvedPromptId(cluster.config.sha, user, givenId, text), HashText(cluster.config.sha, text), decision)
      ensures var id := ResolvedPromptId(cluster.config.sha, user, givenId, text);
              match decision
              case InsertNew => Stands(cl, Admitting(user, id, text, priority))
              case Reenqueue => Stands(cl, Requeueing(existing.value.0)) && Filed(existing.value.0, id, Some(HashText(cluster.config.sha, text)))
              case Conflict => Absent(cl) && OnFileForOther(cluster.world, id, HashText(cluster.config.sha, text))
              case _ => Absent(cl) && Filed(existing.value.0, id, Some(HashText(cluster.config.sha, text)))
    {
      hide NextDb, NextCache, NextBucket, NextSlots, NextClients, NextLog, RequestWithId, ResolvedPromptId, HashText, StoryOf, Legal, Run, CancelsOk,
        DecidedOn, OnFileForOther, Passed, cluster.Looks;
      Await(cl);
      var id := ResolvedPromptId(cluster.config.sha, user, givenId, text);
      decision, existing := Decide(id, HashText(cluster.config.sha, text));
      checked := cluster.world;
      PassedNow(cluster.config, old(cluster.trace), cluster.trace);
      ghost var sofar := cluster.trace;
      ghost var now: real := *;
      ghost var a := Submit(cl, user, givenId, text, priority, now);
      CallReads(cluster.config, cluster.world, a);
      SubmitDecides(cluster.config, cluster.world, a, existing);
      cluster.Take(Call(cl), a);
      PassedWider(cluster.config, old(cluster.trace), sofar, old(cluster.trace), cluster.trace, checked);
      if decision.Conflict? {
        OnFileUnder(cluster.world, existing.value.0, id, HashText(cluster.config.sha, text));
      }
    }

    // Backpressure: the depth is read here, the rows go in later.
    method PassDepthCheck(cl: int, user: string, promptId: string, text: string, priority: int) returns (refusal: Option<Submission>)
      requires Wired() && cluster.Coherent() && Stands(cl, Admitting(user, promptId, text, priority))
      modifies cluster, cluster.db, cluster.cache, cluster.limiter
      ensures cluster.Coherent() && old(cluster.trace) <= cluster.trace
      ensures old(cluster.Looks(Call(cl))) <= cluster.Looks(Call(cl))
      ensures cluster.Story(Call(cl)) == old(cluster.Story(Call(cl))) + [if refusal == Some(OtherError) then DidDrop else DidAdmit]
      ensures match refusal
              case None => Stands(cl, Inserting(user, promptId, text, priority)) && |Pending(cluster.world.db)| < cluster.config.maxDepth
              case Some(QueueFullError) => Absent(cl) && |Pending(cluster.world.db)| >= cluster.config.maxDepth
              case Some(outcome) => Absent(cl) && outcome.OtherError?
    {
      hide NextDb, NextCache, NextBucket, NextSlots, NextLog, StoryOf, Legal, Run, CancelsOk, cluster.Looks;
      var failed := Try(cl, Admitting(user, promptId, text, priority));
      if failed {
        return Some(OtherError);
      }
      var depth := jobs.QueuedDepth();
      DepthIsPending(cluster.world.db);
      ghost var now: real := *;
      CallReads(cluster.config, cluster.world, Admit(cl, now));
      cluster.Take(Call(cl), Admit(cl, now));
      refusal := if depth >= cluster.config.maxDepth then Some(QueueFullError) else None;
    }

    // Both rows in one transaction.  Losing the race for the prompt id, which means that it
    // was taken in the state `before` the insert, is no error: the winner's row is on file,
    // whatever its text.
    method Enqueue(cl: int, user: string, promptId: string, text: string, priority: int)
      returns (failed: bool, ghost raced: bool, ghost filed: int, ghost before: State)
      requires Wired() && cluster.Coherent() && Stands(cl, Inserting(user, promptId, text, priority))
      modifies cluster, cluster.db, cluster.cache, cluster.limiter
      ensures cluster.Coherent() && old(cluster.trace) <= cluster.trace
      ensures old(cluster.Looks(Call(cl))) <= cluster.Looks(Call(cl))
      ensures cluster.Story(Call(cl)) == old(cluster.Story(Call(cl))) + [if failed then DidDrop else DidInsert]
      ensures Absent(cl)
      ensures !failed ==>
        && Filed(filed, promptId, if raced then None else Some(HashText(cluster.config.sha, text)))
        && Passed(cluster.config, old(cluster.trace), cluster.trace, before)
        && (raced <==> RequestWithId(before.db.requests, promptId).Some?)
        && (!raced ==> filed !in before.db.requests && NewlyFiled(cluster.config, cluster.world.db, filed, user, promptId, text, priority))
    {
      hide NextSlots, NextLog, HashText, RequestWithId, StoryOf, Legal, Run, CancelsOk, cluster.Looks;
      raced, filed := false, 0;
      failed := Try(cl, Inserting(user, promptId, text, priority));
      before := cluster.world;
      if failed {
        return;
      }
      PassedNow(cluster.config, old(cluster.trace), cluster.trace);
      ghost var sofar := cluster.trace;
      var now: real := *;
      var r := NextId(cluster.db.requests.Keys);
      var j := NextId(cluster.db.jobs.Keys);
      var row := Request(
        userId := user, promptId := promptId, text := text, textHash := HashText(cluster.config.sha, text), priority := priority,
        embedding := None, status := ReqQueued, cached := None, response := None, error := None, retryCount := 0,
        updatedAt := now, completedAt := None);
      var job := Job(
        requestId := 0, status := Queued, worker := None, attempts := 0, maxAttempts := cluster.config.maxAttempts,
        priority := priority, scheduledAt := now, lockedUntil := None, heartbeatAt := None,
        startedAt := None, finishedAt := None, error := None);
      var ok := requests.InsertWithJob(r, row, j, job);
      raced := !ok;
      filed := if ok then r else RequestWithId(cluster.world.db.requests, promptId).value;
      cluster.Take(Call(cl), Insert(cl, r, j, now));
      assert !raced ==> cluster.world.db.jobs[j].requestId == r;
      PassedWider(cluster.config, old(cluster.trace), sofar, old(cluster.trace), cluster.trace, before);
    }

    // Two transactions: the request first, then its job.
    method Reenqueue(cl: int, r: int) returns (failed: bool, ghost did: seq<Deed>)
      requires Wired() && cluster.Coherent() && Stands(cl, Requeueing(r))
      modifies cluster, cluster.db, cluster.cache, cluster.limiter
      ensures cluster.Coherent() && old(cluster.trace) <= cluster.trace
      ensures old(cluster.Looks(Call(cl))) <= cluster.Looks(Call(cl))
      ensures cluster.Story(Call(cl)) == old(cluster.Story(Call(cl))) + did
      ensures if failed then did == [DidDrop] || did == [DidRequeue, DidDrop] else did == [DidRequeue, DidReset]
      ensures Absent(cl) && RowsStay(old(cluster.world).db, cluster.world.db)
    {
      hide Legal, Run, CancelsOk, Stands, Absent, StoryOf;
      failed := RequeueRequest(cl, r);
      did := [if failed then DidDrop else DidRequeue];
      if !failed {
        failed := ResetItsJob(cl, r);
        did := did + [if failed then DidDrop else DidReset];
      }
    }

    method RequeueRequest(cl: int, r: int) returns (failed: bool)
      requires Wired() && cluster.Coherent() && Stands(cl, Requeueing(r))
      modifies cluster, cluster.db, cluster.cache, cluster.limiter
      ensures cluster.Coherent() && old(cluster.trace) <= cluster.trace
      ensures old(cluster.Looks(Call(cl))) <= cluster.Looks(Call(cl))
      ensures cluster.Story(Call(cl)) == old(cluster.Story(Call(cl))) + [if failed then DidDrop else DidRequeue]
      ensures RowsStay(old(cluster.world).db, cluster.world.db)
      ensures if failed then Absent(cl) else Stands(cl, Resetting(r))
    {
      hide NextDb, NextCache, NextBucket, NextClients, NextSlots, NextLog, Legal, Run, CancelsOk, RequeueRequestTx, StoryOf;
      failed := Try(cl, Requeueing(r));
      if !failed {
        var now: real := *;
        requests.UpdateStatus(r, None, "", now);
        StepKeepsRows(cluster.config, cluster.world, Requeue(cl, now));
        CallWrites(cluster.config, cluster.world, Requeue(cl, now));
        cluster.Take(Call(cl), Requeue(cl, now));
      }
    }

    method ResetItsJob(cl: int, r: int) returns (failed: bool)
      requires Wired() && cluster.Coherent() && Stands(cl, Resetting(r))
      modifies cluster, cluster.db, cluster.cache, cluster.limiter
      ensures cluster.Coherent() && old(cluster.trace) <= cluster.trace
      ensures old(cluster.Looks(Call(cl))) <= cluster.Looks(Call(cl))
      ensures cluster.Story(Call(cl)) == old(cluster.Story(Call(cl))) + [if failed then DidDrop else DidReset]
      ensures Absent(cl) && RowsStay(old(cluster.world).db, cluster.world.db)
    {
      hide NextDb, NextCache, NextBucket, NextClients, NextSlots, NextLog, ResetJobTx, Legal, Run, CancelsOk, StoryOf, cluster.Looks;
      failed := Try(cl, Resetting(r));
      if !failed {
        var now: real := *;
        jobs.ResetJob(r, now);
        StepKeepsRows(cluster.config, cluster.world, Reset(cl, now));
        CallWrites(cluster.config, cluster.world, Reset(cl, now));
        cluster.Take(Call(cl), Reset(cl, now));
      }
    }

    // The row of a prompt id on file is found again, whatever happened since.
    method Reread(cl: int, promptId: string, ghost r: int, ghost hash: Option<Digest>) returns (row: Request)
      requires Wired() && cluster.Coherent() && Absent(cl) && Filed(r, promptId, hash)
      modifies cluster, cluster.db, cluster.cache, cluster.limiter
      ensures cluster.Coherent() && old(cluster.trace) <= cluster.trace
      ensures old(cluster.Looks(Call(cl))) <= cluster.Looks(Call(cl))
      ensures cluster.Story(Call(cl)) == old(cluster.Story(Call(cl)))
      ensures Absent(cl) && Filed(r, promptId, hash) && row == cluster.world.db.requests[r]
      ensures cluster.Looks(Call(cl)) == old(cluster.Looks(Call(cl))) + [cluster.world]
    {
      hide TablesOk, Legal, Run, CancelsOk, StoryOf;
      Await(cl);
      var found := requests.GetByPromptId(promptId);
      assert Constraints(cluster.world.db) by { TablesInEveryRun(cluster.config, cluster.trace); ConstraintsOf(cluster.world); }
      assert requests.db.requests == cluster.world.db.requests;
      assert found.Some?;
      var q := found.value.0;
      assert cluster.world.db.requests[q].promptId == cluster.world.db.requests[r].promptId;
      row := found.value.1;
    }

    // Look before waiting; then after each of `turns` waits, until the request is settled; and
    // once more at the deadline.
    method Wait(cl: int, promptId: string, turns: nat, ghost r: int, ghost hash: Option<Digest>) returns (row: Request, ghost looks: seq<State>)
      requires Wired() && cluster.Coherent() && Absent(cl) && Filed(r, promptId, hash)
      modifies cluster, cluster.db, cluster.cache, cluster.limiter
      ensures cluster.Coherent() && old(cluster.trace) <= cluster.trace
      ensures cluster.Story(Call(cl)) == old(cluster.Story(Call(cl)))
      ensures Absent(cl) && Filed(r, promptId, hash) && row == cluster.world.db.requests[r]
      ensures cluster.Looks(Call(cl)) == old(cluster.Looks(Call(cl))) + looks && Waited(turns, r, looks, row)
    {
      hide Legal, Run, CancelsOk, Absent, StoryOf, cluster.Looks;
      row := Reread(cl, promptId, r, hash);
      looks := [cluster.world];
      if row.status == ReqCompleted || row.status == ReqFailed {
        return;
      }
      var left := turns;
      while left > 0
        invariant cluster.Coherent() && old(cluster.trace) <= cluster.trace && Absent(cl)
        invariant cluster.Story(Call(cl)) == old(cluster.Story(Call(cl)))
        invariant Filed(r, promptId, hash)
        invariant cluster.Looks(Call(cl)) == old(cluster.Looks(Call(cl))) + looks && |looks| == turns - left + 1
        invariant forall i :: 0 <= i < |looks| ==> StillOpen(looks[i].db, r)
      {
        left := left - 1;
        row := Reread(cl, promptId, r, hash);
        looks := looks + [cluster.world];
        if row.status == ReqCompleted || row.status == ReqFailed {
          return;
        }
      }
      row := Reread(cl, promptId, r, hash);
      looks := looks + [cluster.world];
    }

    // A new prompt id: past the depth check and into the tables, or refused, or failed.
    method InsertNew(cl: int, user: string, promptId: string, text: string, priority: int)
      returns (failure: Option<Submission>, ghost raced: bool, ghost filed: int, ghost did: seq<Deed>, ghost seen: State)
      requires Wired() && cluster.Coherent() && Stands(cl, Admitting(user, promptId, text, priority))
      modifies cluster, cluster.db, cluster.cache, cluster.limiter
      ensures cluster.Coherent() && old(cluster.trace) <= cluster.trace
      ensures old(cluster.Looks(Call(cl))) <= cluster.Looks(Call(cl))
      ensures cluster.Story(Call(cl)) == old(cluster.Story(Call(cl))) + did
      ensures Absent(cl) && (failure.Some? ==> !failure.value.Served? && !failure.value.ConflictError?)
      ensures failure.None? ==>
        did == [DidAdmit, DidInsert] && Filed(filed, promptId, if raced then None else Some(HashText(cluster.config.sha, text)))
      ensures failure == Some(QueueFullError) ==>
        && did == [DidAdmit] && Passed(cluster.config, old(cluster.trace), cluster.trace, seen)
        && |Pending(seen.db)| >= cluster.config.maxDepth
      ensures failure == Some(OtherError) ==> did == [DidDrop] || did == [DidAdmit, DidDrop]
    {
      hide Stands, Legal, Run, CancelsOk, HashText, StoryOf, QueuedDepth, RequestWithId, cluster.Looks;
      raced, filed := false, 0;
      failure := PassDepthCheck(cl, user, promptId, text, priority);
      did := [if failure == Some(OtherError) then DidDrop else DidAdmit];
      seen := cluster.world;
      PassedNow(cluster.config, old(cluster.trace), cluster.trace);
      if failure.None? {
        var failed;
        ghost var before;
        failed, raced, filed, before := Enqueue(cl, user, promptId, text, priority);
        did := did + [if failed then DidDrop else DidInsert];
        failure := if failed then Some(OtherError) else None;
      }
    }

    // The whole call.  What it does is due to the row its check found in the state `checked`.
    // Handed back is the one row of the prompt id asked for, as the table has it at that
    // moment, after waiting for it to be settled; a completed prompt is not waited for, and its
    // answer is marked as cached.  Unless the insert lost a race the row is for the text that
    // was submitted, and any answer in it the model gave for the row's text or for one close
    // enough.  A refusal has its cause in a state `seen` on the way, any other error in an
    // exception.
    method SubmitAndWait(cl: int, user: string, givenId: Option<string>, text: string, priority: int, turns: nat)
      returns (outcome: Submission, ghost raced: bool, ghost filed: int, ghost did: seq<Deed>,
               ghost checked: State, ghost seen: State, ghost looks: seq<State>)
      requires Wired() && cluster.Coherent() && Absent(cl)
      modifies cluster, cluster.db, cluster.cache, cluster.limiter
      ensures cluster.Coherent() && old(cluster.trace) <= cluster.trace
      ensures cluster.Story(Call(cl)) == old(cluster.Story(Call(cl))) + did
      ensures Absent(cl) && InOrder(did, outcome, raced)
      ensures Passed(cluster.config, old(cluster.trace), cluster.trace, checked)
      ensures var id, hash := ResolvedPromptId(cluster.config.sha, user, givenId, text), HashText(cluster.config.sha, text);
        && AnsweredAsDue(checked.db, id, hash, did, outcome)
        && (outcome.QueueFullError? ==>
              Passed(cluster.config, old(cluster.trace), cluster.trace, seen) && |Pending(seen.db)| >= cluster.config.maxDepth)
        && (outcome.Served? ==>
              && Filed(filed, id, if raced then None else Some(hash))
              && (outcome.row.response.Some? ==>
                    Justified(cluster.config, cluster.world.log.outputs, outcome.row.response.value, outcome.row.text))
              && if CompletedOnFile(checked.db, id, hash) then outcome.row == MarkedCached(cluster.world.db.requests[filed])
                 else
                   && outcome.row == cluster.world.db.requests[filed] && Waited(turns, filed, looks, outcome.row)
                   && EndsIn(old(cluster.Looks(Call(cl))), cluster.Looks(Call(cl)), looks))
    {
      hide ResolvedPromptId, HashText, Stands, Absent, Legal, Run, CancelsOk, Justified, StoryOf, Pending, Passed, Waited,
        AnsweredAsDue, DecidedOn, CompletedOnFile, EndsIn, OnFileForOther, cluster.Coherent, cluster.Looks;
      raced, filed, looks := false, 0, [];
      var id := ResolvedPromptId(cluster.config.sha, user, givenId, text);
      ghost var hash := HashText(cluster.config.sha, text);
      var decision, existing;
      decision, existing, checked := Check(cl, user, givenId, text, priority);
      did := [DidSubmit];
      seen := checked;
      if decision.Conflict? {
        DecisionShows(checked.db, id, hash, decision, did, ConflictError);
        return ConflictError, raced, filed, did, checked, seen, looks;
      }
      ghost var sofar := cluster.trace;
      CompletedIff(checked.db, id, hash, decision);
      if decision.ReturnExisting? {
        filed := existing.value.0;
        var row := Repeat(cl, id, filed, Some(hash));
        PassedWider(cluster.config, old(cluster.trace), sofar, old(cluster.trace), cluster.trace, checked);
        DecisionShows(checked.db, id, hash, decision, did, Served(row));
        return Served(row), raced, filed, did, checked, seen, looks;
      }
      ghost var more;
      ghost var looked := cluster.Looks(Call(cl));
      outcome, raced, filed, more, seen, looks := Proceed(cl, decision, existing, user, id, text, priority, turns);
      if outcome.Served? {
        EndsWider(old(cluster.Looks(Call(cl))), looked, cluster.Looks(Call(cl)), looks);
      }
      did := did + more;
      DecisionShows(checked.db, id, hash, decision, did, outcome);
      PassedWider(cluster.config, old(cluster.trace), sofar, old(cluster.trace), cluster.trace, checked);
      if outcome.QueueFullError? {
        PassedWider(cluster.config, sofar, cluster.trace, old(cluster.trace), cluster.trace, seen);
      }
    }

    // Everything else: put the work into the queue if it is not there, then wait.
    method Proceed(cl: int, decision: Idempotency.Decision, existing: Option<(int, Request)>,
                   user: string, promptId: string, text: string, priority: int, turns: nat)
      returns (outcome: Submission, ghost raced: bool, ghost filed: int, ghost did: seq<Deed>, ghost seen: State, ghost looks: seq<State>)
      requires Wired() && cluster.Coherent()
      requires decision.InsertNew? || ((decision.Reenqueue? || decision.AwaitExisting?) && existing.Some?)
      requires decision.InsertNew? ==> Stands(cl, Admitting(user, promptId, text, priority))
      requires decision.Reenqueue? ==> Stands(cl, Requeueing(existing.value.0))
      requires decision.AwaitExisting? ==> Absent(cl)
      requires !decision.InsertNew? ==> Filed(existing.value.0, promptId, Some(HashText(cluster.config.sha, text)))
      modifies cluster, cluster.db, cluster.cache, cluster.limiter
      ensures cluster.Coherent() && old(cluster.trace) <= cluster.trace
      ensures old(cluster.Looks(Call(cl))) <= cluster.Looks(Call(cl))
      ensures cluster.Story(Call(cl)) == old(cluster.Story(Call(cl))) + did
      ensures Absent(cl) && !outcome.ConflictError? && InOrder([DidSubmit] + did, outcome, raced) && Begins(decision, did)
      ensures outcome.QueueFullError? ==>
        Passed(cluster.config, old(cluster.trace), cluster.trace, seen) && |Pending(seen.db)| >= cluster.config.maxDepth
      ensures outcome.Served? ==>
        && Filed(filed, promptId, if raced then None else Some(HashText(cluster.config.sha, text)))
        && outcome.row == cluster.world.db.requests[filed] && Waited(turns, filed, looks, outcome.row)
        && EndsIn(old(cluster.Looks(Call(cl))), cluster.Looks(Call(cl)), looks)
        && (outcome.row.response.Some? ==>
              Justified(cluster.config, cluster.world.log.outputs, outcome.row.response.value, outcome.row.text))
    {
      hide HashText, Stands, Absent, Legal, Run, CancelsOk, Justified, StoryOf, Pending, Passed, Waited, EndsIn, cluster.Coherent, cluster.Looks;
      raced, did, seen, looks := false, [], cluster.world, [];
      if decision.AwaitExisting? {
        filed := existing.value.0;
      } else {
        var failure;
        failure, raced, filed, did, seen := Arrange(cl, decision, existing, user, promptId, text, priority);
        if failure.Some? {
          return failure.value, raced, filed, did, seen, looks;
        }
      }
      var final;
      ghost var looked := cluster.Looks(Call(cl));
      final, looks := Wait(cl, promptId, turns, filed, if raced then None else Some(HashText(cluster.config.sha, text)));
      EndsThere(old(cluster.Looks(Call(cl))), looked, looks);
      RowIsHonest(filed);
      outcome := Served(final);
    }

    // A completed prompt again: the latest row, marked as cached.
    method Repeat(cl: int, promptId: string, ghost r: int, ghost hash: Option<Digest>) returns (row: Request)
      requires Wired() && cluster.Coherent() && Absent(cl) && Filed(r, promptId, hash)
      modifies cluster, cluster.db, cluster.cache, cluster.limiter
      ensures cluster.Coherent() && old(cluster.trace) <= cluster.trace
      ensures old(cluster.Looks(Call(cl))) <= cluster.Looks(Call(cl))
      ensures cluster.Story(Call(cl)) == old(cluster.Story(Call(cl)))
      ensures Absent(cl) && Filed(r, promptId, hash) && row == MarkedCached(cluster.world.db.requests[r])
      ensures row.response.Some? ==> Justified(cluster.config, cluster.world.log.outputs, row.response.value, row.text)
    {
      hide Legal, Run, CancelsOk, Justified, StoryOf;
      row := Reread(cl, promptId, r, hash);
      RowIsHonest(r);
      if row.status == ReqCompleted {
        row := row.(cached := Some(true));
      }
    }

    // Put the work into the queue: for the first time, or again.
    method Arrange(cl: int, decision: Idempotency.Decision, existing: Option<(int, Request)>,
                   user: string, promptId: string, text: string, priority: int)
      returns (failure: Option<Submission>, ghost raced: bool, ghost filed: int, ghost did: seq<Deed>, ghost seen: State)
      requires Wired() && cluster.Coherent() && (decision.InsertNew? || (decision.Reenqueue? && existing.Some?))
      requires decision.InsertNew? ==> Stands(cl, Admitting(user, promptId, text, priority))
      requires decision.Reenqueue? ==>
        Stands(cl, Requeueing(existing.value.0)) && Filed(existing.value.0, promptId, Some(HashText(cluster.config.sha, text)))
      modifies cluster, cluster.db, cluster.cache, cluster.limiter
      ensures cluster.Coherent() && old(cluster.trace) <= cluster.trace
      ensures old(cluster.Looks(Call(cl))) <= cluster.Looks(Call(cl))
      ensures cluster.Story(Call(cl)) == old(cluster.Story(Call(cl))) + did
      ensures Absent(cl) && (failure.Some? ==> !failure.value.Served? && !failure.value.ConflictError?)
      ensures failure.None? ==>
        && (did == [DidAdmit, DidInsert] || (did == [DidRequeue, DidReset] && !raced))
        && Filed(filed, promptId, if raced then None else Some(HashText(cluster.config.sha, text)))
      ensures failure == Some(QueueFullError) ==>
        && did == [DidAdmit] && Passed(cluster.config, old(cluster.trace), cluster.trace, seen)
        && |Pending(seen.db)| >= cluster.config.maxDepth
      ensures Begins(decision, did) && (failure == Some(OtherError) ==> did[|did| - 1] == DidDrop)
    {
      hide Stands, Legal, Run, CancelsOk, HashText, StoryOf, QueuedDepth, Passed, cluster.Looks;
      if decision.InsertNew? {
        failure, raced, filed, did, seen := InsertNew(cl, user, promptId, text, priority);
      } else {
        raced, filed, seen := false, existing.value.0, cluster.world;
        var failed;
        failed, did := Reenqueue(cl, existing.value.0);
        failure := if failed then Some(OtherError) else None;
      }
    }

    lemma RowIsHonest(r: int)
      requires cluster.Coherent() && r in cluster.world.db.requests
      ensures var row := cluster.world.db.requests[r];
        row.response.Some? ==> Justified(cluster.config, cluster.world.log.outputs, row.response.value, row.text)
    {
      hide Legal, Run, Justified;
      ProvenanceInEveryRun(cluster.config, cluster.trace, r);
    }
  }

  // Some request has the prompt id, for a text of another hash.
  ghost predicate OnFileForOther(s: State, promptId: string, hash: Digest) {
    exists r :: r in s.db.requests && s.db.requests[r].promptId == promptId && s.db.requests[r].textHash != hash
  }

  lemma OnFileUnder(s: State, r: int, promptId: string, hash: Digest)
    requires r in s.db.requests && s.db.requests[r].promptId == promptId && s.db.requests[r].textHash != hash
    ensures OnFileForOther(s, promptId, hash)
  {
  }

  // What a call did, by how it ended.
  predicate InOrder(did: seq<Deed>, outcome: Submission, raced: bool) {
    match outcome
    case ConflictError => did == [DidSubmit]
    case QueueFullError => did == [DidSubmit, DidAdmit]
    case OtherError => did != [] && did[0] == DidSubmit && did[|did| - 1] == DidDrop
    case Served(_) =>
      || did == [DidSubmit, DidAdmit, DidInsert]
      || (!raced && (did == [DidSubmit] || did == [DidSubmit, DidRequeue, DidReset]))
  }

  // ---- What is due to whom ----

  // The decision, by what the table has under the prompt id.
  ghost predicate DecidedOn(db: Db, id: string, hash: Digest, decision: Idempotency.Decision) {
    && (decision.InsertNew? <==> forall r :: r in db.requests ==> db.requests[r].promptId != id)
    && forall r :: r in db.requests && db.requests[r].promptId == id ==>
         var row := db.requests[r];
         && (decision.Conflict? <==> row.textHash != hash)
         && (decision.ReturnExisting? <==> row.textHash == hash && row.status == ReqCompleted)
         && (decision.Reenqueue? <==> row.textHash == hash && row.status == ReqFailed)
         && (decision.AwaitExisting? <==> row.textHash == hash && row.status != ReqCompleted && row.status != ReqFailed)
  }

  lemma DecisionIsDue(db: Db, id: string, hash: Digest, found: Option<(int, Request)>)
    requires Constraints(db)
    requires found.Some? ==> found.value.0 in db.requests && db.requests[found.value.0] == found.value.1 && found.value.1.promptId == id
    requires found.None? ==> forall r :: r in db.requests ==> db.requests[r].promptId != id
    ensures DecidedOn(db, id, hash, Idempotency.Check(if found.None? then None else Some(found.value.1), hash))
  {
    if found.Some? {
      forall r | r in db.requests && db.requests[r].promptId == id ensures r == found.value.0 {
        assert db.requests[r].promptId == db.requests[found.value.0].promptId;
      }
    }
  }

  // A call without a row under its id goes to the depth check; one with a row of another hash
  // is a conflict, and no other is; a failed one is put into the queue again; any other only
  // reads on.
  ghost predicate AnsweredAsDue(db: Db, id: string, hash: Digest, did: seq<Deed>, outcome: Submission) {
    && ((forall r :: r in db.requests ==> db.requests[r].promptId != id) ==>
          !outcome.ConflictError? && |did| >= 2 && (did[1] == DidAdmit || did[1] == DidDrop))
    && forall r :: r in db.requests && db.requests[r].promptId == id ==>
         var row := db.requests[r];
         && (outcome.ConflictError? <==> row.textHash != hash)
         && (row.textHash == hash && row.status == ReqFailed ==> |did| >= 2 && (did[1] == DidRequeue || did[1] == DidDrop))
         && (row.textHash == hash && row.status != ReqFailed ==> did == [DidSubmit])
  }

  // How a call goes on after its check.
  predicate Begins(decision: Idempotency.Decision, did: seq<Deed>) {
    match decision
    case InsertNew => did != [] && (did[0] == DidAdmit || did[0] == DidDrop)
    case Reenqueue => did != [] && (did[0] == DidRequeue || did[0] == DidDrop)
    case _ => did == []
  }

  lemma DecisionShows(db: Db, id: string, hash: Digest, decision: Idempotency.Decision, did: seq<Deed>, outcome: Submission)
    requires DecidedOn(db, id, hash, decision) && did != [] && did[0] == DidSubmit && Begins(decision, did[1..])
    requires outcome.ConflictError? <==> decision.Conflict?
    ensures AnsweredAsDue(db, id, hash, did, outcome)
  {
    assert did == [DidSubmit] + did[1..];
  }

  ghost predicate CompletedOnFile(db: Db, id: string, hash: Digest) {
    exists r :: r in db.requests && db.requests[r].promptId == id && db.requests[r].textHash == hash && db.requests[r].status == ReqCompleted
  }

  lemma CompletedIff(db: Db, id: string, hash: Digest, decision: Idempotency.Decision)
    requires DecidedOn(db, id, hash, decision)
    ensures decision.ReturnExisting? <==> CompletedOnFile(db, id, hash)
  {
    if decision.ReturnExisting? {
      var r :| r in db.requests && db.requests[r].promptId == id;
    }
  }

  // This call did not ask the model, and says so.
  function MarkedCached(row: Request): Request {
    if row.status == ReqCompleted then row.(cached := Some(true)) else row
  }

  // The rows an insert leaves: the request as it was submitted, and a job that is due.
  ghost predicate NewlyFiled(c: Config, db: Db, r: int, user: string, promptId: string, text: string, priority: int) {
    && r in db.requests
    && var row := db.requests[r];
    && row.userId == user && row.promptId == promptId && row.text == text && row.priority == priority
    && row.status == ReqQueued && row.response.None? && row.retryCount == 0
    && exists j :: j in db.jobs && db.jobs[j].requestId == r && db.jobs[j].priority == priority && db.jobs[j].status == Queued
                   && db.jobs[j].attempts == 0 && db.jobs[j].maxAttempts == c.maxAttempts
  }

  ghost predicate StillOpen(db: Db, r: int) {
    r in db.requests && db.requests[r].status != ReqCompleted && db.requests[r].status != ReqFailed
  }

  // What was found on the looks, in order: the request still open each time but the last; and
  // the last was of a settled request, or was the look at the deadline.
  ghost predicate Waited(turns: nat, r: int, looks: seq<State>, row: Request) {
    && 1 <= |looks| <= turns + 2
    && (forall i :: 0 <= i < |looks| - 1 ==> StillOpen(looks[i].db, r))
    && var last := looks[|looks| - 1].db;
    && r in last.requests && row == last.requests[r]
    && (StillOpen(last, r) ==> |looks| == turns + 2)
  }

  // `looks` are the latest of the states found since.
  predicate EndsIn(before: seq<State>, after: seq<State>, looks: seq<State>) {
    |before| + |looks| <= |after| && after[|after| - |looks|..] == looks
  }

  lemma EndsThere(before: seq<State>, mid: seq<State>, looks: seq<State>)
    requires before <= mid
    ensures EndsIn(before, mid + looks, looks)
  {
  }

  lemma EndsWider(before: seq<State>, mid: seq<State>, after: seq<State>, looks: seq<State>)
    requires before <= mid && EndsIn(mid, after, looks)
    ensures EndsIn(before, after, looks)
  {
  }
}
