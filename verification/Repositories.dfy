// The two repositories over a shared database.  SQL statements that visit rows are loops
// over rows in no particular order; each method is tied to the transaction it runs.
module Repositories {
  import opened Wrappers
  import opened Rows
  import opened Tables
  import opened SkipLocked

  class Database {
    var jobs: map<int, Job>
    var requests: map<int, Request>

    constructor ()
      ensures Content() == EmptyDb
    {
      jobs, requests := map[], map[];
    }

    ghost function Content(): Db
      reads this
    {
      Db(jobs, requests)
    }
  }

  // A claim that found a row: the row it took, and what it hands back.  A row without
  // its request, which the foreign key rules out, would be claimed and not handed back.
  ghost predicate ClaimedOne(before: Db, after: Db, j: int, w: int, now: real, lease: real, result: Option<(int, Job, Request)>) {
    && Picks(before.jobs, now, j)
    && after == ClaimTx(before, j, w, now, lease)
    && result == if before.jobs[j].requestId in before.requests
                 then Some((j, after.jobs[j], before.requests[before.jobs[j].requestId])) else None
  }

  // What is written with an answer; the retry count stays.
  predicate AnswerColumns(before: Request, row: Request, response: string, cached: bool, embedding: seq<real>, now: real) {
    && row.status == ReqCompleted && row.response == Some(response) && row.cached == Some(cached) && row.embedding == Some(embedding)
    && row.error.None? && row.completedAt == Some(now) && row.retryCount == before.retryCount
  }

  // ---- Reaping, row by row ----

  // Rows in `live` that can be retried have been handled, and rows in `dead` that cannot.
  predicate Handled(db: Db, j: int, now: real, live: set<int>, dead: set<int>)
    requires j in db.jobs
  {
    (j in live && db.jobs[j].Reclaimable(now)) || (j in dead && db.jobs[j].Buried(now))
  }

  ghost function PartlyReaped(db: Db, now: real, live: set<int>, dead: set<int>): Db {
    Db(map j | j in db.jobs :: if Handled(db, j, now, live, dead) then JobReaped(db.jobs[j], now) else db.jobs[j],
       map r | r in db.requests ::
         match JobOf(db.jobs, r)
         case None => db.requests[r]
         case Some(j) => if Handled(db, j, now, live, dead) then RequestReaped(db.requests[r], db.jobs[j], now) else db.requests[r])
  }

  lemma NothingReaped(db: Db, now: real)
    ensures PartlyReaped(db, now, {}, {}) == db
  {
  }

  lemma PartKeys(db: Db, now: real, live: set<int>, dead: set<int>)
    ensures PartlyReaped(db, now, live, dead).jobs.Keys == db.jobs.Keys
    ensures PartlyReaped(db, now, live, dead).requests.Keys == db.requests.Keys
  {
  }

  lemma AllReaped(db: Db, now: real)
    ensures PartlyReaped(db, now, db.jobs.Keys, db.jobs.Keys) == ReapTx(db, now)
  {
  }

  // Handling one more row changes that row and its request.
  lemma OneMoreReaped(db: Db, now: real, live: set<int>, dead: set<int>, live': set<int>, dead': set<int>, j: int)
    requires Constraints(db) && j in db.jobs
    requires live <= live' <= live + {j} && dead <= dead' <= dead + {j}
    requires Handled(db, j, now, live', dead') && !Handled(db, j, now, live, dead)
    ensures var part, more := PartlyReaped(db, now, live, dead), PartlyReaped(db, now, live', dead'); var r := db.jobs[j].requestId;
      && part.jobs[j] == db.jobs[j] && part.requests[r] == db.requests[r]
      && more == Db(part.jobs[j := JobReaped(db.jobs[j], now)], part.requests[r := RequestReaped(db.requests[r], db.jobs[j], now)])
  {
    assert db.jobs[j].requestId in db.requests;
    hide PartlyReaped, JobReaped, RequestReaped;
    var part, more := PartlyReaped(db, now, live, dead), PartlyReaped(db, now, live', dead');
    PartJob(db, now, live, dead, j);
    PartRequest(db, now, live, dead, j);
    PartKeys(db, now, live, dead);
    PartKeys(db, now, live', dead');
    var r := db.jobs[j].requestId;
    hide Constraints, Handled;
    forall i | i in db.jobs ensures i != j ==> more.jobs[i] == part.jobs[i] {
      MoreJobs(db, now, live, dead, live', dead', i, j);
    }
    MoreJobs(db, now, live, dead, live', dead', j, j);
    OneEntry(part.jobs, more.jobs, j);
    forall q | q in db.requests ensures q != r ==> more.requests[q] == part.requests[q] {
      MoreRequests(db, now, live, dead, live', dead', q, j);
    }
    MoreRequests(db, now, live, dead, live', dead', r, j);
    OneEntry(part.requests, more.requests, r);
  }

  lemma OneEntry<T>(m: map<int, T>, m': map<int, T>, k: int)
    requires m'.Keys == m.Keys && k in m && forall i :: i in m && i != k ==> m'[i] == m[i]
    ensures m' == m[k := m'[k]]
  {
    var u := m[k := m'[k]];
    forall i ensures (i in m' <==> i in u) && (i in m' ==> m'[i] == u[i]) {
      assert i in m'.Keys <==> i in m.Keys;
    }
  }

  lemma PartJob(db: Db, now: real, live: set<int>, dead: set<int>, j: int)
    requires j in db.jobs
    ensures PartlyReaped(db, now, live, dead).jobs[j] ==
      if Handled(db, j, now, live, dead) then JobReaped(db.jobs[j], now) else db.jobs[j]
  {
  }

  lemma PartRequest(db: Db, now: real, live: set<int>, dead: set<int>, j: int)
    requires Constraints(db) && j in db.jobs
    ensures var r := db.jobs[j].requestId;
      PartlyReaped(db, now, live, dead).requests[r] ==
      if Handled(db, j, now, live, dead) then RequestReaped(db.requests[r], db.jobs[j], now) else db.requests[r]
  {
    JobOfOwn(db, j);
    hide JobReaped, RequestReaped, Handled;
  }

  lemma MoreJobs(db: Db, now: real, live: set<int>, dead: set<int>, live': set<int>, dead': set<int>, i: int, j: int)
    requires i in db.jobs && j in db.jobs && live <= live' <= live + {j} && dead <= dead' <= dead + {j}
    requires Handled(db, j, now, live', dead')
    ensures PartlyReaped(db, now, live', dead').jobs[i] ==
      if i == j then JobReaped(db.jobs[j], now) else PartlyReaped(db, now, live, dead).jobs[i]
  {
    PartJob(db, now, live, dead, i);
    PartJob(db, now, live', dead', i);
    hide PartlyReaped, JobReaped;
  }

  lemma MoreRequests(db: Db, now: real, live: set<int>, dead: set<int>, live': set<int>, dead': set<int>, q: int, j: int)
    requires Constraints(db) && q in db.requests && j in db.jobs && live <= live' <= live + {j} && dead <= dead' <= dead + {j}
    requires Handled(db, j, now, live', dead')
    ensures PartlyReaped(db, now, live', dead').requests[q] ==
      if q == db.jobs[j].requestId then RequestReaped(db.requests[q], db.jobs[j], now) else PartlyReaped(db, now, live, dead).requests[q]
  {
    match JobOf(db.jobs, q)
    case None =>
      hide JobReaped, RequestReaped, Handled;
    case Some(i) =>
      PartRequest(db, now, live, dead, i);
      PartRequest(db, now, live', dead', i);
      hide PartlyReaped, RequestReaped;
  }

  lemma NoMoreReaped(db: Db, now: real, live: set<int>, dead: set<int>, live': set<int>, dead': set<int>)
    requires forall i :: i in db.jobs ==> (Handled(db, i, now, live', dead') <==> Handled(db, i, now, live, dead))
    ensures PartlyReaped(db, now, live', dead') == PartlyReaped(db, now, live, dead)
  {
  }

  lemma SomeMember(s: set<int>)
    ensures s != {} ==> exists x :: x in s
  {
    if !exists x :: x in s {
      assert s == {};
    }
  }

  // What a sequence hands out.
  method NextId(used: set<int>) returns (id: int)
    ensures id !in used
  {
    var todo := used;
    id := 1;
    while todo != {}
      invariant todo <= used && forall x :: x in used && x !in todo ==> x < id
      decreases todo
    {
      SomeMember(todo);
      var x :| x in todo;
      todo := todo - {x};
      id := if x < id then id else x + 1;
    }
  }

  lemma ReapedColumns(row: Job, request: Request, now: real)
    ensures row.Reclaimable(now) ==>
      && JobReaped(row, now) == row.(status := Queued, worker := None, lockedUntil := None)
      && RequestReaped(request, row, now) == request.(status := ReqQueued, updatedAt := now)
    ensures row.Buried(now) ==>
      && JobReaped(row, now) == row.(status := Dead, finishedAt := Some(now))
      && RequestReaped(request, row, now) == request.(
           status := ReqFailed, updatedAt := now, error := if row.error.Some? then row.error else Some("Max attempts exceeded"))
  {
  }

  // One more row looked at: it is handled, or nothing changes.
  lemma LiveStep(db: Db, now: real, seen: set<int>, j: int)
    requires Constraints(db) && j in db.jobs && j !in seen
    ensures var part, more := PartlyReaped(db, now, seen, {}), PartlyReaped(db, now, seen + {j}, {}); var r := db.jobs[j].requestId;
      && j in part.jobs && part.jobs[j] == db.jobs[j] && r in part.requests
      && (!db.jobs[j].Reclaimable(now) ==> more == part)
      && (db.jobs[j].Reclaimable(now) ==>
            more == Db(part.jobs[j := JobReaped(part.jobs[j], now)], part.requests[r := RequestReaped(part.requests[r], part.jobs[j], now)]))
  {
    if db.jobs[j].Reclaimable(now) {
      OneMoreReaped(db, now, seen, {}, seen + {j}, {}, j);
    } else {
      NoMoreReaped(db, now, seen, {}, seen + {j}, {});
    }
  }

  lemma DeadStep(db: Db, now: real, seen: set<int>, j: int)
    requires Constraints(db) && j in db.jobs && j !in seen
    ensures var part, more := PartlyReaped(db, now, db.jobs.Keys, seen), PartlyReaped(db, now, db.jobs.Keys, seen + {j}); var r := db.jobs[j].requestId;
      && j in part.jobs && r in part.requests && part.jobs[j].requestId == r
      && (part.jobs[j].Buried(now) <==> db.jobs[j].Buried(now))
      && (!db.jobs[j].Buried(now) ==> more == part)
      && (db.jobs[j].Buried(now) ==>
            more == Db(part.jobs[j := JobReaped(part.jobs[j], now)], part.requests[r := RequestReaped(part.requests[r], part.jobs[j], now)]))
  {
    if db.jobs[j].Buried(now) {
      OneMoreReaped(db, now, db.jobs.Keys, seen, db.jobs.Keys, seen + {j}, j);
    } else {
      NoMoreReaped(db, now, db.jobs.Keys, seen, db.jobs.Keys, seen + {j});
    }
  }

  class ProcessingJobRepository {
    const db: Database

    constructor (db: Database)
      ensures this.db == db
    {
      this.db := db;
    }

    // Take the first eligible row by (priority, scheduled_at).
    method ClaimNext(w: int, now: real, lease: real) returns (result: Option<(int, Job, Request)>, ghost taken: Option<int>)
      modifies db
      ensures taken.None? ==> result.None? && db.Content() == old(db.Content()) && forall j :: j in db.jobs ==> !Due(db.jobs[j], now)
      ensures taken.Some? ==> ClaimedOne(old(db.Content()), db.Content(), taken.value, w, now, lease, result)
    {
      var best: Option<int> := None;
      var todo := db.jobs.Keys;
      while todo != {}
        invariant todo <= db.jobs.Keys && db.Content() == old(db.Content())
        invariant best.Some? ==> best.value in db.jobs && db.jobs[best.value].Eligible(now)
        invariant forall j :: j in db.jobs && j !in todo && db.jobs[j].Eligible(now) ==> best.Some? && NotAfter(db.jobs[best.value], db.jobs[j])
        decreases todo
      {
        SomeMember(todo);
        var j :| j in todo;
        todo := todo - {j};
        if db.jobs[j].Eligible(now) && (best.None? || !NotAfter(db.jobs[best.value], db.jobs[j])) {
          best := Some(j);
        }
      }
      taken := best;
      if best.None? {
        return None, None;
      }
      var j := best.value;
      var row := db.jobs[j];
      var started := if row.startedAt.Some? then row.startedAt else Some(now);
      db.jobs := db.jobs[j := row.(
        status := Processing, worker := Some(w), lockedUntil := Some(now + lease),
        heartbeatAt := Some(now), startedAt := started, attempts := row.attempts + 1)];
      if db.jobs[j].requestId !in db.requests {
        return None, best;
      }
      result := Some((j, db.jobs[j], db.requests[db.jobs[j].requestId]));
    }

    // Renew the lease if the row is still this worker's and still being processed.
    method ExtendLease(j: int, w: int, now: real, lease: real) returns (ok: bool)
      modifies db
      ensures ok == Extends(old(db.Content()), j, w)
      ensures db.Content() == ExtendTx(old(db.Content()), j, w, now, lease)
      ensures ok <==> old(j in db.jobs && db.jobs[j].worker == Some(w) && db.jobs[j].status == Processing)
      ensures ok ==> db.jobs == old(db.jobs)[j := old(db.jobs)[j].(lockedUntil := Some(now + lease), heartbeatAt := Some(now))]
    {
      ok := j in db.jobs && db.jobs[j].worker == Some(w) && db.jobs[j].status == Processing;
      if ok {
        db.jobs := db.jobs[j := db.jobs[j].(lockedUntil := Some(now + lease), heartbeatAt := Some(now))];
      }
    }

    // Give the job back if the row is still this worker's; its status is not looked at.
    method ReleaseLease(j: int, w: int, now: real, delay: real) returns (ok: bool)
      modifies db
      ensures ok == Owns(old(db.Content()), w, j)
      ensures db.Content() == ReleaseTx(old(db.Content()), j, w, now + delay)
      ensures ok <==> old(j in db.jobs && db.jobs[j].worker == Some(w))
      ensures ok ==> db.jobs == old(db.jobs)[j := old(db.jobs)[j].(status := Queued, worker := None, lockedUntil := None, scheduledAt := now + delay)]
    {
      ok := j in db.jobs && db.jobs[j].worker == Some(w);
      if ok {
        db.jobs := db.jobs[j := db.jobs[j].(status := Queued, worker := None, lockedUntil := None, scheduledAt := now + delay)];
      }
    }

    method MarkCompleted(j: int, now: real)
      modifies db
      ensures db.Content() == CompleteJobTx(old(db.Content()), j, now)
      ensures j in old(db.jobs) ==>
        db.jobs == old(db.jobs)[j := old(db.jobs)[j].(status := Completed, finishedAt := Some(now), lockedUntil := None)]
    {
      if j in db.jobs {
        db.jobs := db.jobs[j := db.jobs[j].(status := Completed, finishedAt := Some(now), lockedUntil := None)];
      }
    }

    method MarkDead(j: int, error: string, now: real)
      modifies db
      ensures db.Content() == KillJobTx(old(db.Content()), j, error, now)
      ensures j in old(db.jobs) ==>
        db.jobs == old(db.jobs)[j := old(db.jobs)[j].(status := Dead, error := Some(error), finishedAt := Some(now), lockedUntil := None)]
    {
      if j in db.jobs {
        db.jobs := db.jobs[j := db.jobs[j].(status := Dead, error := Some(error), finishedAt := Some(now), lockedUntil := None)];
      }
    }

    method ResetJob(r: int, now: real)
      modifies db
      ensures db.Content() == ResetJobTx(old(db.Content()), r, now)
      ensures forall j :: j in db.jobs && db.jobs[j].requestId == r ==>
        && db.jobs[j].status == Queued && db.jobs[j].scheduledAt == now && db.jobs[j].attempts == 0 && db.jobs[j].worker.None?
        && db.jobs[j].lockedUntil.None? && db.jobs[j].startedAt.None? && db.jobs[j].finishedAt.None? && db.jobs[j].error.None?
    {
      var jobs := db.jobs;
      db.jobs := map j | j in jobs :: if jobs[j].requestId != r then jobs[j] else jobs[j].(
        status := Queued, worker := None, attempts := 0, lockedUntil := None, heartbeatAt := None,
        startedAt := None, finishedAt := None, error := None, scheduledAt := now);
      forall j | j in jobs ensures db.jobs[j] == if jobs[j].requestId == r then JobReset(jobs[j], now) else jobs[j] {
      }
    }

    // First statement of the reap: requeue what can be retried.
    method RequeueExpired(now: real) returns (ids: seq<int>)
      requires Constraints(db.Content())
      modifies db
      ensures db.Content() == PartlyReaped(old(db.Content()), now, old(db.jobs.Keys), {})
      ensures forall j :: j in ids <==> j in old(db.jobs) && old(db.jobs)[j].Reclaimable(now)
      ensures forall i, k :: 0 <= i < k < |ids| ==> ids[i] != ids[k]
    {
      hide PartlyReaped, Constraints, JobReaped, RequestReaped;
      ghost var before := db.Content();
      var todo := db.jobs.Keys;
      ids := [];
      ghost var seen: set<int> := {};
      NothingReaped(before, now);
      while todo != {}
        invariant seen + todo == before.jobs.Keys && seen !! todo
        invariant db.Content() == PartlyReaped(before, now, seen, {})
        invariant forall j :: j in ids <==> j in seen && before.jobs[j].Reclaimable(now)
        invariant forall i, k :: 0 <= i < k < |ids| ==> ids[i] != ids[k]
        decreases todo
      {
        SomeMember(todo);
        var j :| j in todo;
        LiveStep(before, now, seen, j);
        todo, seen := todo - {j}, seen + {j};
        if db.jobs[j].Reclaimable(now) {
          var row := db.jobs[j];
          ReapedColumns(row, db.requests[row.requestId], now);
          db.jobs := db.jobs[j := row.(status := Queued, worker := None, lockedUntil := None)];
          db.requests := db.requests[row.requestId := db.requests[row.requestId].(status := ReqQueued, updatedAt := now)];
          ids := ids + [j];
        }
      }
    }

    // Both statements: then bury the overdue jobs that are out of attempts.
    method ReapExpiredLeases(now: real) returns (ids: seq<int>)
      requires Constraints(db.Content())
      modifies db
      ensures db.Content() == ReapTx(old(db.Content()), now)
      ensures forall j :: j in ids <==> j in ReclaimedIds(old(db.Content()), now)
      ensures forall i, k :: 0 <= i < k < |ids| ==> ids[i] != ids[k]
    {
      hide PartlyReaped, ReapTx, Constraints, JobReaped, RequestReaped;
      ghost var before := db.Content();
      ids := RequeueExpired(now);
      PartKeys(before, now, before.jobs.Keys, {});
      AllReaped(before, now);
      var todo := db.jobs.Keys;
      ghost var seen: set<int> := {};
      while todo != {}
        invariant seen + todo == before.jobs.Keys && seen !! todo
        invariant db.Content() == PartlyReaped(before, now, before.jobs.Keys, seen)
        decreases todo
      {
        SomeMember(todo);
        var j :| j in todo;
        DeadStep(before, now, seen, j);
        todo, seen := todo - {j}, seen + {j};
        if db.jobs[j].Buried(now) {
          var row := db.jobs[j];
          var reason := if row.error.Some? then row.error else Some("Max attempts exceeded");
          ReapedColumns(row, db.requests[row.requestId], now);
          db.jobs := db.jobs[j := row.(status := Dead, finishedAt := Some(now))];
          db.requests := db.requests[row.requestId := db.requests[row.requestId].(status := ReqFailed, updatedAt := now, error := reason)];
        }
      }
    }

    // Jobs queued or processing.
    method QueuedDepth() returns (n: nat)
      ensures n == Tables.QueuedDepth(db.Content())
      ensures n == |set j | j in db.jobs && (db.jobs[j].status == Queued || db.jobs[j].status == Processing)|
    {
      n := 0;
      var todo := db.jobs.Keys;
      ghost var counted: set<int> := {};
      while todo != {}
        invariant todo <= db.jobs.Keys
        invariant counted == set j | j in db.jobs && j !in todo && db.jobs[j].InFlight()
        invariant n == |counted|
        decreases todo
      {
        SomeMember(todo);
        var j :| j in todo;
        todo := todo - {j};
        if db.jobs[j].InFlight() {
          counted := counted + {j};
          n := n + 1;
        }
      }
      assert counted == InFlightJobs(db.Content());
      assert counted == set j | j in db.jobs && (db.jobs[j].status == Queued || db.jobs[j].status == Processing);
    }
  }

  class PromptRequestRepository {
    const db: Database

    constructor (db: Database)
      ensures this.db == db
    {
      this.db := db;
    }

    method GetByPromptId(promptId: string) returns (found: Option<(int, Request)>)
      ensures found.Some? ==> found.value.0 in db.requests && db.requests[found.value.0] == found.value.1 && found.value.1.promptId == promptId
      ensures found.None? ==> forall r :: r in db.requests ==> db.requests[r].promptId != promptId
    {
      var todo := db.requests.Keys;
      while todo != {}
        invariant todo <= db.requests.Keys
        invariant forall r :: r in db.requests && r !in todo ==> db.requests[r].promptId != promptId
        decreases todo
      {
        SomeMember(todo);
        var r :| r in todo;
        if db.requests[r].promptId == promptId {
          return Some((r, db.requests[r]));
        }
        todo := todo - {r};
      }
      found := None;
    }

    // One transaction for both rows; r and j are what the sequences hand out.  False is
    // the IntegrityError of a taken prompt id.
    method InsertWithJob(r: int, request: Request, j: int, job: Job) returns (ok: bool)
      requires r !in db.requests && j !in db.jobs
      modifies db
      ensures ok <==> RequestWithId(old(db.requests), request.promptId).None?
      ensures db.Content() == if ok then InsertTx(old(db.Content()), r, request, j, job.(requestId := r)) else old(db.Content())
      ensures ok ==> db.requests == old(db.requests)[r := request] && db.jobs == old(db.jobs)[j := job.(requestId := r)]
    {
      var taken := GetByPromptId(request.promptId);
      ok := taken.None?;
      if ok {
        db.requests := db.requests[r := request];
        db.jobs := db.jobs[j := job.(requestId := r)];
      }
    }

    // The two ways update_status is called: with the retry columns, and without.
    method UpdateStatus(r: int, retryCount: Option<int>, error: string, now: real)
      modifies db
      ensures db.Content() == match retryCount
                              case None => RequeueRequestTx(old(db.Content()), r, now)
                              case Some(n) => RetryRequestTx(old(db.Content()), r, error, n, now)
      ensures r in old(db.requests) ==>
        && r in db.requests
        && var before, row := old(db.requests)[r], db.requests[r];
        && row.status == ReqQueued && row.updatedAt == now && row.response == before.response && row.cached == before.cached
        && row.retryCount == (if retryCount.Some? then retryCount.value else before.retryCount)
        && row.error == (if retryCount.Some? then Some(error) else before.error)
    {
      if r in db.requests {
        var row := db.requests[r].(status := ReqQueued, updatedAt := now);
        if retryCount.Some? {
          row := row.(retryCount := retryCount.value, error := Some(error));
        }
        db.requests := db.requests[r := row];
      }
    }

    method MarkCompleted(r: int, response: string, cached: bool, embedding: seq<real>, now: real)
      modifies db
      ensures db.Content() == CompleteRequestTx(old(db.Content()), r, response, cached, embedding, now)
      ensures r in old(db.requests) ==> r in db.requests && AnswerColumns(old(db.requests)[r], db.requests[r], response, cached, embedding, now)
    {
      if r in db.requests {
        db.requests := db.requests[r := db.requests[r].(
          status := ReqCompleted, response := Some(response), cached := Some(cached), error := None,
          completedAt := Some(now), updatedAt := now, embedding := Some(embedding))];
      }
    }

    method MarkFailed(r: int, error: string, retryCount: int, now: real)
      modifies db
      ensures db.Content() == FailRequestTx(old(db.Content()), r, error, retryCount, now)
      ensures r in old(db.requests) ==>
        && r in db.requests
        && var before, row := old(db.requests)[r], db.requests[r];
        && row.status == ReqFailed && row.error == Some(error) && row.retryCount == retryCount
        && row.response == before.response && row.cached == before.cached
    {
      if r in db.requests {
        db.requests := db.requests[r := db.requests[r].(
          status := ReqFailed, error := Some(error), retryCount := retryCount, updatedAt := now)];
      }
    }
  }
}
