// The database: both tables, the constraints PostgreSQL enforces, and one function
// for each transaction the repositories run.
module Tables {
  import opened Wrappers
  import opened Rows

  datatype Db = Db(jobs: map<int, Job>, requests: map<int, Request>)

  const EmptyDb := Db(map[], map[])

  // FOREIGN KEY and UNIQUE(prompt_request_id), UNIQUE(prompt_id).
  ghost predicate Constraints(db: Db) {
    && (forall j :: j in db.jobs ==> db.jobs[j].requestId in db.requests)
    && (forall i, j :: i in db.jobs && j in db.jobs && db.jobs[i].requestId == db.jobs[j].requestId ==> i == j)
    && (forall q, r :: q in db.requests && r in db.requests && db.requests[q].promptId == db.requests[r].promptId ==> q == r)
  }

  // Every request came with a job.
  ghost predicate EveryRequestHasJob(db: Db) {
    forall r :: r in db.requests ==> JobOf(db.jobs, r).Some?
  }

  ghost function JobOf(jobs: map<int, Job>, r: int): (o: Option<int>)
    ensures o.Some? ==> o.value in jobs && jobs[o.value].requestId == r
    ensures o.None? ==> forall j :: j in jobs ==> jobs[j].requestId != r
  {
    if exists j :: j in jobs && jobs[j].requestId == r then
      var j :| j in jobs && jobs[j].requestId == r;
      Some(j)
    else None
  }

  ghost function RequestWithId(requests: map<int, Request>, promptId: string): (o: Option<int>)
    ensures o.Some? ==> o.value in requests && requests[o.value].promptId == promptId
    ensures o.None? ==> forall r :: r in requests ==> requests[r].promptId != promptId
  {
    if exists r :: r in requests && requests[r].promptId == promptId then
      var r :| r in requests && requests[r].promptId == promptId;
      Some(r)
    else None
  }

  predicate Eligible(db: Db, j: int, now: real) {
    j in db.jobs && db.jobs[j].Eligible(now)
  }

  predicate Owns(db: Db, w: int, j: int) {
    j in db.jobs && db.jobs[j].worker == Some(w)
  }

  function ClaimTx(db: Db, j: int, w: int, now: real, lease: real): Db
    requires j in db.jobs
  {
    db.(jobs := db.jobs[j := Claimed(db.jobs[j], w, now, lease)])
  }

  predicate Extends(db: Db, j: int, w: int) {
    Owns(db, w, j) && db.jobs[j].status == Processing
  }

  function ExtendTx(db: Db, j: int, w: int, now: real, lease: real): Db {
    if Extends(db, j, w) then db.(jobs := db.jobs[j := Extended(db.jobs[j], now, lease)]) else db
  }

  function ReleaseTx(db: Db, j: int, w: int, due: real): Db {
    if Owns(db, w, j) then db.(jobs := db.jobs[j := Released(db.jobs[j], due)]) else db
  }

  function CompleteJobTx(db: Db, j: int, now: real): Db {
    if j in db.jobs then db.(jobs := db.jobs[j := JobDone(db.jobs[j], now)]) else db
  }

  function KillJobTx(db: Db, j: int, error: string, now: real): Db {
    if j in db.jobs then db.(jobs := db.jobs[j := JobKilled(db.jobs[j], error, now)]) else db
  }

  function ResetJobTx(db: Db, r: int, now: real): Db {
    db.(jobs := map j | j in db.jobs :: if db.jobs[j].requestId == r then JobReset(db.jobs[j], now) else db.jobs[j])
  }

  ghost function ReapTx(db: Db, now: real): Db {
    Db(map j | j in db.jobs :: JobReaped(db.jobs[j], now),
       map r | r in db.requests :: ReapedRequest(db, r, now))
  }

  ghost function ReapedRequest(db: Db, r: int, now: real): Request
    requires r in db.requests
  {
    match JobOf(db.jobs, r)
    case None => db.requests[r]
    case Some(j) => RequestReaped(db.requests[r], db.jobs[j], now)
  }

  function ReclaimedIds(db: Db, now: real): set<int> {
    set j | j in db.jobs && db.jobs[j].Reclaimable(now)
  }

  function InsertTx(db: Db, r: int, request: Request, j: int, job: Job): Db {
    Db(db.jobs[j := job], db.requests[r := request])
  }

  function RequeueRequestTx(db: Db, r: int, now: real): Db {
    if r in db.requests then db.(requests := db.requests[r := db.requests[r].(status := ReqQueued, updatedAt := now)]) else db
  }

  function RetryRequestTx(db: Db, r: int, error: string, retryCount: int, now: real): Db {
    if r in db.requests then db.(requests := db.requests[r := RequestRetried(db.requests[r], error, retryCount, now)]) else db
  }

  function CompleteRequestTx(db: Db, r: int, response: string, cached: bool, embedding: seq<real>, now: real): Db {
    if r in db.requests then db.(requests := db.requests[r := RequestDone(db.requests[r], response, cached, embedding, now)]) else db
  }

  function FailRequestTx(db: Db, r: int, error: string, retryCount: int, now: real): Db {
    if r in db.requests then db.(requests := db.requests[r := RequestFailed(db.requests[r], error, retryCount, now)]) else db
  }

  function InFlightJobs(db: Db): set<int> {
    set j | j in db.jobs && db.jobs[j].InFlight()
  }

  function QueuedDepth(db: Db): nat {
    |InFlightJobs(db)|
  }

  lemma JobOfOwn(db: Db, j: int)
    requires Constraints(db) && j in db.jobs
    ensures JobOf(db.jobs, db.jobs[j].requestId) == Some(j)
  {
  }
}
