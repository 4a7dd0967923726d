// Claiming with FOR UPDATE SKIP LOCKED: selecting-and-locking a row and updating it are
// separate steps here, and other transactions may change any row that is not locked.
module SkipLocked {
  import opened Wrappers
  import opened Rows

  // One claim_next call that found a row: when it locked the row, when it updated it, and
  // when the row had last been put into the queue.  A call that is rolled back before its
  // update gives up the lock and leaves nothing behind.
  datatype Attempt = Attempt(jobId: int, queuedSince: nat, selected: nat, applied: Option<nat>)

  datatype Queue = Queue(jobs: map<int, Job>, attempts: map<int, Attempt>, queuedAt: map<int, nat>, step: nat)

  datatype Step =
    | Select(tx: int, jobId: int, now: real)
    | Apply(tx: int, w: int, now: real, lease: real)
    | Abort(tx: int)
    | Write(jobId: int, row: Job)

  predicate Locked(q: Queue, j: int) {
    exists t :: t in q.attempts && q.attempts[t].applied.None? && q.attempts[t].jobId == j
  }

  // The first free row in claim order.
  ghost predicate First(q: Queue, j: int, now: real) {
    && j in q.jobs && q.jobs[j].Eligible(now) && !Locked(q, j)
    && forall i :: i in q.jobs && q.jobs[i].Eligible(now) && !Locked(q, i) ==> NotAfter(q.jobs[j], q.jobs[i])
  }

  ghost predicate Can(q: Queue, x: Step) {
    match x
    case Select(t, j, now) => t !in q.attempts && First(q, j, now)
    case Apply(t, _, _, _) => t in q.attempts && q.attempts[t].applied.None? && q.attempts[t].jobId in q.jobs
    case Abort(t) => t in q.attempts && q.attempts[t].applied.None?
    case Write(j, _) => !Locked(q, j)
  }

  function QueuedSince(q: Queue, j: int): nat {
    if j in q.queuedAt then q.queuedAt[j] else 0
  }

  ghost function Do(q: Queue, x: Step): Queue
    requires Can(q, x)
  {
    var n := q.step + 1;
    match x
    case Select(t, j, _) => q.(attempts := q.attempts[t := Attempt(j, QueuedSince(q, j), n, None)], step := n)
    case Apply(t, w, now, lease) =>
      var j := q.attempts[t].jobId;
      q.(jobs := q.jobs[j := Claimed(q.jobs[j], w, now, lease)], attempts := q.attempts[t := q.attempts[t].(applied := Some(n))], step := n)
    case Abort(t) => q.(attempts := q.attempts - {t}, step := n)
    case Write(j, row) =>
      q.(jobs := q.jobs[j := row], queuedAt := if row.status == Queued then q.queuedAt[j := n] else q.queuedAt, step := n)
  }

  // x was applied, the job then went back to the queue, and only after that y selected it.
  predicate Before(x: Attempt, y: Attempt) {
    x.applied.Some? && x.applied.value < y.queuedSince <= y.selected
  }

  ghost predicate AttemptOk(q: Queue, t: int)
    requires t in q.attempts
  {
    var x := q.attempts[t];
    && x.queuedSince <= x.selected <= q.step
    && (x.applied.Some? ==> x.selected < x.applied.value <= q.step)
    && (x.applied.None? ==> x.jobId in q.jobs && q.jobs[x.jobId].status == Queued && x.queuedSince == QueuedSince(q, x.jobId))
    && (x.applied.Some? && x.jobId in q.jobs && q.jobs[x.jobId].status == Queued ==> x.applied.value < QueuedSince(q, x.jobId))
  }

  ghost predicate Ok(q: Queue) {
    && (forall j :: QueuedSince(q, j) <= q.step)
    && (forall t :: t in q.attempts ==> AttemptOk(q, t))
    && (forall t, u :: t in q.attempts && u in q.attempts && t != u && q.attempts[t].jobId == q.attempts[u].jobId ==>
          Before(q.attempts[t], q.attempts[u]) || Before(q.attempts[u], q.attempts[t]))
  }

  lemma AttemptKept(q: Queue, x: Step, t: int)
    requires Ok(q) && Can(q, x) && t in Do(q, x).attempts
    ensures AttemptOk(Do(q, x), t)
  {
  }

  lemma PairKept(q: Queue, x: Step, t: int, u: int)
    requires Ok(q) && Can(q, x) && t in Do(q, x).attempts && u in Do(q, x).attempts && t != u
    requires Do(q, x).attempts[t].jobId == Do(q, x).attempts[u].jobId
    ensures Before(Do(q, x).attempts[t], Do(q, x).attempts[u]) || Before(Do(q, x).attempts[u], Do(q, x).attempts[t])
  {
  }

  lemma OkKept(q: Queue, x: Step)
    requires Ok(q) && Can(q, x)
    ensures Ok(Do(q, x))
  {
    hide AttemptOk, Before;
    var q' := Do(q, x);
    forall j ensures QueuedSince(q', j) <= q'.step {
      assert QueuedSince(q, j) <= q.step;
    }
    forall t | t in q'.attempts ensures AttemptOk(q', t) {
      AttemptKept(q, x, t);
    }
    forall t, u | t in q'.attempts && u in q'.attempts && t != u && q'.attempts[t].jobId == q'.attempts[u].jobId
      ensures Before(q'.attempts[t], q'.attempts[u]) || Before(q'.attempts[u], q'.attempts[t])
    {
      PairKept(q, x, t, u);
    }
  }

  ghost predicate Legal(q: Queue, xs: seq<Step>)
    decreases |xs|
  {
    xs == [] || (Can(q, xs[0]) && Legal(Do(q, xs[0]), xs[1..]))
  }

  ghost function Run(q: Queue, xs: seq<Step>): Queue
    requires Legal(q, xs)
    decreases |xs|
  {
    if xs == [] then q else Run(Do(q, xs[0]), xs[1..])
  }

  lemma {:induction false} OkAlong(q: Queue, xs: seq<Step>)
    requires Ok(q) && Legal(q, xs)
    ensures Ok(Run(q, xs))
    decreases |xs|
  {
    hide Ok, Can, Do;
    if xs != [] {
      OkKept(q, xs[0]);
      OkAlong(Do(q, xs[0]), xs[1..]);
    }
  }

  predicate Overlap(x: Attempt, y: Attempt) {
    && (x.applied.None? || y.selected <= x.applied.value)
    && (y.applied.None? || x.selected <= y.applied.value)
  }

  // In every interleaving, two claims of one job never overlap, and between them the job
  // was put back into the queue.
  lemma NoDoubleClaim(jobs: map<int, Job>, xs: seq<Step>, t: int, u: int)
    requires Legal(Queue(jobs, map[], map[], 0), xs)
    requires var q := Run(Queue(jobs, map[], map[], 0), xs);
      t in q.attempts && u in q.attempts && t != u && q.attempts[t].jobId == q.attempts[u].jobId
    ensures var q := Run(Queue(jobs, map[], map[], 0), xs);
      && !Overlap(q.attempts[t], q.attempts[u])
      && (Before(q.attempts[t], q.attempts[u]) || Before(q.attempts[u], q.attempts[t]))
  {
    OkAlong(Queue(jobs, map[], map[], 0), xs);
    hide Run, Legal;
    var q := Run(Queue(jobs, map[], map[], 0), xs);
    assert AttemptOk(q, t) && AttemptOk(q, u);
  }

  // ---- Draining the queue with nobody else around ----

  predicate Due(row: Job, now: real) {
    row.status == Queued && row.scheduledAt <= now
  }

  // The smallest priority number goes first, and of these the longest due.
  ghost predicate Picks(jobs: map<int, Job>, now: real, j: int) {
    && j in jobs && Due(jobs[j], now)
    && forall i :: i in jobs && Due(jobs[i], now) ==>
         && jobs[j].priority <= jobs[i].priority
         && (jobs[j].priority == jobs[i].priority ==> jobs[j].scheduledAt <= jobs[i].scheduledAt)
  }

  // ids are what repeated claims at time now return before the first None.
  ghost predicate Drains(jobs: map<int, Job>, w: int, now: real, lease: real, ids: seq<int>) {
    if ids == [] then forall j :: j in jobs ==> !Due(jobs[j], now)
    else Picks(jobs, now, ids[0]) && Drains(jobs[ids[0] := Claimed(jobs[ids[0]], w, now, lease)], w, now, lease, ids[1..])
  }

  // Each due job exactly once; the priority numbers never fall, and within one priority the
  // due times never do.
  lemma {:induction false} DrainInOrder(jobs: map<int, Job>, w: int, now: real, lease: real, ids: seq<int>)
    requires Drains(jobs, w, now, lease, ids)
    ensures forall j :: j in ids <==> j in jobs && jobs[j].status == Queued && jobs[j].scheduledAt <= now
    ensures forall i, k :: 0 <= i < k < |ids| ==>
      && ids[i] != ids[k] && jobs[ids[i]].priority <= jobs[ids[k]].priority
      && (jobs[ids[i]].priority == jobs[ids[k]].priority ==> jobs[ids[i]].scheduledAt <= jobs[ids[k]].scheduledAt)
  {
    if ids != [] {
      var rest := jobs[ids[0] := Claimed(jobs[ids[0]], w, now, lease)];
      DrainInOrder(rest, w, now, lease, ids[1..]);
      assert ids == [ids[0]] + ids[1..];
      forall i, k | 0 <= i < k < |ids|
        ensures
          && ids[i] != ids[k] && jobs[ids[i]].priority <= jobs[ids[k]].priority
          && (jobs[ids[i]].priority == jobs[ids[k]].priority ==> jobs[ids[i]].scheduledAt <= jobs[ids[k]].scheduledAt)
      {
        assert ids[k] == ids[1..][k - 1] && ids[k] in ids[1..];
        assert i > 0 ==> ids[i] == ids[1..][i - 1] && ids[i] in ids[1..];
      }
    }
  }
}
