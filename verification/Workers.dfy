// The worker process: claimer, worker loop and heartbeat of a slot, and the reaper.  A loop
// without end is given what the outside world has in store for it: for each turn the reading
// of the clock, or nothing where the database fails.
module Workers {
  import opened Wrappers
  import opened Tables
  import opened Rows
  import opened Machine
  import opened Structure
  import opened Stories
  import opened AllRuns
  import opened Repositories
  import opened Cluster
  import opened Pipeline

  // ---- What a heartbeat keeps between two beats ----

  ghost predicate BeatKept(s: State, s': State, w: int) {
    && s.log.claims <= s'.log.claims
    && (IsBusy(s', w) ==> IsBusy(s, w) && SameClaim(s.slots[w], s'.slots[w]) && s'.slots[w].lost == s.slots[w].lost)
  }

  lemma OtherStepKeepsBeat(c: Config, s: State, a: Action, w: int)
    requires Enabled(c, s, a) && !Concerns(Heartbeat(w), a)
    ensures BeatKept(s, Next(c, s, a), w)
  {
    hide NextDb, NextCache, NextBucket, NextClients, NextHistories, NextPc, AfterFault;
  }

  lemma {:induction false} OthersKeepBeat(c: Config, s: State, acts: seq<Action>, w: int)
    requires Legal(c, s, acts) && Others(Heartbeat(w), acts)
    ensures BeatKept(s, Run(c, s, acts), w)
    decreases |acts|
  {
    hide Next, Enabled;
    if acts != [] {
      OtherStepKeepsBeat(c, s, acts[0], w);
      OthersKeepBeat(c, Next(c, s, acts[0]), acts[1..], w);
    }
  }

  class HeartbeatManager {
    const cluster: Cluster
    const jobs: ProcessingJobRepository
    var workerId: int
    var pipelineTask: nat

    constructor (cluster: Cluster)
      ensures this.cluster == cluster && jobs.db == cluster.db
    {
      this.cluster := cluster;
      jobs := new ProcessingJobRepository(cluster.db);
      workerId, pipelineTask := 0, 0;
    }

    ghost predicate Watching(w: int, task: nat)
      reads cluster
    {
      IsBusy(cluster.world, w) && cluster.world.slots[w].serial == task
    }

    // Others act for an interval; stop() is called when the pipeline has ended.
    method Sleep() returns (stopped: bool)
      requires cluster.Coherent() && Watching(workerId, pipelineTask)
      modifies cluster, cluster.db, cluster.cache, cluster.limiter
      ensures cluster.Coherent() && (stopped <==> !Watching(workerId, pipelineTask))
      ensures cluster.Story(Heartbeat(workerId)) == old(cluster.Story(Heartbeat(workerId)))
      ensures exists acts :: Others(Heartbeat(workerId), acts) && Legal(cluster.config, old(cluster.world), acts)
                          && cluster.world == Run(cluster.config, old(cluster.world), acts) && cluster.trace == old(cluster.trace) + acts
    {
      ghost var acts: seq<Action> := [];
      assert Others(Heartbeat(workerId), acts) && cluster.trace + acts == cluster.trace;
      stopped := false;
    }

    method Start(w: int, task: nat)
      modifies this
      ensures workerId == w && pipelineTask == task
    {
      workerId, pipelineTask := w, task;
    }

    // Ready to beat: the pipeline runs, and no beat has found its lease lost.
    ghost predicate Beating(j: int)
      reads this, cluster
    {
      && Watching(workerId, pipelineTask) && pipelineTask < cluster.tasks
      && cluster.world.slots[workerId].jobId == j && !cluster.world.slots[workerId].lost
    }

    // Renew the lease.  Found lost, it cancels the pipeline: that one task and no other.
    method Renew(j: int, now: real) returns (stillOwner: bool)
      requires jobs.db == cluster.db && cluster.Coherent() && Beating(j)
      modifies cluster, cluster.db
      ensures cluster.Coherent() && cluster.trace == old(cluster.trace) + [Machine.Beat(workerId, now)]
      ensures cluster.Story(Heartbeat(workerId)) == old(cluster.Story(Heartbeat(workerId))) + [DidBeat(now)]
      ensures stillOwner == Extends(old(cluster.world).db, j, workerId)
      ensures cluster.world.db == ExtendTx(old(cluster.world).db, j, workerId, now, cluster.config.lease)
      ensures cluster.cancels == old(cluster.cancels) + if stillOwner then {} else {(workerId, pipelineTask)}
      ensures stillOwner ==> Beating(j)
    {
      hide AfterFault, NextPc, NextHistories, NextClients, PipelineDb, StoryOf, Legal, Run, CancelsOk;
      stillOwner := jobs.ExtendLease(j, workerId, now, cluster.config.lease);
      cluster.Take(Heartbeat(workerId), Machine.Beat(workerId, now));
      if !stillOwner {
        cluster.CancelTask(workerId, pipelineTask);
      }
    }

    // A database error only costs the turn.
    method SkipTurn(j: int)
      requires cluster.Coherent() && Beating(j)
      modifies cluster`world, cluster`trace
      ensures cluster.Coherent() && old(cluster.trace) <= cluster.trace && Beating(j)
      ensures cluster.Story(Heartbeat(workerId)) == old(cluster.Story(Heartbeat(workerId))) + [DidMissBeat]
    {
      hide AfterFault, NextPc, NextHistories, NextClients, PipelineDb, StoryOf, Legal, Run, CancelsOk;
      ghost var now: real := *;
      cluster.Take(Heartbeat(workerId), BeatError(workerId, now));
    }

    method Turn(j: int, reading: Option<real>) returns (over: bool, ghost did: seq<Deed>)
      requires jobs.db == cluster.db && cluster.Coherent() && Beating(j)
      modifies cluster, cluster.db, cluster.cache, cluster.limiter
      ensures cluster.Coherent() && old(cluster.trace) <= cluster.trace && (!over ==> Beating(j))
      ensures cluster.Story(Heartbeat(workerId)) == old(cluster.Story(Heartbeat(workerId))) + did
      ensures did == [] || did == [BeatDue(reading)]
      ensures over && did == [] ==> !Watching(workerId, pipelineTask)
      ensures over && did != [] ==> (workerId, pipelineTask) in cluster.cancels
      ensures !over ==> did != []
    {
      hide StoryOf, Legal, Run, CancelsOk;
      over := Rest();
      did := [];
      if over {
        return;
      }
      did := [BeatDue(reading)];
      match reading
      case None => SkipTurn(j);
      case Some(now) =>
        var stillOwner := Renew(j, now);
        over := !stillOwner;
    }

    // One renewal or one error a turn, for so many turns, until the pipeline is over or its
    // lease found lost.
    method Beat(j: int, readings: seq<Option<real>>) returns (ghost turns: nat)
      requires jobs.db == cluster.db && cluster.Coherent() && Beating(j)
      modifies cluster, cluster.db, cluster.cache, cluster.limiter
      ensures cluster.Coherent() && old(cluster.trace) <= cluster.trace
      ensures turns <= |readings|
      ensures cluster.Story(Heartbeat(workerId)) == old(cluster.Story(Heartbeat(workerId))) + BeatsDue(readings[..turns])
      ensures turns == |readings| || !Watching(workerId, pipelineTask) || (workerId, pipelineTask) in cluster.cancels
    {
      hide StoryOf, Legal, Run, CancelsOk, Beating, Watching;
      var n := 0;
      turns := 0;
      while n < |readings|
        invariant turns == n <= |readings| && cluster.Coherent() && Beating(j) && old(cluster.trace) <= cluster.trace
        invariant cluster.Story(Heartbeat(workerId)) == old(cluster.Story(Heartbeat(workerId))) + BeatsDue(readings[..n])
      {
        ghost var did;
        var over;
        over, did := Turn(j, readings[n]);
        BeatsDueMore(readings, n);
        turns := turns + |did|;
        if over {
          return;
        }
        n := n + 1;
      }
    }

    method Rest() returns (stopped: bool)
      requires cluster.Coherent() && Watching(workerId, pipelineTask)
      modifies cluster, cluster.db, cluster.cache, cluster.limiter
      ensures cluster.Coherent() && old(cluster.trace) <= cluster.trace
      ensures stopped <==> !Watching(workerId, pipelineTask)
      ensures BeatKept(old(cluster.world), cluster.world, workerId)
      ensures cluster.Story(Heartbeat(workerId)) == old(cluster.Story(Heartbeat(workerId)))
    {
      hide StoryOf;
      ghost var before := cluster.world;
      stopped := Sleep();
      ghost var acts :| Others(Heartbeat(workerId), acts) && Legal(cluster.config, before, acts)
                     && cluster.world == Run(cluster.config, before, acts) && cluster.trace == old(cluster.trace) + acts;
      OthersKeepBeat(cluster.config, before, acts, workerId);
    }
  }

  function BeatDue(reading: Option<real>): Deed {
    match reading
    case None => DidMissBeat
    case Some(now) => DidBeat(now)
  }

  function BeatsDue(readings: seq<Option<real>>): seq<Deed> {
    seq(|readings|, i requires 0 <= i < |readings| => BeatDue(readings[i]))
  }

  lemma BeatsDueMore(readings: seq<Option<real>>, n: nat)
    requires n < |readings|
    ensures BeatsDue(readings[..n + 1]) == BeatsDue(readings[..n]) + [BeatDue(readings[n])]
  {
  }

  class JobClaimer {
    const cluster: Cluster
    const jobs: ProcessingJobRepository
    const workerId: int

    constructor (cluster: Cluster, workerId: int)
      ensures this.cluster == cluster && this.workerId == workerId && jobs.db == cluster.db
    {
      this.cluster, this.workerId := cluster, workerId;
      jobs := new ProcessingJobRepository(cluster.db);
    }

    ghost predicate Free()
      reads cluster
    {
      workerId in cluster.world.slots && cluster.world.slots[workerId].Idle?
    }

    ghost predicate Holds(task: nat, it: Work)
      reads cluster
    {
      && IsBusy(cluster.world, workerId)
      && var slot := cluster.world.slots[workerId];
         slot.serial == task && slot.pc == LookupExact && slot.jobId == it.jobId && slot.job == it.job && slot.request == it.request
    }

    // One poll, at one reading of the clock.  `before` is the state the statement ran in: it
    // takes a first eligible row, or there is none.  A job comes with its request, thanks to
    // the foreign key, and with this worker as its owner.
    method Poll(now: real) returns (result: Option<(nat, Work)>, ghost before: State)
      requires jobs.db == cluster.db && cluster.Coherent() && Free()
      modifies cluster, cluster.db, cluster.cache, cluster.limiter
      ensures cluster.Coherent() && old(cluster.trace) <= cluster.trace
      ensures Passed(cluster.config, old(cluster.trace), cluster.trace, before)
      ensures result.None? ==> Free() && cluster.Story(Worker(workerId)) == old(cluster.Story(Worker(workerId))) && NothingDue(before.db, now)
      ensures result.Some? ==>
        && Holds(result.value.0, result.value.1) && result.value.1.job.worker == Some(workerId)
        && cluster.Story(Worker(workerId)) == old(cluster.Story(Worker(workerId))) + [DidClaim(result.value.1.jobId)]
        && SkipLocked.Picks(before.db.jobs, now, result.value.1.jobId)
    {
      hide AfterFault, NextPc, NextLog, NextClients, PipelineDb, TablesOk, StoryOf, Legal, Run, CancelsOk;
      cluster.Pause(workerId);
      before := cluster.world;
      assert Constraints(before.db) by { TablesInEveryRun(cluster.config, cluster.trace); ConstraintsOf(before); }
      PassedNow(cluster.config, old(cluster.trace), cluster.trace);
      ghost var sofar := cluster.trace;
      ghost var taken;
      var row;
      row, taken := jobs.ClaimNext(workerId, now, cluster.config.lease);
      result := None;
      if row.Some? {
        var task := cluster.StartTask(workerId, taken.value, now);
        PassedWider(cluster.config, old(cluster.trace), sofar, old(cluster.trace), cluster.trace, before);
        result := Some((task, Work(row.value.0, row.value.1, row.value.2)));
      }
    }

    // Poll until there is a job, or until the shutdown event is set after the last reading.
    // Without a job, every poll found nothing due.
    method NextJob(readings: seq<real>) returns (result: Option<(nat, Work)>, ghost misses: seq<State>)
      requires jobs.db == cluster.db && cluster.Coherent() && Free()
      modifies cluster, cluster.db, cluster.cache, cluster.limiter
      ensures cluster.Coherent() && old(cluster.trace) <= cluster.trace
      ensures result.None? ==> Free() && |misses| == |readings| && cluster.Story(Worker(workerId)) == old(cluster.Story(Worker(workerId)))
      ensures result.Some? ==>
        && Holds(result.value.0, result.value.1) && result.value.1.job.worker == Some(workerId)
        && cluster.Story(Worker(workerId)) == old(cluster.Story(Worker(workerId))) + [DidClaim(result.value.1.jobId)]
      ensures |misses| <= |readings| && forall i :: 0 <= i < |misses| ==>
        Passed(cluster.config, old(cluster.trace), cluster.trace, misses[i]) && NothingDue(misses[i].db, readings[i])
    {
      hide Free, Holds, StoryOf, Legal, Run, CancelsOk, Passed, NothingDue;
      result, misses := None, [];
      var n := 0;
      while n < |readings|
        invariant n == |misses| <= |readings| && cluster.Coherent() && Free() && old(cluster.trace) <= cluster.trace && result.None?
        invariant cluster.Story(Worker(workerId)) == old(cluster.Story(Worker(workerId)))
        invariant forall i :: 0 <= i < |misses| ==>
          Passed(cluster.config, old(cluster.trace), cluster.trace, misses[i]) && NothingDue(misses[i].db, readings[i])
      {
        ghost var sofar, before := cluster.trace, cluster.world;
        result, before := Poll(readings[n]);
        AllPassedWider(cluster.config, old(cluster.trace), sofar, cluster.trace, misses);
        if result.Some? {
          return;
        }
        PassedWider(cluster.config, sofar, cluster.trace, old(cluster.trace), cluster.trace, before);
        misses := misses + [before];
        n := n + 1;
      }
    }
  }

  ghost predicate NothingDue(db: Db, now: real) {
    forall j :: j in db.jobs && db.jobs[j].status == Queued ==> db.jobs[j].scheduledAt > now
  }

  lemma AllPassedWider(c: Config, b: seq<Action>, t: seq<Action>, t': seq<Action>, states: seq<State>)
    requires t <= t' && forall i :: 0 <= i < |states| ==> Passed(c, b, t, states[i])
    ensures forall i :: 0 <= i < |states| ==> Passed(c, b, t', states[i])
  {
    hide Passed;
    forall i | 0 <= i < |states| ensures Passed(c, b, t', states[i]) {
      PassedWider(c, b, t, b, t', states[i]);
    }
  }

  // One job of a worker: what was claimed, what was done for it, and whether it was aborted.
  datatype JobRun = JobRun(task: nat, it: Work, path: seq<Deed>, aborted: bool)

  function DeedsOf(runs: seq<JobRun>): seq<Deed> {
    if runs == [] then []
    else
      var last := runs[|runs| - 1];
      DeedsOf(runs[..|runs| - 1]) + [DidClaim(last.it.jobId)] + last.path
  }

  // The requests whose waiters are told: all but those of aborted pipelines.
  function Notified(runs: seq<JobRun>): seq<int> {
    if runs == [] then []
    else
      var last := runs[|runs| - 1];
      Notified(runs[..|runs| - 1]) + if last.aborted then [] else [last.it.job.requestId]
  }

  // From `start` on, a worker opened its slot and did these runs, and notified as it should.
  ghost predicate OnShift(c: Config, outside: nat -> Oracle, start: seq<Deed>, story: seq<Deed>, runs: seq<JobRun>, notified: seq<int>) {
    && story == start + [DidSpawn] + DeedsOf(runs) && notified == Notified(runs)
    && forall i :: 0 <= i < |runs| ==> Executed(c, outside(runs[i].task), runs[i].it, runs[i].path, runs[i].aborted)
  }

  // Every poll at these readings, somewhere between the traces, found nothing due.
  ghost predicate FoundNothing(c: Config, b: seq<Action>, t: seq<Action>, readings: seq<real>) {
    exists misses: seq<State> :: |misses| == |readings| &&
      forall i :: 0 <= i < |misses| ==> Passed(c, b, t, misses[i]) && NothingDue(misses[i].db, readings[i])
  }

  class WorkerPool {
    const cluster: Cluster
    const pipeline: PromptPipeline

    constructor (cluster: Cluster)
      ensures this.cluster == cluster && pipeline.cluster == cluster && pipeline.Wired()
    {
      this.cluster := cluster;
      pipeline := new PromptPipeline(cluster);
    }

    // One slot, under a worker id nobody has: claim, run, and claim again, until shutdown or
    // out of turns.  A cancelled pipeline does not end the loop, and nobody is notified of it.
    method WorkerLoop(w: int, readings: seq<seq<real>>) returns (notified: seq<int>, ghost runs: seq<JobRun>)
      requires pipeline.cluster == cluster && pipeline.Wired() && cluster.Coherent()
      requires w !in cluster.world.slots && |cluster.world.slots| < cluster.config.slotLimit
      modifies cluster, cluster.db, cluster.cache, cluster.limiter
      ensures cluster.Coherent() && old(cluster.trace) <= cluster.trace && pipeline.Free(w)
      ensures OnShift(cluster.config, cluster.outside, old(cluster.Story(Worker(w))), cluster.Story(Worker(w)), runs, notified) && |runs| <= |readings|
      ensures |runs| < |readings| ==> FoundNothing(cluster.config, old(cluster.trace), cluster.trace, readings[|runs|])
    {
      hide StoryOf, Legal, Run, CancelsOk, Executed, Passed, NothingDue, FoundNothing, OnShift;
      ghost var start := cluster.Story(Worker(w));
      Open(w);
      notified, runs := [], [];
      ShiftStarts(cluster.config, cluster.outside, start);
      var claimer := new JobClaimer(cluster, w);
      var n := 0;
      while n < |readings|
        invariant cluster.Coherent() && pipeline.Free(w) && old(cluster.trace) <= cluster.trace && n == |runs| <= |readings|
        invariant OnShift(cluster.config, cluster.outside, old(cluster.Story(Worker(w))), cluster.Story(Worker(w)), runs, notified)
      {
        ghost var sofar, before := cluster.trace, cluster.Story(Worker(w));
        var request;
        ghost var run;
        request, run := Serve(w, claimer, readings[n]);
        if request.None? {
          WiderNothing(cluster.config, sofar, cluster.trace, old(cluster.trace), readings[n]);
          return;
        }
        OneMoreRun(cluster.config, cluster.outside, start, before, runs, notified, run[0]);
        runs := runs + [run[0]];
        notified := notified + request.value;
        n := n + 1;
      }
    }

    // Claim, and run what was claimed; the request to notify of, if any.
    method Serve(w: int, claimer: JobClaimer, readings: seq<real>) returns (request: Option<seq<int>>, ghost run: seq<JobRun>)
      requires pipeline.cluster == cluster && pipeline.Wired() && cluster.Coherent() && pipeline.Free(w)
      requires claimer.cluster == cluster && claimer.workerId == w && claimer.jobs.db == cluster.db
      modifies cluster, cluster.db, cluster.cache, cluster.limiter
      ensures cluster.Coherent() && old(cluster.trace) <= cluster.trace && pipeline.Free(w)
      ensures request.None? ==>
        && cluster.Story(Worker(w)) == old(cluster.Story(Worker(w)))
        && FoundNothing(cluster.config, old(cluster.trace), cluster.trace, readings)
      ensures request.Some? ==>
        && |run| == 1 && Executed(cluster.config, cluster.outside(run[0].task), run[0].it, run[0].path, run[0].aborted)
        && cluster.Story(Worker(w)) == old(cluster.Story(Worker(w))) + [DidClaim(run[0].it.jobId)] + run[0].path
        && request.value == if run[0].aborted then [] else [run[0].it.job.requestId]
    {
      hide StoryOf, Legal, Run, CancelsOk, Executed, Passed, NothingDue;
      ghost var sofar := cluster.trace;
      var result;
      ghost var misses;
      result, misses := claimer.NextJob(readings);
      if result.None? {
        assert FoundNothing(cluster.config, sofar, cluster.trace, readings);
        return None, [];
      }
      var (task, it) := result.value;
      var cancelled;
      ghost var path;
      cancelled, path := RunJob(w, task, it);
      run := [JobRun(task, it, path, cancelled)];
      request := Some(if cancelled then [] else [it.job.requestId]);
    }

    method Open(w: int)
      requires pipeline.cluster == cluster && cluster.Coherent()
      requires w !in cluster.world.slots && |cluster.world.slots| < cluster.config.slotLimit
      modifies cluster`world, cluster`trace
      ensures cluster.Coherent() && old(cluster.trace) <= cluster.trace && pipeline.Free(w)
      ensures cluster.Story(Worker(w)) == old(cluster.Story(Worker(w))) + [DidSpawn]
    {
      hide StoryOf, Legal, Run, CancelsOk, NextLog, NextClients;
      ghost var now: real := *;
      cluster.Take(Worker(w), Spawn(w, now));
    }

    // The pipeline with its heartbeat beside it.
    method RunJob(w: int, task: nat, it: Work) returns (cancelled: bool, ghost path: seq<Deed>)
      requires pipeline.cluster == cluster && pipeline.Wired() && cluster.Coherent()
      requires pipeline.At(w, task, LookupExact, it) && it.job.worker == Some(w)
      modifies cluster, cluster.db, cluster.cache, cluster.limiter
      ensures cluster.Coherent() && old(cluster.trace) <= cluster.trace && pipeline.Free(w)
      ensures cluster.Story(Worker(w)) == old(cluster.Story(Worker(w))) + path && Executed(cluster.config, cluster.outside(task), it, path, cancelled)
    {
      hide StoryOf, Legal, Run, CancelsOk, Executed;
      var heartbeat := new HeartbeatManager(cluster);
      heartbeat.Start(w, task);
      cancelled, path := pipeline.Execute(w, task, it);
    }
  }

  lemma ShiftStarts(c: Config, outside: nat -> Oracle, start: seq<Deed>)
    ensures OnShift(c, outside, start, start + [DidSpawn], [], [])
  {
  }

  lemma OneMoreRun(c: Config, outside: nat -> Oracle, start: seq<Deed>, story: seq<Deed>, runs: seq<JobRun>, notified: seq<int>, run: JobRun)
    requires OnShift(c, outside, start, story, runs, notified) && Executed(c, outside(run.task), run.it, run.path, run.aborted)
    ensures OnShift(c, outside, start, story + [DidClaim(run.it.jobId)] + run.path, runs + [run],
                    notified + if run.aborted then [] else [run.it.job.requestId])
  {
    hide Executed;
    assert (runs + [run])[..|runs|] == runs;
  }

  lemma WiderNothing(c: Config, b: seq<Action>, t: seq<Action>, b': seq<Action>, readings: seq<real>)
    requires b' <= b && FoundNothing(c, b, t, readings)
    ensures FoundNothing(c, b', t, readings)
  {
    hide Passed, NothingDue;
    var misses: seq<State> :| |misses| == |readings| &&
      forall i :: 0 <= i < |misses| ==> Passed(c, b, t, misses[i]) && NothingDue(misses[i].db, readings[i]);
    forall i | 0 <= i < |misses| ensures Passed(c, b', t, misses[i]) {
      PassedWider(c, b, t, b', t, misses[i]);
    }
  }

  class Reaper {
    const cluster: Cluster
    const jobs: ProcessingJobRepository

    constructor (cluster: Cluster)
      ensures this.cluster == cluster && jobs.db == cluster.db
    {
      this.cluster := cluster;
      jobs := new ProcessingJobRepository(cluster.db);
    }

    // Sleep, reap, again: one reap for every turn that does not fail, at that turn's reading.
    method Run(readings: seq<Option<real>>)
      requires jobs.db == cluster.db && cluster.Coherent()
      modifies cluster, cluster.db, cluster.cache, cluster.limiter
      ensures cluster.Coherent() && old(cluster.trace) <= cluster.trace
      ensures cluster.Story(Program.Reaper) == old(cluster.Story(Program.Reaper)) + ReapsDue(readings)
    {
      hide StoryOf, Legal, Machine.Run, CancelsOk;
      var n := 0;
      while n < |readings|
        invariant 0 <= n <= |readings| && cluster.Coherent() && old(cluster.trace) <= cluster.trace
        invariant cluster.Story(Program.Reaper) == old(cluster.Story(Program.Reaper)) + ReapsDue(readings[..n])
      {
        cluster.Yield(Program.Reaper);
        assert readings[..n + 1][..n] == readings[..n];
        if readings[n].Some? {
          var _ := Reap(readings[n].value);
        }
        n := n + 1;
      }
      assert readings[..n] == readings;
    }

    // One reap, at one reading of the clock: the ids are those put back into the queue.
    method Reap(now: real) returns (ids: seq<int>)
      requires jobs.db == cluster.db && cluster.Coherent()
      modifies cluster, cluster.db, cluster.cache, cluster.limiter
      ensures cluster.Coherent() && cluster.trace == old(cluster.trace) + [Machine.Reap(now)]
      ensures cluster.Story(Program.Reaper) == old(cluster.Story(Program.Reaper)) + [DidReap(now)]
      ensures cluster.world.db == ReapTx(old(cluster.world).db, now)
      ensures forall j :: j in ids <==> j in ReclaimedIds(old(cluster.world).db, now)
    {
      hide ReapTx, ReclaimedIds, TablesOk, NextSlots, NextClients, NextLog, StoryOf, Legal, Machine.Run, CancelsOk;
      assert Constraints(cluster.world.db) by { TablesInEveryRun(cluster.config, cluster.trace); ConstraintsOf(cluster.world); }
      hide Constraints;
      ids := jobs.ReapExpiredLeases(now);
      cluster.Take(Program.Reaper, Machine.Reap(now));
    }
  }

  function ReapsDue(readings: seq<Option<real>>): seq<Deed> {
    if readings == [] then []
    else
      var n := |readings| - 1;
      ReapsDue(readings[..n]) + match readings[n]
        case None => []
        case Some(now) => [DidReap(now)]
  }

  lemma ConstraintsOf(s: State)
    requires TablesOk(s)
    ensures Constraints(s.db)
  {
  }
}
