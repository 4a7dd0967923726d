// The bound on silence is exact: a job whose worker died right after claiming it stays with
// that worker for the whole lease and the reaper's whole gap.
module Silence {
  import opened Wrappers
  import opened AutoId
  import opened Rows
  import opened Tables
  import opened Machine
  import opened AllRuns
  import opened Scenarios

  lemma Crashing(c: Config, s: State, w: int, now: real)
    requires w in s.slots
    ensures Enabled(c, s, Crash(w, now))
    ensures Next(c, s, Crash(w, now)) == s.(slots := s.slots - {w}, log := s.log.(clock := now))
  {
  }

  // The comparison is strict: a reap at the very end of the lease comes too early.
  lemma ReapedTooEarly(c: Config, s: State, j: int, now: real)
    requires j in s.db.jobs && s.db.jobs[j].lockedUntil == Some(now)
    ensures Enabled(c, s, Reap(now)) && Next(c, s, Reap(now)).log.clock == now == Next(c, s, Reap(now)).log.lastReap
    ensures j in Next(c, s, Reap(now)).db.jobs && Next(c, s, Reap(now)).db.jobs[j] == s.db.jobs[j]
    ensures Next(c, s, Reap(now)).slots == s.slots
  {
  }

  // The reaper is `gap` behind, and a job is being processed by somebody not heard of since
  // lease + gap ago.
  ghost predicate SilentSince(c: Config, s: State, gap: real) {
    && s.log.clock - s.log.lastReap == gap && 1 in s.db.jobs && s.db.jobs[1].status == Processing
    && s.db.jobs[1].heartbeatAt == Some(s.log.clock - c.lease - gap)
  }

  lemma SilenceAttained(c: Config, gap: real)
    requires c.slotLimit >= 1 && c.maxDepth >= 1 && c.lease >= 0.0 && gap >= 0.0
    ensures exists acts :: (
      && ClockLegal(c, Initial, acts) && Legal(c, Initial, acts)
      && SilentSince(c, Run(c, Initial, acts), gap))
  {
    hide Enabled, Next, HashText, Legal, ClockLegal, Run;
    OriginReached(c, Initial);
    assert InFlightJobs(Initial.db) == {};
    FiledReached(c, Initial, Initial, 1, "user", Some("1"), "text", 0.0);
    var s1 := Filed(c, Initial, 1, "user", "1", "text", 0.0);
    Spawning(c, s1, 1, 0.0);
    StepReached(c, Initial, s1, Spawn(1, 0.0));
    var s2 := Next(c, s1, Spawn(1, 0.0));
    var s3 := ClaimReached(c, Initial, s2, 1, 1, 0.0);
    Crashing(c, s3, 1, 0.0);
    StepReached(c, Initial, s3, Crash(1, 0.0));
    var s4 := Next(c, s3, Crash(1, 0.0));
    ReapedTooEarly(c, s4, 1, c.lease);
    StepReached(c, Initial, s4, Reap(c.lease));
    var s5 := Next(c, s4, Reap(c.lease));
    assert s5.slots == map[];
    Spawning(c, s5, 1, c.lease + gap);
    StepReached(c, Initial, s5, Spawn(1, c.lease + gap));
    var s6 := Next(c, s5, Spawn(1, c.lease + gap));
    assert SilentSince(c, s6, gap);
  }
}
