// The theorems about every run from the empty system, and about every run on one clock.
module AllRuns {
  import opened AutoId
  import opened RealArith
  import opened Rows
  import opened Tables
  import opened TokenBucket
  import opened Machine
  import opened Structure
  import opened Attempts
  import opened Recovery
  import opened Provenance
  import opened CacheWork
  import opened LlmBudget

  ghost predicate Sound(c: Config, s: State) {
    && TablesOk(s) && SnapshotsOk(s) && FencingOk(s) && RetriesJudged(s) && AccountsOk(s)
    && ProvenanceOk(c, s) && CacheWorkOk(c, s)
  }

  lemma SoundKept(c: Config, s: State, a: Action)
    requires Enabled(c, s, a) && Sound(c, s)
    ensures Sound(c, Next(c, s, a))
  {
    hide Next, Enabled, TablesOk, SnapshotsOk, FencingOk, RetriesJudged, AccountsOk, ProvenanceOk, CacheWorkOk;
    TablesKept(c, s, a);
    SnapshotsKept(c, s, a);
    FencingKept(c, s, a);
    RetriesJudgedKept(c, s, a);
    AccountsKept(c, s, a);
    ProvenanceKept(c, s, a);
    CacheWorkKept(c, s, a);
  }

  lemma {:induction false} SoundAlong(c: Config, s: State, acts: seq<Action>)
    requires Legal(c, s, acts) && Sound(c, s)
    ensures Sound(c, Run(c, s, acts))
    decreases |acts|
  {
    hide Next, Enabled, Sound;
    if acts != [] {
      SoundKept(c, s, acts[0]);
      SoundAlong(c, Next(c, s, acts[0]), acts[1..]);
    }
  }

  lemma InitialSound(c: Config)
    ensures Sound(c, Initial)
  {
  }

  lemma EveryRunSound(c: Config, acts: seq<Action>)
    requires Legal(c, Initial, acts)
    ensures Sound(c, Run(c, Initial, acts))
  {
    InitialSound(c);
    SoundAlong(c, Initial, acts);
  }

  lemma {:induction false} TablesAlong(c: Config, s: State, acts: seq<Action>)
    requires Legal(c, s, acts) && TablesOk(s)
    ensures TablesOk(Run(c, s, acts))
    decreases |acts|
  {
    hide Next, Enabled, TablesOk;
    if acts != [] {
      TablesKept(c, s, acts[0]);
      TablesAlong(c, Next(c, s, acts[0]), acts[1..]);
    }
  }

  // Wherever a run has come: requests and jobs are in bijection, a queued job has neither
  // owner nor lease, a processing one has both.
  lemma TablesInEveryRun(c: Config, acts: seq<Action>)
    requires Legal(c, Initial, acts)
    ensures TablesOk(Run(c, Initial, acts))
  {
    hide Next, Enabled;
    assert TablesOk(Initial);
    hide TablesOk;
    TablesAlong(c, Initial, acts);
  }

  // Attempts since the last reset: claimed at most max_attempts times plus once per
  // deferral, retried and reaped fewer than max_attempts times, and never waiting in
  // back-off longer than the powers of two allow.
  lemma AttemptsInEveryRun(c: Config, acts: seq<Action>, j: int)
    requires Legal(c, Initial, acts) && j in Run(c, Initial, acts).db.jobs
    ensures var s := Run(c, Initial, acts);
      && j in s.log.histories
      && var row, h := s.db.jobs[j], s.log.histories[j];
      && row.attempts == |h.retriedAt| + h.deferrals + h.reaps + (if row.worker.Some? then 1 else 0)
      && (row.maxAttempts >= 1 ==>
            && h.claims <= row.maxAttempts + h.deferrals
            && |h.retriedAt| + h.reaps <= row.maxAttempts - 1
            && h.waited <= 30.0 * (row.maxAttempts - 1) as real
            && (row.maxAttempts <= 6 ==> h.waited <= (Pow2(row.maxAttempts - 1) - 1) as real))
  {
    hide Run, Legal, Next;
    EveryRunSound(c, acts);
    var s := Run(c, Initial, acts);
    assert Accounted(s.db.jobs[j], s.log.histories[j]);
    if s.db.jobs[j].maxAttempts >= 1 {
      TotalBackoffBounded(s.db.jobs[j], s.log.histories[j]);
    }
  }

  // A slot that is still the owner of its row holds the row's latest claim; renewing or
  // releasing for a superseded claim, at whatever time, leaves both tables as they are.
  lemma FencingInEveryRun(c: Config, acts: seq<Action>, w: int, now: real, due: real)
    requires Legal(c, Initial, acts) && IsBusy(Run(c, Initial, acts), w)
    ensures var s := Run(c, Initial, acts); var slot := s.slots[w];
      && (Owns(s.db, w, slot.jobId) ==> s.db.jobs[slot.jobId].attempts == slot.job.attempts && !Superseded(s, w))
      && (Superseded(s, w) ==> ExtendTx(s.db, slot.jobId, w, now, c.lease) == s.db && ReleaseTx(s.db, slot.jobId, w, due) == s.db)
  {
    hide Run, Legal, Next;
    EveryRunSound(c, acts);
    assert Fenced(Run(c, Initial, acts), w);
  }

  // Every stored answer was given by the model, for the request's text up to its hash or
  // for one above the similarity threshold.
  lemma ProvenanceInEveryRun(c: Config, acts: seq<Action>, r: int)
    requires Legal(c, Initial, acts) && r in Run(c, Initial, acts).db.requests
    ensures var s := Run(c, Initial, acts); var q := s.db.requests[r];
      q.response.Some? ==> Justified(c, s.log.outputs, q.response.value, q.text)
  {
    hide Run, Legal, Next;
    EveryRunSound(c, acts);
    var s := Run(c, Initial, acts);
    assert RequestOk(c, s.log.outputs, s.db.requests[r]);
  }

  // With N slots, at most N - 1 calls and N - 1 stores are wasted on a text that is cached.
  lemma DuplicateWorkInEveryRun(c: Config, acts: seq<Action>, key: Digest)
    requires Legal(c, Initial, acts)
    ensures var s := Run(c, Initial, acts); var most := if c.slotLimit == 0 then 0 else c.slotLimit - 1;
            Count(s.log.lateCalls, key) <= most && Count(s.log.lateStores, key) <= most
  {
    hide Run, Legal, Next;
    EveryRunSound(c, acts);
    assert LateWorkBounded(c, Run(c, Initial, acts), key);
  }

  // From the moment a key is cached its answer stays, and whoever is on the way to the
  // model for it already was, on the same claim.
  lemma {:induction false} CachedForGood(c: Config, s: State, acts: seq<Action>, key: Digest, w: int)
    requires Legal(c, s, acts) && key in s.cache
    ensures key in Run(c, s, acts).cache && Run(c, s, acts).cache[key].(hits := 0) == s.cache[key].(hits := 0)
    ensures w in Callers(c, Run(c, s, acts), key) ==> w in Callers(c, s, key) && SameClaim(s.slots[w], Run(c, s, acts).slots[w])
    decreases |acts|
  {
    hide NextDb, NextSlots, NextCache, NextBucket, NextClients, NextLog, Enabled;
    if acts == [] {
    } else {
      EntryNeverChanges(c, s, acts[0], key);
      NoNewWork(c, s, acts[0], key, w);
      CachedForGood(c, Next(c, s, acts[0]), acts[1..], key, w);
    }
  }

  // ---- One monotone clock ----

  ghost predicate ClockLegal(c: Config, s: State, acts: seq<Action>)
    decreases |acts|
  {
    acts == [] || (Enabled(c, s, acts[0]) && OnClock(s, acts[0]) && ClockLegal(c, Next(c, s, acts[0]), acts[1..]))
  }

  ghost predicate Dated(c: Config, s: State) {
    TablesOk(s) && LeasesDated(c, s)
  }

  lemma {:induction false} DatedAlong(c: Config, s: State, acts: seq<Action>)
    requires ClockLegal(c, s, acts) && Dated(c, s) && c.lease >= 0.0
    ensures Legal(c, s, acts) && Dated(c, Run(c, s, acts))
    decreases |acts|
  {
    hide Next, Enabled, OnClock, TablesOk, LeasesDated;
    if acts != [] {
      TablesKept(c, s, acts[0]);
      LeasesDatedKept(c, s, acts[0]);
      DatedAlong(c, Next(c, s, acts[0]), acts[1..]);
    }
  }

  lemma {:induction false} BudgetAlong(c: Config, s: State, acts: seq<Action>)
    requires ClockLegal(c, s, acts) && BudgetOk(c, s) && FillsInTime(c.capacity, c.rate)
    ensures Legal(c, s, acts) && BudgetOk(c, Run(c, s, acts))
    decreases |acts|
  {
    hide Next, Enabled, OnClock, BudgetOk, FillsInTime;
    if acts != [] {
      BudgetKept(c, s, acts[0]);
      BudgetAlong(c, Next(c, s, acts[0]), acts[1..]);
    }
  }

  lemma InitialBudget(c: Config)
    requires FillsInTime(c.capacity, c.rate)
    ensures BudgetOk(c, Initial)
  {
    hide Accrued;
    assert GrantsBounded(c, Initial) by {
      forall x | x <= 0.0 ensures GrantsFrom(c, Initial, x) {
        AccruedGrows(c.rate, x, 0.0);
      }
    }
    assert CallsBounded(c, Initial) by {
      assert Holders(Initial) == {};
    }
    forall x, y ensures WindowOk(c, Initial, x, y) {
      if x <= y {
        AccruedGrows(c.rate, x, y);
      }
    }
  }

  // Calls to the model that start in (x, y], over the whole system and any run.
  lemma CallsInEveryWindow(c: Config, acts: seq<Action>, x: real, y: real)
    requires ClockLegal(c, Initial, acts) && FillsInTime(c.capacity, c.rate) && x <= y
    ensures Legal(c, Initial, acts)
    ensures Within(Run(c, Initial, acts).log.calls, x, y) as real <= c.capacity + Accrued(c.rate, x, y) + c.slotLimit as real
  {
    InitialBudget(c);
    BudgetAlong(c, Initial, acts);
    hide Run, Legal, Next, ClockLegal, Accrued, Within;
    assert WindowOk(c, Run(c, Initial, acts), x, y);
  }

  // With the reaper at most `gap` behind, no processing job has been silent for longer than
  // lease + gap.
  lemma SilenceInEveryRun(c: Config, acts: seq<Action>, gap: real, j: int)
    requires ClockLegal(c, Initial, acts) && c.lease >= 0.0
    ensures Legal(c, Initial, acts)
    ensures var s := Run(c, Initial, acts);
      s.log.clock - s.log.lastReap <= gap && j in s.db.jobs && s.db.jobs[j].status == Processing ==>
        s.db.jobs[j].heartbeatAt.Some? && s.log.clock <= s.db.jobs[j].heartbeatAt.value + c.lease + gap
  {
    DatedAlong(c, Initial, acts);
    hide Run, Legal, Next, ClockLegal;
    var s := Run(c, Initial, acts);
    if j in s.db.jobs && s.db.jobs[j].status == Processing {
      assert LeaseDated(c, s, s.db.jobs[j]);
    }
  }
}
