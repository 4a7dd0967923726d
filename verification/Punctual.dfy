// Heartbeats that come at least every `interval`, with at most k failed renewals in a row
// and (k + 1) * interval within the lease, keep every lease fresh: such a run is calm.
module Punctual {
  import opened Rows
  import opened Tables
  import opened Machine
  import opened Structure
  import opened Recovery
  import opened Calm
  import opened CalmRuns
  import Agreement

  // n intervals.
  function Beats(interval: real, n: nat): real {
    if n == 0 then 0.0 else Beats(interval, n - 1) + interval
  }

  lemma {:induction false} BeatsIsProduct(interval: real, n: nat)
    ensures Beats(interval, n) == n as real * interval
  {
    if n > 0 {
      BeatsIsProduct(interval, n - 1);
      assert (n - 1) as real * interval + interval == n as real * interval;
    }
  }

  lemma {:induction false} BeatsGrow(interval: real, m: nat, n: nat)
    requires interval >= 0.0 && m <= n
    ensures Beats(interval, m) <= Beats(interval, n)
  {
    if m < n {
      BeatsGrow(interval, m, n - 1);
    }
  }

  // No beat is overdue when the action happens, and renewals fail at most k times in a row.
  ghost predicate OnBeat(s: State, k: nat, a: Action) {
    && (forall w :: IsBusy(s, w) && Holding(s.slots[w].pc) ==> a.now <= s.slots[w].nextBeat)
    && (a.BeatError? && IsBusy(s, a.w) ==> s.slots[a.w].fails < k)
  }

  // All of a calm step's guards except (a), which heartbeats are to provide.
  ghost predicate PunctualStep(c: Config, s: State, k: nat, a: Action) {
    && OnBeat(s, k, a)
    && (a.Reap? ==> OnClock(s, a) && RetryWritesInTime(s, a.now))
    && (!a.Reap? ==> CalmStep(c, s, a))
  }

  ghost predicate BeatKept(c: Config, k: nat, slot: Slot)
    requires slot.Busy?
  {
    Holding(slot.pc) ==> !slot.lost && slot.fails <= k && slot.nextBeat <= slot.lastOk + Beats(c.interval, slot.fails + 1)
  }

  ghost predicate BeatsKept(c: Config, s: State, k: nat) {
    forall w :: IsBusy(s, w) ==> BeatKept(c, k, s.slots[w])
  }

  lemma FreshByHeartbeat(c: Config, s: State, k: nat, a: Action)
    requires c.interval >= 0.0 && (k + 1) as real * c.interval <= c.lease
    requires OnBeat(s, k, a) && BeatsKept(c, s, k)
    ensures LeasesFresh(c, s, a.now)
  {
    forall w | IsBusy(s, w) && Holding(s.slots[w].pc) ensures a.now - s.slots[w].lastOk <= c.lease {
      assert BeatKept(c, k, s.slots[w]);
      BeatsGrow(c.interval, s.slots[w].fails + 1, k + 1);
      BeatsIsProduct(c.interval, k + 1);
    }
  }

  lemma PunctualIsCalm(c: Config, s: State, k: nat, a: Action)
    requires c.interval >= 0.0 && (k + 1) as real * c.interval <= c.lease
    requires PunctualStep(c, s, k, a) && BeatsKept(c, s, k)
    ensures CalmStep(c, s, a)
  {
    if a.Reap? {
      FreshByHeartbeat(c, s, k, a);
    }
  }

  lemma BeatsKeptByNext(c: Config, s: State, k: nat, a: Action)
    requires Calmly(c, s, a) && CalmOk(c, s) && OnBeat(s, k, a) && BeatsKept(c, s, k)
    ensures BeatsKept(c, Next(c, s, a), k)
  {
    hide NextDb, NextCache, NextBucket, NextClients, NextLog, NextSlots, CalmRow, TablesOk, SnapshotOk;
    forall w | IsBusy(Next(c, s, a), w) ensures BeatKept(c, k, Next(c, s, a).slots[w]) {
      SlotBeat(c, s, k, a, w);
    }
  }

  // What one action does to one slot's heartbeat.
  lemma SlotBeat(c: Config, s: State, k: nat, a: Action, w: int)
    requires Calmly(c, s, a) && OnBeat(s, k, a) && IsBusy(Next(c, s, a), w)
    requires IsBusy(s, w) ==> BeatKept(c, k, s.slots[w]) && CalmSlot(c, s, w)
    ensures BeatKept(c, k, Next(c, s, a).slots[w])
  {
    hide NextDb, NextCache, NextBucket, NextClients, NextLog, Backoff;
    assert Beats(c.interval, 1) == Beats(c.interval, 0) + c.interval;
    if IsBusy(s, w) {
      assert Beats(c.interval, s.slots[w].fails + 2) == Beats(c.interval, s.slots[w].fails + 1) + c.interval;
    }
  }

  // ---- Runs ----

  ghost function AfterPunctual(c: Config, s: State, k: nat, a: Action): State
    requires PunctualStep(c, s, k, a)
  {
    if a.Reap? then Next(c, s, a) else AfterCalm(c, s, a)
  }

  ghost predicate PunctualLegal(c: Config, s: State, k: nat, acts: seq<Action>)
    decreases |acts|
  {
    acts == [] || (PunctualStep(c, s, k, acts[0]) && PunctualLegal(c, AfterPunctual(c, s, k, acts[0]), k, acts[1..]))
  }

  ghost function PunctualRun(c: Config, s: State, k: nat, acts: seq<Action>): State
    requires PunctualLegal(c, s, k, acts)
    decreases |acts|
  {
    if acts == [] then s else PunctualRun(c, AfterPunctual(c, s, k, acts[0]), k, acts[1..])
  }

  lemma BeatsKeptByStep(c: Config, s: State, k: nat, a: Action)
    requires CalmStep(c, s, a) && CalmOk(c, s) && OnBeat(s, k, a) && BeatsKept(c, s, k)
    ensures BeatsKept(c, AfterCalm(c, s, a), k)
  {
    hide CalmOk, Next, Calmly, BeatKept;
    if Calmly(c, s, a) {
      BeatsKeptByNext(c, s, k, a);
    } else {
      ResubmitEffect(c, s, a);
    }
  }

  // A punctual run is calm, and ends in the same state.
  lemma {:induction false} PunctualRunIsCalm(c: Config, s: State, k: nat, acts: seq<Action>)
    requires c.interval >= 0.0 && (k + 1) as real * c.interval <= c.lease
    requires PunctualLegal(c, s, k, acts) && CalmOk(c, s) && BeatsKept(c, s, k)
    ensures CalmLegal(c, s, acts) && CalmRun(c, s, acts) == PunctualRun(c, s, k, acts)
    decreases |acts|
  {
    hide CalmOk, BeatsKept, Next, Resubmitted, OnBeat, CalmResubmit, RetryWritesInTime, OnClock;
    if acts != [] {
      var a := acts[0];
      PunctualIsCalm(c, s, k, a);
      ReapIsCalm(c, s, a);
      assert AfterPunctual(c, s, k, a) == AfterCalm(c, s, a);
      assert OnBeat(s, k, a);
      BeatsKeptByStep(c, s, k, a);
      CalmStepKept(c, s, a);
      PunctualRunIsCalm(c, AfterCalm(c, s, a), k, acts[1..]);
    }
  }

  lemma ReapIsCalm(c: Config, s: State, a: Action)
    requires CalmStep(c, s, a)
    ensures a.Reap? ==> Calmly(c, s, a)
  {
  }

  // From the empty system, with heartbeats that are punctual: no two slots ever work on the
  // same job, and the next reap, whenever it comes, leaves every executing slot's job and
  // request as they are.
  lemma PunctualExclusion(c: Config, k: nat, acts: seq<Action>, v: int, w: int, now: real)
    requires c.interval >= 0.0 && (k + 1) as real * c.interval <= c.lease
    requires PunctualLegal(c, Initial, k, acts) && IsBusy(PunctualRun(c, Initial, k, acts), w)
    ensures var s := PunctualRun(c, Initial, k, acts); var slot := s.slots[w];
      && (IsBusy(s, v) && v != w ==> s.slots[v].jobId != slot.jobId)
      && (PunctualStep(c, s, k, Reap(now)) ==>
            && slot.jobId in s.db.jobs && slot.job.requestId in s.db.requests
            && ReapTx(s.db, now).jobs[slot.jobId] == s.db.jobs[slot.jobId]
            && ReapTx(s.db, now).requests[slot.job.requestId] == s.db.requests[slot.job.requestId])
  {
    assert BeatsKept(c, Initial, k);
    InitialCalm(c);
    hide CalmOk, BeatsKept, OnBeat, Next, PunctualLegal, PunctualRun, CalmLegal, CalmRun, RetryWritesInTime, OnClock;
    var s := PunctualRun(c, Initial, k, acts);
    PunctualRunIsCalm(c, Initial, k, acts);
    BeatsAlong(c, Initial, k, acts);
    Agreement.EveryCalmRunOk(c, acts);
    if IsBusy(s, v) && v != w {
      Agreement.OneSlotPerJob(c, s, v, w);
    }
    if PunctualStep(c, s, k, Reap(now)) {
      FreshByHeartbeat(c, s, k, Reap(now));
      ReaperSpares(c, s, now, w);
    }
  }

  lemma {:induction false} BeatsAlong(c: Config, s: State, k: nat, acts: seq<Action>)
    requires c.interval >= 0.0 && (k + 1) as real * c.interval <= c.lease
    requires PunctualLegal(c, s, k, acts) && CalmOk(c, s) && BeatsKept(c, s, k)
    ensures BeatsKept(c, PunctualRun(c, s, k, acts), k)
    decreases |acts|
  {
    hide CalmOk, BeatsKept, Next, Resubmitted, OnBeat, CalmResubmit, RetryWritesInTime, OnClock;
    if acts != [] {
      var a := acts[0];
      PunctualIsCalm(c, s, k, a);
      ReapIsCalm(c, s, a);
      assert AfterPunctual(c, s, k, a) == AfterCalm(c, s, a);
      assert OnBeat(s, k, a);
      BeatsKeptByStep(c, s, k, a);
      CalmStepKept(c, s, a);
      BeatsAlong(c, AfterCalm(c, s, a), k, acts[1..]);
    }
  }
}
