// The queue limit under racing submissions: the depth check and the insert are separate
// steps, so several submissions may pass the check before any of them inserts.
module Backpressure {
  import opened Tables
  import opened Machine
  import opened Structure
  import opened CacheWork
  import opened Calm
  import opened CalmRuns

  // Submissions past their depth check and before their insert.
  ghost function Admitted(s: State): set<int> {
    set cl | cl in s.clients && s.clients[cl].Inserting?
  }

  ghost predicate DepthOk(c: Config, s: State, racing: nat) {
    QueuedDepth(s.db) + |Admitted(s)| <= c.maxDepth + racing - 1
  }

  // In a calm run no job comes back to the queue once completed or dead.
  lemma NoReturn(c: Config, s: State, a: Action, j: int)
    requires Calmly(c, s, a) && CalmOk(c, s) && !Inserts(c, s, a) && j in InFlightJobs(NextDb(c, s, a))
    ensures j in InFlightJobs(s.db)
  {
    hide CalmRow, TablesOk, CalmSlot, SnapshotOk, NextPc;
    match a
    case Advance(w, _, now) =>
      assert CalmSlot(c, s, w);
      PipelineReturns(c, s, w, now, j);
    case _ =>
  }

  lemma PipelineReturns(c: Config, s: State, w: int, now: real, j: int)
    requires IsBusy(s, w) && CalmSlot(c, s, w) && j in InFlightJobs(PipelineDb(s.db, w, s.slots[w], now))
    ensures j in InFlightJobs(s.db)
  {
  }

  lemma DepthStep(c: Config, s: State, a: Action)
    requires Calmly(c, s, a) && CalmOk(c, s)
    ensures InFlightJobs(NextDb(c, s, a)) <= InFlightJobs(s.db) + (if Inserts(c, s, a) then {a.jobId} else {})
  {
    hide CalmOk, NextSlots, NextCache, NextBucket, NextLog, NextClients;
    if !Inserts(c, s, a) {
      forall j | j in InFlightJobs(NextDb(c, s, a)) ensures j in InFlightJobs(s.db) {
        NoReturn(c, s, a, j);
      }
    }
  }

  lemma AdmittedStep(c: Config, s: State, a: Action)
    requires Calmly(c, s, a)
    ensures a.Insert? ==> a.client in Admitted(s) && Admitted(Next(c, s, a)) == Admitted(s) - {a.client}
    ensures a.Admit? && QueuedDepth(s.db) < c.maxDepth ==> a.client !in Admitted(s) && Admitted(Next(c, s, a)) == Admitted(s) + {a.client}
    ensures !a.Insert? && !(a.Admit? && QueuedDepth(s.db) < c.maxDepth) ==> Admitted(Next(c, s, a)) <= Admitted(s)
  {
    hide NextDb, NextSlots, NextCache, NextBucket, NextLog, QueuedDepth;
  }

  lemma DepthKept(c: Config, s: State, a: Action, racing: nat)
    requires Calmly(c, s, a) && CalmOk(c, s) && DepthOk(c, s, racing)
    requires |Admitted(Next(c, s, a))| <= racing
    ensures DepthOk(c, Next(c, s, a), racing)
  {
    CalmlyIsEnabled(c, s, a);
    hide CalmOk, NextDb, NextSlots, NextCache, NextBucket, NextLog, NextClients, Calmly, Admitted, InFlightJobs;
    DepthStep(c, s, a);
    AdmittedStep(c, s, a);
    var before, after := InFlightJobs(s.db), InFlightJobs(NextDb(c, s, a));
    if a.Insert? && Inserts(c, s, a) {
      SubsetSize(after, before + {a.jobId});
    } else {
      SubsetSize(after, before);
    }
    if !a.Insert? && !(a.Admit? && QueuedDepth(s.db) < c.maxDepth) {
      SubsetSize(Admitted(Next(c, s, a)), Admitted(s));
    }
  }

  // Never more than `racing` submissions between check and insert, and no re-enqueue.
  ghost predicate RacingLegal(c: Config, s: State, racing: nat, acts: seq<Action>)
    decreases |acts|
  {
    acts == [] || (Calmly(c, s, acts[0]) && |Admitted(Next(c, s, acts[0]))| <= racing && RacingLegal(c, Next(c, s, acts[0]), racing, acts[1..]))
  }

  lemma RacingIsLegal(c: Config, s: State, racing: nat, acts: seq<Action>)
    requires RacingLegal(c, s, racing, acts)
    ensures Legal(c, s, acts)
    decreases |acts|
  {
    hide Next, Enabled, Admitted;
    if acts != [] {
      CalmlyIsEnabled(c, s, acts[0]);
      RacingIsLegal(c, Next(c, s, acts[0]), racing, acts[1..]);
    }
  }

  lemma CalmlyIsEnabled(c: Config, s: State, a: Action)
    requires Calmly(c, s, a)
    ensures Enabled(c, s, a)
  {
  }

  lemma {:induction false} DepthAlong(c: Config, s: State, racing: nat, acts: seq<Action>)
    requires RacingLegal(c, s, racing, acts) && CalmOk(c, s) && DepthOk(c, s, racing)
    ensures Legal(c, s, acts) && DepthOk(c, Run(c, s, acts), racing)
    decreases |acts|
  {
    RacingIsLegal(c, s, racing, acts);
    hide CalmOk, DepthOk, Calmly, Next, Admitted, Enabled;
    if acts != [] {
      DepthKept(c, s, acts[0], racing);
      CalmKept(c, s, acts[0]);
      DepthAlong(c, Next(c, s, acts[0]), racing, acts[1..]);
    }
  }

  // With at most K submissions racing, the queue never holds more than max_depth + K - 1.
  lemma QueueNeverDeeper(c: Config, racing: nat, acts: seq<Action>)
    requires racing >= 1 && c.maxDepth >= 0 && RacingLegal(c, Initial, racing, acts)
    ensures Legal(c, Initial, acts) && QueuedDepth(Run(c, Initial, acts).db) <= c.maxDepth + racing - 1
  {
    InitialCalm(c);
    InitialDepth(c, racing);
    DepthAlong(c, Initial, racing, acts);
  }

  lemma InitialDepth(c: Config, racing: nat)
    requires racing >= 1 && c.maxDepth >= 0
    ensures DepthOk(c, Initial, racing)
  {
  }
}
