// How often the model is called for one job: at most once per claim, cached or not.
module CallsPerJob {
  import opened Rows
  import opened Tables
  import opened Machine
  import opened Structure
  import opened Attempts
  import opened CacheWork
  import opened AllRuns

  // ---- Counting along a run ----

  function CallsNow(s: State, a: Action, j: int): nat {
    if CallsModel(s, a) && s.slots[a.w].jobId == j then 1 else 0
  }

  function ClaimsNow(a: Action, j: int): nat {
    if a.Claim? && a.jobId == j then 1 else 0
  }

  ghost function CallsFor(c: Config, s: State, acts: seq<Action>, j: int): nat
    requires Legal(c, s, acts)
    decreases |acts|
  {
    if acts == [] then 0 else CallsNow(s, acts[0], j) + CallsFor(c, Next(c, s, acts[0]), acts[1..], j)
  }

  function ClaimsOf(acts: seq<Action>, j: int): nat {
    if acts == [] then 0 else ClaimsNow(acts[0], j) + ClaimsOf(acts[1..], j)
  }

  // Slots that hold a claim of the job and have not called yet.
  ghost function Pending(s: State, j: int): set<int> {
    set w | w in s.slots && IsBusy(s, w) && s.slots[w].jobId == j && (s.slots[w].pc.LookupExact? || BeforeCall(s.slots[w].pc))
  }

  lemma PendingOrigin(c: Config, s: State, a: Action, j: int, w: int)
    requires Enabled(c, s, a) && w in Pending(Next(c, s, a), j)
    ensures w in Pending(s, j) || (a.Claim? && a.w == w && a.jobId == j)
    ensures CallsModel(s, a) ==> a.w != w
  {
    hide NextDb, NextCache, NextBucket, NextClients, NextLog, Backoff, KeyOf;
  }

  // A call uses its claim up, and only a claim makes another one possible.
  lemma PendingStep(c: Config, s: State, a: Action, j: int)
    requires Enabled(c, s, a)
    ensures CallsNow(s, a, j) + |Pending(Next(c, s, a), j)| <= ClaimsNow(a, j) + |Pending(s, j)|
  {
    hide Enabled, Next;
    var before, after := Pending(s, j), Pending(Next(c, s, a), j);
    forall w | w in after ensures w in before || (a.Claim? && a.w == w && a.jobId == j) {
      PendingOrigin(c, s, a, j, w);
    }
    if CallsNow(s, a, j) == 1 {
      if a.w in after {
        PendingOrigin(c, s, a, j, a.w);
      }
      SubsetSize(after, before - {a.w});
    } else if ClaimsNow(a, j) == 1 {
      SubsetSize(after, before + {a.w});
    } else {
      SubsetSize(after, before);
    }
  }

  // From any moment on: the calls are at most the claims since, and those still unused.
  lemma {:induction false} CallsSince(c: Config, s: State, acts: seq<Action>, j: int)
    requires Legal(c, s, acts)
    ensures CallsFor(c, s, acts, j) + |Pending(Run(c, s, acts), j)| <= ClaimsOf(acts, j) + |Pending(s, j)|
    decreases |acts|
  {
    hide Enabled, Next, Pending, CallsNow, ClaimsNow;
    if acts != [] {
      PendingStep(c, s, acts[0], j);
      CallsSince(c, Next(c, s, acts[0]), acts[1..], j);
    }
  }

  // ---- Claims and the job's history ----

  ghost predicate Resets(s: State, a: Action, j: int) {
    a.Reset? && a.client in s.clients && s.clients[a.client].Resetting? && j in s.db.jobs
    && s.db.jobs[j].requestId == s.clients[a.client].requestId
  }

  ghost predicate NeverReset(c: Config, s: State, acts: seq<Action>, j: int)
    requires Legal(c, s, acts)
    decreases |acts|
  {
    acts == [] || (!Resets(s, acts[0], j) && NeverReset(c, Next(c, s, acts[0]), acts[1..], j))
  }

  ghost function ClaimsSoFar(s: State, j: int): nat {
    if j in s.log.histories then s.log.histories[j].claims else 0
  }

  lemma ClaimCounted(c: Config, s: State, a: Action, j: int)
    requires Enabled(c, s, a) && TablesOk(s) && !Resets(s, a, j)
    ensures ClaimsSoFar(Next(c, s, a), j) == ClaimsSoFar(s, j) + ClaimsNow(a, j)
  {
    hide NextDb, NextCache, NextBucket, NextClients, NextSlots, Constraints, EveryRequestHasJob, RowShape, RequestShape;
  }

  lemma {:induction false} ClaimsCounted(c: Config, s: State, acts: seq<Action>, j: int)
    requires Legal(c, s, acts) && TablesOk(s) && NeverReset(c, s, acts, j)
    ensures ClaimsSoFar(Run(c, s, acts), j) == ClaimsSoFar(s, j) + ClaimsOf(acts, j)
    decreases |acts|
  {
    hide Enabled, Next, TablesOk, ClaimsNow, ClaimsSoFar, Resets;
    if acts != [] {
      ClaimCounted(c, s, acts[0], j);
      TablesKept(c, s, acts[0]);
      ClaimsCounted(c, Next(c, s, acts[0]), acts[1..], j);
    }
  }

  // While a job is not reset, it is called for at most max_attempts times plus once per
  // deferral, besides the calls of claims made before.
  lemma CallsWithoutReset(c: Config, pre: seq<Action>, post: seq<Action>, j: int)
    requires Legal(c, Initial, pre) && Legal(c, Run(c, Initial, pre), post) && NeverReset(c, Run(c, Initial, pre), post, j)
    ensures var mid := Run(c, Initial, pre);
      var s := Run(c, mid, post);
      j in s.db.jobs && s.db.jobs[j].maxAttempts >= 1 ==>
        && j in s.log.histories
        && ClaimsSoFar(mid, j) + CallsFor(c, mid, post, j) <= s.db.jobs[j].maxAttempts + s.log.histories[j].deferrals + |Pending(mid, j)|
  {
    hide Legal, Next, Enabled, CallsFor, NeverReset, Pending, ClaimsOf;
    var mid := Run(c, Initial, pre);
    var s := Run(c, mid, post);
    if j in s.db.jobs && s.db.jobs[j].maxAttempts >= 1 {
      hide Run;
      RunAppend(c, Initial, pre, post);
      EveryRunSound(c, pre);
      EveryRunSound(c, pre + post);
      CallsSince(c, mid, post, j);
      ClaimsCounted(c, mid, post, j);
      ClaimsBounded(s.db.jobs[j], s.log.histories[j]);
    }
  }

  // In every run a job's calls are at most its claims; one that is never reset is called for
  // at most max_attempts times plus once per deferral.
  lemma CallsInEveryRun(c: Config, acts: seq<Action>, j: int)
    requires Legal(c, Initial, acts)
    ensures CallsFor(c, Initial, acts, j) <= ClaimsOf(acts, j)
    ensures var s := Run(c, Initial, acts);
      j in s.db.jobs && s.db.jobs[j].maxAttempts >= 1 && NeverReset(c, Initial, acts, j) ==>
        j in s.log.histories && CallsFor(c, Initial, acts, j) <= s.db.jobs[j].maxAttempts + s.log.histories[j].deferrals
  {
    hide CallsFor, ClaimsOf, NeverReset, Next, Enabled;
    assert Pending(Initial, j) == {} && ClaimsSoFar(Initial, j) == 0;
    CallsSince(c, Initial, acts, j);
    assert Legal(c, Initial, []) && Run(c, Initial, []) == Initial;
    if NeverReset(c, Initial, acts, j) {
      CallsWithoutReset(c, [], acts, j);
    }
  }
}
