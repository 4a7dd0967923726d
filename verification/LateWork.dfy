// The bound on late work is exact: some run on one clock has all slots but one call the model
// and store an answer for a text that is cached already.
module LateWork {
  import opened Wrappers
  import opened AutoId
  import opened RealArith
  import opened Rows
  import opened Tables
  import opened Machine
  import opened TokenBucket
  import opened CacheWork
  import opened AllRuns
  import opened Scenarios

  function Numbers(k: nat): (r: set<int>)
    ensures |r| == k && forall i :: i in r <==> 1 <= i <= k
  {
    if k == 0 then {} else Numbers(k - 1) + {k}
  }

  // A prompt id of length k.
  function Name(k: nat): string {
    seq(k, _ => 'x')
  }

  ghost predicate InLine(s: State, text: string, i: int) {
    && i in s.db.requests && |s.db.requests[i].promptId| == i
    && IsBusy(s, i) && s.slots[i].request.text == text && s.slots[i].pc.CallModel?
  }

  // k slots, each about to call the model for the same text under a prompt id of its own.
  ghost predicate Lineup(c: Config, s: State, text: string, k: nat) {
    && s.clients == map[] && s.cache == map[] && s.log.calls == [] && s.log.lateCalls == map[] && s.log.lateStores == map[]
    && s.db.jobs.Keys == Numbers(k) && s.db.requests.Keys == Numbers(k) && s.slots.Keys == Numbers(k)
    && (forall i :: i in Numbers(k) ==> InLine(s, text, i))
    && (s.bucket.Present? ==> s.bucket.expiresAt <= s.log.clock + ExpirySeconds)
  }

  lemma RoomForOneMore(c: Config, s: State, text: string, k: nat)
    requires Lineup(c, s, text, k) && k < c.maxDepth
    ensures CanFile(c, s, k + 1, Name(k + 1)) && Name(k + 1) != ""
  {
    SubsetSize(InFlightJobs(s.db), Numbers(k));
    forall r | r in s.db.requests ensures s.db.requests[r].promptId != Name(k + 1) {
      assert InLine(s, text, r);
    }
  }

  lemma OneMoreFiled(c: Config, s: State, text: string, k: nat) returns (s': State)
    requires Reached(c, Initial, s) && Lineup(c, s, text, k) && k < c.maxDepth
    ensures Reached(c, Initial, s') && s'.log.clock == s.log.clock && s'.slots == s.slots && s'.clients == s.clients && s'.cache == s.cache
    ensures s'.bucket == s.bucket && SameCounts(s, s')
    ensures k + 1 in s'.db.requests && s'.db.requests == s.db.requests[k + 1 := s'.db.requests[k + 1]] && |s'.db.requests[k + 1].promptId| == k + 1
    ensures s'.db.requests[k + 1].text == text
    ensures s'.db.jobs == s.db.jobs[k + 1 := NewJob(k + 1, 2, c.maxAttempts, s.log.clock)]
  {
    RoomForOneMore(c, s, text, k);
    hide Reached, HashText, Lineup, CanFile;
    FiledReached(c, Initial, s, k + 1, "user", Some(Name(k + 1)), text, s.log.clock);
    s' := Filed(c, s, k + 1, "user", Name(k + 1), text, s.log.clock);
  }

  // A new slot takes a job as far as its call, on a bucket that has filled up meanwhile.
  lemma UpToTheCall(c: Config, s: State, w: int, now: real) returns (s': State)
    requires Reached(c, Initial, s) && s.log.clock <= now && w !in s.slots && |s.slots| < c.slotLimit && c.capacity >= 1.0
    requires Eligible(s.db, w, now) && s.db.jobs[w].requestId in s.db.requests && HashText(c.sha, s.db.requests[s.db.jobs[w].requestId].text) !in s.cache
    requires s.bucket.Present? ==> s.bucket.expiresAt <= now
    ensures Reached(c, Initial, s') && s'.log.clock == now && s'.clients == s.clients && s'.cache == s.cache && SameCounts(s, s')
    ensures s'.db.jobs.Keys == s.db.jobs.Keys && s'.db.requests == s.db.requests
    ensures IsBusy(s', w) && s'.slots == s.slots[w := s'.slots[w]] && s'.slots[w].pc.CallModel?
    ensures s'.slots[w].request == s.db.requests[s.db.jobs[w].requestId]
    ensures s'.bucket.Present? && s'.bucket.expiresAt == now + ExpirySeconds
  {
    hide Reached, HashText, Enabled, Next, Accrued;
    AccruedNothing(c.rate, now);
    Spawning(c, s, w, now);
    StepReached(c, Initial, s, Spawn(w, now));
    var s2 := Next(c, s, Spawn(w, now));
    var s3 := ClaimReached(c, Initial, s2, w, w, now);
    var s4 := MissReached(c, Initial, s3, w, now);
    s' := TokenReached(c, Initial, s4, w, now);
  }

  lemma OneMoreInLine(c: Config, s: State, text: string, k: nat) returns (s': State)
    requires Reached(c, Initial, s) && Lineup(c, s, text, k) && k < c.slotLimit && k < c.maxDepth && c.capacity >= 1.0
    ensures Reached(c, Initial, s') && Lineup(c, s', text, k + 1)
  {
    hide Lineup, Reached, HashText, Accrued, Numbers, SameCounts;
    LineFacts(c, s, text, k);
    var s1 := OneMoreFiled(c, s, text, k);
    s' := UpToTheCall(c, s1, k + 1, s.log.clock + ExpirySeconds);
    CountsStay(s, s1, s');
    assert InLine(s', text, k + 1);
    hide InLine;
    LineGrows(c, s, s', text, k);
  }

  lemma CountsStay(s: State, s1: State, s2: State)
    requires SameCounts(s, s1) && SameCounts(s1, s2)
    ensures SameCounts(s, s2)
  {
  }

  lemma LineFacts(c: Config, s: State, text: string, k: nat)
    requires Lineup(c, s, text, k)
    ensures |s.slots| == k && k + 1 !in s.slots && s.cache == map[]
    ensures s.bucket.Present? ==> s.bucket.expiresAt <= s.log.clock + ExpirySeconds
  {
    assert |s.slots| == |s.slots.Keys|;
  }

  lemma LineGrows(c: Config, s: State, s': State, text: string, k: nat)
    requires Lineup(c, s, text, k)
    requires s'.clients == s.clients && s'.cache == s.cache && SameCounts(s, s')
    requires s'.db.jobs.Keys == s.db.jobs.Keys + {k + 1}
    requires k + 1 in s'.db.requests && s'.db.requests == s.db.requests[k + 1 := s'.db.requests[k + 1]]
    requires InLine(s', text, k + 1) && s'.slots == s.slots[k + 1 := s'.slots[k + 1]]
    requires s'.bucket.Present? && s'.bucket.expiresAt <= s'.log.clock + ExpirySeconds
    ensures Lineup(c, s', text, k + 1)
  {
    hide InLine, Numbers;
    forall i | i in Numbers(k + 1) ensures InLine(s', text, i) {
      if i != k + 1 {
        InLineStays(s, s', text, i, k + 1);
      }
    }
    assert Numbers(k + 1) == Numbers(k) + {k + 1};
  }

  lemma InLineStays(s: State, s': State, text: string, i: int, w: int)
    requires InLine(s, text, i) && i != w && w in s'.slots && w in s'.db.requests
    requires s'.slots == s.slots[w := s'.slots[w]] && s'.db.requests == s.db.requests[w := s'.db.requests[w]]
    ensures InLine(s', text, i)
  {
  }

  lemma {:induction false} LinedUp(c: Config, text: string, k: nat) returns (s: State)
    requires k <= c.slotLimit && k <= c.maxDepth && c.capacity >= 1.0
    ensures Reached(c, Initial, s) && Lineup(c, s, text, k)
    decreases k
  {
    hide Reached, Lineup;
    if k == 0 {
      OriginReached(c, Initial);
      s := Initial;
      NobodyInLine(c, text);
    } else {
      var s1 := LinedUp(c, text, k - 1);
      s := OneMoreInLine(c, s1, text, k - 1);
    }
  }

  lemma NobodyInLine(c: Config, text: string)
    ensures Lineup(c, Initial, text, 0)
  {
  }

  // ---- The calls ----

  ghost predicate Calling(s: State, text: string, i: int) {
    IsBusy(s, i) && s.slots[i].request.text == text && s.slots[i].pc.CallModel?
  }

  // The first m slots have stored an answer, all but one of them late.
  ghost predicate Done(c: Config, s: State, text: string, m: nat, k: nat) {
    var key := HashText(c.sha, text);
    && |s.log.calls| == m && (key in s.cache <==> m >= 1)
    && Count(s.log.lateCalls, key) == (if m == 0 then 0 else m - 1) == Count(s.log.lateStores, key)
    && (forall i :: m < i <= k ==> Calling(s, text, i))
  }

  lemma {:induction false} AllCalled(c: Config, text: string, m: nat, k: nat) returns (s: State)
    requires m <= k <= c.slotLimit && k <= c.maxDepth && c.capacity >= 1.0
    ensures Reached(c, Initial, s) && Done(c, s, text, m, k)
    decreases m
  {
    hide Reached, HashText;
    if m == 0 {
      s := LinedUp(c, text, k);
      forall i | 0 < i <= k ensures Calling(s, text, i) {
        assert InLine(s, text, i);
      }
    } else {
      var s1 := AllCalled(c, text, m - 1, k);
      assert Calling(s1, text, m);
      s := AnswerReached(c, Initial, s1, m, s1.log.clock);
      forall i | m < i <= k ensures Calling(s, text, i) {
        assert Calling(s1, text, i);
      }
    }
  }

  // With N slots: N calls for one text, N - 1 of them, and as many stores, after it is cached.
  lemma LateWorkAttained(c: Config, text: string)
    requires 1 <= c.slotLimit <= c.maxDepth && c.capacity >= 1.0
    ensures exists acts :: (
      && ClockLegal(c, Initial, acts) && Legal(c, Initial, acts)
      && var log := Run(c, Initial, acts).log; var key := HashText(c.sha, text);
      |log.calls| == c.slotLimit && Count(log.lateCalls, key) == c.slotLimit - 1 == Count(log.lateStores, key))
  {
    hide Legal, ClockLegal, Run, HashText;
    var s := AllCalled(c, text, c.slotLimit, c.slotLimit);
  }
}
