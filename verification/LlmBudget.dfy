// A bound on calls to the model for the whole system: N slots, one monotone clock, and a
// bucket that refills within the key's expiry.  In every window (x, y] of every run at most
// capacity + rate * (y - x) + N calls start.
module LlmBudget {
  import opened RealArith
  import opened TokenBucket
  import opened Machine
  import opened Recovery
  import opened CacheWork

  // Entries of a time log later than x, and those in (x, y].
  function Since(times: seq<real>, x: real): nat {
    if times == [] then 0
    else Since(times[..|times| - 1], x) + if times[|times| - 1] > x then 1 else 0
  }

  function Within(times: seq<real>, x: real, y: real): nat {
    if times == [] then 0
    else Within(times[..|times| - 1], x, y) + if x < times[|times| - 1] <= y then 1 else 0
  }

  predicate UpTo(times: seq<real>, t: real) {
    forall i :: 0 <= i < |times| ==> times[i] <= t
  }

  lemma {:induction false} NoneSince(times: seq<real>, x: real)
    requires UpTo(times, x)
    ensures Since(times, x) == 0
  {
    if times != [] {
      NoneSince(times[..|times| - 1], x);
    }
  }

  lemma {:induction false} WithinSince(times: seq<real>, x: real, y: real)
    ensures Within(times, x, y) <= Since(times, x)
  {
    if times != [] {
      WithinSince(times[..|times| - 1], x, y);
    }
  }

  lemma SinceAppend(times: seq<real>, t: real, x: real)
    ensures Since(times + [t], x) == Since(times, x) + if t > x then 1 else 0
    ensures forall y :: Within(times + [t], x, y) == Within(times, x, y) + if x < t <= y then 1 else 0
  {
  }

  // Tokens a call at time t would find.
  function Level(c: Config, key: Key, t: real): real {
    match key
    case Missing => c.capacity
    case Present(b, _) => Refilled(c.capacity, c.rate, b, t)
  }

  ghost predicate BucketOk(c: Config, key: Key, clock: real) {
    key.Present? ==>
      && key.expiresAt == key.bucket.last + ExpirySeconds
      && 0.0 <= key.bucket.tokens <= c.capacity && key.bucket.last <= clock
  }

  // Expired or not, the key is read as the level says.
  lemma ReadIsLevel(c: Config, key: Key, clock: real, now: real)
    requires FillsInTime(c.capacity, c.rate) && BucketOk(c, key, clock) && clock <= now
    ensures Refilled(c.capacity, c.rate, Read(c.capacity, key, now), now) == Level(c, key, now)
    ensures 0.0 <= Level(c, key, now) <= c.capacity
  {
    hide Refilled;
    RefillOfNow(c.capacity, c.rate, c.capacity, now);
    if key.Present? {
      RefilledRange(c.capacity, c.rate, key.bucket, now);
    }
  }

  lemma LevelDrifts(c: Config, key: Key, clock: real, now: real)
    requires FillsInTime(c.capacity, c.rate) && BucketOk(c, key, clock) && clock <= now
    ensures Level(c, key, now) <= Level(c, key, clock) + Accrued(c.rate, clock, now)
  {
    hide Accrued;
    AccruedGrows(c.rate, clock, now);
    if key.Present? {
      AccruedAdds(c.rate, key.bucket.last, clock, now);
    }
  }

  // A call that reaches Redis leaves a sound key, one token lower if it was granted.
  lemma CallLowersLevel(c: Config, key: Key, clock: real, now: real)
    requires FillsInTime(c.capacity, c.rate) && BucketOk(c, key, clock) && clock <= now
    ensures var key' := KeyAfterCall(c.capacity, c.rate, key, now);
      && BucketOk(c, key', now)
      && Level(c, key', now) == Level(c, key, now) - (if KeyGranted(c.capacity, c.rate, key, now) then 1.0 else 0.0)
  {
    hide Refilled;
    ReadIsLevel(c, key, clock, now);
    RefillOfNow(c.capacity, c.rate, KeyAfterCall(c.capacity, c.rate, key, now).bucket.tokens, now);
  }

  // ---- Grants ----

  ghost predicate GrantsFrom(c: Config, s: State, x: real) {
    Since(s.log.grants, x) as real + Level(c, s.bucket, s.log.clock) <= c.capacity + Accrued(c.rate, x, s.log.clock)
  }

  ghost predicate GrantsBounded(c: Config, s: State) {
    && UpTo(s.log.grants, s.log.clock)
    && BucketOk(c, s.bucket, s.log.clock)
    && forall x :: x <= s.log.clock ==> GrantsFrom(c, s, x)
  }

  // Time passes: the bound holds at `now` before the step acts.
  lemma GrantsAtNow(c: Config, s: State, now: real, x: real)
    requires FillsInTime(c.capacity, c.rate) && GrantsBounded(c, s) && s.log.clock <= now && x <= now
    ensures Since(s.log.grants, x) as real + Level(c, s.bucket, now) <= c.capacity + Accrued(c.rate, x, now)
  {
    hide Level, Since, BucketOk, Accrued, Refilled;
    if x <= s.log.clock {
      assert GrantsFrom(c, s, x);
      LevelDrifts(c, s.bucket, s.log.clock, now);
      AccruedAdds(c.rate, x, s.log.clock, now);
    } else {
      NoneSince(s.log.grants, x);
      ReadIsLevel(c, s.bucket, s.log.clock, now);
      AccruedGrows(c.rate, x, now);
    }
  }

  lemma GrantsKept(c: Config, s: State, a: Action)
    requires Enabled(c, s, a) && OnClock(s, a) && FillsInTime(c.capacity, c.rate) && GrantsBounded(c, s)
    ensures GrantsBounded(c, Next(c, s, a))
  {
    hide NextDb, NextCache, NextClients, NextSlots, NextHistories, Level, Since, KeyAfterCall, KeyGranted, Accrued, FillsInTime;
    var s' := Next(c, s, a);
    CallLowersLevel(c, s.bucket, s.log.clock, a.now);
    forall x | x <= s'.log.clock ensures GrantsFrom(c, s', x) {
      GrantsAtNow(c, s, a.now, x);
      SinceAppend(s.log.grants, a.now, x);
    }
  }

  // ---- Calls ----

  // Slots holding a grant they have not used.
  ghost function Holders(s: State): set<int> {
    set w | w in s.slots && s.slots[w].Busy? && s.slots[w].pc.CallModel?
  }

  ghost predicate CallsFrom(c: Config, s: State, x: real) {
    Since(s.log.calls, x) + |Holders(s)| <= c.slotLimit + Since(s.log.grants, x)
  }

  ghost predicate CallsBounded(c: Config, s: State) {
    && UpTo(s.log.calls, s.log.clock)
    && forall x :: CallsFrom(c, s, x)
  }

  lemma HoldersWithin(c: Config, s: State)
    requires SlotsWithin(c, s)
    ensures |Holders(s)| <= c.slotLimit
  {
    SubsetSize(Holders(s), s.slots.Keys);
  }

  // Every call gives up the grant its slot held, and only a grant makes a holder.
  lemma HoldersStep(c: Config, s: State, a: Action)
    requires Enabled(c, s, a)
    ensures CallsModel(s, a) ==> Holders(Next(c, s, a)) == Holders(s) - {a.w} && a.w in Holders(s) && !TakesGrant(c, s, a)
    ensures TakesGrant(c, s, a) ==> Holders(Next(c, s, a)) == Holders(s) + {a.w} && a.w !in Holders(s)
    ensures !CallsModel(s, a) && !TakesGrant(c, s, a) ==> Holders(Next(c, s, a)) <= Holders(s)
  {
    hide NextDb, NextCache, NextBucket, NextClients, NextLog, KeyGranted;
    var s' := Next(c, s, a);
    forall w | w in Holders(s') ensures w in Holders(s) || (TakesGrant(c, s, a) && w == a.w) {
    }
    if TakesGrant(c, s, a) {
      assert s'.slots[a.w].pc == CallModel;
    }
  }

  lemma CallsKept(c: Config, s: State, a: Action)
    requires Enabled(c, s, a) && OnClock(s, a) && SlotsWithin(c, s) && CallsBounded(c, s) && UpTo(s.log.grants, s.log.clock)
    ensures CallsBounded(c, Next(c, s, a))
  {
    hide NextDb, NextCache, NextClients, NextSlots, NextHistories, NextBucket, Holders, Since, TakesGrant;
    var s' := Next(c, s, a);
    SlotsWithinKept(c, s, a);
    HoldersWithin(c, s');
    HoldersStep(c, s, a);
    if !CallsModel(s, a) && !TakesGrant(c, s, a) {
      SubsetSize(Holders(s'), Holders(s));
    }
    forall x ensures CallsFrom(c, s', x) {
      assert CallsFrom(c, s, x);
      SinceAppend(s.log.calls, a.now, x);
      SinceAppend(s.log.grants, a.now, x);
      if a.now <= x {
        NoneSince(s'.log.calls, x);
      }
    }
  }

  // ---- Windows ----

  ghost predicate WindowOk(c: Config, s: State, x: real, y: real) {
    x <= y ==> Within(s.log.calls, x, y) as real <= c.capacity + Accrued(c.rate, x, y) + c.slotLimit as real
  }

  ghost predicate WindowsOk(c: Config, s: State) {
    forall x, y :: WindowOk(c, s, x, y)
  }

  ghost predicate BudgetOk(c: Config, s: State) {
    SlotsWithin(c, s) && GrantsBounded(c, s) && CallsBounded(c, s) && WindowsOk(c, s)
  }

  // A window that reaches the present is covered by the grants since its start.
  lemma RecentWindow(c: Config, s: State, x: real, y: real)
    requires FillsInTime(c.capacity, c.rate) && GrantsBounded(c, s) && CallsBounded(c, s) && x <= y && s.log.clock <= y
    ensures WindowOk(c, s, x, y)
  {
    hide Level, Since, Within, BucketOk, Accrued, Refilled;
    WithinSince(s.log.calls, x, y);
    if x <= s.log.clock {
      assert CallsFrom(c, s, x) && GrantsFrom(c, s, x);
      ReadIsLevel(c, s.bucket, s.log.clock, s.log.clock);
      AccruedAdds(c.rate, x, s.log.clock, y);
      AccruedGrows(c.rate, s.log.clock, y);
    } else {
      NoneSince(s.log.calls, x);
      AccruedGrows(c.rate, x, y);
    }
  }

  lemma WindowsKept(c: Config, s: State, a: Action)
    requires Enabled(c, s, a) && OnClock(s, a) && FillsInTime(c.capacity, c.rate) && BudgetOk(c, s)
    requires GrantsBounded(c, Next(c, s, a)) && CallsBounded(c, Next(c, s, a))
    ensures WindowsOk(c, Next(c, s, a))
  {
    hide NextDb, NextCache, NextClients, NextSlots, NextHistories, NextBucket, Within, GrantsBounded, CallsBounded, Accrued, FillsInTime;
    var s' := Next(c, s, a);
    forall x, y ensures WindowOk(c, s', x, y) {
      assert WindowOk(c, s, x, y);
      if a.now <= y {
        if x <= y {
          RecentWindow(c, s', x, y);
        }
      } else {
        SinceAppend(s.log.calls, a.now, x);
        assert Within(s.log.calls + [a.now], x, y) == Within(s.log.calls, x, y);
      }
    }
  }

  lemma BudgetKept(c: Config, s: State, a: Action)
    requires Enabled(c, s, a) && OnClock(s, a) && FillsInTime(c.capacity, c.rate) && BudgetOk(c, s)
    ensures BudgetOk(c, Next(c, s, a))
  {
    hide Next, GrantsBounded, CallsBounded, WindowsOk;
    SlotsWithinKept(c, s, a);
    GrantsKept(c, s, a);
    assert UpTo(s.log.grants, s.log.clock) by {
      UnfoldGrants(c, s);
    }
    CallsKept(c, s, a);
    WindowsKept(c, s, a);
  }

  lemma UnfoldGrants(c: Config, s: State)
    requires GrantsBounded(c, s)
    ensures UpTo(s.log.grants, s.log.clock)
  {
  }
}
