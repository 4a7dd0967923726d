// The token bucket that meters calls to the language model: the Redis script
// with its key expiry, and its in-memory twin.  Time and tokens are reals.
module TokenBucket {
  import opened RealArith

  datatype Bucket = Bucket(tokens: real, last: real)

  function Min(a: real, b: real): real {
    if a <= b then a else b
  }

  function Refilled(capacity: real, rate: real, b: Bucket, now: real): real {
    Min(capacity, b.tokens + Accrued(rate, b.last, now))
  }

  // One call: refill for the time elapsed, then take a token if there is one.
  function Granted(capacity: real, rate: real, b: Bucket, now: real): bool {
    Refilled(capacity, rate, b, now) >= 1.0
  }

  function AfterCall(capacity: real, rate: real, b: Bucket, now: real): Bucket {
    var tokens := Refilled(capacity, rate, b, now);
    Bucket(if tokens >= 1.0 then tokens - 1.0 else tokens, now)
  }

  function WaitTime(rate: real): real
    requires rate != 0.0
  {
    1.0 / rate
  }

  // The Redis key: absent, or a bucket that expires at some time.
  datatype Key = Missing | Present(bucket: Bucket, expiresAt: real)

  const ExpirySeconds := 120.0

  // A missing or expired key reads as a full bucket refilled right now.
  function Read(capacity: real, key: Key, now: real): Bucket {
    if key.Missing? || key.expiresAt <= now then Bucket(capacity, now) else key.bucket
  }

  function KeyGranted(capacity: real, rate: real, key: Key, now: real): bool {
    Granted(capacity, rate, Read(capacity, key, now), now)
  }

  function KeyAfterCall(capacity: real, rate: real, key: Key, now: real): Key {
    Present(AfterCall(capacity, rate, Read(capacity, key, now), now), now + ExpirySeconds)
  }

  // ---- Sequences of calls ----

  function After(capacity: real, rate: real, b: Bucket, calls: seq<real>): Bucket {
    if calls == [] then b
    else AfterCall(capacity, rate, After(capacity, rate, b, calls[..|calls| - 1]), calls[|calls| - 1])
  }

  predicate GrantedAt(capacity: real, rate: real, b: Bucket, calls: seq<real>, i: nat)
    requires i < |calls|
  {
    Granted(capacity, rate, After(capacity, rate, b, calls[..i]), calls[i])
  }

  function Grants(capacity: real, rate: real, b: Bucket, calls: seq<real>): nat {
    if calls == [] then 0
    else
      var n := |calls| - 1;
      Grants(capacity, rate, b, calls[..n]) +
      if Granted(capacity, rate, After(capacity, rate, b, calls[..n]), calls[n]) then 1 else 0
  }

  function KeyAfter(capacity: real, rate: real, key: Key, calls: seq<real>): Key {
    if calls == [] then key
    else KeyAfterCall(capacity, rate, KeyAfter(capacity, rate, key, calls[..|calls| - 1]), calls[|calls| - 1])
  }

  predicate KeyGrantedAt(capacity: real, rate: real, key: Key, calls: seq<real>, i: nat)
    requires i < |calls|
  {
    KeyGranted(capacity, rate, KeyAfter(capacity, rate, key, calls[..i]), calls[i])
  }

  predicate Monotone(calls: seq<real>) {
    forall i, j :: 0 <= i < j < |calls| ==> calls[i] <= calls[j]
  }

  lemma RefillOfNow(capacity: real, rate: real, tokens: real, now: real)
    ensures Refilled(capacity, rate, Bucket(tokens, now), now) == Min(capacity, tokens)
  {
    hide Accrued;
    AccruedNothing(rate, now);
  }

  predicate FillsInTime(capacity: real, rate: real) {
    rate >= 0.0 && 0.0 <= capacity <= ExpirySeconds * rate
  }

  lemma RefilledRange(capacity: real, rate: real, b: Bucket, now: real)
    requires rate >= 0.0 && 0.0 <= b.tokens <= capacity && b.last <= now
    ensures 0.0 <= Refilled(capacity, rate, b, now) <= capacity
    ensures FillsInTime(capacity, rate) && ExpirySeconds <= now - b.last ==> Refilled(capacity, rate, b, now) == capacity
  {
    hide Accrued;
    AccruedGrows(rate, b.last, now);
    if ExpirySeconds <= now - b.last {
      AccruedLong(rate, ExpirySeconds, b.last, now);
    }
  }

  // ---- Bounds, whatever the clock does ----

  function Taken(capacity: real, rate: real, b: Bucket, now: real): real {
    if Granted(capacity, rate, b, now) then 1.0 else 0.0
  }

  // One call hands out what it takes, and refills by the time elapsed at most.
  lemma CallConserves(capacity: real, rate: real, b: Bucket, now: real)
    ensures AfterCall(capacity, rate, b, now).tokens + Taken(capacity, rate, b, now) <= capacity
    ensures AfterCall(capacity, rate, b, now).tokens + Taken(capacity, rate, b, now) <= b.tokens + Accrued(rate, b.last, now)
    ensures AfterCall(capacity, rate, b, now).last == now
  {
  }

  // What is left plus what was granted never exceeds the capacity and the refill
  // between the first and the last stamp, even if stamps run backwards.
  lemma {:induction false} Conservation(capacity: real, rate: real, b: Bucket, calls: seq<real>)
    requires calls != []
    ensures After(capacity, rate, b, calls).tokens + Grants(capacity, rate, b, calls) as real
         <= capacity + Accrued(rate, calls[0], calls[|calls| - 1])
    ensures After(capacity, rate, b, calls).last == calls[|calls| - 1]
  {
    hide Granted, AfterCall, Accrued;
    var n := |calls| - 1;
    var front := calls[..n];
    CallConserves(capacity, rate, After(capacity, rate, b, front), calls[n]);
    if n == 0 {
      AccruedNothing(rate, calls[0]);
    } else {
      Conservation(capacity, rate, b, front);
      AccruedAdds(rate, calls[0], calls[n - 1], calls[n]);
    }
  }

  // In any consecutive block of calls, from any bucket whatever, the grants up to
  // a granted call are bounded by capacity + rate * (its stamp - first stamp).
  lemma GrantBound(capacity: real, rate: real, b: Bucket, calls: seq<real>, k: nat)
    requires k < |calls| && GrantedAt(capacity, rate, b, calls, k)
    ensures Grants(capacity, rate, b, calls[..k + 1]) as real <= capacity + Accrued(rate, calls[0], calls[k])
  {
    hide Accrued, Grants;
    var block := calls[..k + 1];
    assert block[..k] == calls[..k];
    assert block[0] == calls[0] && block[k] == calls[k];
    Conservation(capacity, rate, b, block);
  }

  lemma {:induction false} NothingAfterLastGrant(capacity: real, rate: real, b: Bucket, calls: seq<real>, k: nat)
    requires k <= |calls|
    requires forall i :: k <= i < |calls| ==> !GrantedAt(capacity, rate, b, calls, i)
    ensures Grants(capacity, rate, b, calls) == Grants(capacity, rate, b, calls[..k])
  {
    if k == |calls| {
      assert calls[..k] == calls;
    } else {
      var n := |calls| - 1;
      assert !GrantedAt(capacity, rate, b, calls, n);
      forall i | k <= i < n ensures !GrantedAt(capacity, rate, b, calls[..n], i) {
        assert calls[..n][..i] == calls[..i];
        assert !GrantedAt(capacity, rate, b, calls, i);
      }
      NothingAfterLastGrant(capacity, rate, b, calls[..n], k);
      assert calls[..n][..k] == calls[..k];
    }
  }

  // ---- Monotone clocks ----

  lemma {:induction false} TokensInRange(capacity: real, rate: real, b: Bucket, calls: seq<real>)
    requires rate >= 0.0 && 0.0 <= b.tokens <= capacity
    requires Monotone([b.last] + calls)
    ensures 0.0 <= After(capacity, rate, b, calls).tokens <= capacity
    ensures After(capacity, rate, b, calls).last == ([b.last] + calls)[|calls|]
  {
    hide Refilled;
    if calls != [] {
      var n := |calls| - 1;
      assert [b.last] + calls[..n] == ([b.last] + calls)[..n + 1];
      assert ([b.last] + calls)[n] <= ([b.last] + calls)[n + 1];
      TokensInRange(capacity, rate, b, calls[..n]);
      RefilledRange(capacity, rate, After(capacity, rate, b, calls[..n]), calls[n]);
    }
  }

  // A caller denied now is served after the advertised wait if nobody else calls.
  lemma DeniedThenServed(capacity: real, rate: real, b: Bucket, now: real)
    requires rate > 0.0 && capacity >= 1.0 && 0.0 <= b.tokens && b.last <= now
    requires !Granted(capacity, rate, b, now)
    ensures Granted(capacity, rate, AfterCall(capacity, rate, b, now), now + WaitTime(rate))
  {
    hide Accrued;
    AccruedGrows(rate, b.last, now);
    AccruedQuotient(rate, now, 1.0);
  }

  // From an empty bucket no shorter wait will do.
  lemma WaitIsExact(capacity: real, rate: real, now: real, wait: real)
    requires rate > 0.0 && capacity >= 1.0 && wait >= 0.0
    ensures Granted(capacity, rate, Bucket(0.0, now), now + wait) <==> wait >= WaitTime(rate)
  {
    assert Accrued(rate, now, now + wait) == rate * wait;
    if wait >= 1.0 / rate {
      assert rate * wait >= rate * (1.0 / rate) == 1.0;
    } else {
      assert rate * wait < rate * (1.0 / rate) == 1.0;
    }
  }

  // A burst of `capacity` calls at time zero, then one call every 1/rate seconds.
  function Greedy(rate: real, burst: nat, extra: nat): seq<real>
    requires rate > 0.0
  {
    seq(burst + extra, i requires 0 <= i < burst + extra => if i < burst then 0.0 else (i - burst + 1) as real / rate)
  }

  lemma {:induction false} GreedyState(rate: real, burst: nat, n: nat, extra: nat)
    requires rate > 0.0 && 1 <= burst && n <= burst + extra
    ensures var calls := Greedy(rate, burst, extra)[..n];
            var full := Bucket(burst as real, 0.0);
            && Grants(burst as real, rate, full, calls) == n
            && After(burst as real, rate, full, calls)
               == Bucket(if n <= burst then (burst - n) as real else 0.0, if n <= burst then 0.0 else (n - burst) as real / rate)
  {
    hide Granted, AfterCall, Accrued;
    if n > 0 {
      GreedyState(rate, burst, n - 1, extra);
      var all := Greedy(rate, burst, extra);
      assert all[..n][..n - 1] == all[..n - 1] && all[..n][n - 1] == all[n - 1];
      if n <= burst {
        GreedyStep(burst as real, rate, (burst - n + 1) as real, 0.0, 0.0);
      } else {
        GreedyGap(rate, n - 1 - burst);
        GreedyStep(burst as real, rate, 0.0, (n - 1 - burst) as real / rate, (n - burst) as real / rate);
      }
    }
  }

  // A bucket that reaches exactly one more whole token is granted and gives it up.
  lemma GreedyStep(capacity: real, rate: real, tokens: real, last: real, now: real)
    requires (now == last && 1.0 <= tokens <= capacity) || (now != last && tokens == 0.0 && capacity >= 1.0 && Accrued(rate, last, now) == 1.0)
    ensures Granted(capacity, rate, Bucket(tokens, last), now)
    ensures AfterCall(capacity, rate, Bucket(tokens, last), now) == Bucket(if now == last then tokens - 1.0 else 0.0, now)
  {
    hide Accrued;
    AccruedNothing(rate, now);
  }

  lemma GreedyGap(rate: real, k: nat)
    requires rate > 0.0
    ensures Accrued(rate, k as real / rate, (k + 1) as real / rate) == 1.0
    ensures k as real / rate != (k + 1) as real / rate
    ensures k == 0 ==> k as real / rate == 0.0
  {
    QuotientStep(k as real, (k + 1) as real, rate);
    AccruedNothing(rate, k as real / rate);
  }

  lemma GreedyMonotone(rate: real, burst: nat, extra: nat)
    requires rate > 0.0
    ensures Monotone(Greedy(rate, burst, extra))
  {
    var calls := Greedy(rate, burst, extra);
    forall i, j | 0 <= i < j < |calls| ensures calls[i] <= calls[j] {
      var lo := if i < burst then 0 else i - burst + 1;
      var hi := if j < burst then 0 else j - burst + 1;
      QuotientMonotone(lo as real, hi as real, rate);
      GreedyGap(rate, 0);
    }
  }

  lemma GreedyEnds(rate: real, burst: nat, extra: nat)
    requires rate > 0.0 && 1 <= burst && 1 <= extra
    ensures var calls := Greedy(rate, burst, extra);
            |calls| == burst + extra && calls[0] == 0.0 && Accrued(rate, calls[0], calls[|calls| - 1]) == extra as real
  {
  }

  // The bound is attained: more than `capacity` calls go through in a window, by
  // exactly the refill.
  lemma BoundAttained(rate: real, burst: nat, extra: nat)
    requires rate > 0.0 && 1 <= burst && 1 <= extra
    ensures var calls := Greedy(rate, burst, extra);
            && Monotone(calls) && calls[0] == 0.0
            && Grants(burst as real, rate, Bucket(burst as real, 0.0), calls) as real
               == burst as real + Accrued(rate, calls[0], calls[|calls| - 1])
  {
    hide *;
    GreedyMonotone(rate, burst, extra);
    GreedyEnds(rate, burst, extra);
    GreedyState(rate, burst, burst + extra, extra);
    var calls := Greedy(rate, burst, extra);
    assert calls[..burst + extra] == calls;
  }

  // ---- Expiry changes nothing ----

  // The key stands for the bucket b at every time from `since` on: it still holds b,
  // or it has been idle long enough for b to be full again.
  predicate Mirrors(capacity: real, rate: real, key: Key, b: Bucket) {
    && 0.0 <= b.tokens <= capacity
    && match key
       case Missing => b.tokens == capacity
       case Present(k, expiresAt) => k == b && expiresAt == b.last + ExpirySeconds
  }

  lemma OneCallAgrees(capacity: real, rate: real, key: Key, b: Bucket, now: real)
    requires FillsInTime(capacity, rate)
    requires Mirrors(capacity, rate, key, b) && b.last <= now
    ensures KeyGranted(capacity, rate, key, now) == Granted(capacity, rate, b, now)
    ensures Mirrors(capacity, rate, KeyAfterCall(capacity, rate, key, now), AfterCall(capacity, rate, b, now))
    ensures AfterCall(capacity, rate, b, now).last == now
  {
    hide Refilled, FillsInTime;
    assert rate >= 0.0 by {
      RateOf(capacity, rate);
    }
    RefillOfNow(capacity, rate, capacity, now);
    RefilledRange(capacity, rate, b, now);
    if key.Missing? {
      FullStaysFull(capacity, rate, b, now);
    }
  }

  lemma RateOf(capacity: real, rate: real)
    requires FillsInTime(capacity, rate)
    ensures rate >= 0.0
  {
  }

  lemma FullStaysFull(capacity: real, rate: real, b: Bucket, now: real)
    requires rate >= 0.0 && b.tokens == capacity && b.last <= now
    ensures Refilled(capacity, rate, b, now) == capacity
  {
    hide Accrued;
    AccruedGrows(rate, b.last, now);
  }

  // On one monotone clock the script with its expiry and its defaults grants and
  // denies exactly as the in-memory bucket does, call by call.
  lemma {:induction false} ExpiryRefines(capacity: real, rate: real, start: real, calls: seq<real>)
    requires FillsInTime(capacity, rate)
    requires Monotone([start] + calls)
    ensures Mirrors(capacity, rate, KeyAfter(capacity, rate, Missing, calls), After(capacity, rate, Bucket(capacity, start), calls))
    ensures After(capacity, rate, Bucket(capacity, start), calls).last == ([start] + calls)[|calls|]
    ensures forall i :: 0 <= i < |calls| ==>
              KeyGrantedAt(capacity, rate, Missing, calls, i) == GrantedAt(capacity, rate, Bucket(capacity, start), calls, i)
  {
    hide Granted, AfterCall, KeyGranted, KeyAfterCall;
    if calls != [] {
      var n := |calls| - 1;
      var front := calls[..n];
      assert [start] + front == ([start] + calls)[..n + 1];
      ExpiryRefines(capacity, rate, start, front);
      assert ([start] + calls)[n] <= ([start] + calls)[n + 1];
      OneCallAgrees(capacity, rate, KeyAfter(capacity, rate, Missing, front), After(capacity, rate, Bucket(capacity, start), front), calls[n]);
      forall i | 0 <= i < |calls|
        ensures KeyGrantedAt(capacity, rate, Missing, calls, i) == GrantedAt(capacity, rate, Bucket(capacity, start), calls, i)
      {
        if i < n {
          assert front[..i] == calls[..i];
          assert KeyGrantedAt(capacity, rate, Missing, front, i) == GrantedAt(capacity, rate, Bucket(capacity, start), front, i);
        }
      }
    }
  }

  // Outside that range the two differ.  For a capacity of whole tokens the script
  // agrees with the in-memory bucket on every monotone sequence of calls exactly
  // when the bucket fills up within the expiry.
  predicate AgreeAt(capacity: real, rate: real, calls: seq<real>, i: nat) {
    Monotone([0.0] + calls) && i < |calls| ==>
      KeyGrantedAt(capacity, rate, Missing, calls, i) == GrantedAt(capacity, rate, Bucket(capacity, 0.0), calls, i)
  }

  ghost predicate AlwaysAgree(capacity: real, rate: real) {
    forall calls, i: nat :: AgreeAt(capacity, rate, calls, i)
  }

  lemma ExpiryRefinesIff(capacity: nat, rate: real)
    requires rate >= 0.0
    ensures AlwaysAgree(capacity as real, rate) <==> capacity as real <= 120.0 * rate
  {
    hide KeyGrantedAt, GrantedAt;
    if capacity as real <= ExpirySeconds * rate {
      var c := capacity as real;
      forall calls, i: nat ensures AgreeAt(c, rate, calls, i) {
        if Monotone([0.0] + calls) {
          ExpiryRefines(c, rate, 0.0, calls);
        }
      }
    } else {
      var i := ExpiryShowsThrough(capacity, rate);
      assert !AgreeAt(capacity as real, rate, TwoBursts(capacity), i);
    }
  }

  // Drain the bucket at time zero and again when the key has just expired.
  function TwoBursts(capacity: nat): seq<real> {
    seq(2 * capacity, i => if i < capacity then 0.0 else ExpirySeconds)
  }

  lemma {:induction false} ExpiredKeyServesTwice(capacity: nat, rate: real, n: nat)
    requires n <= 2 * capacity
    ensures var key := KeyAfter(capacity as real, rate, Missing, TwoBursts(capacity)[..n]);
            if n == 0 then key == Missing
            else if n <= capacity then key == Present(Bucket((capacity - n) as real, 0.0), ExpirySeconds)
            else key == Present(Bucket((2 * capacity - n) as real, ExpirySeconds), ExpirySeconds + ExpirySeconds)
    ensures n < 2 * capacity ==> KeyGrantedAt(capacity as real, rate, Missing, TwoBursts(capacity), n)
  {
    if n > 0 {
      ExpiredKeyServesTwice(capacity, rate, n - 1);
      var calls := TwoBursts(capacity);
      assert calls[..n][..n - 1] == calls[..n - 1] && calls[..n][n - 1] == calls[n - 1];
    }
  }

  lemma {:induction false} AllGranted(capacity: real, rate: real, b: Bucket, calls: seq<real>)
    requires forall i :: 0 <= i < |calls| ==> GrantedAt(capacity, rate, b, calls, i)
    ensures Grants(capacity, rate, b, calls) == |calls|
  {
    if calls != [] {
      var n := |calls| - 1;
      assert GrantedAt(capacity, rate, b, calls, n);
      forall i | 0 <= i < n ensures GrantedAt(capacity, rate, b, calls[..n], i) {
        assert calls[..n][..i] == calls[..i];
        assert GrantedAt(capacity, rate, b, calls, i);
      }
      AllGranted(capacity, rate, b, calls[..n]);
    }
  }

  lemma AccruedOf(rate: real, span: real)
    ensures Accrued(rate, 0.0, span) == span * rate
  {
  }

  lemma ExpiryShowsThrough(capacity: nat, rate: real) returns (i: nat)
    requires rate >= 0.0 && capacity as real > ExpirySeconds * rate
    ensures var calls := TwoBursts(capacity);
            && Monotone([0.0] + calls) && i < |calls|
            && KeyGrantedAt(capacity as real, rate, Missing, calls, i)
            && !GrantedAt(capacity as real, rate, Bucket(capacity as real, 0.0), calls, i)
  {
    var c, calls := capacity as real, TwoBursts(capacity);
    var b := Bucket(c, 0.0);
    hide Accrued;
    AccruedLong(rate, 0.0, 0.0, ExpirySeconds);
    assert Accrued(rate, 0.0, ExpirySeconds) == ExpirySeconds * rate by {
      AccruedOf(rate, ExpirySeconds);
    }
    Conservation(c, rate, b, calls);
    TokensInRange(c, rate, b, calls);
    if forall k :: 0 <= k < |calls| ==> GrantedAt(c, rate, b, calls, k) {
      AllGranted(c, rate, b, calls);
    }
    i :| 0 <= i < |calls| && !GrantedAt(c, rate, b, calls, i);
    ExpiredKeyServesTwice(capacity, rate, i);
  }
}
