// The two rate limiters and the guarded mock model, as the objects they are.
module Limiters {
  import opened RealArith
  import opened Rows
  import opened TokenBucket
  import opened SlidingWindow
  import opened Machine

  class InMemoryTokenBucketLimiter {
    const capacity: real
    const rate: real
    var tokens: real
    var lastRefill: real

    constructor (capacity: real, rate: real, now: real)
      ensures this.capacity == capacity && this.rate == rate
      ensures Content() == Bucket(capacity, now)
    {
      this.capacity, this.rate := capacity, rate;
      tokens, lastRefill := capacity, now;
    }

    function Content(): Bucket
      reads this
    {
      Bucket(tokens, lastRefill)
    }

    method TryAcquire(now: real) returns (ok: bool)
      modifies this
      ensures ok == Granted(capacity, rate, old(Content()), now)
      ensures Content() == AfterCall(capacity, rate, old(Content()), now)
    {
      hide Accrued;
      tokens := Min(capacity, tokens + Accrued(rate, lastRefill, now));
      lastRefill := now;
      if tokens >= 1.0 {
        tokens := tokens - 1.0;
        return true;
      }
      return false;
    }
  }

  // What a caller sees: an answer, or an exception with no token to use.
  datatype Reply = Answered(granted: bool) | Unavailable(fault: Fault)

  class RedisTokenBucketLimiter {
    const capacity: real
    const rate: real
    var key: Key

    constructor (capacity: real, rate: real)
      ensures this.capacity == capacity && this.rate == rate && key == Missing
    {
      this.capacity, this.rate, key := capacity, rate, Missing;
    }

    // The script runs atomically; the connection may fail before it or lose its reply.
    method TryAcquire(now: real, link: RedisOutcome) returns (reply: Reply)
      modifies this
      ensures key == if link.Unreachable? then old(key) else KeyAfterCall(capacity, rate, old(key), now)
      ensures reply == match link
                       case Answer => Answered(KeyGranted(capacity, rate, old(key), now))
                       case ReplyLost(e) => Unavailable(Fault(RedisUnavailable, e))
                       case Unreachable(e) => Unavailable(Fault(RedisUnavailable, e))
    {
      hide Accrued;
      if link.Unreachable? {
        return Unavailable(Fault(RedisUnavailable, link.error));
      }
      var tokens, last := capacity, now;
      if key.Present? && now < key.expiresAt {
        tokens, last := key.bucket.tokens, key.bucket.last;
      }
      tokens := Min(capacity, tokens + Accrued(rate, last, now));
      var granted := tokens >= 1.0;
      if granted {
        tokens := tokens - 1.0;
      }
      key := Present(Bucket(tokens, now), now + ExpirySeconds);
      return if link.Answer? then Answered(granted) else Unavailable(Fault(RedisUnavailable, link.error));
    }
  }

  class MockLLMProvider {
    const guard: SlidingWindowGuard

    constructor (rateLimit: int, ghost start: real)
      ensures guard.Valid() && guard.limit == rateLimit && guard.window == 60.0 && guard.history == []
    {
      guard := new SlidingWindowGuard(rateLimit, 60.0, start);
    }

    // A refusal by the guard asks for 0.2 seconds; otherwise the call fails at random or
    // answers with whatever the model generates.
    method Complete(now: real, failsAtRandom: bool, generated: string) returns (outcome: ModelOutcome)
      requires guard.Valid() && guard.lastSeen <= now
      modifies guard
      ensures guard.Valid() && guard.lastSeen == now
      ensures outcome == if !Admits(guard.limit, guard.window, old(guard.history), now)
                         then Raised(Fault(RateLimitExceeded(0.2), "Rate limit exceeded; retry after 0.20s"))
                         else if failsAtRandom then Raised(Fault(LlmRandomFailure, "Mock LLM random failure"))
                         else Response(generated)
      ensures guard.history == Record(guard.limit, guard.window, old(guard.history), now)
    {
      var ok := guard.TryAcquire(now);
      if !ok {
        return Raised(Fault(RateLimitExceeded(0.2), "Rate limit exceeded; retry after 0.20s"));
      }
      if failsAtRandom {
        return Raised(Fault(LlmRandomFailure, "Mock LLM random failure"));
      }
      return Response(generated);
    }
  }
}
