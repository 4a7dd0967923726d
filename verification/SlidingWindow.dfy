// The in-process guard behind the mock model: a deque of grant times.
module SlidingWindow {

  function CountSince(grants: seq<real>, cutoff: real): (n: nat)
    ensures n <= |grants|
  {
    if grants == [] then 0
    else CountSince(grants[..|grants| - 1], cutoff) + if grants[|grants| - 1] >= cutoff then 1 else 0
  }

  function CountIn(grants: seq<real>, from: real, to: real): nat {
    if grants == [] then 0
    else CountIn(grants[..|grants| - 1], from, to) + if from <= grants[|grants| - 1] <= to then 1 else 0
  }

  // The rule the guard is meant to follow, on the whole history of its grants.
  predicate Admits(limit: int, window: real, history: seq<real>, now: real) {
    CountSince(history, now - window) < limit
  }

  function Record(limit: int, window: real, history: seq<real>, now: real): seq<real> {
    if Admits(limit, window, history, now) then history + [now] else history
  }

  function HistoryOf(limit: int, window: real, stamps: seq<real>): seq<real> {
    if stamps == [] then []
    else Record(limit, window, HistoryOf(limit, window, stamps[..|stamps| - 1]), stamps[|stamps| - 1])
  }

  predicate Sorted(s: seq<real>) {
    forall i, j :: 0 <= i < j < |s| ==> s[i] <= s[j]
  }

  lemma {:induction false} CountSplit(a: seq<real>, b: seq<real>, cutoff: real)
    ensures CountSince(a + b, cutoff) == CountSince(a, cutoff) + CountSince(b, cutoff)
  {
    if b == [] {
      assert a + b == a;
    } else {
      assert (a + b)[..|a + b| - 1] == a + b[..|b| - 1];
      CountSplit(a, b[..|b| - 1], cutoff);
    }
  }

  lemma {:induction false} CountAll(s: seq<real>, cutoff: real)
    requires forall i :: 0 <= i < |s| ==> s[i] >= cutoff
    ensures CountSince(s, cutoff) == |s|
  {
    if s != [] {
      CountAll(s[..|s| - 1], cutoff);
    }
  }

  lemma {:induction false} CountNone(s: seq<real>, cutoff: real)
    requires forall i :: 0 <= i < |s| ==> s[i] < cutoff
    ensures CountSince(s, cutoff) == 0
  {
    if s != [] {
      CountNone(s[..|s| - 1], cutoff);
    }
  }

  lemma {:induction false} CountInWithin(s: seq<real>, from: real, to: real, cutoff: real)
    requires cutoff <= from
    ensures CountIn(s, from, to) <= CountSince(s, cutoff)
  {
    if s != [] {
      CountInWithin(s[..|s| - 1], from, to, cutoff);
    }
  }

  lemma Trimmed(popped: seq<real>, calls: seq<real>, cutoff: real)
    requires Sorted(popped + calls)
    requires forall i :: 0 <= i < |popped| ==> popped[i] < cutoff
    requires calls == [] || calls[0] >= cutoff
    ensures CountSince(popped + calls, cutoff) == |calls|
    ensures forall i :: 0 <= i < |calls| ==> calls[i] >= cutoff
  {
    var all := popped + calls;
    forall i | 0 <= i < |calls| ensures calls[i] >= cutoff {
      assert calls[0] == all[|popped|] && calls[i] == all[|popped| + i];
    }
    CountSplit(popped, calls, cutoff);
    CountNone(popped, cutoff);
    CountAll(calls, cutoff);
  }

  predicate UpTo(s: seq<real>, now: real) {
    forall i :: 0 <= i < |s| ==> s[i] <= now
  }

  lemma Appended(s: seq<real>, before: real, now: real)
    requires Sorted(s) && UpTo(s, before) && before <= now
    ensures UpTo(s, now) && Sorted(s + [now]) && UpTo(s + [now], now)
  {
  }

  // Whatever the stamps, a closed interval as long as the window holds at most
  // `limit` grants.
  lemma {:induction false} WindowBound(limit: nat, window: real, stamps: seq<real>, from: real)
    ensures CountIn(HistoryOf(limit, window, stamps), from, from + window) <= limit
  {
    if stamps != [] {
      var n := |stamps| - 1;
      var before, now := HistoryOf(limit, window, stamps[..n]), stamps[n];
      WindowBound(limit, window, stamps[..n], from);
      if Admits(limit, window, before, now) {
        assert (before + [now])[..|before|] == before;
        if from <= now <= from + window {
          CountInWithin(before, from, from + window, now - window);
        }
      }
    }
  }

  class SlidingWindowGuard {
    const limit: int
    const window: real
    var calls: seq<real>
    // Every grant ever made, what has been popped of it, and the last call's time.
    ghost var history: seq<real>
    ghost var popped: seq<real>
    ghost var lastSeen: real

    ghost predicate Valid()
      reads this
    {
      && history == popped + calls
      && Sorted(history)
      && (forall i :: 0 <= i < |popped| ==> popped[i] < lastSeen - window)
      && UpTo(history, lastSeen)
    }

    constructor (limit: int, window: real, ghost start: real)
      ensures Valid() && this.limit == limit && this.window == window
      ensures history == [] && lastSeen == start
    {
      this.limit, this.window := limit, window;
      calls, history, popped, lastSeen := [], [], [], start;
    }

    // The deque answers exactly as a count over the full history would, and keeps
    // exactly the grants that are not older than the window.
    method TryAcquire(now: real) returns (ok: bool)
      requires Valid() && lastSeen <= now
      modifies this
      ensures Valid() && lastSeen == now
      ensures ok == Admits(limit, window, old(history), now)
      ensures ok <==> CountSince(old(history), now - window) < limit
      ensures history == Record(limit, window, old(history), now)
      ensures forall i :: 0 <= i < |calls| ==> calls[i] >= now - window || (ok && i == |calls| - 1)
    {
      hide Sorted, UpTo;
      var cutoff := now - window;
      Appended(history, lastSeen, now);
      while calls != [] && calls[0] < cutoff
        invariant history == old(history) && history == popped + calls
        invariant forall i :: 0 <= i < |popped| ==> popped[i] < cutoff
        invariant lastSeen == old(lastSeen)
        decreases |calls|
      {
        assert popped + calls == (popped + [calls[0]]) + calls[1..];
        popped, calls := popped + [calls[0]], calls[1..];
      }
      Trimmed(popped, calls, cutoff);
      lastSeen := now;
      ok := |calls| < limit;
      if ok {
        assert popped + (calls + [now]) == history + [now];
        calls, history := calls + [now], history + [now];
      }
    }
  }
}
