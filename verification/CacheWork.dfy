// Duplicate work around the semantic cache, in every run: a stored answer never changes,
// and once it is there only pipelines already past their lookup can still ask the model
// or try to store for the same text.
module CacheWork {
  import opened AutoId
  import opened Machine
  import opened Structure

  predicate BeforeCall(pc: Pc) {
    pc.LookupNearest? || pc.TakeToken? || pc.CallModel?
  }

  predicate BeforeStore(pc: Pc) {
    BeforeCall(pc) || pc.AwaitModel? || pc.StoreAnswer?
  }

  // Slots that missed the exact lookup for this key and may still call, or still store.
  ghost function Callers(c: Config, s: State, key: Digest): set<int> {
    set w | w in s.slots && s.slots[w].Busy? && KeyOf(c, s.slots[w]) == key && BeforeCall(s.slots[w].pc)
  }

  ghost function Storers(c: Config, s: State, key: Digest): set<int> {
    set w | w in s.slots && s.slots[w].Busy? && KeyOf(c, s.slots[w]) == key && BeforeStore(s.slots[w].pc)
  }

  // First writer wins: an entry keeps its text, its vector and its answer.
  lemma EntryNeverChanges(c: Config, s: State, a: Action, key: Digest)
    requires Enabled(c, s, a) && key in s.cache
    ensures key in Next(c, s, a).cache
    ensures Next(c, s, a).cache[key].(hits := 0) == s.cache[key].(hits := 0)
    ensures Next(c, s, a).cache[key].hits >= s.cache[key].hits
  {
  }

  // Once the key is cached, a slot on its way to the model was on its way before, with the
  // same claim: no lookup that starts later leads there.
  lemma NoNewWork(c: Config, s: State, a: Action, key: Digest, w: int)
    requires Enabled(c, s, a) && key in s.cache
    ensures w in Callers(c, Next(c, s, a), key) ==> w in Callers(c, s, key) && SameClaim(s.slots[w], Next(c, s, a).slots[w])
    ensures w in Storers(c, Next(c, s, a), key) ==> w in Storers(c, s, key) && SameClaim(s.slots[w], Next(c, s, a).slots[w])
  {
    hide NextDb, NextCache, NextBucket, NextClients, NextLog, NextSlots;
    if w in Storers(c, Next(c, s, a), key) {
      SlotOrigin(c, s, a, w);
      PastLookup(c, s, a, key, w);
    }
  }

  lemma PastLookup(c: Config, s: State, a: Action, key: Digest, w: int)
    requires Enabled(c, s, a) && key in s.cache && IsBusy(s, w) && IsBusy(Next(c, s, a), w)
    requires KeyOf(c, s.slots[w]) == key
    ensures BeforeCall(Next(c, s, a).slots[w].pc) ==> BeforeCall(s.slots[w].pc)
    ensures BeforeStore(Next(c, s, a).slots[w].pc) ==> BeforeStore(s.slots[w].pc)
  {
    hide NextDb, NextCache, NextBucket, NextClients, NextLog;
  }

  // The step that calls, or stores, takes its slot out of the set.
  lemma WorkIsUsedUp(c: Config, s: State, a: Action, key: Digest)
    requires Enabled(c, s, a) && a.Advance? && KeyOf(c, s.slots[a.w]) == key
    ensures s.slots[a.w].pc.CallModel? ==> a.w in Callers(c, s, key) && a.w !in Callers(c, Next(c, s, a), key)
    ensures s.slots[a.w].pc.StoreAnswer? ==> a.w in Storers(c, s, key) && a.w !in Storers(c, Next(c, s, a), key)
  {
    hide NextDb, NextCache, NextBucket, NextClients, NextLog;
  }

  ghost predicate SlotsWithin(c: Config, s: State) {
    |s.slots| <= c.slotLimit
  }

  lemma SlotNames(c: Config, s: State, a: Action)
    requires Enabled(c, s, a)
    ensures NextSlots(c, s, a).Keys ==
      if a.Spawn? then s.slots.Keys + {a.w} else if a.Crash? then s.slots.Keys - {a.w} else s.slots.Keys
  {
    hide NextPc;
  }

  lemma SlotsWithinKept(c: Config, s: State, a: Action)
    requires Enabled(c, s, a) && SlotsWithin(c, s)
    ensures SlotsWithin(c, Next(c, s, a))
  {
    hide NextDb, NextCache, NextBucket, NextClients, NextLog, NextSlots;
    SlotNames(c, s, a);
    var names, names' := s.slots.Keys, NextSlots(c, s, a).Keys;
    assert |names| == |s.slots| && |names'| == |NextSlots(c, s, a)|;
    if !a.Spawn? {
      SubsetSize(names', names);
    }
  }

  // What has been done late plus what can still be done late is below the number of slots.
  ghost predicate LateWorkBounded(c: Config, s: State, key: Digest) {
    if key in s.cache then
      && Count(s.log.lateCalls, key) + |Callers(c, s, key)| <= c.slotLimit - 1
      && Count(s.log.lateStores, key) + |Storers(c, s, key)| <= c.slotLimit - 1
    else Count(s.log.lateCalls, key) == 0 && Count(s.log.lateStores, key) == 0
  }

  ghost predicate CacheWorkOk(c: Config, s: State) {
    SlotsWithin(c, s) && forall key :: LateWorkBounded(c, s, key)
  }

  lemma SubsetSize<T>(a: set<T>, b: set<T>)
    requires a <= b
    ensures |a| <= |b|
  {
    assert b == a + (b - a);
  }

  lemma CallersMayStore(c: Config, s: State, key: Digest)
    ensures Callers(c, s, key) <= Storers(c, s, key)
  {
    forall w | w in Callers(c, s, key) ensures w in Storers(c, s, key) {
    }
  }

  // The first store leaves the others: at most all slots but the one that stored.
  lemma FirstStore(c: Config, s: State, a: Action, key: Digest)
    requires Enabled(c, s, a) && SlotsWithin(c, s) && key !in s.cache && key in Next(c, s, a).cache
    ensures |Callers(c, Next(c, s, a), key)| <= c.slotLimit - 1 && |Storers(c, Next(c, s, a), key)| <= c.slotLimit - 1
  {
    hide NextDb, NextBucket, NextClients, NextLog;
    var s' := Next(c, s, a);
    assert a.Advance? && s.slots[a.w].pc.StoreAnswer? && KeyOf(c, s.slots[a.w]) == key;
    WorkIsUsedUp(c, s, a, key);
    assert s'.slots.Keys == s.slots.Keys;
    SubsetSize(Storers(c, s', key), s.slots.Keys - {a.w});
    CallersMayStore(c, s', key);
    SubsetSize(Callers(c, s', key), Storers(c, s', key));
  }

  lemma LateStep(c: Config, s: State, a: Action, key: Digest)
    requires Enabled(c, s, a) && CacheWorkOk(c, s) && key in s.cache
    ensures LateWorkBounded(c, Next(c, s, a), key)
  {
    hide NextDb, NextCache, NextBucket, NextClients, NextSlots, Callers, Storers, NextHistories;
    var s' := Next(c, s, a);
    assert LateWorkBounded(c, s, key);
    EntryNeverChanges(c, s, a, key);
    forall w | w in Callers(c, s', key) ensures w in Callers(c, s, key) {
      NoNewWork(c, s, a, key, w);
    }
    forall w | w in Storers(c, s', key) ensures w in Storers(c, s, key) {
      NoNewWork(c, s, a, key, w);
    }
    SubsetSize(Callers(c, s', key), Callers(c, s, key));
    SubsetSize(Storers(c, s', key), Storers(c, s, key));
    if a.Advance? && KeyOf(c, s.slots[a.w]) == key {
      WorkIsUsedUp(c, s, a, key);
      if CallsModel(s, a) {
        SubsetSize(Callers(c, s', key), Callers(c, s, key) - {a.w});
      }
      if StoresAnswer(s, a) {
        SubsetSize(Storers(c, s', key), Storers(c, s, key) - {a.w});
      }
    }
  }

  lemma CountsUntouched(c: Config, s: State, a: Action, key: Digest)
    requires Enabled(c, s, a) && key !in s.cache
    ensures Count(NextLog(c, s, a).lateCalls, key) == Count(s.log.lateCalls, key)
    ensures Count(NextLog(c, s, a).lateStores, key) == Count(s.log.lateStores, key)
  {
  }

  lemma CacheWorkKept(c: Config, s: State, a: Action)
    requires Enabled(c, s, a) && CacheWorkOk(c, s)
    ensures CacheWorkOk(c, Next(c, s, a))
  {
    hide NextDb, NextCache, NextBucket, NextClients, NextSlots, NextLog, Callers, Storers;
    SlotsWithinKept(c, s, a);
    forall key ensures LateWorkBounded(c, Next(c, s, a), key) {
      assert LateWorkBounded(c, s, key);
      if key in s.cache {
        LateStep(c, s, a, key);
      } else {
        CountsUntouched(c, s, a, key);
        if key in Next(c, s, a).cache {
          FirstStore(c, s, a, key);
        }
      }
    }
  }
}
