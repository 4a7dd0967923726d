// The two tiers of the cache: when a lookup hits, what the slot goes on with, and that every
// hit is counted.
module Tiers {
  import opened Wrappers
  import opened TextNormal
  import opened AutoId
  import opened Rows
  import opened Machine
  import opened Provenance

  function TextOf(s: State, w: int): string
    requires IsBusy(s, w)
  {
    s.slots[w].request.text
  }

  // The candidate is in the table, and close enough.
  predicate Similar(c: Config, cache: map<Digest, Entry>, candidate: Option<Digest>, text: string) {
    candidate.Some? && candidate.value in cache && c.cosine(cache[candidate.value].embedding, c.embed(text)) > c.threshold
  }

  // A row of the text's hash is used, whatever else the table holds; only without one does
  // the vector tier get its turn.
  lemma ExactDecides(c: Config, s: State, a: Action)
    requires Enabled(c, s, a) && a.Advance? && s.slots[a.w].pc.LookupExact?
    ensures IsBusy(Next(c, s, a), a.w)
    ensures var key := c.sha(Normalize(TextOf(s, a.w))); var pc := Next(c, s, a).slots[a.w].pc;
      && (pc.BumpHits? <==> key in s.cache)
      && (key in s.cache ==> pc == BumpHits(key, s.cache[key].response, s.cache[key].embedding))
      && (key !in s.cache ==> pc.LookupNearest?)
  {
    hide NextDb, NextCache, NextBucket, NextClients, NextLog;
  }

  // A candidate above the threshold is used, with the text's own vector; any other, or none,
  // sends the slot to the rate limiter.
  lemma NearestDecides(c: Config, s: State, a: Action)
    requires Enabled(c, s, a) && a.Advance? && s.slots[a.w].pc.LookupNearest?
    ensures IsBusy(Next(c, s, a), a.w)
    ensures var text, near := TextOf(s, a.w), a.oracle.nearest; var pc := Next(c, s, a).slots[a.w].pc;
      && (pc.BumpHits? <==> Similar(c, s.cache, near, text))
      && (Similar(c, s.cache, near, text) ==> pc == BumpHits(near.value, s.cache[near.value].response, c.embed(text)))
      && (!Similar(c, s.cache, near, text) ==> pc.TakeToken?)
  {
    hide NextDb, NextCache, NextBucket, NextClients, NextLog;
  }

  // Said again, in other case or spacing: an exact hit, on the stored answer.
  lemma SameFormHits(c: Config, s: State, a: Action, key: Digest)
    requires Enabled(c, s, a) && a.Advance? && s.slots[a.w].pc.LookupExact? && ProvenanceOk(c, s)
    requires key in s.cache && Normalize(s.cache[key].promptText) == Normalize(TextOf(s, a.w))
    ensures IsBusy(Next(c, s, a), a.w)
    ensures Next(c, s, a).slots[a.w].pc == BumpHits(key, s.cache[key].response, s.cache[key].embedding)
  {
    ExactDecides(c, s, a);
    hide Next, Enabled;
    assert EntryOk(c, s.log.outputs, key, s.cache[key]);
  }

  // A store keeps the row there is; otherwise it leaves the text with its own embedding, the
  // answer, the prompt it came with, and no hits.
  lemma StoreKeepsFirst(c: Config, s: State, a: Action)
    requires Enabled(c, s, a) && a.Advance? && s.slots[a.w].pc.StoreAnswer?
    ensures var key, slot := c.sha(Normalize(TextOf(s, a.w))), s.slots[a.w];
      Next(c, s, a).cache == if key in s.cache then s.cache else
        s.cache[key := Entry(slot.request.text, c.embed(slot.request.text), slot.pc.response, slot.request.promptId, 0)]
  {
    hide NextDb, NextSlots, NextBucket, NextClients, NextLog;
  }

  // ---- Every hit is counted ----

  function HitNow(s: State, a: Action, key: Digest): nat {
    if a.Advance? && IsBusy(s, a.w) && s.slots[a.w].pc.BumpHits? && s.slots[a.w].pc.key == key then 1 else 0
  }

  ghost function HitsOf(c: Config, s: State, acts: seq<Action>, key: Digest): nat
    requires Legal(c, s, acts)
    decreases |acts|
  {
    if acts == [] then 0 else HitNow(s, acts[0], key) + HitsOf(c, Next(c, s, acts[0]), acts[1..], key)
  }

  function HitCount(s: State, key: Digest): nat {
    if key in s.cache then s.cache[key].hits else 0
  }

  // A slot about to count a hit has seen the row.
  ghost predicate HitsSeen(s: State) {
    forall w :: IsBusy(s, w) && s.slots[w].pc.BumpHits? ==> s.slots[w].pc.key in s.cache
  }

  lemma HitsSeenKept(c: Config, s: State, a: Action)
    requires Enabled(c, s, a) && HitsSeen(s)
    ensures HitsSeen(Next(c, s, a))
  {
    hide NextDb, NextBucket, NextClients, NextLog, OnFailure;
    var s' := Next(c, s, a);
    forall w | IsBusy(s', w) && s'.slots[w].pc.BumpHits? ensures s'.slots[w].pc.key in s'.cache {
      if a.Advance? && a.w == w {
      } else {
        assert IsBusy(s, w) && s.slots[w].pc.BumpHits? && s.slots[w].pc == s'.slots[w].pc;
      }
    }
  }

  lemma HitCounted(c: Config, s: State, a: Action, key: Digest)
    requires Enabled(c, s, a) && HitsSeen(s)
    ensures HitCount(Next(c, s, a), key) == HitCount(s, key) + HitNow(s, a, key)
  {
    hide NextDb, NextBucket, NextClients, NextLog, NextSlots;
  }

  lemma {:induction false} HitsAdd(c: Config, s: State, acts: seq<Action>, key: Digest)
    requires Legal(c, s, acts) && HitsSeen(s)
    ensures HitCount(Run(c, s, acts), key) == HitCount(s, key) + HitsOf(c, s, acts, key)
    decreases |acts|
  {
    hide Next, Enabled, HitsSeen, HitCount, HitNow;
    if acts != [] {
      HitCounted(c, s, acts[0], key);
      HitsSeenKept(c, s, acts[0]);
      HitsAdd(c, Next(c, s, acts[0]), acts[1..], key);
    }
  }

  // In every run an entry's hit count is the number of hits taken on it.
  lemma HitsInEveryRun(c: Config, acts: seq<Action>, key: Digest)
    requires Legal(c, Initial, acts) && key in Run(c, Initial, acts).cache
    ensures Run(c, Initial, acts).cache[key].hits == HitsOf(c, Initial, acts, key)
  {
    hide Legal, Run, HitsOf;
    HitsAdd(c, Initial, acts, key);
  }
}
