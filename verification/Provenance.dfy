// Where answers come from, in every run: each response ever stored on a request was
// produced by the model for the same text up to its hash, or for a similar one.
module Provenance {
  import opened Wrappers
  import opened TextNormal
  import opened AutoId
  import opened Rows
  import opened Tables
  import opened Machine
  import opened Structure

  ghost predicate Close(c: Config, source: string, text: string) {
    HashText(c.sha, source) == HashText(c.sha, text) || c.cosine(c.embed(source), c.embed(text)) > c.threshold
  }

  ghost predicate Justified(c: Config, outputs: set<(string, string)>, answer: string, text: string) {
    exists source :: (source, answer) in outputs && Close(c, source, text)
  }

  // The vector is the embedding of a text with the same hash.
  ghost predicate VectorOf(c: Config, vector: seq<real>, text: string) {
    exists source :: vector == c.embed(source) && HashText(c.sha, source) == HashText(c.sha, text)
  }

  ghost predicate EntryOk(c: Config, outputs: set<(string, string)>, key: Digest, e: Entry) {
    key == HashText(c.sha, e.promptText) && e.embedding == c.embed(e.promptText) && (e.promptText, e.response) in outputs
  }

  ghost predicate SlotOk(c: Config, outputs: set<(string, string)>, slot: Slot)
    requires slot.Busy?
  {
    match slot.pc
    case BumpHits(_, answer, vector) => Justified(c, outputs, answer, slot.request.text) && VectorOf(c, vector, slot.request.text)
    case FinishRequest(answer, _, vector) => Justified(c, outputs, answer, slot.request.text) && VectorOf(c, vector, slot.request.text)
    case StoreAnswer(answer) => (slot.request.text, answer) in outputs
    case _ => true
  }

  ghost predicate RequestOk(c: Config, outputs: set<(string, string)>, q: Request) {
    && (q.response.Some? ==> Justified(c, outputs, q.response.value, q.text))
    && (q.embedding.Some? ==> VectorOf(c, q.embedding.value, q.text))
  }

  ghost predicate ProvenanceOk(c: Config, s: State) {
    && (forall k :: k in s.cache ==> EntryOk(c, s.log.outputs, k, s.cache[k]))
    && (forall w :: IsBusy(s, w) ==> SlotOk(c, s.log.outputs, s.slots[w]))
    && (forall r :: r in s.db.requests ==> RequestOk(c, s.log.outputs, s.db.requests[r]))
  }

  lemma JustifiedGrows(c: Config, outputs: set<(string, string)>, more: set<(string, string)>, answer: string, text: string)
    requires Justified(c, outputs, answer, text) && outputs <= more
    ensures Justified(c, more, answer, text)
  {
  }

  lemma CacheKept(c: Config, s: State, a: Action)
    requires Enabled(c, s, a) && ProvenanceOk(c, s)
    ensures forall k :: k in NextCache(c, s, a) ==> EntryOk(c, NextLog(c, s, a).outputs, k, NextCache(c, s, a)[k])
  {
    hide NextHistories;
    if a.Advance? {
      assert SlotOk(c, s.log.outputs, s.slots[a.w]);
    }
  }

  // A hit answers with the entry's response; `vector` is what the slot carries on.
  lemma HitJustified(c: Config, s: State, k: Digest, text: string)
    requires ProvenanceOk(c, s) && k in s.cache
    requires k == HashText(c.sha, text) || c.cosine(s.cache[k].embedding, c.embed(text)) > c.threshold
    ensures Justified(c, s.log.outputs, s.cache[k].response, text)
    ensures k == HashText(c.sha, text) ==> VectorOf(c, s.cache[k].embedding, text)
  {
    assert EntryOk(c, s.log.outputs, k, s.cache[k]);
    assert Close(c, s.cache[k].promptText, text);
  }

  lemma OwnAnswerJustified(c: Config, outputs: set<(string, string)>, answer: string, text: string)
    requires (text, answer) in outputs
    ensures Justified(c, outputs, answer, text)
  {
    assert Close(c, text, text);
  }

  lemma OwnVector(c: Config, text: string)
    ensures VectorOf(c, c.embed(text), text)
  {
  }

  lemma SlotMoves(c: Config, s: State, a: Action)
    requires Enabled(c, s, a) && a.Advance? && ProvenanceOk(c, s)
    ensures var next := NextPc(c, s, a.w, a.oracle, a.now);
            next.Some? ==> SlotOk(c, NextLog(c, s, a).outputs, s.slots[a.w].(pc := next.value))
  {
    hide NextHistories, Justified, VectorOf, Close;
    var slot := s.slots[a.w];
    var text := slot.request.text;
    assert SlotOk(c, s.log.outputs, slot);
    OwnVector(c, text);
    match slot.pc
    case LookupExact =>
      if HashText(c.sha, text) in s.cache {
        HitJustified(c, s, HashText(c.sha, text), text);
      }
    case LookupNearest =>
      if a.oracle.nearest.Some? && c.cosine(s.cache[a.oracle.nearest.value].embedding, c.embed(text)) > c.threshold {
        HitJustified(c, s, a.oracle.nearest.value, text);
      }
    case StoreAnswer(answer) => OwnAnswerJustified(c, s.log.outputs, answer, text);
    case _ =>
  }

  lemma SlotsKept(c: Config, s: State, a: Action)
    requires Enabled(c, s, a) && ProvenanceOk(c, s)
    ensures forall w :: IsBusy(Next(c, s, a), w) ==> SlotOk(c, Next(c, s, a).log.outputs, Next(c, s, a).slots[w])
  {
    var s' := Next(c, s, a);
    forall w | IsBusy(s', w) ensures SlotOk(c, s'.log.outputs, s'.slots[w]) {
      if a.Advance? && a.w == w {
        SlotMoves(c, s, a);
      } else {
        SlotStays(c, s, a, w);
      }
    }
  }

  lemma SlotStays(c: Config, s: State, a: Action, w: int)
    requires Enabled(c, s, a) && ProvenanceOk(c, s) && IsBusy(Next(c, s, a), w) && !(a.Advance? && a.w == w)
    ensures SlotOk(c, Next(c, s, a).log.outputs, Next(c, s, a).slots[w])
  {
    hide NextHistories, NextDb, NextCache, NextBucket, NextClients, Justified, VectorOf, NextPc;
    if IsBusy(s, w) {
      var slot := s.slots[w];
      assert SlotOk(c, s.log.outputs, slot);
      match slot.pc
      case BumpHits(_, answer, _) => JustifiedGrows(c, s.log.outputs, Next(c, s, a).log.outputs, answer, slot.request.text);
      case FinishRequest(answer, _, _) => JustifiedGrows(c, s.log.outputs, Next(c, s, a).log.outputs, answer, slot.request.text);
      case _ =>
    }
  }

  // A request keeps its response and vector, or gets those its finishing slot carries.
  lemma RequestOrigin(c: Config, s: State, a: Action, r: int)
    requires Enabled(c, s, a) && r in NextDb(c, s, a).requests
    ensures var q' := NextDb(c, s, a).requests[r];
      || (q'.response == None && q'.embedding == None)
      || (r in s.db.requests && q'.response == s.db.requests[r].response && q'.embedding == s.db.requests[r].embedding && q'.text == s.db.requests[r].text)
      || (a.Advance? && s.slots[a.w].pc.FinishRequest? && r == s.slots[a.w].job.requestId && r in s.db.requests
          && q'.response == Some(s.slots[a.w].pc.final) && q'.embedding == Some(s.slots[a.w].pc.embedding) && q'.text == s.db.requests[r].text)
  {
    hide HashText, Inserts, JobOf;
  }

  lemma RequestsKept(c: Config, s: State, a: Action)
    requires Enabled(c, s, a) && ProvenanceOk(c, s) && SnapshotsOk(s)
    ensures forall r :: r in NextDb(c, s, a).requests ==> RequestOk(c, NextLog(c, s, a).outputs, NextDb(c, s, a).requests[r])
  {
    hide NextHistories, NextDb, Justified, VectorOf;
    var outputs := NextLog(c, s, a).outputs;
    forall r | r in NextDb(c, s, a).requests ensures RequestOk(c, outputs, NextDb(c, s, a).requests[r]) {
      RequestOrigin(c, s, a, r);
      var q' := NextDb(c, s, a).requests[r];
      if a.Advance? {
        assert SlotOk(c, s.log.outputs, s.slots[a.w]) && SnapshotOk(s.db, s.slots[a.w]);
      }
      if q'.response.Some? {
        JustifiedGrows(c, s.log.outputs, outputs, q'.response.value, q'.text);
      }
    }
  }

  lemma ProvenanceKept(c: Config, s: State, a: Action)
    requires Enabled(c, s, a) && ProvenanceOk(c, s) && SnapshotsOk(s)
    ensures ProvenanceOk(c, Next(c, s, a))
  {
    hide NextDb, NextCache, NextSlots, NextLog, SlotOk, EntryOk, RequestOk;
    CacheKept(c, s, a);
    SlotsKept(c, s, a);
    RequestsKept(c, s, a);
  }

  // Without collisions among the normal forms seen, the source of an answer has the normal
  // form of the request, or is similar to it.
  lemma AnswerSource(c: Config, s: State, r: int) returns (source: string)
    requires ProvenanceOk(c, s) && r in s.db.requests && s.db.requests[r].response.Some?
    requires forall x, y :: c.sha(Normalize(x)) == c.sha(Normalize(y)) && Known(s, x) && Known(s, y) ==> Normalize(x) == Normalize(y)
    ensures (source, s.db.requests[r].response.value) in s.log.outputs
    ensures Normalize(source) == Normalize(s.db.requests[r].text)
         || c.cosine(c.embed(source), c.embed(s.db.requests[r].text)) > c.threshold
  {
    var q := s.db.requests[r];
    assert RequestOk(c, s.log.outputs, q);
    source :| (source, q.response.value) in s.log.outputs && Close(c, source, q.text);
    assert Known(s, source) && Known(s, q.text);
  }

  // With an embedding that looks at the normal form only, and no second text of the same
  // hash, the vector stored with a request is the request's own.
  lemma StoredVectorIsOwn(c: Config, s: State, r: int)
    requires ProvenanceOk(c, s) && r in s.db.requests && s.db.requests[r].embedding.Some?
    requires forall x, y :: Normalize(x) == Normalize(y) ==> c.embed(x) == c.embed(y)
    requires forall x :: HashText(c.sha, x) == HashText(c.sha, s.db.requests[r].text) ==> Normalize(x) == Normalize(s.db.requests[r].text)
    ensures s.db.requests[r].embedding.value == c.embed(s.db.requests[r].text)
  {
  }

  // A text the model answered or a request holds.
  ghost predicate Known(s: State, text: string) {
    (exists answer :: (text, answer) in s.log.outputs) || (exists r :: r in s.db.requests && s.db.requests[r].text == text)
  }
}
