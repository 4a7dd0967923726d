// What a settled request says about itself, in every run: its columns are those of its status,
// and its `cached` flag tells where the answer came from.
module Answers {
  import opened TextNormal
  import opened AutoId
  import opened Rows
  import opened Tables
  import opened TokenBucket
  import opened Machine
  import opened Structure

  // Not cached: the model gave this answer for this very text.  Cached: a row of the cache
  // holds it, for a text of the same normal form's hash or for one close enough.
  ghost predicate Sourced(c: Config, s: State, text: string, answer: string, cached: bool) {
    if cached then
      exists key :: key in s.cache && s.cache[key].response == answer &&
                    (key == c.sha(Normalize(text)) || c.cosine(s.cache[key].embedding, c.embed(text)) > c.threshold)
    else (text, answer) in s.log.outputs
  }

  ghost predicate SlotSourced(c: Config, s: State, slot: Slot)
    requires slot.Busy?
  {
    match slot.pc
    case BumpHits(_, answer, _) => Sourced(c, s, slot.request.text, answer, true)
    case StoreAnswer(answer) => Sourced(c, s, slot.request.text, answer, false)
    case FinishRequest(answer, cached, _) => Sourced(c, s, slot.request.text, answer, cached)
    case _ => true
  }

  ghost predicate RequestTells(c: Config, s: State, q: Request) {
    && (q.response.Some? <==> q.cached.Some?)
    && (q.response.Some? ==> Sourced(c, s, q.text, q.response.value, q.cached.value))
    && (q.status == ReqCompleted ==> q.response.Some? && q.embedding.Some? && q.completedAt.Some? && q.error.None?)
    && (q.status == ReqFailed ==> q.error.Some?)
  }

  ghost predicate AnswersOk(c: Config, s: State) {
    && (forall w :: IsBusy(s, w) ==> SlotSourced(c, s, s.slots[w]))
    && (forall r :: r in s.db.requests ==> RequestTells(c, s, s.db.requests[r]))
  }

  // An output is recorded exactly when a slot hears the model's answer, under its own text.
  lemma OutputsAreAnswers(c: Config, s: State, a: Action, text: string, answer: string)
    requires Enabled(c, s, a)
    ensures (text, answer) in Next(c, s, a).log.outputs <==>
      || (text, answer) in s.log.outputs
      || (a.Advance? && s.slots[a.w].pc.AwaitModel? && s.slots[a.w].request.text == text && a.oracle.model == Response(answer))
  {
    hide NextDb, NextCache, NextBucket, NextClients, NextSlots, NextHistories;
  }

  lemma SourcedStays(c: Config, s: State, a: Action, text: string, answer: string, cached: bool)
    requires Enabled(c, s, a) && Sourced(c, s, text, answer, cached)
    ensures Sourced(c, Next(c, s, a), text, answer, cached)
  {
    hide NextDb, NextBucket, NextClients, NextSlots, NextHistories;
    if cached {
      var key :| key in s.cache && s.cache[key].response == answer &&
                 (key == c.sha(Normalize(text)) || c.cosine(s.cache[key].embedding, c.embed(text)) > c.threshold);
      assert key in Next(c, s, a).cache && Next(c, s, a).cache[key].response == answer;
    }
  }

  // Where a slot comes to its answer.
  lemma AnswerFound(c: Config, s: State, a: Action)
    requires Enabled(c, s, a) && a.Advance? && SlotSourced(c, s, s.slots[a.w])
    ensures var next := NextPc(c, s, a.w, a.oracle, a.now);
      next.Some? && !HearsModel(s, a) ==> SlotSourced(c, s, s.slots[a.w].(pc := next.value))
  {
    hide KeyGranted, OnFailure;
    var slot := s.slots[a.w];
    var text := slot.request.text;
    match slot.pc
    case LookupExact =>
      if HashText(c.sha, text) in s.cache {
        assert Sourced(c, s, text, s.cache[HashText(c.sha, text)].response, true);
      }
    case LookupNearest =>
      if a.oracle.nearest.Some? && c.cosine(s.cache[a.oracle.nearest.value].embedding, c.embed(text)) > c.threshold {
        assert Sourced(c, s, text, s.cache[a.oracle.nearest.value].response, true);
      }
    case TakeToken => 
    case AwaitModel => 
    case _ =>
  }

  lemma SlotSourcedKept(c: Config, s: State, a: Action, w: int)
    requires Enabled(c, s, a) && AnswersOk(c, s) && IsBusy(Next(c, s, a), w)
    ensures SlotSourced(c, Next(c, s, a), Next(c, s, a).slots[w])
  {
    hide NextDb, NextCache, NextBucket, NextClients, NextLog, NextPc, Sourced, OnFailure;
    var slot := Next(c, s, a).slots[w];
    if !(a.Claim? && a.w == w) {
      SlotOrigin(c, s, a, w);
      assert SlotSourced(c, s, s.slots[w]);
      if HearsModel(s, a) && a.w == w {
        HeardSourced(c, s, a);
      } else {
        if a.Advance? && a.w == w {
          AnswerFound(c, s, a);
        }
        assert SlotSourced(c, s, slot);
        hide Next, Enabled, SlotSourced;
        CarriedOver(c, s, a, slot);
      }
    }
  }

  lemma HeardSourced(c: Config, s: State, a: Action)
    requires Enabled(c, s, a) && HearsModel(s, a) && IsBusy(Next(c, s, a), a.w)
    ensures SlotSourced(c, Next(c, s, a), Next(c, s, a).slots[a.w])
  {
    hide NextDb, NextCache, NextBucket, NextClients, NextHistories;
  }

  lemma CarriedOver(c: Config, s: State, a: Action, slot: Slot)
    requires Enabled(c, s, a) && slot.Busy? && SlotSourced(c, s, slot)
    ensures SlotSourced(c, Next(c, s, a), slot)
  {
    hide Next, Enabled, Sourced;
    match slot.pc
    case BumpHits(_, answer, _) => SourcedStays(c, s, a, slot.request.text, answer, true);
    case StoreAnswer(answer) => SourcedStays(c, s, a, slot.request.text, answer, false);
    case FinishRequest(answer, cached, _) => SourcedStays(c, s, a, slot.request.text, answer, cached);
    case _ =>
  }

  lemma RequestTellsKept(c: Config, s: State, a: Action, r: int)
    requires Enabled(c, s, a) && AnswersOk(c, s) && SnapshotsOk(s) && r in NextDb(c, s, a).requests
    ensures RequestTells(c, s, NextDb(c, s, a).requests[r])
  {
    hide Sourced, NextPc, JobOf;
    if a.Advance? {
      assert SnapshotOk(s.db, s.slots[a.w]);
      assert SlotSourced(c, s, s.slots[a.w]);
    }
  }

  lemma TellsOn(c: Config, s: State, a: Action, q: Request)
    requires Enabled(c, s, a) && RequestTells(c, s, q)
    ensures RequestTells(c, Next(c, s, a), q)
  {
    hide Next, Enabled, Sourced;
    if q.response.Some? {
      SourcedStays(c, s, a, q.text, q.response.value, q.cached.value);
    }
  }

  lemma AnswersKept(c: Config, s: State, a: Action)
    requires Enabled(c, s, a) && AnswersOk(c, s) && SnapshotsOk(s)
    ensures AnswersOk(c, Next(c, s, a))
  {
    hide Enabled, NextDb, NextCache, NextBucket, NextClients, NextSlots, NextLog, SlotSourced, RequestTells, SnapshotsOk;
    var s' := Next(c, s, a);
    forall w | IsBusy(s', w) ensures SlotSourced(c, s', s'.slots[w]) {
      SlotSourcedKept(c, s, a, w);
    }
    forall r | r in s'.db.requests ensures RequestTells(c, s', s'.db.requests[r]) {
      RequestTellsKept(c, s, a, r);
      TellsOn(c, s, a, s'.db.requests[r]);
    }
  }

  lemma {:induction false} AnswersAlong(c: Config, s: State, acts: seq<Action>)
    requires Legal(c, s, acts) && AnswersOk(c, s) && SnapshotsOk(s) && TablesOk(s)
    ensures AnswersOk(c, Run(c, s, acts))
    decreases |acts|
  {
    hide Next, Enabled, AnswersOk, SnapshotsOk, TablesOk;
    if acts != [] {
      AnswersKept(c, s, acts[0]);
      TablesKept(c, s, acts[0]);
      SnapshotsKept(c, s, acts[0]);
      AnswersAlong(c, Next(c, s, acts[0]), acts[1..]);
    }
  }

  // A completed request has its answer, its vector and its time, and no error; a failed one
  // has an error; and wherever there is an answer, the flag says where it is from.
  lemma AnswersInEveryRun(c: Config, acts: seq<Action>, r: int)
    requires Legal(c, Initial, acts) && r in Run(c, Initial, acts).db.requests
    ensures RequestTells(c, Run(c, Initial, acts), Run(c, Initial, acts).db.requests[r])
  {
    hide Legal, Run, RequestTells;
    assert AnswersOk(c, Initial) && SnapshotsOk(Initial) && TablesOk(Initial);
    AnswersAlong(c, Initial, acts);
  }
}
