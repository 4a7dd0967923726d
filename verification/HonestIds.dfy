// Derived prompt ids and the conflict answer, for a population of users.  If no client
// supplies by hand an id of the derived form, no submission without an id ever runs into a
// conflict, provided no two of the users can share a seed; and if two of them can, one does.
module HonestIds {
  import opened Wrappers
  import opened AutoId
  import opened Tables
  import opened Machine
  import opened Structure
  import Scenarios

  ghost predicate IsDerived(c: Config, users: set<string>, promptId: string) {
    exists user, text :: user in users && text != "" && promptId == DerivedId(c.sha, user, text)
  }

  // Texts are not empty, which the API sees to.
  ghost predicate Honest(c: Config, users: set<string>, a: Action) {
    a.Submit? ==>
      a.user in users && a.text != "" && (a.givenId.Some? && a.givenId.value != "" ==> !IsDerived(c, users, a.givenId.value))
  }

  ghost predicate OwnId(c: Config, users: set<string>, user: string, promptId: string, text: string) {
    IsDerived(c, users, promptId) ==> user in users && text != "" && promptId == DerivedId(c.sha, user, text)
  }

  ghost predicate IdsOk(c: Config, users: set<string>, s: State) {
    && (forall r :: r in s.db.requests ==>
          OwnId(c, users, s.db.requests[r].userId, s.db.requests[r].promptId, s.db.requests[r].text)
          && s.db.requests[r].textHash == HashText(c.sha, s.db.requests[r].text))
    && (forall cl :: cl in s.clients && (s.clients[cl].Admitting? || s.clients[cl].Inserting?) ==>
          OwnId(c, users, s.clients[cl].user, s.clients[cl].promptId, s.clients[cl].text))
  }

  lemma ClientIds(c: Config, users: set<string>, s: State, a: Action, cl: int)
    requires Enabled(c, s, a) && Honest(c, users, a) && IdsOk(c, users, s)
    requires cl in NextClients(c, s, a) && (NextClients(c, s, a)[cl].Admitting? || NextClients(c, s, a)[cl].Inserting?)
    ensures OwnId(c, users, NextClients(c, s, a)[cl].user, NextClients(c, s, a)[cl].promptId, NextClients(c, s, a)[cl].text)
  {
    hide DerivedId, HashText, IsDerived;
  }

  lemma IdsKept(c: Config, users: set<string>, s: State, a: Action)
    requires Enabled(c, s, a) && Honest(c, users, a) && IdsOk(c, users, s)
    ensures IdsOk(c, users, Next(c, s, a))
  {
    hide NextSlots, NextCache, NextBucket, NextLog, NextClients, OwnId, NextDb;
    forall cl | cl in NextClients(c, s, a) && (NextClients(c, s, a)[cl].Admitting? || NextClients(c, s, a)[cl].Inserting?)
      ensures OwnId(c, users, NextClients(c, s, a)[cl].user, NextClients(c, s, a)[cl].promptId, NextClients(c, s, a)[cl].text)
    {
      ClientIds(c, users, s, a, cl);
    }
    if Inserts(c, s, a) {
      InsertedId(c, users, s, a);
    } else {
      SameColumnsKept(c, s, a);
    }
  }

  lemma InsertedId(c: Config, users: set<string>, s: State, a: Action)
    requires Enabled(c, s, a) && Inserts(c, s, a) && IdsOk(c, users, s)
    ensures forall r :: r in NextDb(c, s, a).requests ==>
              OwnId(c, users, NextDb(c, s, a).requests[r].userId, NextDb(c, s, a).requests[r].promptId, NextDb(c, s, a).requests[r].text)
              && NextDb(c, s, a).requests[r].textHash == HashText(c.sha, NextDb(c, s, a).requests[r].text)
  {
  }

  ghost predicate HonestLegal(c: Config, users: set<string>, s: State, acts: seq<Action>)
    decreases |acts|
  {
    acts == [] || (Enabled(c, s, acts[0]) && Honest(c, users, acts[0]) && HonestLegal(c, users, Next(c, s, acts[0]), acts[1..]))
  }

  lemma {:induction false} IdsAlong(c: Config, users: set<string>, s: State, acts: seq<Action>)
    requires HonestLegal(c, users, s, acts) && IdsOk(c, users, s)
    ensures Legal(c, s, acts) && IdsOk(c, users, Run(c, s, acts))
    decreases |acts|
  {
    hide Next, Enabled, Honest, IdsOk;
    if acts != [] {
      IdsKept(c, users, s, acts[0]);
      IdsAlong(c, users, Next(c, s, acts[0]), acts[1..]);
    }
  }

  ghost predicate NobodyShares(users: set<string>) {
    forall u, v :: u in users && v in users ==> u == v || !CanShareSeeds(u, v)
  }

  // In every state of every honest run of such a population: whoever leaves out the id gets
  // any decision but Conflict, unless two different seeds share their digest's leading digits.
  lemma NoConflictForDerivedIds(c: Config, users: set<string>, acts: seq<Action>, user: string, text: string)
    requires HonestLegal(c, users, Initial, acts) && NobodyShares(users) && user in users && text != ""
    ensures Legal(c, Initial, acts)
    ensures var s := Run(c, Initial, acts); var id := ResolvedPromptId(c.sha, user, None, text);
      (forall r :: r in s.db.requests ==> NoClash(c.sha, Seed(user, text), Seed(s.db.requests[r].userId, s.db.requests[r].text))) ==>
        !Idempotency.Check(Existing(s.db, id), HashText(c.sha, text)).Conflict?
  {
    IdsAlong(c, users, Initial, acts);
    hide Run, Legal, HonestLegal, IdsOk, ResolvedPromptId, NobodyShares, NoClash, HashText;
    var s := Run(c, Initial, acts);
    if forall r :: r in s.db.requests ==> NoClash(c.sha, Seed(user, text), Seed(s.db.requests[r].userId, s.db.requests[r].text)) {
      NoConflictHere(c, users, s, user, text);
    }
  }

  lemma NoConflictHere(c: Config, users: set<string>, s: State, user: string, text: string)
    requires IdsOk(c, users, s) && NobodyShares(users) && user in users && text != ""
    requires forall r :: r in s.db.requests ==> NoClash(c.sha, Seed(user, text), Seed(s.db.requests[r].userId, s.db.requests[r].text))
    ensures !Idempotency.Check(Existing(s.db, ResolvedPromptId(c.sha, user, None, text)), HashText(c.sha, text)).Conflict?
  {
    hide DerivedId, NobodyShares, NoClash, HashText, Seed;
    var id := ResolvedPromptId(c.sha, user, None, text);
    if RequestWithId(s.db.requests, id).Some? {
      var q := s.db.requests[RequestWithId(s.db.requests, id).value];
      assert IsDerived(c, users, id);
      assert OwnId(c, users, q.userId, q.promptId, q.text);
      OneTextPerId(c, users, user, text, q.userId, q.text);
    }
  }

  lemma OneTextPerId(c: Config, users: set<string>, u: string, s: string, v: string, t: string)
    requires NobodyShares(users) && u in users && v in users && s != "" && t != ""
    requires NoClash(c.sha, Seed(u, s), Seed(v, t)) && DerivedId(c.sha, u, s) == DerivedId(c.sha, v, t)
    ensures HashText(c.sha, s) == HashText(c.sha, t)
  {
    DerivedIdDetermines(c.sha, u, s, v, t);
  }

  ghost predicate MeetsConflict(c: Config, s: State, user: string, text: string) {
    Idempotency.Check(Existing(s.db, ResolvedPromptId(c.sha, user, None, text)), HashText(c.sha, text)).Conflict?
  }

  // The other way round: two users who can share a seed, in an honest run of three actions.
  lemma SharingMeetsConflict(c: Config, users: set<string>, u: string, v: string)
    requires u in users && v in users && CanShareSeeds(u, v) && c.maxDepth >= 1
    requires forall s, t :: Seed(u, s) == Seed(v, t) ==> HashText(c.sha, s) != HashText(c.sha, t)
    ensures exists acts, text :: text != "" && HonestLegal(c, users, Initial, acts) && Legal(c, Initial, acts)
                                 && MeetsConflict(c, Run(c, Initial, acts), v, text)
  {
    hide Enabled, Next, HashText, UuidLike, Seed, MeetsConflict, HonestLegal, Legal, Run, IsDerived;
    SharedSeedsIff(u, v);
    var s, t :| s != "" && t != "" && Seed(u, s) == Seed(v, t);
    var id := DerivedId(c.sha, u, s);
    assert InFlightJobs(Initial.db) == {};
    Scenarios.Filing(c, Initial, 1, u, None, s, 0.0);
    var acts := [Submit(1, u, None, s, 2, 0.0), Admit(1, 0.0), Insert(1, 1, 1, 0.0)];
    var end := Scenarios.Filed(c, Initial, 1, u, id, s, 0.0);
    assert Honest(c, users, acts[0]) && Honest(c, users, acts[1]) && Honest(c, users, acts[2]);
    hide Honest, DerivedId;
    ThreeSteps(c, users, Initial, acts);
    assert MeetsConflict(c, end, v, t) by { FiledConflicts(c, u, s, v, t); }
  }

  lemma FiledConflicts(c: Config, u: string, s: string, v: string, t: string)
    requires Seed(u, s) == Seed(v, t) && HashText(c.sha, s) != HashText(c.sha, t)
    ensures MeetsConflict(c, Scenarios.Filed(c, Initial, 1, u, DerivedId(c.sha, u, s), s, 0.0), v, t)
  {
    hide HashText, Seed, UuidLike;
    var end := Scenarios.Filed(c, Initial, 1, u, DerivedId(c.sha, u, s), s, 0.0);
    assert end.db.requests[1].promptId == DerivedId(c.sha, v, t);
    assert RequestWithId(end.db.requests, DerivedId(c.sha, v, t)) == Some(1);
  }

  lemma ThreeSteps(c: Config, users: set<string>, s: State, acts: seq<Action>)
    requires |acts| == 3 && Enabled(c, s, acts[0]) && Enabled(c, Next(c, s, acts[0]), acts[1])
    requires Enabled(c, Next(c, Next(c, s, acts[0]), acts[1]), acts[2])
    requires Honest(c, users, acts[0]) && Honest(c, users, acts[1]) && Honest(c, users, acts[2])
    ensures HonestLegal(c, users, s, acts) && Legal(c, s, acts)
    ensures Run(c, s, acts) == Next(c, Next(c, Next(c, s, acts[0]), acts[1]), acts[2])
  {
    hide Enabled, Next, Honest;
    var s1 := Next(c, s, acts[0]);
    var s2 := Next(c, s1, acts[1]);
    var two, one := acts[1..], acts[1..][1..];
    assert one == [acts[2]] && one[1..] == [];
    assert HonestLegal(c, users, s2, one) && Legal(c, s2, one) && Run(c, s2, one) == Next(c, s2, acts[2]);
    assert HonestLegal(c, users, s1, two) && Legal(c, s1, two) && Run(c, s1, two) == Run(c, s2, one);
  }
}
