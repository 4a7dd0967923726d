// A run in progress, seen from one of its programs: the shared objects, and beside them
// the machine state they stand for and the trace that led there.  Between two of its own
// steps a program lets every other program act; it keeps only what nobody else can change.
module Cluster {
  import opened Wrappers
  import opened Rows
  import opened Machine
  import opened Structure
  import opened Stories
  import opened Repositories
  import opened CacheStore
  import opened Limiters

  // What survives the steps of others: the slot's claim and its place in the program.
  ghost predicate SlotKept(s: State, s': State, w: int) {
    w in s.slots ==>
      && w in s'.slots
      && (s.slots[w].Busy? ==> SameClaim(s.slots[w], s'.slots[w]) && s'.slots[w].pc == s.slots[w].pc)
      && (s.slots[w].Idle? ==> s'.slots[w].Idle?)
  }

  lemma OtherStepKeepsSlot(c: Config, s: State, a: Action, w: int)
    requires Enabled(c, s, a) && !Concerns(Worker(w), a)
    ensures SlotKept(s, Next(c, s, a), w)
  {
    hide NextDb, NextCache, NextBucket, NextClients, NextLog, NextPc, AfterFault;
  }

  lemma {:induction false} OthersKeepSlot(c: Config, s: State, acts: seq<Action>, w: int)
    requires Legal(c, s, acts) && Others(Worker(w), acts)
    ensures SlotKept(s, Run(c, s, acts), w)
    decreases |acts|
  {
    hide Next, Enabled;
    if acts != [] {
      OtherStepKeepsSlot(c, s, acts[0], w);
      OthersKeepSlot(c, Next(c, s, acts[0]), acts[1..], w);
    }
  }

  // A cancellation is asked for only after the slot's heartbeat saw its claim lost.
  ghost predicate CancelsOk(s: State, cancels: set<(int, nat)>) {
    forall w, n :: (w, n) in cancels ==>
      n < s.log.claims && (IsBusy(s, w) && s.slots[w].serial == n ==> s.slots[w].lost)
  }

  lemma CancelIsDue(c: Config, s: State, cancels: set<(int, nat)>, w: int, task: nat, now: real)
    requires CancelsOk(s, cancels) && (w, task) in cancels && IsBusy(s, w) && s.slots[w].serial == task
    ensures Enabled(c, s, Cancel(w, now))
  {
  }

  lemma CanBefall(c: Config, s: State, a: Action)
    requires (a.Raise? && IsBusy(s, a.w) && InRun(s.slots[a.w].pc)) || (a.Drop? && a.client in s.clients)
    ensures Enabled(c, s, a)
  {
  }

  lemma LostStays(c: Config, s: State, a: Action, w: int)
    requires Enabled(c, s, a) && IsBusy(s, w) && s.slots[w].lost && IsBusy(Next(c, s, a), w)
    requires SameClaim(s.slots[w], Next(c, s, a).slots[w])
    ensures Next(c, s, a).slots[w].lost
  {
    hide NextDb, NextCache, NextBucket, NextClients, NextLog, NextPc, AfterFault;
  }

  lemma CancelsKept(c: Config, s: State, a: Action, cancels: set<(int, nat)>)
    requires Enabled(c, s, a) && CancelsOk(s, cancels)
    ensures CancelsOk(Next(c, s, a), cancels)
  {
    hide NextDb, NextCache, NextBucket, NextClients, NextSlots, NextHistories;
    var s' := Next(c, s, a);
    forall w, n | (w, n) in cancels
      ensures n < s'.log.claims && (IsBusy(s', w) && s'.slots[w].serial == n ==> s'.slots[w].lost)
    {
      if IsBusy(s', w) && s'.slots[w].serial == n {
        SlotOrigin(c, s, a, w);
        LostStays(c, s, a, w);
      }
    }
  }

  ghost predicate Happened(c: Config, s: State, a: Action, s': State) {
    Enabled(c, s, a) && s' == Next(c, s, a)
  }

  class Cluster {
    const config: Config
    const db: Database
    const cache: SemanticCacheRepository
    const limiter: RedisTokenBucketLimiter
    // What the outside world has in store for each task: the row the vector index comes up
    // with, whether Redis answers, and what the model says.
    const outside: nat -> Oracle
    // Cancellations asked for by heartbeats, each for one claim of one slot.
    var cancels: set<(int, nat)>
    // Pipeline tasks started so far.
    var tasks: nat
    ghost var world: State
    ghost var trace: seq<Action>
    // What each program found when it came back from its awaits, in order.
    ghost var looks: map<Program, seq<State>>

    constructor (config: Config, outside: nat -> Oracle)
      ensures this.config == config && this.outside == outside && Coherent() && world == Initial && trace == []
      ensures fresh(db) && fresh(cache) && fresh(limiter)
    {
      this.config, this.outside := config, outside;
      db := new Database();
      cache := new SemanticCacheRepository();
      limiter := new RedisTokenBucketLimiter(config.capacity, config.rate);
      cancels, tasks := {}, 0;
      world, trace, looks := Initial, [], map[];
    }

    // The world is where the trace leads.
    ghost predicate OnTrace()
      reads this, limiter
    {
      && Legal(config, Initial, trace) && world == Run(config, Initial, trace)
      && limiter.capacity == config.capacity && limiter.rate == config.rate
      && tasks == world.log.claims && CancelsOk(world, cancels)
    }

    // And the objects hold its tables.
    ghost predicate Coherent()
      reads this, db, cache, limiter
    {
      OnTrace() && world.db == db.Content() && world.cache == cache.rows && world.bucket == limiter.key
    }

    // What a program did so far.
    ghost function Story(p: Program): seq<Deed>
      reads this
      requires Legal(config, Initial, trace)
    {
      StoryOf(p, config, Initial, trace)
    }

    ghost function Looks(p: Program): seq<State>
      reads this`looks
    {
      if p in looks then looks[p] else []
    }

    // One more action on the trace.
    lemma Longer(p: Program, a: Action)
      requires OnTrace() && Enabled(config, world, a)
      ensures Legal(config, Initial, trace + [a]) && Run(config, Initial, trace + [a]) == Next(config, world, a)
      ensures CancelsOk(Next(config, world, a), cancels)
      ensures StoryOf(p, config, Initial, trace + [a]) == Story(p) + if Concerns(p, a) then [DeedOf(config, world, a)] else []
    {
      hide Enabled, Next, Concerns, DeedOf, StoryOf;
      CancelsKept(config, world, a, cancels);
      OneStep(config, world, a);
      RunAppend(config, Initial, trace, [a]);
      StoryAppend(p, config, Initial, trace, [a]);
      StoryOfOne(p, config, world, a);
    }

    // A program's own step: the objects have already changed as the machine's step prescribes.
    ghost method Take(p: Program, a: Action)
      requires OnTrace() && Mine(p, a) && !a.Claim? && Enabled(config, world, a)
      requires NextDb(config, world, a) == db.Content()
      requires NextCache(config, world, a) == cache.rows
      requires NextBucket(config, world, a) == limiter.key
      modifies this`world, this`trace
      ensures Coherent() && trace == old(trace) + [a] && world == Next(config, old(world), a)
      ensures Story(p) == old(Story(p)) + [DeedOf(config, old(world), a)]
    {
      hide Enabled, NextDb, NextCache, NextBucket, NextSlots, NextClients, NextHistories, CancelsOk, DeedOf, StoryOf;
      Longer(p, a);
      trace := trace + [a];
      world := Next(config, world, a);
    }

    // A claim, whose row has already been taken, starts a task.
    method StartTask(w: int, ghost j: int, ghost now: real) returns (task: nat)
      requires OnTrace() && Enabled(config, world, Claim(w, j, now))
      requires NextDb(config, world, Claim(w, j, now)) == db.Content()
      requires world.cache == cache.rows && world.bucket == limiter.key
      modifies this`world, this`trace, this`tasks
      ensures Coherent() && trace == old(trace) + [Claim(w, j, now)] && world == Next(config, old(world), Claim(w, j, now))
      ensures Story(Worker(w)) == old(Story(Worker(w))) + [DidClaim(j)] && task == old(world).log.claims
    {
      hide Enabled, NextDb, NextSlots, NextClients, NextHistories, CancelsOk, StoryOf;
      ghost var a := Claim(w, j, now);
      Longer(Worker(w), a);
      trace := trace + [a];
      world := Next(config, world, a);
      task := tasks;
      tasks := tasks + 1;
    }

    // ---- What happens to programs ----

    // Whether the operation a pipeline is about to wait for fails is not up to the pipeline.
    method Suffer(w: int) returns (fault: Option<Fault>)
      requires Coherent() && IsBusy(world, w) && InRun(world.slots[w].pc)
      modifies this`world, this`trace
      ensures Coherent() && old(trace) <= trace
      ensures fault.None? ==> world == old(world) && trace == old(trace) && Story(Worker(w)) == old(Story(Worker(w)))
      ensures fault.Some? ==> exists now :: Happened(config, old(world), Raise(w, fault.value, now), world)
      ensures fault.Some? ==> Story(Worker(w)) == old(Story(Worker(w))) + [DidRaise(fault.value)]
    {
      hide Enabled, Next, CancelsOk, StoryOf;
      fault := *;
      if fault.Some? {
        ghost var now: real := *;
        CanBefall(config, world, Raise(w, fault.value, now));
        Longer(Worker(w), Raise(w, fault.value, now));
        trace := trace + [Raise(w, fault.value, now)];
        world := Next(config, world, Raise(w, fault.value, now));
        DbStays(config, old(world), Raise(w, fault.value, now));
        assert Happened(config, old(world), Raise(w, fault.value, now), world);
      }
    }

    // Whether, and where, a cancellation that was asked for arrives is not up to it either.
    method Deliver(w: int, task: nat) returns (cancelled: bool)
      requires Coherent() && IsBusy(world, w) && world.slots[w].serial == task
      modifies this`world, this`trace
      ensures Coherent() && old(trace) <= trace
      ensures !cancelled ==> world == old(world) && trace == old(trace) && Story(Worker(w)) == old(Story(Worker(w)))
      ensures cancelled ==> (w, task) in cancels && exists now :: Happened(config, old(world), Cancel(w, now), world)
      ensures cancelled ==> Story(Worker(w)) == old(Story(Worker(w))) + [DidCancel]
    {
      hide Enabled, Next, CancelsOk, StoryOf;
      cancelled := *;
      cancelled := cancelled && (w, task) in cancels;
      if cancelled {
        ghost var now: real := *;
        CancelIsDue(config, world, cancels, w, task, now);
        Longer(Worker(w), Cancel(w, now));
        trace := trace + [Cancel(w, now)];
        world := Next(config, world, Cancel(w, now));
        DbStays(config, old(world), Cancel(w, now));
        assert Happened(config, old(world), Cancel(w, now), world);
      }
    }

    // Whether an API call ends here with an exception.
    method FailCall(cl: int) returns (failed: bool)
      requires Coherent() && cl in world.clients
      modifies this`world, this`trace
      ensures Coherent() && old(trace) <= trace
      ensures !failed ==> world == old(world) && trace == old(trace) && Story(Call(cl)) == old(Story(Call(cl)))
      ensures failed ==> exists now :: Happened(config, old(world), Drop(cl, now), world)
      ensures failed ==> Story(Call(cl)) == old(Story(Call(cl))) + [DidDrop]
    {
      hide Enabled, Next, CancelsOk, StoryOf;
      failed := *;
      if failed {
        ghost var now: real := *;
        CanBefall(config, world, Drop(cl, now));
        Longer(Call(cl), Drop(cl, now));
        trace := trace + [Drop(cl, now)];
        world := Next(config, world, Drop(cl, now));
        DbStays(config, old(world), Drop(cl, now));
        assert Happened(config, old(world), Drop(cl, now), world);
      }
    }

    // Ask for the cancellation of one task.
    method CancelTask(w: int, task: nat)
      requires Coherent() && task < tasks
      requires IsBusy(world, w) && world.slots[w].serial == task ==> world.slots[w].lost
      modifies this`cancels
      ensures Coherent() && cancels == old(cancels) + {(w, task)}
    {
      cancels := cancels + {(w, task)};
    }

    // Everybody else takes any number of steps, which are not part of p's story: that is
    // OthersTellNothing.  The body takes none; callers may rely on no more than the contract.
    method Yield(ghost p: Program)
      requires Coherent()
      modifies this, db, cache, limiter
      ensures Coherent() && Story(p) == old(Story(p)) && Looks(p) == old(Looks(p)) + [world]
      ensures exists acts :: Others(p, acts) && Legal(config, old(world), acts)
                          && world == Run(config, old(world), acts) && trace == old(trace) + acts
    {
      ghost var acts: seq<Action> := [];
      assert Others(p, acts) && trace + acts == trace;
      looks := looks[p := Looks(p) + [world]];
    }

    method Pause(ghost w: int)
      requires Coherent()
      modifies this, db, cache, limiter
      ensures Coherent() && SlotKept(old(world), world, w) && old(trace) <= trace && Story(Worker(w)) == old(Story(Worker(w)))
    {
      hide StoryOf;
      ghost var before := world;
      Yield(Worker(w));
      ghost var acts :| Others(Worker(w), acts) && Legal(config, before, acts)
                     && world == Run(config, before, acts) && trace == old(trace) + acts;
      OthersKeepSlot(config, before, acts, w);
    }
  }

  // What happens to programs does not touch the tables.
  lemma DbStays(c: Config, s: State, a: Action)
    requires Enabled(c, s, a) && (a.Raise? || a.Cancel? || a.Drop?)
    ensures Next(c, s, a).db == s.db && Next(c, s, a).cache == s.cache && Next(c, s, a).bucket == s.bucket
    ensures Next(c, s, a).log.claims == s.log.claims
  {
  }
}
