// Programs and what they did.  A run interleaves the actions of all programs; the story of
// one of them is what it did, and what happened to it, in order.
module Stories {
  import opened Rows
  import opened Machine

  // A worker slot with its pipeline, the heartbeat of a slot, the reaper, one API call.
  datatype Program = Worker(w: int) | Heartbeat(slot: int) | Reaper | Call(client: int)

  // The actions a program takes, and nobody else.
  predicate Mine(p: Program, a: Action) {
    match p
    case Worker(w) => (a.Spawn? || a.Claim? || a.Advance?) && a.w == w
    case Heartbeat(w) => (a.Beat? || a.BeatError?) && a.w == w
    case Reaper => a.Reap?
    case Call(cl) => (a.Submit? || a.Admit? || a.Insert? || a.Requeue? || a.Reset?) && a.client == cl
  }

  // What happens to it: an exception, a delivered cancellation, a crash.  A heartbeat ends
  // with its claim; the slot makes the next claim only afterwards.
  predicate Befalls(p: Program, a: Action) {
    match p
    case Worker(w) => (a.Raise? || a.Cancel? || a.Crash?) && a.w == w
    case Heartbeat(w) => (a.Crash? || a.Claim?) && a.w == w
    case Reaper => false
    case Call(cl) => a.Drop? && a.client == cl
  }

  predicate Concerns(p: Program, a: Action) {
    Mine(p, a) || Befalls(p, a)
  }

  predicate Others(p: Program, acts: seq<Action>) {
    forall i :: 0 <= i < |acts| ==> !Concerns(p, acts[i])
  }

  // An action without what the outside world contributed to it; for a step of a pipeline,
  // the place it was made at.
  datatype Deed =
    | DidStage(pc: Pc) | DidRaise(fault: Fault) | DidCancel | DidCrash
    | DidSpawn | DidClaim(jobId: int)
    | DidBeat(beatAt: real) | DidMissBeat | DidReap(reapAt: real)
    | DidSubmit | DidAdmit | DidInsert | DidRequeue | DidReset | DidDrop

  ghost function DeedOf(c: Config, s: State, a: Action): Deed
    requires Enabled(c, s, a)
  {
    match a
    case Submit(_, _, _, _, _, _) => DidSubmit
    case Admit(_, _) => DidAdmit
    case Insert(_, _, _, _) => DidInsert
    case Requeue(_, _) => DidRequeue
    case Reset(_, _) => DidReset
    case Drop(_, _) => DidDrop
    case Spawn(_, _) => DidSpawn
    case Crash(_, _) => DidCrash
    case Claim(_, j, _) => DidClaim(j)
    case Advance(w, _, _) => DidStage(s.slots[w].pc)
    case Raise(_, fault, _) => DidRaise(fault)
    case Beat(_, now) => DidBeat(now)
    case BeatError(_, _) => DidMissBeat
    case Cancel(_, _) => DidCancel
    case Reap(now) => DidReap(now)
  }

  ghost function StoryOf(p: Program, c: Config, s: State, acts: seq<Action>): seq<Deed>
    requires Legal(c, s, acts)
    decreases |acts|
  {
    if acts == [] then []
    else (if Concerns(p, acts[0]) then [DeedOf(c, s, acts[0])] else []) + StoryOf(p, c, Next(c, s, acts[0]), acts[1..])
  }

  lemma {:induction false} StoryAppend(p: Program, c: Config, s: State, xs: seq<Action>, ys: seq<Action>)
    requires Legal(c, s, xs) && Legal(c, Run(c, s, xs), ys)
    ensures Legal(c, s, xs + ys) && StoryOf(p, c, s, xs + ys) == StoryOf(p, c, s, xs) + StoryOf(p, c, Run(c, s, xs), ys)
    decreases |xs|
  {
    hide Next, Enabled, Concerns, DeedOf;
    if xs == [] {
      assert xs + ys == ys;
    } else {
      assert (xs + ys)[1..] == xs[1..] + ys;
      StoryAppend(p, c, Next(c, s, xs[0]), xs[1..], ys);
    }
  }

  lemma StoryOfOne(p: Program, c: Config, s: State, a: Action)
    requires Enabled(c, s, a)
    ensures Legal(c, s, [a]) && StoryOf(p, c, s, [a]) == if Concerns(p, a) then [DeedOf(c, s, a)] else []
  {
    hide Next, Enabled, Concerns, DeedOf;
    OneStep(c, s, a);
    assert [a][1..] == [];
  }

  lemma {:induction false} OthersTellNothing(p: Program, c: Config, s: State, acts: seq<Action>)
    requires Legal(c, s, acts) && Others(p, acts)
    ensures StoryOf(p, c, s, acts) == []
    decreases |acts|
  {
    hide Next, Enabled, Concerns, DeedOf;
    if acts != [] {
      OthersTellNothing(p, c, Next(c, s, acts[0]), acts[1..]);
    }
  }

  // ---- States a run went through ----

  // Between the traces b and t, at the ends included, the system was in state s.
  ghost predicate Passed(c: Config, b: seq<Action>, t: seq<Action>, s: State) {
    exists pre :: b <= pre <= t && Legal(c, Initial, pre) && Run(c, Initial, pre) == s
  }

  lemma PassedNow(c: Config, b: seq<Action>, t: seq<Action>)
    requires Legal(c, Initial, t) && b <= t
    ensures Passed(c, b, t, Run(c, Initial, t))
  {
  }

  lemma PassedWider(c: Config, b: seq<Action>, t: seq<Action>, b': seq<Action>, t': seq<Action>, s: State)
    requires Passed(c, b, t, s) && b' <= b && t <= t'
    ensures Passed(c, b', t', s)
  {
    var pre :| b <= pre <= t && Legal(c, Initial, pre) && Run(c, Initial, pre) == s;
    assert b' <= pre <= t';
  }
}
