/** Where tasks are lost: which steps drop one, how many a run drops, and a run that drops
    the only task there is. */
module SchedulerLosses {
  import opened Options
  import opened Runs
  import opened Sums
  import opened SchedulerModel
  import opened SchedulerInvariant
  import opened SchedulerPreservation
  import opened SchedulerTheorems

  // ----- which steps lose a task -----

  /** The steps out of the two looks at the injector around the sleep that find a task. */
  predicate Recheck(s: State, a: Action) {
    && a.WorkerStep? && a.i < |s.workers|
    && (s.workers[a.i] == RecheckInjector || s.workers[a.i] == WokenInjector)
    && s.injector != []
  }

  lemma DiscardsOnlyInRechecks(s: State, a: Action)
    requires Reachable(s) && Enabled(s, a)
    ensures Apply(s, a).log.discarded != s.log.discarded <==> Recheck(s, a)
    ensures Recheck(s, a) ==> Apply(s, a).log.discarded == s.log.discarded + multiset{s.injector[0]}
  {
    ReachableInv(s);
    Discarding(s, a);
    if Recheck(s, a) {
      assert (s.log.discarded + multiset{s.injector[0]})[s.injector[0]] > s.log.discarded[s.injector[0]];
    }
  }

  lemma Discarding(s: State, a: Action)
    requires ShapeInv(s) && Enabled(s, a)
    ensures Apply(s, a).log.discarded ==
            if Recheck(s, a) then s.log.discarded + multiset{s.injector[0]} else s.log.discarded
  {
    match a
    case WorkerStep(i, w) => DiscardingWorker(s, i, w);
    case ClientStep(j, w) => DiscardingClient(s, j, w);
    case _ =>
  }

  lemma DiscardingWorker(s: State, i: nat, w: nat)
    requires ShapeInv(s) && WorkerEnabled(s, i, w)
    ensures WorkerApply(s, i, w).log.discarded ==
            if Recheck(s, WorkerStep(i, w)) then s.log.discarded + multiset{s.injector[0]} else s.log.discarded
  {
  }

  lemma DiscardingClient(s: State, j: nat, w: nat)
    requires ShapeInv(s) && ClientEnabled(s, j, w)
    ensures ClientApply(s, j, w).log.discarded == s.log.discarded
  {
  }

  // ----- how many a run loses -----

  /** 1 for a worker about to leave the sleep section: its next access is the fetch_add. */
  function Leaving(pc: WorkerPc): nat { if pc == AddActive then 1 else 0 }

  function StepLeaves(s: State, a: Action): nat {
    if a.WorkerStep? && a.i < |s.workers| && s.workers[a.i] == AddActive then 1 else 0
  }

  /** A worker that leaves because it sees the shutdown flag. */
  function StepSeesFlag(s: State, a: Action): nat {
    if a.WorkerStep? && a.i < |s.workers| && s.workers[a.i] == InnerCheck && s.shutdown then 1 else 0
  }

  /** How often a worker leaves the sleep section in a run ... */
  function Returns(s: State, acts: seq<Action>): nat
    requires Runnable(Try, s, acts)
    decreases |acts|
  {
    if acts == [] then 0 else StepLeaves(s, acts[0]) + Returns(Apply(s, acts[0]), acts[1..])
  }

  /** ... and how often for the flag. */
  function FlagsSeen(s: State, acts: seq<Action>): nat
    requires Runnable(Try, s, acts)
    decreases |acts|
  {
    if acts == [] then 0 else StepSeesFlag(s, acts[0]) + FlagsSeen(Apply(s, acts[0]), acts[1..])
  }

  /** Every departure from the sleep section costs a task, unless it is for the flag. */
  lemma {:induction false} DeparturesCostTasks(s: State, acts: seq<Action>)
    requires Inv(s) && Runnable(Try, s, acts)
    ensures var t := Exec(Try, s, acts);
            |t.log.discarded| + FlagsSeen(s, acts) + Sum(s.workers, Leaving)
            == |s.log.discarded| + Returns(s, acts) + Sum(t.workers, Leaving)
    decreases |acts|
  {
    if acts != [] {
      StepKeeps(s, acts[0]);
      StepCosts(s, acts[0]);
      DeparturesCostTasks(Apply(s, acts[0]), acts[1..]);
    }
  }

  lemma StepCosts(s: State, a: Action)
    requires ShapeInv(s) && Enabled(s, a)
    ensures var t := Apply(s, a);
            |t.log.discarded| + StepSeesFlag(s, a) + Sum(s.workers, Leaving)
            == |s.log.discarded| + StepLeaves(s, a) + Sum(t.workers, Leaving)
  {
    var t := Apply(s, a);
    Discarding(s, a);
    match a
    case WorkerStep(i, w) =>
      WorkerMovesOthers(s, i, w);
      WorkerLeaves(s, i, w);
      SumOne(s.workers, t.workers, Leaving, i);
    case ClientStep(j, w) =>
      ClientMovesOthers(s, j, w);
      SumSame(s.workers, t.workers, Leaving);
    case WorkerPush(i, _) => SumOne(s.workers, t.workers, Leaving, i);
    case Spurious(i) => SumOne(s.workers, t.workers, Leaving, i);
    case BossStep => SumSame(s.workers, t.workers, Leaving);
    case _ =>
  }

  lemma WorkerLeaves(s: State, i: nat, w: nat)
    requires ShapeInv(s) && WorkerEnabled(s, i, w)
    ensures |WorkerApply(s, i, w).workers| == |s.workers|
    ensures var a := WorkerStep(i, w);
            Leaving(WorkerApply(s, i, w).workers[i])
            == (if Recheck(s, a) then 1 else 0) + StepSeesFlag(s, a)
    ensures StepLeaves(s, WorkerStep(i, w)) == Leaving(s.workers[i])
  {
  }

  /** Before the flag is set there are no departures for the flag. */
  lemma {:induction false} NoFlagNoFlagsSeen(s: State, acts: seq<Action>)
    requires Inv(s) && Runnable(Try, s, acts) && !Exec(Try, s, acts).shutdown
    ensures !s.shutdown && FlagsSeen(s, acts) == 0
    decreases |acts|
  {
    if acts != [] {
      StepKeeps(s, acts[0]);
      FlagStays(s, acts[0]);
      NoFlagNoFlagsSeen(Apply(s, acts[0]), acts[1..]);
    }
  }

  lemma FlagStays(s: State, a: Action)
    requires ShapeInv(s) && Enabled(s, a)
    ensures s.shutdown ==> Apply(s, a).shutdown
  {
    match a
    case WorkerStep(i, w) => WorkerShutdown(s, i, w);
    case ClientStep(j, w) => ClientStop(s, j, w);
    case _ =>
  }

  /** So until shutdown every worker that comes out of the sleep section has dropped
      exactly one task. */
  lemma EachReturnDropsOne(s0: State, acts: seq<Action>)
    requires Init(s0) && Runnable(Try, s0, acts) && !Exec(Try, s0, acts).shutdown
    ensures |Exec(Try, s0, acts).log.discarded| == Returns(s0, acts) + Sum(Exec(Try, s0, acts).workers, Leaving)
  {
    InitKeeps(s0);
    DeparturesCostTasks(s0, acts);
    NoFlagNoFlagsSeen(s0, acts);
    SumZero(s0.workers, Leaving);
  }

  /** A runtime that is not shut down and has nothing left to do has run all its tasks if
      and only if no worker ever came out of the sleep section. */
  lemma AllRanIffNobodyReturned(s0: State, acts: seq<Action>)
    requires Init(s0) && Runnable(Try, s0, acts)
    requires var t := Exec(Try, s0, acts); !t.shutdown && t.injector == [] && InHand(t) == multiset{}
    ensures var t := Exec(Try, s0, acts);
            t.log.ran == multiset(t.log.pushed) <==>
              Returns(s0, acts) == 0 && forall i :: 0 <= i < |t.workers| ==> t.workers[i] != AddActive
  {
    var t := Exec(Try, s0, acts);
    InitKeeps(s0);
    RunKeeps(s0, acts);
    EachReturnDropsOne(s0, acts);
    PushedIsRanAndDiscarded(t);
    if t.log.discarded == multiset{} && Returns(s0, acts) == 0 {
      forall i | 0 <= i < |t.workers| ensures t.workers[i] != AddActive {
        SumMember(t.workers, Leaving, i);
      }
    }
    if forall i :: 0 <= i < |t.workers| ==> t.workers[i] != AddActive {
      SumZero(t.workers, Leaving);
    }
  }

  // ----- who wakes up drops first -----

  /** In the waiting loop: asleep, or woken and not yet out of it. */
  predicate Resting(pc: WorkerPc) {
    || pc == InnerCheck || pc == AboutToWait || pc == Waiting
    || pc == Woken || pc == WokenLocal || pc == WokenInjector
  }

  function Up(pc: WorkerPc): nat { if Resting(pc) then 0 else 1 }

  /** How many tasks worker i drops in a run. */
  function DropsBy(s: State, acts: seq<Action>, i: nat): nat
    requires Runnable(Try, s, acts)
    decreases |acts|
  {
    if acts == [] then 0
    else (if Recheck(s, acts[0]) && acts[0].i == i then 1 else 0) + DropsBy(Apply(s, acts[0]), acts[1..], i)
  }

  lemma RestingWorker(s: State, i: nat, w: nat)
    requires ShapeInv(s) && WorkerEnabled(s, i, w) && Resting(s.workers[i]) && !s.shutdown
    ensures |WorkerApply(s, i, w).workers| == |s.workers|
    ensures Resting(WorkerApply(s, i, w).workers[i]) <==> !Recheck(s, WorkerStep(i, w))
  {
  }

  lemma RestingStep(s: State, a: Action, i: nat)
    requires Inv(s) && Enabled(s, a) && i < |s.workers| && Resting(s.workers[i]) && !s.shutdown
    ensures |Apply(s, a).workers| == |s.workers|
    ensures Resting(Apply(s, a).workers[i]) <==> !(Recheck(s, a) && a.i == i)
  {
    SameSizes(s, a);
    if a.WorkerStep? && a.i == i {
      RestingWorker(s, i, a.w);
    } else if Actor(a) != Worker(i) || a == Spurious(i) {
      OthersKeepWorker(s, a, i);
    }
  }

  /** Until shutdown, a worker in its waiting loop stays there, taking nothing, as long as it
      has dropped no task: the first one it dequeues it drops. */
  lemma {:induction false} FirstTaskIsDropped(s: State, acts: seq<Action>, i: nat)
    requires Inv(s) && Runnable(Try, s, acts) && !Exec(Try, s, acts).shutdown
    requires i < |s.workers| && Resting(s.workers[i]) && DropsBy(s, acts, i) == 0
    ensures i < |Exec(Try, s, acts).workers| && Resting(Exec(Try, s, acts).workers[i])
    decreases |acts|
  {
    if acts != [] {
      NoFlagNoFlagsSeen(s, acts);
      StepKeeps(s, acts[0]);
      RestingStep(s, acts[0], i);
      FirstTaskIsDropped(Apply(s, acts[0]), acts[1..], i);
    }
  }

  lemma StepUp(s: State, a: Action)
    requires Inv(s) && Enabled(s, a) && !s.shutdown
    ensures Sum(Apply(s, a).workers, Up) + |s.log.discarded| <= Sum(s.workers, Up) + |Apply(s, a).log.discarded|
  {
    var t := Apply(s, a);
    Discarding(s, a);
    match a
    case WorkerStep(i, w) =>
      WorkerMovesOthers(s, i, w);
      if Resting(s.workers[i]) { RestingWorker(s, i, w); }
      SumOne(s.workers, t.workers, Up, i);
    case ClientStep(j, w) =>
      ClientMovesOthers(s, j, w);
      SumSame(s.workers, t.workers, Up);
    case WorkerPush(i, _) => SumOne(s.workers, t.workers, Up, i);
    case Spurious(i) => SumOne(s.workers, t.workers, Up, i);
    case BossStep => SumSame(s.workers, t.workers, Up);
    case _ =>
  }

  /** Each worker that is up has cost a task, but for those that were up at the start. */
  lemma {:induction false} UpCostsTasks(s: State, acts: seq<Action>)
    requires Inv(s) && Runnable(Try, s, acts) && !Exec(Try, s, acts).shutdown
    ensures var t := Exec(Try, s, acts);
            Sum(t.workers, Up) + |s.log.discarded| <= Sum(s.workers, Up) + |t.log.discarded|
    decreases |acts|
  {
    if acts != [] {
      NoFlagNoFlagsSeen(s, acts);
      StepKeeps(s, acts[0]);
      StepUp(s, acts[0]);
      UpCostsTasks(Apply(s, acts[0]), acts[1..]);
    }
  }

  /** So in a runtime at rest, all its workers in their waiting loops, no more workers come up
      than tasks are dropped, and until the first is dropped every task spawned stays queued
      or is taken by a client. */
  lemma AtRestTheFirstIsDropped(s: State, acts: seq<Action>)
    requires Reachable(s) && Runnable(Try, s, acts) && !Exec(Try, s, acts).shutdown
    requires forall i :: 0 <= i < |s.workers| ==> Resting(s.workers[i])
    ensures var t := Exec(Try, s, acts);
            && Sum(t.workers, Up) + |s.log.discarded| <= |t.log.discarded|
            && (|t.log.discarded| == |s.log.discarded| ==>
                  forall i :: 0 <= i < |t.workers| ==> Resting(t.workers[i]) && WorkerHeld(t.workers[i]) == None)
  {
    ReachableInv(s);
    UpCostsTasks(s, acts);
    SumZero(s.workers, Up);
    var t := Exec(Try, s, acts);
    if |t.log.discarded| == |s.log.discarded| {
      forall i | 0 <= i < |t.workers| ensures Resting(t.workers[i]) {
        SumMember(t.workers, Up, i);
      }
    }
  }

  lemma PushedIsRanAndDiscarded(t: State)
    requires Inv(t) && t.injector == [] && InHand(t) == multiset{}
    ensures t.log.ran == multiset(t.log.pushed) <==> |t.log.discarded| == 0
  {
    assert t.log.pushed == t.log.taken;
    assert multiset(t.log.pushed) == t.log.ran + t.log.discarded;
    assert |multiset(t.log.pushed)| == |t.log.ran| + |t.log.discarded|;
    if |t.log.discarded| == 0 {
      assert t.log.discarded == multiset{};
    }
  }

  // ----- a run that loses the only task -----

  /** A concrete run in which the only task ever spawned is dequeued by a re-check and
      dropped: it is pushed between a worker's failed steal and its re-check. */
  lemma TaskCanBeLost() returns (s: State)
    ensures Reachable(s)
    ensures s.log.pushed == [7] && s.injector == [] && InHand(s) == multiset{} && s.log.ran == multiset{}
  {
    s := TaskIsDiscarded();
    GatherNone(s.workers, WorkerHand);
    GatherNone(s.clients, ClientHand);
  }

  lemma TaskIsDiscarded() returns (s: State)
    ensures Reachable(s)
    ensures s.workers == [AddActive] && s.clients == [Outside(WantMutex)] && s.injector == []
    ensures s.log == Log([7], [7], multiset{}, multiset{7})
  {
    s := OneWorkerGoesToSleep();
    assert Apply(s, ClientPush(0, 7))
           == s.(clients := [Outside(WantMutex)], injector := [7], log := Log([7], [], multiset{}, multiset{}));
    s := Next(Init, Try, s, ClientPush(0, 7));
    assert Apply(s, WorkerStep(0, 0))
           == s.(workers := [AddActive], injector := [], log := Log([7], [7], multiset{}, multiset{7}));
    s := Next(Init, Try, s, WorkerStep(0, 0));
  }

  lemma OneWorkerGoesToSleep() returns (s: State)
    ensures Reachable(s)
    ensures s == State([RecheckInjector], [[]], [Outside(Quiet)], Idle, [], Held(Worker(0)), Free, Free, 0, false, 0,
                       Log([], [], multiset{}, multiset{}))
  {
    s := OneWorkerFindsNothing();
    assert Apply(s, WorkerStep(0, 0)) == s.(workers := [SubActive], mutex := Held(Worker(0)));
    s := Next(Init, Try, s, WorkerStep(0, 0));
    assert Apply(s, WorkerStep(0, 0)) == s.(workers := [RecheckLocal], active := 0);
    s := Next(Init, Try, s, WorkerStep(0, 0));
    assert Apply(s, WorkerStep(0, 0)) == s.(workers := [RecheckInjector]);
    s := Next(Init, Try, s, WorkerStep(0, 0));
  }

  lemma OneWorkerFindsNothing() returns (s: State)
    ensures Reachable(s)
    ensures s == State([LockMutex], [[]], [Outside(Quiet)], Idle, [], Free, Free, Free, 1, false, 0,
                       Log([], [], multiset{}, multiset{}))
  {
    s := OneWorkerScans();
    assert Apply(s, WorkerStep(0, 0)) == s.(workers := [StealInjector], stealers := Free);
    s := Next(Init, Try, s, WorkerStep(0, 0));
    assert Apply(s, WorkerStep(0, 0)) == s.(workers := [LockMutex]);
    s := Next(Init, Try, s, WorkerStep(0, 0));
  }

  lemma OneWorkerScans() returns (s: State)
    ensures Reachable(s)
    ensures s == State([Scan(0)], [[]], [Outside(Quiet)], Idle, [], Free, Held(Worker(0)), Free, 1, false, 0,
                       Log([], [], multiset{}, multiset{}))
  {
    s := Beginning();
    assert Apply(s, WorkerStep(0, 0)) == s.(workers := [PopLocal]);
    s := Next(Init, Try, s, WorkerStep(0, 0));
    assert Apply(s, WorkerStep(0, 0)) == s.(workers := [WantStealers]);
    s := Next(Init, Try, s, WorkerStep(0, 0));
    assert Apply(s, WorkerStep(0, 0)) == s.(workers := [Scan(0)], stealers := Held(Worker(0)));
    s := Next(Init, Try, s, WorkerStep(0, 0));
  }
}
