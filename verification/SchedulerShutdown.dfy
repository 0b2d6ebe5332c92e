/** Shutdown: nobody sleeps through it, the work left is bounded, and the joins return
    exactly when no worker is caught inside `notify_worker`. */
module SchedulerShutdown {
  import opened Runs
  import opened Sums
  import opened SchedulerModel
  import opened SchedulerInvariant
  import opened SchedulerPreservation
  import opened SchedulerTheorems

  // ----- nobody sleeps through it -----

  /** Once notify_all has run, no worker is in `wait`, or about to enter it, ever again. */
  lemma NobodyWaitsAgain(s: State, acts: seq<Action>)
    requires Reachable(s) && StopNotifiedAll(s.boss) && Runnable(Try, s, acts)
    ensures StopNotifiedAll(Exec(Try, s, acts).boss)
    ensures forall i :: 0 <= i < |Exec(Try, s, acts).workers| ==> !InWait(Exec(Try, s, acts).workers[i])
  {
    ReachableInv(s);
    RunKeeps(s, acts);
    BossRuns(s, acts);
  }

  lemma {:induction false} BossRuns(s: State, acts: seq<Action>)
    requires Inv(s) && Runnable(Try, s, acts) && StopNotifiedAll(s.boss)
    ensures StopNotifiedAll(Exec(Try, s, acts).boss)
    decreases |acts|
  {
    if acts != [] {
      var t := Apply(s, acts[0]);
      StepKeeps(s, acts[0]);
      if acts[0].BossStep? {
        assert StopNotifiedAll(BossApply(s).boss);
      } else {
        BossKeeps(s, acts[0]);
      }
      BossRuns(t, acts[1..]);
    }
  }

  // ----- the work left is bounded -----

  function CallRank(c: Call): nat {
    match c
    case Quiet => 0
    case WantMutex => 6
    case HasMutex => 5
    case Notified => 4
    case WantUnparkers => 3
    case HasUnparkers => 2
    case Picked => 1
  }

  /** How many more steps a worker takes, at most, once the flag is set. */
  function Rank(n: nat, pc: WorkerPc): nat {
    match pc
    case Exited => 0
    case Check => 1
    case Unlock => 2
    case Running(_, c) => 2 + CallRank(c)
    case AddActive => 3
    case ScanHit(_) => 3
    case InnerCheck => 4
    case RecheckInjector => 5
    case WokenInjector => 5
    case RecheckLocal => 6
    case WokenLocal => 6
    case SubActive => 7
    case Woken => 7
    case LockMutex => 8
    case Waiting => 8
    case AboutToWait => 9
    case StealInjector => 9
    case Scan(k) => 10 + if k < n then n - k else 0
    case WantStealers => 11 + n
    case PopLocal => 12 + n
  }

  function RankIn(n: nat): WorkerPc -> nat { (pc: WorkerPc) => Rank(n, pc) }

  function WorkLeft(s: State): nat { Sum(s.workers, RankIn(|s.workers|)) }

  function Work(a: Action): nat { if a.WorkerStep? || a.Spurious? then 1 else 0 }

  function NewWork(a: Action): nat { if a.WorkerPush? then 6 else 0 }

  lemma WorkerRank(s: State, i: nat, w: nat)
    requires WorkerEnabled(s, i, w) && ShapeInv(s) && s.shutdown
    ensures Rank(|s.workers|, WorkerApply(s, i, w).workers[i]) < Rank(|s.workers|, s.workers[i])
  {
  }

  lemma SumMoves(a: seq<WorkerPc>, b: seq<WorkerPc>, n: nat, me: nat)
    requires |a| == |b| && me < |a|
    requires forall i :: 0 <= i < |a| && i != me ==> SameOrWoken(a[i], b[i])
    ensures Sum(b, RankIn(n)) + Rank(n, a[me]) <= Sum(a, RankIn(n)) + Rank(n, b[me])
  {
    var m := b[me := a[me]];
    SumAtMost(m, a, RankIn(n));
    SumUpdate(b, RankIn(n), me, a[me]);
  }

  lemma StepWork(s: State, a: Action)
    requires Enabled(s, a) && ShapeInv(s) && s.shutdown
    ensures WorkLeft(Apply(s, a)) + Work(a) <= WorkLeft(s) + NewWork(a)
    ensures Apply(s, a).shutdown && |Apply(s, a).workers| == |s.workers|
  {
    var t, n := Apply(s, a), |s.workers|;
    match a
    case WorkerStep(i, w) =>
      WorkerMovesOthers(s, i, w);
      WorkerShutdown(s, i, w);
      WorkerRank(s, i, w);
      SumMoves(s.workers, t.workers, n, i);
    case WorkerPush(i, u) => SumMoves(s.workers, t.workers, n, i);
    case Spurious(i) => SumMoves(s.workers, t.workers, n, i);
    case ClientStep(j, w) =>
      ClientMovesOthers(s, j, w);
      ClientStop(s, j, w);
      SumAtMost(t.workers, s.workers, RankIn(n));
    case BossStep => SumAtMost(t.workers, s.workers, RankIn(n));
    case _ =>
  }

  function TotalWork(acts: seq<Action>): nat {
    if acts == [] then 0 else Work(acts[0]) + TotalWork(acts[1..])
  }

  function TotalNewWork(acts: seq<Action>): nat {
    if acts == [] then 0 else NewWork(acts[0]) + TotalNewWork(acts[1..])
  }

  /** With the flag set, the workers of any run take at most a fixed number of steps plus
      six for each push made by a task they are running. */
  lemma {:induction false} WorkerStepsBounded(s: State, acts: seq<Action>)
    requires Inv(s) && s.shutdown && Runnable(Try, s, acts)
    ensures TotalWork(acts) + WorkLeft(Exec(Try, s, acts)) <= WorkLeft(s) + TotalNewWork(acts)
    ensures Exec(Try, s, acts).shutdown
    decreases |acts|
  {
    if acts != [] {
      StepKeeps(s, acts[0]);
      StepWork(s, acts[0]);
      WorkerStepsBounded(Apply(s, acts[0]), acts[1..]);
    }
  }

  lemma WorkLeftBounded(s: State)
    ensures WorkLeft(s) <= |s.workers| * (|s.workers| + 12)
  {
    var n := |s.workers|;
    SumBound(s.workers, RankIn(n), n + 12);
  }

  // ----- a worker inside notify_worker never gets out -----

  ghost predicate NoWorkerCalling(s: State) {
    forall i :: 0 <= i < |s.workers| ==> CallOf(s.workers[i]) == Quiet
  }

  /** The caller of shutdown keeps `unparkers` locked across the joins, and worker i still
      has to lock it before its task can return. */
  ghost predicate Caught(s: State, i: nat) {
    && (s.boss.StopUnparking? || (s.boss.Joining? && s.boss.k <= i))
    && i < |s.workers|
    && CallOf(s.workers[i]) in {WantMutex, HasMutex, Notified, WantUnparkers}
  }

  lemma CaughtStep(s: State, a: Action, i: nat)
    requires Inv(s) && Caught(s, i) && Enabled(s, a)
    ensures Caught(Apply(s, a), i)
  {
    assert HoldsUnparkers(s, Boss) <==> s.unparkers == Held(Boss);
    if a.BossStep? {
      assert s.boss.Joining? ==> s.boss.k < i;
    } else {
      BossKeeps(s, a);
      if a.WorkerStep? && a.i == i {
        CaughtWorker(s, i, a.w);
      } else if Actor(a) != Worker(i) {
        OthersKeepWorker(s, a, i);
      }
    }
  }

  lemma CaughtWorker(s: State, i: nat, w: nat)
    requires ShapeInv(s) && Caught(s, i) && WorkerEnabled(s, i, w) && s.unparkers == Held(Boss)
    ensures |WorkerApply(s, i, w).workers| == |s.workers|
    ensures CallOf(WorkerApply(s, i, w).workers[i]) in {WantMutex, HasMutex, Notified, WantUnparkers}
  {
  }

  lemma {:induction false} CaughtForever(s: State, acts: seq<Action>, i: nat)
    requires Inv(s) && Caught(s, i) && Runnable(Try, s, acts)
    ensures Caught(Exec(Try, s, acts), i)
    decreases |acts|
  {
    if acts != [] {
      StepKeeps(s, acts[0]);
      CaughtStep(s, acts[0], i);
      CaughtForever(Apply(s, acts[0]), acts[1..], i);
    }
  }

  // ----- otherwise somebody can always move -----

  /** How many more steps a client takes before it gives up the lock it holds. */
  function LockRank(n: nat, pc: ClientPc): nat {
    match pc
    case BlockScan(k) => 3 + if k < n then n - k else 0
    case BlockInjector => 2
    case BlockDrop(_) => 1
    case Outside(HasMutex) => 2
    case Outside(Notified) => 1
    case Outside(HasUnparkers) => 2
    case Outside(Picked) => 1
    case Helping(_, HasMutex) => 2
    case Helping(_, Notified) => 1
    case Helping(_, HasUnparkers) => 2
    case Helping(_, Picked) => 1
    case _ => 0
  }

  function LockRankIn(n: nat): ClientPc -> nat { (pc: ClientPc) => LockRank(n, pc) }

  function Remaining(s: State): nat { WorkLeft(s) + Sum(s.clients, LockRankIn(|s.workers|)) }

  ghost predicate Stopping(s: State) { Inv(s) && s.boss.Joining? && NoWorkerCalling(s) }

  predicate HoldsALock(pc: ClientPc) {
    || pc.BlockScan? || pc.BlockInjector? || pc.BlockDrop?
    || CallHoldsMutex(ClientCall(pc)) || CallHoldsUnparkers(ClientCall(pc))
  }

  lemma ClientLockRank(s: State, j: nat, w: nat)
    requires ClientEnabled(s, j, w) && ShapeInv(s) && HoldsALock(s.clients[j])
    ensures LockRank(|s.workers|, ClientApply(s, j, w).clients[j]) < LockRank(|s.workers|, s.clients[j])
  {
  }

  lemma WorkerStaysQuiet(s: State, i: nat, w: nat)
    requires WorkerEnabled(s, i, w) && ShapeInv(s) && CallOf(s.workers[i]) == Quiet
    ensures CallOf(WorkerApply(s, i, w).workers[i]) == Quiet
  {
  }

  lemma WorkerMakesProgress(s: State, i: nat)
    requires Stopping(s) && WorkerEnabled(s, i, 0)
    ensures Stopping(WorkerApply(s, i, 0)) && WorkerApply(s, i, 0).boss == s.boss
    ensures Remaining(WorkerApply(s, i, 0)) < Remaining(s)
  {
    var a := WorkerStep(i, 0);
    StepKeeps(s, a);
    StepWork(s, a);
    WorkersStayQuiet(s, i);
    WorkerMovesOthers(s, i, 0);
  }

  lemma WorkersStayQuiet(s: State, i: nat)
    requires Stopping(s) && WorkerEnabled(s, i, 0)
    ensures NoWorkerCalling(WorkerApply(s, i, 0))
  {
    WorkerMovesOthers(s, i, 0);
    WorkerStaysQuiet(s, i, 0);
  }

  lemma ClientMakesProgress(s: State, j: nat)
    requires Stopping(s) && ClientEnabled(s, j, 0) && HoldsALock(s.clients[j])
    ensures Stopping(ClientApply(s, j, 0)) && ClientApply(s, j, 0).boss == s.boss
    ensures Remaining(ClientApply(s, j, 0)) < Remaining(s)
  {
    var a, t, n := ClientStep(j, 0), ClientApply(s, j, 0), |s.workers|;
    StepKeeps(s, a);
    StepWork(s, a);
    ClientMovesOthers(s, j, 0);
    ClientLockRank(s, j, 0);
    SumOne(s.clients, t.clients, LockRankIn(n), j);
  }

  /** A holder of the mutex, or of `stealers`, can always take its next step. */
  lemma HolderCanStep(s: State, o: Owner)
    requires Stopping(s) && (s.mutex == Held(o) || s.stealers == Held(o))
    ensures o.Worker? || o.Client?
    ensures o.Worker? ==> WorkerEnabled(s, o.i, 0)
    ensures o.Client? ==> ClientEnabled(s, o.j, 0) && HoldsALock(s.clients[o.j])
  {
    assert HoldsMutex(s, o) <==> s.mutex == Held(o);
    assert HoldsStealers(s, o) <==> s.stealers == Held(o);
  }

  /** While a worker has not exited, some worker, or a client holding a lock one waits
      for, is enabled, and its step brings the end nearer. */
  lemma NeverStuck(s: State, i: nat) returns (a: Action)
    requires Stopping(s) && i < |s.workers| && s.workers[i] != Exited
    ensures Enabled(s, a) && (a.WorkerStep? || a.ClientStep?)
    ensures Stopping(Apply(s, a)) && Apply(s, a).boss == s.boss
    ensures Remaining(Apply(s, a)) < Remaining(s)
  {
    if WorkerEnabled(s, i, 0) {
      a := WorkerStep(i, 0);
      WorkerMakesProgress(s, i);
    } else {
      var o := BlockedBehind(s, i);
      HolderCanStep(s, o);
      if o.Worker? {
        a := WorkerStep(o.i, 0);
        WorkerMakesProgress(s, o.i);
      } else {
        a := ClientStep(o.j, 0);
        ClientMakesProgress(s, o.j);
      }
    }
  }

  lemma BlockedBehind(s: State, i: nat) returns (o: Owner)
    requires Stopping(s) && i < |s.workers| && s.workers[i] != Exited && !WorkerEnabled(s, i, 0)
    ensures s.mutex == Held(o) || s.stealers == Held(o)
  {
    o := if s.workers[i] == WantStealers then s.stealers.owner else s.mutex.owner;
  }

  // ----- the joins return exactly when no worker is caught -----

  ghost predicate JoinsCanReturn(s: State) {
    exists acts :: Runnable(Try, s, acts) && Exec(Try, s, acts).boss == Done
  }

  lemma {:induction false} DrainWorkers(s: State) returns (acts: seq<Action>)
    requires Stopping(s)
    ensures Runnable(Try, s, acts) && Stopping(Exec(Try, s, acts)) && Exec(Try, s, acts).boss == s.boss
    ensures forall i :: 0 <= i < |Exec(Try, s, acts).workers| ==> Exec(Try, s, acts).workers[i] == Exited
    decreases Remaining(s)
  {
    if i :| 0 <= i < |s.workers| && s.workers[i] != Exited {
      var a := NeverStuck(s, i);
      var rest := DrainWorkers(Apply(s, a));
      acts := [a] + rest;
      assert acts[1..] == rest;
    } else {
      acts := [];
    }
  }

  lemma {:induction false} JoinAll(s: State) returns (acts: seq<Action>)
    requires s.boss.Joining? && s.boss.k <= |s.workers|
    requires forall i :: 0 <= i < |s.workers| ==> s.workers[i] == Exited
    ensures Runnable(Try, s, acts) && Exec(Try, s, acts).boss == Done
    decreases |s.workers| - s.boss.k
  {
    var t := Apply(s, BossStep);
    if s.boss.k < |s.workers| {
      var rest := JoinAll(t);
      acts := [BossStep] + rest;
      assert acts[1..] == rest;
    } else {
      acts := [BossStep];
      assert Runnable(Try, t, acts[1..]) && Exec(Try, t, acts[1..]) == t;
    }
  }

  lemma CallerIsCaught(s: State, i: nat)
    requires Inv(s) && (s.boss.StopUnparking? || s.boss.Joining?)
    requires i < |s.workers| && CallOf(s.workers[i]) != Quiet
    ensures Caught(s, i)
  {
    assert HoldsUnparkers(s, Worker(i)) <==> s.unparkers == Held(Worker(i));
    assert HoldsUnparkers(s, Boss) <==> s.unparkers == Held(Boss);
  }

  /** With the joins begun, they can still all return if and only if no worker is inside
      `notify_worker`: such a worker waits for the `unparkers` lock that the joining
      thread holds until the joins are over. */
  lemma JoinsReturnIff(s: State)
    requires Reachable(s) && s.boss.Joining?
    ensures JoinsCanReturn(s) <==> NoWorkerCalling(s)
  {
    ReachableInv(s);
    if NoWorkerCalling(s) {
      var drain := DrainWorkers(s);
      var joins := JoinAll(Exec(Try, s, drain));
      ExecConcat(Try, s, drain, joins);
    } else {
      var i :| 0 <= i < |s.workers| && CallOf(s.workers[i]) != Quiet;
      CallerIsCaught(s, i);
      forall acts | Runnable(Try, s, acts) ensures Exec(Try, s, acts).boss != Done {
        CaughtForever(s, acts, i);
      }
    }
  }

  // ----- what every run without a push does -----

  predicate NoWorkerPushes(acts: seq<Action>) { forall k :: 0 <= k < |acts| ==> !acts[k].WorkerPush? }

  lemma StaysQuiet(s: State, a: Action)
    requires Inv(s) && NoWorkerCalling(s) && Enabled(s, a) && !a.WorkerPush?
    ensures NoWorkerCalling(Apply(s, a))
  {
    SameSizes(s, a);
    forall i | 0 <= i < |s.workers| ensures CallOf(Apply(s, a).workers[i]) == Quiet {
      if a.WorkerStep? && a.i == i {
        WorkerStaysQuiet(s, i, a.w);
      } else if Actor(a) != Worker(i) || a == Spurious(i) {
        OthersKeepWorker(s, a, i);
      }
    }
  }

  lemma {:induction false} QuietWithoutPush(s: State, acts: seq<Action>)
    requires Inv(s) && NoWorkerCalling(s) && Runnable(Try, s, acts) && NoWorkerPushes(acts)
    ensures NoWorkerCalling(Exec(Try, s, acts))
    decreases |acts|
  {
    if acts != [] {
      StepKeeps(s, acts[0]);
      StaysQuiet(s, acts[0]);
      QuietWithoutPush(Apply(s, acts[0]), acts[1..]);
    }
  }

  /** A push by a worker's task during the joins catches its worker. */
  lemma PushIsCaught(s: State, i: nat, u: Task)
    requires Inv(s) && s.boss.Joining? && Enabled(s, WorkerPush(i, u))
    ensures Caught(Apply(s, WorkerPush(i, u)), i)
  {
  }

  lemma {:induction false} PushCatches(s: State, acts: seq<Action>) returns (i: nat)
    requires Inv(s) && s.boss.Joining? && Runnable(Try, s, acts) && Exec(Try, s, acts).boss.Joining?
    requires !NoWorkerPushes(acts)
    ensures Caught(Exec(Try, s, acts), i)
    decreases |acts|
  {
    StaysJoining(s, acts);
    if acts[0].WorkerPush? {
      i := acts[0].i;
      PushStaysCaught(s, acts);
    } else {
      var k :| 0 <= k < |acts| && acts[k].WorkerPush?;
      assert acts[1..][k - 1] == acts[k];
      i := PushCatches(Apply(s, acts[0]), acts[1..]);
    }
  }

  lemma PushStaysCaught(s: State, acts: seq<Action>)
    requires Inv(s) && s.boss.Joining? && Runnable(Try, s, acts) && acts != [] && acts[0].WorkerPush?
    requires Inv(Apply(s, acts[0]))
    ensures Caught(Exec(Try, s, acts), acts[0].i)
  {
    PushIsCaught(s, acts[0].i, acts[0].u);
    CaughtForever(Apply(s, acts[0]), acts[1..], acts[0].i);
  }

  lemma StaysJoining(s: State, acts: seq<Action>)
    requires Inv(s) && s.boss.Joining? && Runnable(Try, s, acts) && acts != [] && Exec(Try, s, acts).boss.Joining?
    ensures Inv(Apply(s, acts[0])) && Apply(s, acts[0]).boss.Joining?
  {
    var t := Apply(s, acts[0]);
    StepKeeps(s, acts[0]);
    if acts[0].BossStep? {
      if t.boss == Done {
        DoneStays(t, acts[1..]);
      }
    } else {
      BossKeeps(s, acts[0]);
    }
  }

  lemma {:induction false} DoneStays(s: State, acts: seq<Action>)
    requires Inv(s) && s.boss == Done && Runnable(Try, s, acts)
    ensures Exec(Try, s, acts).boss == Done
    decreases |acts|
  {
    if acts != [] {
      StepKeeps(s, acts[0]);
      BossKeeps(s, acts[0]);
      DoneStays(Apply(s, acts[0]), acts[1..]);
    }
  }

  /** From joins begun with no worker inside `notify_worker`: at the end of any run that is
      still joining, none is if and only if no task a worker was running has pushed. */
  lemma QuietIffNoPush(s: State, acts: seq<Action>)
    requires Reachable(s) && s.boss.Joining? && NoWorkerCalling(s)
    requires Runnable(Try, s, acts) && Exec(Try, s, acts).boss.Joining?
    ensures NoWorkerCalling(Exec(Try, s, acts)) <==> NoWorkerPushes(acts)
  {
    ReachableInv(s);
    if NoWorkerPushes(acts) {
      QuietWithoutPush(s, acts);
    } else {
      var i := PushCatches(s, acts);
    }
  }

  /** So the possibility that JoinsReturnIff speaks of is lost with the first such push, at
      whatever point of the joins it comes. */
  lemma PushHangsJoins(s: State, i: nat, u: Task)
    requires Reachable(s) && s.boss.Joining? && Enabled(s, WorkerPush(i, u))
    ensures !JoinsCanReturn(Apply(s, WorkerPush(i, u)))
  {
    var t := Apply(s, WorkerPush(i, u));
    ReachableInv(s);
    StepKeeps(s, WorkerPush(i, u));
    PushIsCaught(s, i, u);
    forall acts | Runnable(Try, t, acts) ensures Exec(Try, t, acts).boss != Done {
      CaughtForever(t, acts, i);
    }
  }

  /** A state from which the end of the joins gets nearer: a worker, or a client with a lock
      a worker waits for, has a step that leaves fewer to take. */
  ghost predicate CanProgress(s: State) {
    exists a :: Enabled(s, a) && (a.WorkerStep? || a.ClientStep?) && Remaining(Apply(s, a)) < Remaining(s)
  }

  ghost predicate AllExited(s: State) {
    forall i :: 0 <= i < |s.workers| ==> s.workers[i] == Exited
  }

  /** So in every run of the joins in which no such task pushes, the workers take at most
      n(n + 12) steps, and wherever the run stops, either all of them have exited or somebody
      can bring that nearer. */
  lemma JoinsReturnUnlessPush(s: State, acts: seq<Action>)
    requires Reachable(s) && s.boss.Joining? && NoWorkerCalling(s)
    requires Runnable(Try, s, acts) && NoWorkerPushes(acts)
    ensures TotalWork(acts) <= |s.workers| * (|s.workers| + 12)
    ensures AllExited(Exec(Try, s, acts)) || CanProgress(Exec(Try, s, acts))
  {
    var t := Exec(Try, s, acts);
    ReachableInv(s);
    WorkIsBounded(s, acts);
    RunKeeps(s, acts);
    QuietWithoutPush(s, acts);
    if !AllExited(t) {
      JoiningOrDone(s, acts);
      var i :| 0 <= i < |t.workers| && t.workers[i] != Exited;
      var a := NeverStuck(t, i);
    }
  }

  lemma WorkIsBounded(s: State, acts: seq<Action>)
    requires Inv(s) && s.boss.Joining? && Runnable(Try, s, acts) && NoWorkerPushes(acts)
    ensures TotalWork(acts) <= |s.workers| * (|s.workers| + 12)
  {
    WorkerStepsBounded(s, acts);
    WorkLeftBounded(s);
    NoNewWork(acts);
  }

  lemma {:induction false} NoNewWork(acts: seq<Action>)
    requires NoWorkerPushes(acts)
    ensures TotalNewWork(acts) == 0
    decreases |acts|
  {
    if acts != [] {
      NoNewWork(acts[1..]);
    }
  }

  lemma {:induction false} JoiningOrDone(s: State, acts: seq<Action>)
    requires Inv(s) && (s.boss.Joining? || s.boss == Done) && Runnable(Try, s, acts)
    ensures Exec(Try, s, acts).boss.Joining? || Exec(Try, s, acts).boss == Done
    decreases |acts|
  {
    if acts != [] {
      StepKeeps(s, acts[0]);
      if !acts[0].BossStep? {
        BossKeeps(s, acts[0]);
      }
      JoiningOrDone(Apply(s, acts[0]), acts[1..]);
    }
  }

  // ----- the code can be caught -----

  /** A concrete run: the one worker's task spawns a task and is about to notify when
      shutdown takes `unparkers` for its joins. They never return. */
  lemma ShutdownCanHang() returns (s: State)
    ensures Reachable(s) && s.boss == Joining(0) && !JoinsCanReturn(s)
  {
    s := EveryoneIsNotified();
    assert Apply(s, BossStep) == s.(mutex := Free, boss := StopWantUnparkers);
    s := Next(Init, Try, s, BossStep);
    assert Apply(s, BossStep) == s.(unparkers := Held(Boss), boss := StopUnparking);
    s := Next(Init, Try, s, BossStep);
    assert Apply(s, BossStep) == s.(boss := Joining(0));
    s := Next(Init, Try, s, BossStep);
    assert CallOf(s.workers[0]) != Quiet;
    JoinsReturnIff(s);
  }

  lemma EveryoneIsNotified() returns (s: State)
    ensures Reachable(s)
    ensures s == State([Running(7, WantMutex)], [[]], [Outside(WantMutex)], StopNotified, [8], Held(Boss), Free, Free,
                       1, true, 0, Log([7, 8], [7], multiset{}, multiset{}))
  {
    s := TaskIsNotifying();
    assert Apply(s, BossStep) == s.(shutdown := true, boss := StopWantMutex);
    s := Next(Init, Try, s, BossStep);
    assert Apply(s, BossStep) == s.(mutex := Held(Boss), boss := StopHasMutex);
    s := Next(Init, Try, s, BossStep);
    assert WakeAll(s.workers) == s.workers;
    assert Apply(s, BossStep) == s.(boss := StopNotified);
    s := Next(Init, Try, s, BossStep);
  }

  lemma TaskIsNotifying() returns (s: State)
    ensures Reachable(s)
    ensures s == State([Running(7, WantMutex)], [[]], [Outside(WantMutex)], Idle, [8], Free, Free, Free, 1, false, 0,
                       Log([7, 8], [7], multiset{}, multiset{}))
  {
    s := WorkerScansInVain();
    assert Apply(s, WorkerStep(0, 0)) == s.(workers := [StealInjector], stealers := Free);
    s := Next(Init, Try, s, WorkerStep(0, 0));
    assert Apply(s, WorkerStep(0, 0))
           == s.(workers := [Running(7, Quiet)], injector := [], log := Log([7], [7], multiset{}, multiset{}));
    s := Next(Init, Try, s, WorkerStep(0, 0));
    assert Apply(s, WorkerPush(0, 8))
           == s.(workers := [Running(7, WantMutex)], injector := [8], log := Log([7, 8], [7], multiset{}, multiset{}));
    s := Next(Init, Try, s, WorkerPush(0, 8));
  }

  lemma WorkerScansInVain() returns (s: State)
    ensures Reachable(s)
    ensures s == State([Scan(0)], [[]], [Outside(WantMutex)], Idle, [7], Free, Held(Worker(0)), Free, 1, false, 0,
                       Log([7], [], multiset{}, multiset{}))
  {
    s := Beginning();
    assert Apply(s, ClientPush(0, 7))
           == s.(clients := [Outside(WantMutex)], injector := [7], log := Log([7], [], multiset{}, multiset{}));
    s := Next(Init, Try, s, ClientPush(0, 7));
    assert Apply(s, WorkerStep(0, 0)) == s.(workers := [PopLocal]);
    s := Next(Init, Try, s, WorkerStep(0, 0));
    assert Apply(s, WorkerStep(0, 0)) == s.(workers := [WantStealers]);
    s := Next(Init, Try, s, WorkerStep(0, 0));
    assert Apply(s, WorkerStep(0, 0)) == s.(workers := [Scan(0)], stealers := Held(Worker(0)));
    s := Next(Init, Try, s, WorkerStep(0, 0));
  }
}
