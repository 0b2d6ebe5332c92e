/** From which states shutdown can still return: from every one in which its caller does not
    hold `unparkers` yet, and from the others exactly if no worker is inside
    `notify_worker`. */
module SchedulerReturn {
  import opened Runs
  import opened Sums
  import opened SchedulerModel
  import opened SchedulerInvariant
  import opened SchedulerPreservation
  import opened SchedulerShutdown

  // ----- everybody's next step brings the end nearer -----

  lemma PickWaiter(s: State) returns (w: nat)
    ensures MayWake(s.workers, w)
  {
    w := 0;
    if Waiting in s.workers {
      w :| w < |s.workers| && s.workers[w] == Waiting;
    }
  }

  /** a leads from s to a state nearer to the end of the workers, with shutdown where it was. */
  ghost predicate Nearer(s: State, a: Action) {
    && Enabled(s, a)
    && Inv(Apply(s, a)) && Apply(s, a).shutdown && Apply(s, a).boss == s.boss
    && Remaining(Apply(s, a)) < Remaining(s)
  }

  lemma WorkerNearer(s: State, i: nat, w: nat)
    requires Inv(s) && s.shutdown && WorkerEnabled(s, i, w)
    ensures Nearer(s, WorkerStep(i, w))
  {
    StepKeeps(s, WorkerStep(i, w));
    StepWork(s, WorkerStep(i, w));
    WorkerMovesOthers(s, i, w);
  }

  lemma ClientNearer(s: State, j: nat, w: nat)
    requires Inv(s) && s.shutdown && ClientEnabled(s, j, w) && HoldsALock(s.clients[j])
    ensures Nearer(s, ClientStep(j, w))
  {
    var t := ClientApply(s, j, w);
    StepKeeps(s, ClientStep(j, w));
    StepWork(s, ClientStep(j, w));
    ClientMovesOthers(s, j, w);
    ClientLockRank(s, j, w);
    SumOne(s.clients, t.clients, LockRankIn(|s.workers|), j);
  }

  ghost predicate Holds(s: State, o: Owner) {
    s.mutex == Held(o) || s.stealers == Held(o) || s.unparkers == Held(o)
  }

  lemma HolderEnabled(s: State, o: Owner, w: nat)
    requires Inv(s) && Holds(s, o) && MayWake(s.workers, w)
    ensures o.Worker? ==> WorkerEnabled(s, o.i, w)
    ensures o.Client? ==> ClientEnabled(s, o.j, w) && HoldsALock(s.clients[o.j])
  {
    assert HoldsMutex(s, o) <==> s.mutex == Held(o);
    assert HoldsStealers(s, o) <==> s.stealers == Held(o);
    assert HoldsUnparkers(s, o) <==> s.unparkers == Held(o);
  }

  /** Whoever holds a lock, but for the caller of shutdown, can step. */
  lemma HolderNearer(s: State, o: Owner) returns (a: Action)
    requires Inv(s) && s.shutdown && o != Boss && Holds(s, o)
    ensures Nearer(s, a)
  {
    var w := PickWaiter(s);
    HolderEnabled(s, o, w);
    if o.Worker? {
      a := WorkerStep(o.i, w);
      WorkerNearer(s, o.i, w);
    } else {
      a := ClientStep(o.j, w);
      ClientNearer(s, o.j, w);
    }
  }

  // ----- the mutex, then `unparkers` -----

  lemma {:induction false} FreeMutex(s: State) returns (t: State)
    requires Inv(s) && s.shutdown && s.boss == StopWantMutex
    ensures Leads(Try, s, t) && Inv(t) && t.boss == StopWantMutex && t.mutex == Free
    decreases Remaining(s)
  {
    if s.mutex == Free {
      t := s;
      LeadsNowhere(Try, s);
    } else {
      assert HoldsMutex(s, Boss) <==> s.mutex == Held(Boss);
      var a := HolderNearer(s, s.mutex.owner);
      t := FreeMutex(Apply(s, a));
      LeadsFirst(Try, s, a, t);
    }
  }

  /** Once the broadcast has run and while shutdown holds no lock: a worker that has not
      exited can step, or is behind somebody who can. */
  lemma WorkerOrHolderNearer(s: State, i: nat) returns (a: Action)
    requires Inv(s) && s.shutdown && s.boss == StopWantUnparkers && s.unparkers == Free
    requires i < |s.workers| && s.workers[i] != Exited
    ensures Nearer(s, a)
  {
    var w := PickWaiter(s);
    if WorkerEnabled(s, i, w) {
      a := WorkerStep(i, w);
      WorkerNearer(s, i, w);
    } else {
      assert HoldsMutex(s, Boss) <==> s.mutex == Held(Boss);
      assert HoldsStealers(s, Boss) <==> s.stealers == Held(Boss);
      var o := Behind(s, i, w);
      a := HolderNearer(s, o);
    }
  }

  lemma Behind(s: State, i: nat, w: nat) returns (o: Owner)
    requires Inv(s) && s.boss == StopWantUnparkers && s.unparkers == Free && MayWake(s.workers, w)
    requires i < |s.workers| && s.workers[i] != Exited && !WorkerEnabled(s, i, w)
    ensures s.mutex == Held(o) || s.stealers == Held(o)
  {
    assert !InWait(s.workers[i]);
    o := if s.workers[i] == WantStealers then s.stealers.owner else s.mutex.owner;
  }

  lemma {:induction false} Drain(s: State) returns (t: State)
    requires Inv(s) && s.shutdown && s.boss == StopWantUnparkers
    ensures Leads(Try, s, t) && Inv(t) && t.boss == StopWantUnparkers && t.unparkers == Free && AllExited(t)
    decreases Remaining(s)
  {
    if s.unparkers == Free && AllExited(s) {
      t := s;
      LeadsNowhere(Try, s);
    } else {
      var a;
      if s.unparkers != Free {
        assert HoldsUnparkers(s, Boss) <==> s.unparkers == Held(Boss);
        a := HolderNearer(s, s.unparkers.owner);
      } else {
        var i :| 0 <= i < |s.workers| && s.workers[i] != Exited;
        a := WorkerOrHolderNearer(s, i);
      }
      t := Drain(Apply(s, a));
      LeadsFirst(Try, s, a, t);
    }
  }

  // ----- to the end -----

  lemma BossNext(s: State) returns (t: State)
    requires Inv(s) && BossEnabled(s)
    ensures t == BossApply(s) && Inv(t) && Leads(Try, s, t)
    ensures t.shutdown == (s.shutdown || s.boss == Idle)
  {
    t := BossApply(s);
    StepKeeps(s, BossStep);
    LeadsNowhere(Try, t);
    LeadsFirst(Try, s, BossStep, t);
  }

  lemma ReturnsFromJoins(s: State) returns (t: State)
    requires Inv(s) && s.boss.Joining? && NoWorkerCalling(s)
    ensures Leads(Try, s, t) && t.boss == Done
  {
    var drain := DrainWorkers(s);
    var joins := JoinAll(Exec(Try, s, drain));
    ExecConcat(Try, s, drain, joins);
    t := Exec(Try, s, drain + joins);
  }

  lemma ReturnsFromUnparking(s: State) returns (t: State)
    requires Inv(s) && s.boss == StopUnparking && NoWorkerCalling(s)
    ensures Leads(Try, s, t) && t.boss == Done
  {
    var u := BossNext(s);
    t := ReturnsFromJoins(u);
    LeadsOn(Try, s, u, t);
  }

  lemma ReturnsFromWanting(s: State) returns (t: State)
    requires Inv(s) && s.shutdown && s.boss == StopWantUnparkers
    ensures Leads(Try, s, t) && t.boss == Done
  {
    var d := Drain(s);
    var u := BossNext(d);
    t := ReturnsFromUnparking(u);
    LeadsOn(Try, d, u, t);
    LeadsOn(Try, s, d, t);
  }

  lemma ReturnsFromNotified(s: State) returns (t: State)
    requires Inv(s) && s.shutdown && s.boss == StopNotified
    ensures Leads(Try, s, t) && t.boss == Done
  {
    var u := BossNext(s);
    t := ReturnsFromWanting(u);
    LeadsOn(Try, s, u, t);
  }

  lemma ReturnsFromNotifying(s: State) returns (t: State)
    requires Inv(s) && s.shutdown && s.boss == StopHasMutex
    ensures Leads(Try, s, t) && t.boss == Done
  {
    var u := BossNext(s);
    t := ReturnsFromNotified(u);
    LeadsOn(Try, s, u, t);
  }

  lemma ReturnsFromLocking(s: State) returns (t: State)
    requires Inv(s) && s.shutdown && s.boss == StopWantMutex
    ensures Leads(Try, s, t) && t.boss == Done
  {
    var f := FreeMutex(s);
    assert StopInv(f);
    var u := BossNext(f);
    t := ReturnsFromNotifying(u);
    LeadsOn(Try, f, u, t);
    LeadsOn(Try, s, f, t);
  }

  lemma ReturnsFromStart(s: State) returns (t: State)
    requires Inv(s) && s.boss == Idle
    ensures Leads(Try, s, t) && t.boss == Done
  {
    var u := BossNext(s);
    t := ReturnsFromLocking(u);
    LeadsOn(Try, s, u, t);
  }

  predicate HoldsUnparkersForJoins(b: BossPc) { b.StopUnparking? || b.Joining? }

  /** shutdown can still return, from whatever reachable state, if and only if its caller
      does not hold `unparkers` yet or no worker is inside `notify_worker`. */
  lemma ShutdownReturnsIff(s: State)
    requires Reachable(s) && s.boss != Done
    ensures JoinsCanReturn(s) <==> !HoldsUnparkersForJoins(s.boss) || NoWorkerCalling(s)
  {
    ReachableInv(s);
    if !HoldsUnparkersForJoins(s.boss) || NoWorkerCalling(s) {
      var t := ReturnsSomehow(s);
      var acts :| Runnable(Try, s, acts) && Exec(Try, s, acts) == t;
    } else {
      var i :| 0 <= i < |s.workers| && CallOf(s.workers[i]) != Quiet;
      CallerIsCaught(s, i);
      forall acts | Runnable(Try, s, acts) ensures Exec(Try, s, acts).boss != Done {
        CaughtForever(s, acts, i);
      }
    }
  }

  lemma ReturnsSomehow(s: State) returns (t: State)
    requires Inv(s) && s.boss != Done && (!HoldsUnparkersForJoins(s.boss) || NoWorkerCalling(s))
    ensures Leads(Try, s, t) && t.boss == Done
  {
    match s.boss
    case Joining(_) => t := ReturnsFromJoins(s);
    case StopUnparking => t := ReturnsFromUnparking(s);
    case StopWantUnparkers => t := ReturnsFromWanting(s);
    case StopHasMutex => t := ReturnsFromNotifying(s);
    case StopNotified => t := ReturnsFromNotified(s);
    case StopWantMutex => t := ReturnsFromLocking(s);
    case Idle => t := ReturnsFromStart(s);
  }
}
