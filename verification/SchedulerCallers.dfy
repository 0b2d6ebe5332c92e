/** `MultiThread` as the source writes it: spawn with its notify_worker, the steal_work of
    block_on, and shutdown, on the shared fields of `SchedulerThreads.Shared`. Between any
    two accesses of the calling thread all other threads take any number of steps. Each
    method reports false if the schedule ends while its thread is blocked. */
module SchedulerCallers {
  import opened Options
  import opened Runs
  import opened Sums
  import opened SchedulerModel
  import opened SchedulerInvariant
  import opened SchedulerPreservation
  import opened SchedulerThreads

  class MultiThread {
    const shared: Shared

    constructor (n: nat, m: nat)
      requires n >= 1
      ensures fresh(shared) && Init(shared.View()) && |shared.workers| == n && |shared.clients| == m
    {
      shared := new Shared(n, m);
    }

    // ----- single accesses, in place -----

    method SetClient(j: nat, pc: ClientPc)
      requires j < |shared.clients|
      modifies shared`clients
      ensures shared.clients == old(shared.clients)[j := pc]
    {
      shared.clients := shared.clients[j := pc];
    }

    /** One access of notify_worker: lock, notify_one, unlock, lock, select, unlock. */
    method NotifyAccess(j: nat, w: nat)
      requires ClientEnabled(shared.View(), j, w)
      requires (shared.clients[j].Outside? || shared.clients[j].Helping?) && shared.clients[j].call != Quiet
      modifies shared
      ensures shared.View() == ClientApply(old(shared.View()), j, w)
    {
      var pc := shared.clients[j];
      match pc.call {
        case WantMutex => shared.mutex := Held(Client(j));
        case HasMutex => shared.workers := WakeOne(shared.workers, w);
        case Notified => shared.mutex := Free;
        case WantUnparkers => shared.unparkers := Held(Client(j));
        case HasUnparkers => shared.lastNotified := RoundRobin.CounterAfter(shared.lastNotified, 1);
        case Picked => shared.unparkers := Free;
      }
      SetClient(j, pc.(call := CallNext(pc.call)));
    }

    /** One access of steal_work: lock, the stealers in turn, the injector, unlock. */
    method StealAccess(j: nat)
      requires ClientEnabled(shared.View(), j, 0)
      requires !shared.clients[j].Outside? && !shared.clients[j].Helping?
      modifies shared
      ensures shared.View() == ClientApply(old(shared.View()), j, 0)
      ensures old(shared.clients[j]) == BlockInjector && old(shared.injector) == [] ==>
                shared.clients[j] == BlockDrop(None) && shared.injector == []
      ensures old(shared.clients[j]) == BlockInjector && old(shared.injector) != [] ==>
                && shared.clients[j] == BlockDrop(Some(old(shared.injector)[0]))
                && shared.injector == old(shared.injector)[1..]
                && shared.log.taken == old(shared.log).taken + [old(shared.injector)[0]]
    {
      match shared.clients[j] {
        case BlockWantStealers =>
          shared.stealers := Held(Client(j));
          SetClient(j, BlockScan(0));
        case BlockScan(k) =>
          if k >= |shared.workers| {
            SetClient(j, BlockInjector);
          } else if shared.local[k] != [] {
            var t := shared.local[k][0];
            shared.local := shared.local[k := shared.local[k][1..]];
            shared.log := shared.log.(taken := shared.log.taken + [t]);
            SetClient(j, BlockDrop(Some(t)));
          } else {
            SetClient(j, BlockScan(k + 1));
          }
        case BlockInjector =>
          if shared.injector != [] {
            var t := shared.injector[0];
            shared.injector := shared.injector[1..];
            shared.log := shared.log.(taken := shared.log.taken + [t]);
            SetClient(j, BlockDrop(Some(t)));
          } else {
            SetClient(j, BlockDrop(None));
          }
        case BlockDrop(hand) =>
          shared.stealers := Free;
          SetClient(j, if hand.Some? then Helping(hand.value, Quiet) else Outside(Quiet));
      }
    }

    /** injector.push(u) */
    method PushAccess(j: nat, u: Task)
      requires Enabled(shared.View(), ClientPush(j, u))
      modifies shared
      ensures shared.View() == Apply(old(shared.View()), ClientPush(j, u))
    {
      shared.injector := shared.injector + [u];
      shared.log := shared.log.(pushed := shared.log.pushed + [u]);
      SetClient(j, shared.clients[j].(call := WantMutex));
    }

    /** injector.steal().success() outside any lock */
    method GrabAccess(j: nat) returns (t: Option<Task>)
      requires Enabled(shared.View(), ClientGrab(j))
      modifies shared
      ensures shared.View() == Apply(old(shared.View()), ClientGrab(j))
      ensures t == Some(old(shared.injector)[0])
    {
      t := Some(shared.injector[0]);
      shared.injector := shared.injector[1..];
      shared.log := shared.log.(taken := shared.log.taken + [t.value]);
      SetClient(j, Helping(t.value, Quiet));
    }

    method FinishAccess(j: nat)
      requires ClientEnabled(shared.View(), j, 0) && shared.clients[j].Helping? && shared.clients[j].call == Quiet
      modifies shared
      ensures shared.View() == ClientApply(old(shared.View()), j, 0)
    {
      shared.log := shared.log.(ran := shared.log.ran + multiset{shared.clients[j].task});
      SetClient(j, Outside(Quiet));
    }

    method StopAccess()
      requires BossEnabled(shared.View())
      modifies shared
      ensures shared.View() == BossApply(old(shared.View()))
    {
      match shared.boss {
        case Idle => shared.shutdown, shared.boss := true, StopWantMutex;
        case StopWantMutex => shared.mutex, shared.boss := Held(Boss), StopHasMutex;
        case StopHasMutex => shared.workers, shared.boss := WakeAll(shared.workers), StopNotified;
        case StopNotified => shared.mutex, shared.boss := Free, StopWantUnparkers;
        case StopWantUnparkers => shared.unparkers, shared.boss := Held(Boss), StopUnparking;
        case StopUnparking => shared.boss := Joining(0); // the unparkers hold no thread
        case Joining(k) =>
          if k < |shared.workers| {
            shared.boss := Joining(k + 1);
          } else {
            shared.unparkers, shared.boss := Free, Done;
          }
      }
    }

    // ----- one access after any interference -----

    /** The state is one a run from a reachable state `start` leads to. */
    ghost predicate On(start: State)
      reads this, shared
    {
      Reachable(start) && Leads(Try, start, shared.View())
    }

    /** Any number of steps of any threads but `me`. */
    method Others(me: Owner, ghost start: State)
      requires On(start)
      modifies shared
      ensures On(start) && Kept(old(shared.View()), shared.View(), me)
    {
      var steps: nat := *;
      while steps > 0
        invariant On(start) && Kept(old(shared.View()), shared.View(), me)
      {
        var a: Action := *;
        if Enabled(shared.View(), a) && Actor(a) != me {
          RunInv(start, shared.View());
          StepKept(old(shared.View()), shared.View(), a, me);
          LeadsFurther(Try, start, shared.View(), a);
          shared.Become(Apply(shared.View(), a));
        }
        steps := steps - 1;
      }
    }

    /** The caller's own next access extends the run. */
    ghost method Extend(a: Action, start: State)
      requires On(start) && Enabled(shared.View(), a)
      ensures Leads(Try, start, Apply(shared.View(), a))
    {
      LeadsFurther(Try, start, shared.View(), a);
    }

    /** Client j is at pc, in a state the run leads to in which `pushed` has been pushed. */
    ghost predicate At(j: nat, pc: ClientPc, pushed: seq<Task>, n: nat, start: State)
      reads this, shared
    {
      && On(start) && j < |shared.clients| && shared.clients[j] == pc
      && pushed <= shared.log.pushed && |shared.workers| == n
    }

    method ThenNotify(j: nat, ghost pc: ClientPc, ghost pushed: seq<Task>, ghost n: nat, ghost start: State)
      returns (ok: bool)
      requires InCall(pc) && At(j, pc, pushed, n, start)
      modifies shared
      ensures ok ==> At(j, Called(pc), pushed, n, start)
      ensures !ok ==> At(j, pc, pushed, n, start)
      ensures pc.call != WantMutex && pc.call != WantUnparkers ==> ok
    {
      Others(Client(j), start);
      assert ShapeInv(shared.View()) by { RunInv(start, shared.View()); }
      var w: nat := 0;
      if Waiting in shared.workers {
        w :| w < |shared.workers| && shared.workers[w] == Waiting;
      }
      ok := ClientEnabled(shared.View(), j, w);
      if ok {
        Extend(ClientStep(j, w), start);
        CallMoves(shared.View(), j, w);
        NotifyAccess(j, w);
      }
    }

    method ThenSteal(j: nat, ghost pushed: seq<Task>, ghost n: nat, ghost start: State) returns (ok: bool)
      requires j < |shared.clients| && !shared.clients[j].Outside? && !shared.clients[j].Helping?
      requires At(j, shared.clients[j], pushed, n, start)
      modifies shared
      ensures j < |shared.clients| && At(j, shared.clients[j], pushed, n, start)
      ensures ok ==> StealMove(old(shared.clients[j]), shared.clients[j], n)
      ensures !ok ==> shared.clients[j] == old(shared.clients[j]) == BlockWantStealers
      ensures old(shared.clients[j]) == BlockInjector ==> shared.JustTook(shared.clients[j].hand)
    {
      Others(Client(j), start);
      assert ShapeInv(shared.View()) by { RunInv(start, shared.View()); }
      ok := ClientEnabled(shared.View(), j, 0);
      if ok {
        Extend(ClientStep(j, 0), start);
        StealMoves(shared.View(), j);
        StealAccess(j);
      }
    }

    ghost predicate Stop(pc: BossPc, n: nat, start: State)
      reads this, shared
    {
      On(start) && |shared.workers| == n && shared.boss == pc
    }

    method ThenStop(ghost pc: BossPc, ghost n: nat, ghost start: State) returns (ok: bool)
      requires Stop(pc, n, start) && pc != Done
      modifies shared
      ensures ok ==> Stop(StopNext(pc, n), n, start)
      ensures !ok ==> Stop(pc, n, start)
      ensures !pc.StopWantMutex? && !pc.StopWantUnparkers? && !pc.Joining? ==> ok
      ensures pc == Joining(n) ==> ok
    {
      Others(Boss, start);
      ok := BossEnabled(shared.View());
      if ok {
        Extend(BossStep, start);
        StopMoves(shared.View());
        StopAccess();
      }
    }

    // ----- Shared::notify_worker, spawn -----

    method NotifyWorker(j: nat, ghost pushed: seq<Task>, ghost n: nat, ghost start: State) returns (done: bool)
      requires At(j, Outside(WantMutex), pushed, n, start)
      modifies shared
      ensures j < |shared.clients| && At(j, shared.clients[j], pushed, n, start)
      ensures done ==> shared.clients[j] == Outside(Quiet)
    {
      done := UnderMutex(j, pushed, n, start);
      if !done { return; }
      done := UnderUnparkers(j, pushed, n, start);
    }

    method UnderMutex(j: nat, ghost pushed: seq<Task>, ghost n: nat, ghost start: State) returns (done: bool)
      requires At(j, Outside(WantMutex), pushed, n, start)
      modifies shared
      ensures done ==> At(j, Outside(WantUnparkers), pushed, n, start)
      ensures !done ==> At(j, Outside(WantMutex), pushed, n, start)
    {
      done := ThenNotify(j, Outside(WantMutex), pushed, n, start);
      if done {
        Locked(j, Outside(HasMutex), pushed, n, start);
      }
    }

    method UnderUnparkers(j: nat, ghost pushed: seq<Task>, ghost n: nat, ghost start: State) returns (done: bool)
      requires At(j, Outside(WantUnparkers), pushed, n, start)
      modifies shared
      ensures done ==> At(j, Outside(Quiet), pushed, n, start)
      ensures !done ==> At(j, Outside(WantUnparkers), pushed, n, start)
    {
      done := ThenNotify(j, Outside(WantUnparkers), pushed, n, start);
      if done {
        Locked(j, Outside(HasUnparkers), pushed, n, start);
      }
    }

    /** The one access under the lock, notify_one or LAST_NOTIFIED.fetch_add(1), and the end
        of the guard's scope. */
    method Locked(j: nat, ghost pc: ClientPc, ghost pushed: seq<Task>, ghost n: nat, ghost start: State)
      requires pc == Outside(HasMutex) || pc == Outside(HasUnparkers)
      requires At(j, pc, pushed, n, start)
      modifies shared
      ensures At(j, Outside(CallNext(CallNext(pc.call))), pushed, n, start)
    {
      var _ := ThenNotify(j, pc, pushed, n, start);
      var _ := ThenNotify(j, Called(pc), pushed, n, start);
    }

    /** injector.push and notify_worker, as `spawn`, `spawn_task` and the schedule closure of
        a task do. The task is in the queue's history even if the notify never ends. */
    method Spawn(j: nat, u: Task, ghost start: State) returns (done: bool)
      requires On(start) && j < |shared.clients| && shared.clients[j] == Outside(Quiet)
      modifies shared
      ensures On(start) && j < |shared.clients|
      ensures done ==> shared.clients[j] == Outside(Quiet)
      ensures old(shared.log.pushed) <= shared.log.pushed && u in shared.log.pushed[|old(shared.log.pushed)|..]
    {
      Others(Client(j), start);
      ghost var at := |shared.log.pushed|;
      Push(j, u, start);
      ghost var pushed := shared.log.pushed;
      done := NotifyWorker(j, pushed, |shared.workers|, start);
      assert shared.log.pushed[at] == pushed[at] == u;
    }

    method Push(j: nat, u: Task, ghost start: State)
      requires On(start) && j < |shared.clients| && AtRest(shared.clients[j])
      modifies shared
      ensures At(j, old(shared.clients[j]).(call := WantMutex), old(shared.log.pushed) + [u], old(|shared.workers|),
                 start)
      ensures shared.log.pushed == old(shared.log.pushed) + [u]
    {
      Extend(ClientPush(j, u), start);
      PushAccess(j, u);
    }

    // ----- MultiThread::steal_work -----

    method Begin(j: nat, ghost start: State)
      requires On(start) && j < |shared.clients| && shared.clients[j] == Outside(Quiet)
      modifies shared
      ensures At(j, BlockWantStealers, [], old(|shared.workers|), start)
    {
      Extend(ClientBlock(j), start);
      SetClient(j, BlockWantStealers);
    }

    /** The thread ends up holding exactly the task it dequeued, if any. `looked` is the state
        right after its look at the injector: the run passes through it, and there was nothing
        to take exactly if it comes back with nothing. */
    method StealWork(j: nat, ghost start: State) returns (ok: bool, t: Option<Task>, ghost looked: State)
      requires On(start) && j < |shared.clients| && shared.clients[j] == Outside(Quiet)
      modifies shared
      ensures On(start) && j < |shared.clients|
      ensures ok ==> shared.clients[j] == if t.Some? then Helping(t.value, Quiet) else Outside(Quiet)
      ensures ok ==> Leads(Try, start, looked) && Leads(Try, looked, shared.View()) && Gave(looked, j, t)
    {
      t, looked := None, start;
      var n := |shared.workers|;
      Begin(j, start);
      ok := ThenSteal(j, [], n, start);    // stealers.lock()
      if !ok { return; }
      var k := 0;
      while k < n
        invariant k <= n && At(j, BlockScan(k), [], n, start)
      {
        ok := ThenSteal(j, [], n, start);  // finds nothing: the workers' own queues are always empty
        k := k + 1;
      }
      ok := ThenSteal(j, [], n, start);    // the end of the loop
      t, looked := LookAndUnlock(j, n, start);
    }

    method LookAndUnlock(j: nat, ghost n: nat, ghost start: State) returns (t: Option<Task>, ghost looked: State)
      requires At(j, BlockInjector, [], n, start)
      modifies shared
      ensures At(j, if t.Some? then Helping(t.value, Quiet) else Outside(Quiet), [], n, start)
      ensures Leads(Try, start, looked) && Leads(Try, looked, shared.View()) && Gave(looked, j, t)
    {
      var _ := ThenSteal(j, [], n, start); // injector.steal()
      t := shared.clients[j].hand;
      looked := shared.View();
      ReachableOn(start, looked);
      LeadsNowhere(Try, looked);
      var _ := ThenSteal(j, [], n, looked); // the guard's scope ends
      LeadsOn(Try, start, looked, shared.View());
    }

    // ----- task.run() on a client, Handle::process_some_tasks -----

    /** One access of the running task: it pushes, or goes on with the notify that follows. */
    method TaskAccess(j: nat, ghost start: State)
      requires On(start) && j < |shared.clients| && shared.clients[j].Helping?
      modifies shared
      ensures On(start) && j < |shared.clients|
      ensures shared.clients[j].Helping? && shared.clients[j].task == old(shared.clients[j]).task
    {
      if shared.clients[j].call == Quiet {
        Others(Client(j), start);
        var u: Task := *;
        Push(j, u, start);
      } else {
        var _ := ThenNotify(j, shared.clients[j], [], |shared.workers|, start);
      }
    }

    method FinishTask(j: nat, ghost start: State)
      requires On(start) && j < |shared.clients| && shared.clients[j].Helping? && shared.clients[j].call == Quiet
      modifies shared
      ensures On(start) && j < |shared.clients| && shared.clients[j] == Outside(Quiet)
    {
      Others(Client(j), start);
      assert ShapeInv(shared.View()) by { RunInv(start, shared.View()); }
      Extend(ClientStep(j, 0), start);
      FinishAccess(j);
    }

    method RunTask(j: nat, ghost start: State) returns (ok: bool)
      requires On(start) && j < |shared.clients| && shared.clients[j].Helping?
      modifies shared
      ensures On(start) && j < |shared.clients|
      ensures ok ==> shared.clients[j] == Outside(Quiet)
    {
      var accesses: nat := *;
      while accesses > 0
        invariant On(start) && j < |shared.clients| && shared.clients[j].Helping?
      {
        TaskAccess(j, start);
        accesses := accesses - 1;
      }
      ok := shared.clients[j].call == Quiet;
      if ok {
        FinishTask(j, start);
      }
    }

    method Grab(j: nat, ghost start: State) returns (t: Option<Task>)
      requires On(start) && j < |shared.clients| && shared.clients[j] == Outside(Quiet)
      modifies shared
      ensures On(start) && j < |shared.clients|
      ensures shared.clients[j] == if t.Some? then Helping(t.value, Quiet) else Outside(Quiet)
      ensures t == None ==> shared.injector == []
    {
      Others(Client(j), start);
      if shared.injector == [] {
        return None;
      }
      Extend(ClientGrab(j), start);
      t := GrabAccess(j);
    }

    /** At most ten tasks; fewer only if the injector was found empty at the end. */
    method ProcessSomeTasks(j: nat, ghost start: State) returns (done: bool, count: nat)
      requires On(start) && j < |shared.clients| && shared.clients[j] == Outside(Quiet)
      modifies shared
      ensures On(start) && j < |shared.clients| && count <= 10
      ensures done ==> shared.clients[j] == Outside(Quiet)
      ensures done && count < 10 ==> shared.injector == []
    {
      count := 0;
      while count < 10
        invariant On(start) && j < |shared.clients| && shared.clients[j] == Outside(Quiet) && count <= 10
      {
        var t := Grab(j, start);
        if t == None { return true, count; }
        done := RunTask(j, start);
        if !done { return; }
        count := count + 1;
      }
      done := true;
    }

    // ----- MultiThread::shutdown -----

    /** The flag, then notify_all under the mutex: from there on nobody waits. */
    method StopWaiting(ghost n: nat, ghost start: State) returns (done: bool)
      requires Stop(Idle, n, start)
      modifies shared
      ensures done ==> Stop(StopWantUnparkers, n, start)
      ensures !done ==> Stop(StopWantMutex, n, start)
      ensures done ==> forall i :: 0 <= i < |shared.workers| ==> !InWait(shared.workers[i])
    {
      done := ThenStop(Idle, n, start);          // shutdown.store(true)
      done := ThenStop(StopWantMutex, n, start); // mutex.lock()
      if !done { return; }
      done := ThenStop(StopHasMutex, n, start);  // condvar.notify_all()
      done := ThenStop(StopNotified, n, start);  // the guard's scope ends
      RunInv(start, shared.View());
    }

    /** The guard on `unparkers` is kept. */
    method UnparkAll(ghost n: nat, ghost start: State) returns (done: bool)
      requires Stop(StopWantUnparkers, n, start)
      modifies shared
      ensures done ==> Stop(Joining(0), n, start)
      ensures !done ==> Stop(StopWantUnparkers, n, start)
    {
      done := ThenStop(StopWantUnparkers, n, start); // unparkers.lock()
      if !done { return; }
      done := ThenStop(StopUnparking, n, start);     // unpark them all
    }

    method Join(k: nat, ghost n: nat, ghost start: State) returns (ok: bool)
      requires Stop(Joining(k), n, start)
      modifies shared
      ensures ok ==> Stop(if k < n then Joining(k + 1) else Done, n, start)
      ensures !ok ==> Stop(Joining(k), n, start)
      ensures k == n ==> ok
    {
      ok := ThenStop(Joining(k), n, start);
    }

    method JoinAll(n: nat, ghost start: State) returns (done: bool)
      requires Stop(Joining(0), n, start)
      modifies shared
      ensures Stop(shared.boss, n, start)
      ensures done ==> shared.boss == Done
    {
      var k := 0;
      while k < n
        invariant k <= n && Stop(Joining(k), n, start)
      {
        done := Join(k, n, start);
        if !done { return; }
        k := k + 1;
      }
      done := Join(n, n, start);
    }

    /** When shutdown returns, every worker has exited and counts as active again. */
    method Shutdown(ghost start: State) returns (done: bool)
      requires Stop(Idle, |shared.workers|, start)
      modifies shared
      ensures On(start) && |shared.workers| == old(|shared.workers|)
      ensures done ==> shared.boss == Done && shared.active == |shared.workers|
      ensures done ==> (forall i :: 0 <= i < |shared.workers| ==> shared.workers[i] == Exited)
    {
      var n := |shared.workers|;
      done := StopWaiting(n, start);
      if !done { return; }
      done := UnparkAll(n, start);
      if !done { return; }
      done := JoinAll(n, start);
      if done {
        RunInv(start, shared.View());
        DoneMeansExited(shared.View());
      }
    }
  }

  /** What a look at the injector gave, in the state right after it. */
  ghost predicate Gave(looked: State, j: nat, t: Option<Task>) {
    && j < |looked.clients| && looked.clients[j] == BlockDrop(t)
    && if t == None then looked.injector == []
       else looked.log.taken != [] && looked.log.taken[|looked.log.taken| - 1] == t.value
  }

  lemma ReachableOn(start: State, s: State)
    requires Reachable(start) && Leads(Try, start, s)
    ensures Reachable(s)
  {
    var s0 :| Init(s0) && Leads(Try, s0, start);
    LeadsOn(Try, s0, start, s);
  }

  lemma RunInv(start: State, s: State)
    requires Reachable(start) && Leads(Try, start, s)
    ensures Inv(s)
  {
    ReachableInv(start);
    var acts :| Runnable(Try, start, acts) && Exec(Try, start, acts) == s;
    RunKeeps(start, acts);
  }

  lemma DoneMeansExited(s: State)
    requires Inv(s) && s.boss == Done
    ensures s.active == |s.workers|
    ensures forall i :: 0 <= i < |s.workers| ==> s.workers[i] == Exited
  {
    SumZero(s.workers, Inactive);
  }

  // ----- program counters -----

  predicate AtRest(pc: ClientPc) { (pc.Outside? || pc.Helping?) && pc.call == Quiet }

  predicate InCall(pc: ClientPc) { (pc.Outside? || pc.Helping?) && pc.call != Quiet }

  function Called(pc: ClientPc): ClientPc
    requires InCall(pc)
  {
    pc.(call := CallNext(pc.call))
  }

  lemma CallMoves(s: State, j: nat, w: nat)
    requires ClientEnabled(s, j, w) && InCall(s.clients[j])
    ensures var t := ClientApply(s, j, w);
            && |t.clients| == |s.clients| && t.clients[j] == Called(s.clients[j])
            && t.log == s.log && |t.workers| == |s.workers|
  {
  }

  predicate StealMove(p: ClientPc, q: ClientPc, n: nat) {
    match p
    case BlockWantStealers => q == BlockScan(0)
    case BlockScan(k) => q == if k >= n then BlockInjector else BlockScan(k + 1)
    case BlockInjector => q.BlockDrop?
    case BlockDrop(hand) => q == if hand.Some? then Helping(hand.value, Quiet) else Outside(Quiet)
    case _ => false
  }

  lemma StealMoves(s: State, j: nat)
    requires ClientEnabled(s, j, 0) && !s.clients[j].Outside? && !s.clients[j].Helping? && ShapeInv(s)
    ensures var t := ClientApply(s, j, 0);
            && |t.clients| == |s.clients| && StealMove(s.clients[j], t.clients[j], |s.workers|)
            && t.log.pushed == s.log.pushed && |t.workers| == |s.workers|
  {
  }

  function StopNext(pc: BossPc, n: nat): BossPc {
    match pc
    case Idle => StopWantMutex
    case StopWantMutex => StopHasMutex
    case StopHasMutex => StopNotified
    case StopNotified => StopWantUnparkers
    case StopWantUnparkers => StopUnparking
    case StopUnparking => Joining(0)
    case Joining(k) => if k < n then Joining(k + 1) else Done
    case Done => Done
  }

  lemma StopMoves(s: State)
    requires BossEnabled(s)
    ensures BossApply(s).boss == StopNext(s.boss, |s.workers|) && |BossApply(s).workers| == |s.workers|
  {
  }

  // ----- what the others leave alone -----

  predicate Kept(s: State, t: State, me: Owner) {
    && |t.workers| == |s.workers| && |t.clients| == |s.clients|
    && (me.Client? && me.j < |s.clients| ==> t.clients[me.j] == s.clients[me.j])
    && (me.Boss? ==> t.boss == s.boss)
    && s.log.pushed <= t.log.pushed
  }

  lemma StepKept(first: State, s: State, a: Action, me: Owner)
    requires Kept(first, s, me) && Inv(s) && Enabled(s, a) && Actor(a) != me
    ensures Kept(first, Apply(s, a), me)
  {
    SameSizes(s, a);
    StepPushes(s, a);
    match me
    case Client(j) => if j < |s.clients| { OthersKeepClient(s, a, j); }
    case Boss => BossKeeps(s, a);
    case Worker(_) =>
  }

  lemma StepPushes(s: State, a: Action)
    requires ShapeInv(s) && Enabled(s, a)
    ensures s.log.pushed <= Apply(s, a).log.pushed
  {
    match a
    case WorkerStep(i, w) => WorkerPushes(s, i, w);
    case ClientStep(j, w) => ClientPushes(s, j, w);
    case _ =>
  }

  lemma WorkerPushes(s: State, i: nat, w: nat)
    requires ShapeInv(s) && WorkerEnabled(s, i, w)
    ensures WorkerApply(s, i, w).log.pushed == s.log.pushed
  {
  }

  lemma ClientPushes(s: State, j: nat, w: nat)
    requires ShapeInv(s) && ClientEnabled(s, j, w)
    ensures ClientApply(s, j, w).log.pushed == s.log.pushed
  {
  }
}
