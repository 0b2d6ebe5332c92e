/** The worker loop as the source writes it: shared fields changed in place, nested loops,
    early continues. Between any two accesses of the worker all other threads take any
    number of steps (`Others`), so every execution of `Run` is a run of the state machine
    and everything proved of its reachable states holds at every point of it. */
module SchedulerThreads {
  import opened Options
  import opened Runs
  import opened SchedulerModel
  import opened SchedulerInvariant
  import opened SchedulerPreservation

  class Shared {
    var workers: seq<WorkerPc>
    var local: seq<seq<Task>>
    var clients: seq<ClientPc>
    var boss: BossPc
    var injector: seq<Task>
    var mutex: Lock
    var stealers: Lock
    var unparkers: Lock
    var active: int
    var shutdown: bool
    var lastNotified: nat
    var log: Log

    function View(): State
      reads this
    {
      State(workers, local, clients, boss, injector, mutex, stealers, unparkers, active, shutdown, lastNotified, log)
    }

    constructor (n: nat, m: nat)
      requires n >= 1
      ensures Init(View()) && |workers| == n && |clients| == m
    {
      workers, local, clients := seq(n, _ => Check), seq(n, _ => []), seq(m, _ => Outside(Quiet));
      boss, injector, mutex, stealers, unparkers := Idle, [], Free, Free, Free;
      active, shutdown, lastNotified := n, false, 0;
      log := Log([], [], multiset{}, multiset{});
    }

    // ----- everybody else -----

    method Become(s: State)
      modifies this
      ensures View() == s
    {
      workers, local, clients, boss := s.workers, s.local, s.clients, s.boss;
      injector, mutex, stealers, unparkers := s.injector, s.mutex, s.stealers, s.unparkers;
      active, shutdown, lastNotified, log := s.active, s.shutdown, s.lastNotified, s.log;
    }

    /** Any number of steps of any threads but worker i, and spurious wake-ups of any. */
    method Others(i: nat, ghost start: State)
      requires Inv(View()) && Leads(Try, start, View()) && i < |workers|
      modifies this
      ensures Inv(View()) && Leads(Try, start, View()) && |workers| == old(|workers|)
      ensures SameOrWoken(old(workers[i]), workers[i])
    {
      var steps: nat := *;
      while steps > 0
        invariant Inv(View()) && Leads(Try, start, View()) && |workers| == old(|workers|)
        invariant SameOrWoken(old(workers[i]), workers[i])
      {
        var a: Action := *;
        if Enabled(View(), a) && (Actor(a) != Worker(i) || a == Spurious(i)) {
          StepKeeps(View(), a);
          LeadsFurther(Try, start, View(), a);
          OthersKeepWorker(View(), a, i);
          Become(Apply(View(), a));
        }
        steps := steps - 1;
      }
    }

    /** The worker's own next access keeps the invariant and extends the run. */
    ghost method Extend(i: nat, w: nat, start: State)
      requires Inv(View()) && Leads(Try, start, View()) && WorkerEnabled(View(), i, w)
      ensures Inv(WorkerApply(View(), i, w)) && Leads(Try, start, WorkerApply(View(), i, w))
    {
      StepKeeps(View(), WorkerStep(i, w));
      LeadsFurther(Try, start, View(), WorkerStep(i, w));
    }

    // ----- the accesses of worker i -----

    method LoadShutdown(i: nat) returns (b: bool)
      requires WorkerEnabled(View(), i, 0) && (workers[i] == Check || workers[i] == InnerCheck)
      modifies this`workers
      ensures View() == WorkerApply(old(View()), i, 0) && b == shutdown
    {
      b := shutdown;
      if workers[i] == Check {
        workers := workers[i := if b then Exited else PopLocal];
      } else {
        workers := workers[i := if b then AddActive else AboutToWait];
      }
    }

    /** worker.pop() */
    method Pop(i: nat) returns (t: Option<Task>)
      requires WorkerEnabled(View(), i, 0)
      requires workers[i] == PopLocal || workers[i] == RecheckLocal || workers[i] == WokenLocal
      modifies this
      ensures View() == WorkerApply(old(View()), i, 0)
      ensures old(local[i]) == [] ==> t == None && local == old(local) && log == old(log)
      ensures old(local[i]) != [] ==>
                && t == Some(old(local[i])[0]) && local == old(local)[i := old(local[i])[1..]]
                && log.taken == old(log).taken + [old(local[i])[0]]
    {
      if local[i] != [] {
        t := Some(local[i][0]);
        log := log.(taken := log.taken + [t.value]);
        local := local[i := local[i][1..]];
        if workers[i] == PopLocal {
          workers := workers[i := Running(t.value, Quiet)];
        } else {
          log := log.(discarded := log.discarded + multiset{t.value});
          workers := workers[i := AddActive];
        }
      } else {
        t := None;
        match workers[i] {
          case PopLocal => workers := workers[i := WantStealers];
          case RecheckLocal => workers := workers[i := RecheckInjector];
          case WokenLocal => workers := workers[i := WokenInjector];
        }
      }
    }

    /** t is what the look at the injector just made gave: none if it is empty, else the task
        taken last. */
    ghost predicate JustTook(t: Option<Task>)
      reads this
    {
      if t == None then injector == [] else log.taken != [] && log.taken[|log.taken| - 1] == t.value
    }

    /** injector.steal().success() */
    method StealGlobal(i: nat) returns (t: Option<Task>)
      requires WorkerEnabled(View(), i, 0)
      requires workers[i] == StealInjector || workers[i] == RecheckInjector || workers[i] == WokenInjector
      modifies this
      ensures View() == WorkerApply(old(View()), i, 0)
      ensures old(injector) == [] ==> t == None && injector == [] && log == old(log)
      ensures old(injector) != [] ==>
                && t == Some(old(injector)[0]) && injector == old(injector)[1..]
                && log.taken == old(log).taken + [old(injector)[0]]
      ensures JustTook(t)
    {
      if injector != [] {
        t := Some(injector[0]);
        injector := injector[1..];
        log := log.(taken := log.taken + [t.value]);
        if workers[i] == StealInjector {
          workers := workers[i := Running(t.value, Quiet)];
        } else {
          log := log.(discarded := log.discarded + multiset{t.value});
          workers := workers[i := AddActive];
        }
      } else {
        t := None;
        workers := workers[i := if workers[i] == StealInjector then WorkerPc.LockMutex else InnerCheck];
      }
    }

    method LockStealers(i: nat) returns (ok: bool)
      requires i < |workers| == |local| && workers[i] == WantStealers
      modifies this
      ensures ok == WorkerEnabled(old(View()), i, 0)
      ensures View() == if ok then WorkerApply(old(View()), i, 0) else old(View())
    {
      ok := stealers == Free;
      if ok {
        stealers, workers := Held(Worker(i)), workers[i := Scan(0)];
      }
    }

    /** stealers[target].steal() at offset k */
    method Probe(i: nat, k: nat) returns (t: Option<Task>)
      requires WorkerEnabled(View(), i, 0) && workers[i] == Scan(k) && k < |workers| - 1
      modifies this
      ensures View() == WorkerApply(old(View()), i, 0)
      ensures old(local[Target(|workers|, i, k)]) == [] ==> t == None && workers == old(workers)[i := Scan(k + 1)]
      ensures old(local[Target(|workers|, i, k)]) != [] ==>
                && t == Some(old(local[Target(|workers|, i, k)])[0]) && workers == old(workers)[i := ScanHit(t.value)]
                && local == old(local)[Target(|workers|, i, k) := old(local[Target(|workers|, i, k)])[1..]]
    {
      var v := Target(|workers|, i, k);
      if local[v] != [] {
        t := Some(local[v][0]);
        log := log.(taken := log.taken + [t.value]);
        local := local[v := local[v][1..]];
        workers := workers[i := ScanHit(t.value)];
      } else {
        t := None;
        workers := workers[i := Scan(k + 1)];
      }
    }

    method UnlockStealers(i: nat)
      requires WorkerEnabled(View(), i, 0)
      requires workers[i].ScanHit? || (workers[i].Scan? && workers[i].k >= |workers| - 1)
      modifies this
      ensures View() == WorkerApply(old(View()), i, 0)
    {
      stealers := Free;
      workers := workers[i := if workers[i].ScanHit? then Running(workers[i].task, Quiet) else StealInjector];
    }

    method LockMutex(i: nat) returns (ok: bool)
      requires i < |workers| == |local| && (workers[i] == WorkerPc.LockMutex || workers[i] == Woken)
      modifies this
      ensures ok == WorkerEnabled(old(View()), i, 0)
      ensures View() == if ok then WorkerApply(old(View()), i, 0) else old(View())
    {
      ok := mutex == Free;
      if ok {
        mutex := Held(Worker(i));
        workers := workers[i := if workers[i] == Woken then WokenLocal else SubActive];
      }
    }

    method FetchSubActive(i: nat)
      requires WorkerEnabled(View(), i, 0) && workers[i] == SubActive
      modifies this
      ensures View() == WorkerApply(old(View()), i, 0)
    {
      active, workers := active - 1, workers[i := RecheckLocal];
    }

    method FetchAddActive(i: nat)
      requires WorkerEnabled(View(), i, 0) && workers[i] == AddActive
      modifies this
      ensures View() == WorkerApply(old(View()), i, 0)
    {
      active, workers := active + 1, workers[i := Unlock];
    }

    /** condvar.wait: give up the mutex and wait */
    method BeginWait(i: nat)
      requires WorkerEnabled(View(), i, 0) && workers[i] == AboutToWait
      modifies this
      ensures View() == WorkerApply(old(View()), i, 0)
    {
      mutex, workers := Free, workers[i := Waiting];
    }

    method UnlockMutex(i: nat)
      requires WorkerEnabled(View(), i, 0) && workers[i] == Unlock
      modifies this
      ensures View() == WorkerApply(old(View()), i, 0)
    {
      mutex, workers := Free, workers[i := Check];
    }

    method FinishTask(i: nat)
      requires WorkerEnabled(View(), i, 0) && workers[i].Running? && workers[i].call == Quiet
      modifies this
      ensures View() == WorkerApply(old(View()), i, 0)
    {
      log := log.(ran := log.ran + multiset{workers[i].task});
      workers := workers[i := Check];
    }

    // ----- one access after any interference -----

    ghost predicate On(start: State)
      reads this
    {
      Inv(View()) && Leads(Try, start, View())
    }

    method ThenLoadShutdown(i: nat, ghost start: State) returns (b: bool)
      requires On(start) && i < |workers| && (workers[i] == Check || workers[i] == InnerCheck)
      modifies this
      ensures On(start) && |workers| == old(|workers|)
      ensures b ==> shutdown
      ensures workers[i] == if old(workers[i]) == Check then if b then Exited else PopLocal
                            else if b then AddActive else AboutToWait
    {
      Others(i, start);
      Extend(i, 0, start);
      b := LoadShutdown(i);
    }

    method ThenPop(i: nat, ghost start: State) returns (t: Option<Task>)
      requires On(start) && i < |workers|
      requires workers[i] == PopLocal || workers[i] == RecheckLocal || workers[i] == WokenLocal
      modifies this
      ensures On(start) && |workers| == old(|workers|)
      ensures t == None // nothing is ever pushed to a worker's own queue
      ensures workers[i] == match old(workers[i])
                            case PopLocal => WantStealers
                            case RecheckLocal => RecheckInjector
                            case _ => WokenInjector
    {
      Others(i, start);
      Extend(i, 0, start);
      t := Pop(i);
    }

    method ThenStealGlobal(i: nat, ghost start: State) returns (t: Option<Task>)
      requires On(start) && i < |workers|
      requires workers[i] == StealInjector || workers[i] == RecheckInjector || workers[i] == WokenInjector
      modifies this
      ensures On(start) && |workers| == old(|workers|)
      ensures workers[i] == if old(workers[i]) == StealInjector
                            then if t.Some? then Running(t.value, Quiet) else WorkerPc.LockMutex
                            else if t.Some? then AddActive else InnerCheck
      ensures JustTook(t)
    {
      Others(i, start);
      Extend(i, 0, start);
      t := StealGlobal(i);
    }

    method ThenProbe(i: nat, k: nat, ghost start: State) returns (t: Option<Task>)
      requires On(start) && i < |workers| && workers[i] == Scan(k) && k < |workers| - 1
      modifies this
      ensures On(start) && |workers| == old(|workers|)
      ensures t == None && workers[i] == Scan(k + 1)
    {
      Others(i, start);
      Extend(i, 0, start);
      assert local[Target(|workers|, i, k)] == [];
      t := Probe(i, k);
    }

    method ThenUnlockStealers(i: nat, ghost start: State)
      requires On(start) && i < |workers| && workers[i].Scan? && workers[i].k >= |workers| - 1
      modifies this
      ensures On(start) && |workers| == old(|workers|)
      ensures workers[i] == StealInjector
    {
      Others(i, start);
      Extend(i, 0, start);
      UnlockStealers(i);
    }

    method ThenFetchSub(i: nat, ghost start: State)
      requires On(start) && i < |workers| && workers[i] == SubActive
      modifies this
      ensures On(start) && |workers| == old(|workers|)
      ensures workers[i] == RecheckLocal
    {
      Others(i, start);
      Extend(i, 0, start);
      FetchSubActive(i);
    }

    method ThenFetchAdd(i: nat, ghost start: State)
      requires On(start) && i < |workers| && workers[i] == AddActive
      modifies this
      ensures On(start) && |workers| == old(|workers|)
      ensures workers[i] == Unlock
    {
      Others(i, start);
      Extend(i, 0, start);
      FetchAddActive(i);
    }

    method ThenBeginWait(i: nat, ghost start: State)
      requires On(start) && i < |workers| && workers[i] == AboutToWait
      modifies this
      ensures On(start) && |workers| == old(|workers|)
      ensures workers[i] == Waiting
    {
      Others(i, start);
      Extend(i, 0, start);
      BeginWait(i);
    }

    method ThenUnlock(i: nat, ghost start: State)
      requires On(start) && i < |workers| && workers[i] == Unlock
      modifies this
      ensures On(start) && |workers| == old(|workers|)
      ensures workers[i] == Check
    {
      Others(i, start);
      Extend(i, 0, start);
      UnlockMutex(i);
    }

    /** Gives false if the schedule ends while the mutex is taken. */
    method ThenLockMutex(i: nat, ghost start: State) returns (ok: bool)
      requires On(start) && i < |workers| && (workers[i] == WorkerPc.LockMutex || workers[i] == Woken)
      modifies this
      ensures On(start) && |workers| == old(|workers|)
      ensures ok ==> workers[i] == if old(workers[i]) == Woken then WokenLocal else SubActive
    {
      Others(i, start);
      if WorkerEnabled(View(), i, 0) { Extend(i, 0, start); }
      ok := LockMutex(i);
    }

    method ThenLockStealers(i: nat, ghost start: State) returns (ok: bool)
      requires On(start) && i < |workers| && workers[i] == WantStealers
      modifies this
      ensures On(start) && |workers| == old(|workers|)
      ensures ok ==> workers[i] == Scan(0)
    {
      Others(i, start);
      if WorkerEnabled(View(), i, 0) { Extend(i, 0, start); }
      ok := LockStealers(i);
    }

    // ----- WorkerThread::steal_work -----

    /** The other workers' queues are always empty, so the scan comes back without a task.
        Gives ok false if the schedule ends while the worker waits for the lock. */
    method StealWork(i: nat, ghost start: State) returns (ok: bool, t: Option<Task>)
      requires On(start) && i < |workers| && workers[i] == WantStealers
      modifies this
      ensures On(start) && |workers| == old(|workers|)
      ensures t == None && (ok ==> workers[i] == StealInjector)
    {
      t := None;
      ok := ThenLockStealers(i, start);
      if !ok { return; }
      var offset := 0;
      while offset < |workers| - 1
        invariant On(start) && |workers| == old(|workers|)
        invariant workers[i] == Scan(offset) && t == None
      {
        t := ThenProbe(i, offset, start);
        if t.Some? {
          assert false; // nor to anybody else's
        }
        offset := offset + 1;
      }
      ThenUnlockStealers(i, start);
    }

    // ----- task.run() -----

    /** One access of the running task: it pushes a task, or goes on with the notify that
        follows a push. */
    method TaskAccess(i: nat, ghost start: State)
      requires On(start) && i < |workers| && workers[i].Running?
      modifies this
      ensures On(start) && |workers| == old(|workers|)
      ensures workers[i].Running?
    {
      Others(i, start);
      var u: Task, w: nat := *, *;
      if workers[i].call == Quiet {
        StepKeeps(View(), WorkerPush(i, u));
        LeadsFurther(Try, start, View(), WorkerPush(i, u));
        Become(Apply(View(), WorkerPush(i, u)));
      } else if WorkerEnabled(View(), i, w) {
        Extend(i, w, start);
        CallStays(View(), i, w);
        Become(WorkerApply(View(), i, w));
      }
    }

    method TaskReturns(i: nat, ghost start: State)
      requires On(start) && i < |workers| && workers[i].Running? && workers[i].call == Quiet
      modifies this
      ensures On(start) && |workers| == old(|workers|)
      ensures workers[i] == Check
    {
      Others(i, start);
      Extend(i, 0, start);
      FinishTask(i);
    }

    /** The task may push and notify any number of times before it returns. Gives false if
        the schedule ends while it is inside a notify. */
    method RunTask(i: nat, ghost start: State) returns (ok: bool)
      requires On(start) && i < |workers| && workers[i].Running?
      modifies this
      ensures On(start) && |workers| == old(|workers|)
      ensures ok ==> workers[i] == Check
    {
      var accesses: nat := *;
      while accesses > 0
        invariant On(start) && |workers| == old(|workers|) && workers[i].Running?
      {
        TaskAccess(i, start);
        accesses := accesses - 1;
      }
      ok := workers[i].call == Quiet;
      if ok {
        TaskReturns(i, start);
      }
    }

    // ----- the loop -----

    /** Local queue, the other workers, the injector: either a task to run, or none. */
    method FindWork(i: nat, ghost start: State) returns (ok: bool, t: Option<Task>)
      requires On(start) && i < |workers| && workers[i] == PopLocal
      modifies this
      ensures On(start) && |workers| == old(|workers|)
      ensures ok ==> workers[i] == if t.Some? then Running(t.value, Quiet) else WorkerPc.LockMutex
      ensures ok ==> JustTook(t)
    {
      t := ThenPop(i, start);
      if t.Some? {
        assert false; // nothing is ever pushed to a worker's own queue
      }
      ok, t := StealWork(i, start);
      if !ok { return; }
      if t.Some? {
        assert false;
      }
      t := ThenStealGlobal(i, start);
    }

    /** pop().is_some() || steal().success().is_some() */
    method Recheck(i: nat, ghost start: State) returns (found: bool)
      requires On(start) && i < |workers| && (workers[i] == RecheckLocal || workers[i] == WokenLocal)
      modifies this
      ensures On(start) && |workers| == old(|workers|)
      ensures workers[i] == if found then AddActive else InnerCheck
      ensures !found ==> injector == []
    {
      var t := ThenPop(i, start);
      if t.Some? {
        assert false;
      }
      t := ThenStealGlobal(i, start);
      return t.Some?;
    }

    /** The waiting loop under the mutex: leave it when the flag is set or a task turns up.
        `rounds` bounds how long the schedule is. */
    method WaitForWork(i: nat, rounds: nat, ghost start: State) returns (ok: bool)
      requires On(start) && i < |workers| && workers[i] == InnerCheck
      modifies this
      ensures On(start) && |workers| == old(|workers|)
      ensures ok ==> workers[i] == AddActive
    {
      var left := rounds;
      while left > 0
        invariant On(start) && |workers| == old(|workers|) && workers[i] == InnerCheck
      {
        var stop := ThenLoadShutdown(i, start);
        if stop {
          return true;
        }
        ThenBeginWait(i, start);
        Others(i, start);
        if workers[i] == Waiting {
          return false;
        }
        ok := ThenLockMutex(i, start);
        if !ok { return; }
        var found := Recheck(i, start);
        if found {
          return true;
        }
        left := left - 1;
      }
      ok := false;
    }

    /** "No work available, go to sleep." */
    method Sleep(i: nat, rounds: nat, ghost start: State) returns (ok: bool)
      requires On(start) && i < |workers| && workers[i] == WorkerPc.LockMutex
      modifies this
      ensures On(start) && |workers| == old(|workers|)
      ensures ok ==> workers[i] == Check
    {
      ok := ThenLockMutex(i, start);
      if !ok { return; }
      ThenFetchSub(i, start);
      var found := Recheck(i, start);
      if !found {
        ok := WaitForWork(i, rounds, start);
        if !ok { return; }
      }
      ThenFetchAdd(i, start);
      ThenUnlock(i, start);
    }

    /** WorkerThread::run, for schedules of at most `rounds` turns of each loop. It comes
        back with exited true only if the flag was set. */
    method Run(i: nat, rounds: nat, ghost start: State) returns (exited: bool)
      requires On(start) && i < |workers| && workers[i] == Check
      modifies this
      ensures On(start) && |workers| == old(|workers|)
      ensures exited ==> workers[i] == Exited && shutdown
    {
      var left := rounds;
      while left > 0
        invariant On(start) && |workers| == old(|workers|) && workers[i] == Check
      {
        var stop := ThenLoadShutdown(i, start);
        if stop {
          return true;
        }
        var ok, t := FindWork(i, start);
        if !ok { return false; }
        if t.Some? {
          ok := RunTask(i, start);
        } else {
          ok := Sleep(i, rounds, start);
        }
        if !ok { return false; }
        left := left - 1;
      }
      exited := false;
    }
  }

  lemma CallStays(s: State, i: nat, w: nat)
    requires ShapeInv(s) && WorkerEnabled(s, i, w) && s.workers[i].Running? && s.workers[i].call != Quiet
    ensures |WorkerApply(s, i, w).workers| == |s.workers| && WorkerApply(s, i, w).workers[i].Running?
  {
  }
}
