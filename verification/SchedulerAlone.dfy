/** What each operation of the scheduler does when its thread runs undisturbed, from call to
    return, as one change of the state; and what is true of its single steps in every run. */
module SchedulerAlone {
  import opened Options
  import opened Runs
  import opened SchedulerModel
  import opened SchedulerInvariant

  // ----- runs of one thread -----

  function TryWorker(i: nat): (State, Action) -> Option<State> {
    (s: State, a: Action) => if a.WorkerStep? && a.i == i then Try(s, a) else None
  }

  predicate ByClient(a: Action) { a.ClientStep? || a.ClientPush? || a.ClientBlock? || a.ClientGrab? }

  function TryClient(j: nat): (State, Action) -> Option<State> {
    (s: State, a: Action) => if ByClient(a) && a.j == j then Try(s, a) else None
  }

  function TryBoss(): (State, Action) -> Option<State> {
    (s: State, a: Action) => if a.BossStep? then Try(s, a) else None
  }

  /** The worker's next step leads to `u`; what leads on from there leads on from here. */
  lemma WorkerHop(s: State, i: nat, u: State, t: State)
    requires WorkerEnabled(s, i, 0) && WorkerApply(s, i, 0) == u && Leads(TryWorker(i), u, t)
    ensures Leads(TryWorker(i), s, t)
  {
    assert TryWorker(i)(s, WorkerStep(i, 0)) == Try(s, WorkerStep(i, 0));
    LeadsFirst(TryWorker(i), s, WorkerStep(i, 0), t);
  }

  lemma WorkerThere(s: State, i: nat)
    ensures Leads(TryWorker(i), s, s)
  {
    LeadsNowhere(TryWorker(i), s);
  }

  /** Worker i at pc, everything else as in b. */
  function Put(b: State, i: nat, pc: WorkerPc): State
    requires i < |b.workers|
  {
    b.(workers := b.workers[i := pc])
  }

  /** Whose own queues are empty, as in every reachable state. */
  ghost predicate Shaped(b: State, i: nat) { ShapeInv(b) && i < |b.workers| }

  lemma PutTwice(b: State, i: nat, p: WorkerPc, q: WorkerPc)
    requires i < |b.workers|
    ensures Put(Put(b, i, p), i, q) == Put(b, i, q)
  {
    assert b.workers[i := p][i := q] == b.workers[i := q];
  }

  lemma PutBack(b: State, i: nat)
    requires i < |b.workers|
    ensures Put(b, i, b.workers[i]) == b
  {
    assert b.workers[i := b.workers[i]] == b.workers;
  }

  // ----- the worker's search -----

  /** From the head of the loop to the scan of the other queues. */
  lemma ReachesScan(b: State, i: nat, t: State)
    requires Shaped(b, i) && !b.shutdown && b.stealers == Free
    requires Leads(TryWorker(i), Put(b.(stealers := Held(Worker(i))), i, Scan(0)), t)
    ensures Leads(TryWorker(i), Put(b, i, Check), t)
  {
    PutTwice(b, i, Check, PopLocal);
    PutTwice(b, i, PopLocal, WantStealers);
    PutTwice(b.(stealers := Held(Worker(i))), i, WantStealers, Scan(0));
    WorkerHop(Put(b, i, WantStealers), i, Put(b.(stealers := Held(Worker(i))), i, Scan(0)), t);
    WorkerHop(Put(b, i, PopLocal), i, Put(b, i, WantStealers), t);
    WorkerHop(Put(b, i, Check), i, Put(b, i, PopLocal), t);
  }

  /** The scan probes n - 1 queues and gives the lock back. */
  lemma {:induction false} ScanEnds(b: State, i: nat, k: nat, t: State)
    requires Shaped(b, i) && b.stealers == Free && k <= |b.workers| - 1
    requires Leads(TryWorker(i), Put(b, i, StealInjector), t)
    ensures Leads(TryWorker(i), Put(b.(stealers := Held(Worker(i))), i, Scan(k)), t)
    decreases |b.workers| - k
  {
    var h := b.(stealers := Held(Worker(i)));
    if k < |b.workers| - 1 {
      ScanEnds(b, i, k + 1, t);
      PutTwice(h, i, Scan(k), Scan(k + 1));
      WorkerHop(Put(h, i, Scan(k)), i, Put(h, i, Scan(k + 1)), t);
    } else {
      PutTwice(h, i, Scan(k), StealInjector);
      assert Put(h, i, StealInjector).(stealers := Free) == Put(b, i, StealInjector);
      WorkerHop(Put(h, i, Scan(k)), i, Put(b, i, StealInjector), t);
    }
  }

  /** A worker at the head of its loop that finds a task queued runs the oldest. */
  lemma WorkerTakesOldest(s: State, i: nat) returns (t: State)
    requires Shaped(s, i) && !s.shutdown && s.stealers == Free && s.workers[i] == Check && s.injector != []
    ensures Leads(TryWorker(i), s, t)
    ensures t == s.(workers := s.workers[i := Running(s.injector[0], Quiet)], injector := s.injector[1..],
                    log := s.log.(taken := s.log.taken + [s.injector[0]]))
  {
    t := s.(workers := s.workers[i := Running(s.injector[0], Quiet)], injector := s.injector[1..],
            log := s.log.(taken := s.log.taken + [s.injector[0]]));
    WorkerThere(t, i);
    PutTwice(s, i, StealInjector, Running(s.injector[0], Quiet));
    WorkerHop(Put(s, i, StealInjector), i, t, t);
    ScanEnds(s, i, 0, t);
    ReachesScan(s, i, t);
    PutBack(s, i);
  }

  // ----- the worker's sleep -----

  /** From the mutex to the wait. */
  lemma FallsAsleep(b: State, i: nat, t: State)
    requires Shaped(b, i) && !b.shutdown && b.mutex == Free && b.injector == []
    requires t == Put(b, i, Waiting).(active := b.active - 1)
    ensures Leads(TryWorker(i), Put(b, i, WorkerPc.LockMutex), t)
  {
    var h := b.(mutex := Held(Worker(i)));
    var c := h.(active := b.active - 1);
    WorkerThere(t, i);
    SleepsInWait(c, i, t);
    PutTwice(c, i, RecheckInjector, InnerCheck);
    WorkerHop(Put(c, i, RecheckInjector), i, Put(c, i, InnerCheck), t);
    PutTwice(c, i, RecheckLocal, RecheckInjector);
    WorkerHop(Put(c, i, RecheckLocal), i, Put(c, i, RecheckInjector), t);
    PutTwice(h, i, SubActive, RecheckLocal);
    WorkerHop(Put(h, i, SubActive), i, Put(c, i, RecheckLocal), t);
    PutTwice(b, i, WorkerPc.LockMutex, SubActive);
    WorkerHop(Put(b, i, WorkerPc.LockMutex), i, Put(h, i, SubActive), t);
  }

  lemma SleepsInWait(c: State, i: nat, t: State)
    requires Shaped(c, i) && !c.shutdown && c.mutex == Held(Worker(i))
    requires t == Put(c, i, Waiting).(mutex := Free)
    ensures Leads(TryWorker(i), Put(c, i, InnerCheck), t)
  {
    WorkerThere(t, i);
    PutTwice(c, i, AboutToWait, Waiting);
    WorkerHop(Put(c, i, AboutToWait), i, t, t);
    PutTwice(c, i, InnerCheck, AboutToWait);
    WorkerHop(Put(c, i, InnerCheck), i, Put(c, i, AboutToWait), t);
  }

  /** A worker at the head of its loop that finds nothing goes to sleep, and counts as not
      active: nothing else changes. */
  lemma IdleWorkerSleeps(s: State, i: nat) returns (t: State)
    requires Shaped(s, i) && !s.shutdown && s.workers[i] == Check && s.injector == []
    requires s.stealers == Free && s.mutex == Free
    ensures Leads(TryWorker(i), s, t)
    ensures t == s.(workers := s.workers[i := Waiting], active := s.active - 1)
  {
    t := Put(s, i, Waiting).(active := s.active - 1);
    FallsAsleep(s, i, t);
    PutTwice(s, i, StealInjector, WorkerPc.LockMutex);
    WorkerHop(Put(s, i, StealInjector), i, Put(s, i, WorkerPc.LockMutex), t);
    ScanEnds(s, i, 0, t);
    ReachesScan(s, i, t);
    PutBack(s, i);
  }

  // ----- the worker's awakening -----

  lemma LeavesSleep(b: State, i: nat, t: State)
    requires i < |b.workers| == |b.local| && b.mutex == Free
    requires t == Put(b, i, Check).(active := b.active + 1)
    ensures Leads(TryWorker(i), Put(b.(mutex := Held(Worker(i))), i, AddActive), t)
  {
    var h := b.(mutex := Held(Worker(i)));
    WorkerThere(t, i);
    PutTwice(b, i, Unlock, Check);
    WorkerHop(Put(h.(active := b.active + 1), i, Unlock), i, t, t);
    PutTwice(h, i, AddActive, Unlock);
    WorkerHop(Put(h, i, AddActive), i, Put(h.(active := b.active + 1), i, Unlock), t);
  }

  /** Out of the condition variable to the look at the injector. */
  lemma LooksAgain(b: State, i: nat, t: State)
    requires Shaped(b, i) && b.mutex == Free
    requires Leads(TryWorker(i), Put(b.(mutex := Held(Worker(i))), i, WokenInjector), t)
    ensures Leads(TryWorker(i), Put(b, i, Woken), t)
  {
    var h := b.(mutex := Held(Worker(i)));
    PutTwice(h, i, WokenLocal, WokenInjector);
    WorkerHop(Put(h, i, WokenLocal), i, Put(h, i, WokenInjector), t);
    PutTwice(b, i, Woken, WokenLocal);
    WorkerHop(Put(b, i, Woken), i, Put(h, i, WokenLocal), t);
  }

  /** A woken worker that finds a task drops the oldest and goes back to the head of the
      loop, active again. */
  lemma WokenWorkerDrops(s: State, i: nat) returns (t: State)
    requires Shaped(s, i) && s.workers[i] == Woken && s.mutex == Free && s.injector != []
    ensures Leads(TryWorker(i), s, t)
    ensures t == s.(workers := s.workers[i := Check], active := s.active + 1, injector := s.injector[1..],
                    log := s.log.(taken := s.log.taken + [s.injector[0]],
                                  discarded := s.log.discarded + multiset{s.injector[0]}))
  {
    var d := s.(injector := s.injector[1..], log := s.log.(taken := s.log.taken + [s.injector[0]],
                                                           discarded := s.log.discarded + multiset{s.injector[0]}));
    t := Put(d, i, Check).(active := s.active + 1);
    LeavesSleep(d, i, t);
    var h := s.(mutex := Held(Worker(i)));
    PutTwice(h, i, WokenInjector, AddActive);
    WorkerHop(Put(h, i, WokenInjector), i, Put(d.(mutex := Held(Worker(i))), i, AddActive), t);
    LooksAgain(s, i, t);
    PutBack(s, i);
  }

  /** One that finds nothing goes back to sleep, and nothing else changes. */
  lemma WokenWorkerSleepsOn(s: State, i: nat) returns (t: State)
    requires Shaped(s, i) && s.workers[i] == Woken && s.mutex == Free && s.injector == [] && !s.shutdown
    ensures Leads(TryWorker(i), s, t) && t == s.(workers := s.workers[i := Waiting])
  {
    var h := s.(mutex := Held(Worker(i)));
    t := Put(h, i, Waiting).(mutex := Free);
    SleepsInWait(h, i, t);
    PutTwice(h, i, WokenInjector, InnerCheck);
    WorkerHop(Put(h, i, WokenInjector), i, Put(h, i, InnerCheck), t);
    LooksAgain(s, i, t);
    PutBack(s, i);
  }

  /** Woken by shutdown with nothing queued, it exits, active again. */
  lemma StoppedWorkerExits(s: State, i: nat) returns (t: State)
    requires Shaped(s, i) && s.workers[i] == Woken && s.mutex == Free && s.injector == [] && s.shutdown
    ensures Leads(TryWorker(i), s, t)
    ensures t == s.(workers := s.workers[i := Exited], active := s.active + 1)
  {
    var h := s.(mutex := Held(Worker(i)));
    t := Put(s, i, Exited).(active := s.active + 1);
    WorkerThere(t, i);
    var back := Put(s, i, Check).(active := s.active + 1);
    PutTwice(s, i, Check, Exited);
    WorkerHop(back, i, t, t);
    LeavesSleep(s, i, back);
    LeadsOn(TryWorker(i), Put(h, i, AddActive), back, t);
    PutTwice(h, i, InnerCheck, AddActive);
    WorkerHop(Put(h, i, InnerCheck), i, Put(h, i, AddActive), t);
    PutTwice(h, i, WokenInjector, InnerCheck);
    WorkerHop(Put(h, i, WokenInjector), i, Put(h, i, InnerCheck), t);
    LooksAgain(s, i, t);
    PutBack(s, i);
  }

  /** A task that returns has run, and its worker is back at the head of the loop. */
  lemma TaskReturns(s: State, i: nat, t: State)
    requires i < |s.workers| == |s.local| && s.workers[i].Running? && s.workers[i].call == Quiet
    requires t == s.(workers := s.workers[i := Check], log := s.log.(ran := s.log.ran + multiset{s.workers[i].task}))
    ensures Leads(TryWorker(i), s, t)
  {
    WorkerThere(t, i);
    WorkerHop(s, i, t, t);
  }

  // ----- spawn and notify_worker -----

  lemma ClientHop(s: State, j: nat, w: nat, u: State, t: State)
    requires ClientEnabled(s, j, w) && ClientApply(s, j, w) == u && Leads(TryClient(j), u, t)
    ensures Leads(TryClient(j), s, t)
  {
    assert TryClient(j)(s, ClientStep(j, w)) == Try(s, ClientStep(j, w));
    LeadsFirst(TryClient(j), s, ClientStep(j, w), t);
  }

  function PutClient(b: State, j: nat, pc: ClientPc): State
    requires j < |b.clients|
  {
    b.(clients := b.clients[j := pc])
  }

  lemma PutClientTwice(b: State, j: nat, p: ClientPc, q: ClientPc)
    requires j < |b.clients|
    ensures PutClient(PutClient(b, j, p), j, q) == PutClient(b, j, q)
  {
    assert b.clients[j := p][j := q] == b.clients[j := q];
  }

  lemma PutClientBack(b: State, j: nat)
    requires j < |b.clients|
    ensures PutClient(b, j, b.clients[j]) == b
  {
    assert b.clients[j := b.clients[j]] == b.clients;
  }

  /** LAST_NOTIFIED, as a 64-bit number. */
  function OneMore(n: nat): nat { (n + 1) % 0x1_0000_0000_0000_0000 }

  /** A client at rest, outside or in a task it helps with. */
  predicate Rests(pc: ClientPc) { (pc.Outside? || pc.Helping?) && pc.call == Quiet }

  lemma SelectsUnparker(b: State, j: nat, r: ClientPc, t: State)
    requires |b.workers| == |b.local| && j < |b.clients| && b.unparkers == Free && Rests(r)
    requires t == PutClient(b, j, r).(lastNotified := OneMore(b.lastNotified))
    ensures Leads(TryClient(j), PutClient(b, j, r.(call := WantUnparkers)), t)
  {
    var h := b.(unparkers := Held(Client(j)));
    var m := h.(lastNotified := OneMore(b.lastNotified));
    LeadsNowhere(TryClient(j), t);
    PutClientTwice(m, j, r.(call := Picked), r);
    ClientHop(PutClient(m, j, r.(call := Picked)), j, 0, t, t);
    PutClientTwice(h, j, r.(call := HasUnparkers), r.(call := Picked));
    ClientHop(PutClient(h, j, r.(call := HasUnparkers)), j, 0, PutClient(m, j, r.(call := Picked)), t);
    PutClientTwice(b, j, r.(call := WantUnparkers), r.(call := HasUnparkers));
    ClientHop(PutClient(b, j, r.(call := WantUnparkers)), j, 0, PutClient(h, j, r.(call := HasUnparkers)), t);
  }

  /** Exactly one waiting worker comes out of the wait, if there is one. */
  function Roused(workers: seq<WorkerPc>, w: nat): seq<WorkerPc>
    requires Waiting in workers ==> w < |workers|
  {
    if Waiting in workers then workers[w := Woken] else workers
  }

  lemma NotifiesOne(b: State, j: nat, r: ClientPc, w: nat, t: State)
    requires |b.workers| == |b.local| && j < |b.clients| && b.mutex == Free && b.unparkers == Free && Rests(r)
    requires MayWake(b.workers, w)
    requires t == PutClient(b, j, r).(workers := Roused(b.workers, w), lastNotified := OneMore(b.lastNotified))
    ensures Leads(TryClient(j), PutClient(b, j, r.(call := WantMutex)), t)
  {
    var h := b.(mutex := Held(Client(j)));
    var n := b.(workers := Roused(b.workers, w));
    var m := h.(workers := Roused(b.workers, w));
    SelectsUnparker(n, j, r, t);
    PutClientTwice(m, j, r.(call := Notified), r.(call := WantUnparkers));
    ClientHop(PutClient(m, j, r.(call := Notified)), j, 0, PutClient(n, j, r.(call := WantUnparkers)), t);
    PutClientTwice(h, j, r.(call := HasMutex), r.(call := Notified));
    ClientHop(PutClient(h, j, r.(call := HasMutex)), j, w, PutClient(m, j, r.(call := Notified)), t);
    PutClientTwice(b, j, r.(call := WantMutex), r.(call := HasMutex));
    ClientHop(PutClient(b, j, r.(call := WantMutex)), j, 0, PutClient(h, j, r.(call := HasMutex)), t);
  }

  /** spawn, by a thread outside or from within a task it helps with, puts the task at the end
      of the queue, wakes one waiting worker, whichever the condition variable picks, and moves
      LAST_NOTIFIED on. */
  lemma SpawnAlone(s: State, j: nat, u: Task, w: nat) returns (t: State)
    requires |s.workers| == |s.local| && j < |s.clients| && Rests(s.clients[j])
    requires s.mutex == Free && s.unparkers == Free && MayWake(s.workers, w)
    ensures Leads(TryClient(j), s, t)
    ensures t == s.(injector := s.injector + [u], log := s.log.(pushed := s.log.pushed + [u]),
                    workers := Roused(s.workers, w), lastNotified := OneMore(s.lastNotified))
  {
    var r := s.clients[j];
    var b := s.(injector := s.injector + [u], log := s.log.(pushed := s.log.pushed + [u]));
    t := b.(workers := Roused(s.workers, w), lastNotified := OneMore(s.lastNotified));
    PutClientBack(t, j);
    NotifiesOne(b, j, r, w, t);
    assert TryClient(j)(s, ClientPush(j, u)) == Some(PutClient(b, j, r.(call := WantMutex)));
    LeadsFirst(TryClient(j), s, ClientPush(j, u), t);
  }

  /** A thread that takes a task off the injector in process_some_tasks takes the oldest and has
      run it when it is back outside. */
  lemma HelpAlone(s: State, j: nat) returns (t: State)
    requires |s.workers| == |s.local| && j < |s.clients| && s.clients[j] == Outside(Quiet) && s.injector != []
    ensures Leads(TryClient(j), s, t)
    ensures t == s.(injector := s.injector[1..],
                    log := s.log.(taken := s.log.taken + [s.injector[0]], ran := s.log.ran + multiset{s.injector[0]}))
  {
    var b := Looked(s);
    t := b.(log := b.log.(ran := s.log.ran + multiset{s.injector[0]}));
    PutClientBack(t, j);
    LeadsNowhere(TryClient(j), t);
    PutClientTwice(b, j, Helping(s.injector[0], Quiet), Outside(Quiet));
    ClientHop(PutClient(b, j, Helping(s.injector[0], Quiet)), j, 0, t, t);
    assert TryClient(j)(s, ClientGrab(j)) == Some(PutClient(b, j, Helping(s.injector[0], Quiet)));
    LeadsFirst(TryClient(j), s, ClientGrab(j), t);
  }

  // ----- a task that spawns -----

  lemma CallHop(b: State, i: nat, task: Task, c: Call, w: nat, u: State, t: State)
    requires |b.workers| == |b.local| && i < |b.workers| && c != Quiet && CallEnabled(b, c, w)
    requires WorkerEnabled(Put(b, i, Running(task, c)), i, w)
    requires WorkerApply(Put(b, i, Running(task, c)), i, w) == u && Leads(TrySpawner(i), u, t)
    ensures Leads(TrySpawner(i), Put(b, i, Running(task, c)), t)
  {
    var s := Put(b, i, Running(task, c));
    assert TrySpawner(i)(s, WorkerStep(i, w)) == Try(s, WorkerStep(i, w));
    LeadsFirst(TrySpawner(i), s, WorkerStep(i, w), t);
  }

  function TrySpawner(i: nat): (State, Action) -> Option<State> {
    (s: State, a: Action) => if (a.WorkerStep? || a.WorkerPush?) && a.i == i then Try(s, a) else None
  }

  lemma TaskSelects(b: State, i: nat, task: Task, t: State)
    requires |b.workers| == |b.local| && i < |b.workers| && b.unparkers == Free
    requires t == Put(b, i, Running(task, Quiet)).(lastNotified := OneMore(b.lastNotified))
    ensures Leads(TrySpawner(i), Put(b, i, Running(task, WantUnparkers)), t)
  {
    var h := b.(unparkers := Held(Worker(i)));
    var m := h.(lastNotified := OneMore(b.lastNotified));
    LeadsNowhere(TrySpawner(i), t);
    PutTwice(m, i, Running(task, Picked), Running(task, Quiet));
    CallHop(m, i, task, Picked, 0, t, t);
    PutTwice(h, i, Running(task, HasUnparkers), Running(task, Picked));
    CallHop(h, i, task, HasUnparkers, 0, Put(m, i, Running(task, Picked)), t);
    PutTwice(b, i, Running(task, WantUnparkers), Running(task, HasUnparkers));
    CallHop(b, i, task, WantUnparkers, 0, Put(h, i, Running(task, HasUnparkers)), t);
  }

  lemma TaskNotifies(b: State, i: nat, task: Task, w: nat, t: State)
    requires |b.workers| == |b.local| && i < |b.workers| && b.mutex == Free && b.unparkers == Free
    requires b.workers[i] == Running(task, Quiet) && MayWake(b.workers, w)
    requires t == b.(workers := Roused(b.workers, w), lastNotified := OneMore(b.lastNotified))
    ensures Leads(TrySpawner(i), Put(b, i, Running(task, WantMutex)), t)
  {
    var h := b.(mutex := Held(Worker(i)));
    var n := b.(workers := Roused(b.workers, w));
    PutBack(t, i);
    TaskSelects(n, i, task, t);
    RousesAnother(b, i, task, w);
    PutTwice(n.(mutex := Held(Worker(i))), i, Running(task, Notified), Running(task, WantUnparkers));
    CallHop(n.(mutex := Held(Worker(i))), i, task, Notified, 0, Put(n, i, Running(task, WantUnparkers)), t);
    CallHop(h, i, task, HasMutex, w, Put(n.(mutex := Held(Worker(i))), i, Running(task, Notified)), t);
    PutTwice(b, i, Running(task, WantMutex), Running(task, HasMutex));
    CallHop(b, i, task, WantMutex, 0, Put(h, i, Running(task, HasMutex)), t);
  }

  /** The notifier itself is not in the wait. */
  lemma RousesAnother(b: State, i: nat, task: Task, w: nat)
    requires |b.workers| == |b.local| && i < |b.workers| && b.workers[i] == Running(task, Quiet)
    requires MayWake(b.workers, w)
    ensures var s := Put(b.(mutex := Held(Worker(i))), i, Running(task, HasMutex));
            && CallEnabled(b.(mutex := Held(Worker(i))), HasMutex, w) && WorkerEnabled(s, i, w)
            && WorkerApply(s, i, w)
               == Put(b.(workers := Roused(b.workers, w), mutex := Held(Worker(i))), i, Running(task, Notified))
  {
    var ws := b.workers[i := Running(task, HasMutex)];
    if Waiting in ws {
      var k :| 0 <= k < |ws| && ws[k] == Waiting;
      assert b.workers[k] == Waiting;
      assert w != i && ws[w] == Waiting;
      assert ws[w := Woken][i := Running(task, Notified)] == b.workers[w := Woken][i := Running(task, Notified)];
    } else {
      forall k | 0 <= k < |b.workers| ensures b.workers[k] != Waiting {
        assert k != i ==> ws[k] == b.workers[k];
      }
      assert ws[i := Running(task, Notified)] == b.workers[i := Running(task, Notified)];
    }
  }

  /** A task spawning from its worker does what a client's spawn does, and goes on. */
  lemma TaskSpawnAlone(s: State, i: nat, u: Task, w: nat) returns (t: State)
    requires |s.workers| == |s.local| && i < |s.workers| && s.workers[i].Running? && s.workers[i].call == Quiet
    requires s.mutex == Free && s.unparkers == Free && MayWake(s.workers, w)
    ensures Leads(TrySpawner(i), s, t)
    ensures t == s.(injector := s.injector + [u], log := s.log.(pushed := s.log.pushed + [u]),
                    workers := Roused(s.workers, w), lastNotified := OneMore(s.lastNotified))
  {
    var b := s.(injector := s.injector + [u], log := s.log.(pushed := s.log.pushed + [u]));
    t := b.(workers := Roused(s.workers, w), lastNotified := OneMore(s.lastNotified));
    TaskNotifies(b, i, s.workers[i].task, w, t);
    assert TrySpawner(i)(s, WorkerPush(i, u)) == Some(Put(b, i, Running(s.workers[i].task, WantMutex)));
    LeadsFirst(TrySpawner(i), s, WorkerPush(i, u), t);
  }

  // ----- steal_work of block_on -----

  /** What a thread has in hand after looking at the injector. */
  function Found(s: State): ClientPc {
    if s.injector == [] then Outside(Quiet) else Helping(s.injector[0], Quiet)
  }

  function Looked(s: State): State {
    if s.injector == [] then s
    else s.(injector := s.injector[1..], log := s.log.(taken := s.log.taken + [s.injector[0]]))
  }

  lemma LooksUnderLock(b: State, j: nat, t: State)
    requires |b.workers| == |b.local| && j < |b.clients| && b.stealers == Free
    requires t == PutClient(Looked(b), j, Found(b))
    ensures Leads(TryClient(j), PutClient(b.(stealers := Held(Client(j))), j, BlockInjector), t)
  {
    var h := b.(stealers := Held(Client(j)));
    var hand := if b.injector == [] then None else Some(b.injector[0]);
    LeadsNowhere(TryClient(j), t);
    PutClientTwice(Looked(h), j, BlockDrop(hand), Found(b));
    ClientHop(PutClient(Looked(h), j, BlockDrop(hand)), j, 0, t, t);
    PutClientTwice(h, j, BlockInjector, BlockDrop(hand));
    ClientHop(PutClient(h, j, BlockInjector), j, 0, PutClient(Looked(h), j, BlockDrop(hand)), t);
  }

  lemma {:induction false} ScansAll(b: State, j: nat, k: nat, t: State)
    requires ShapeInv(b) && j < |b.clients| && k <= |b.workers|
    requires Leads(TryClient(j), PutClient(b, j, BlockInjector), t)
    ensures Leads(TryClient(j), PutClient(b, j, BlockScan(k)), t)
    decreases |b.workers| - k
  {
    if k < |b.workers| {
      ScansAll(b, j, k + 1, t);
      PutClientTwice(b, j, BlockScan(k), BlockScan(k + 1));
      ClientHop(PutClient(b, j, BlockScan(k)), j, 0, PutClient(b, j, BlockScan(k + 1)), t);
    } else {
      PutClientTwice(b, j, BlockScan(k), BlockInjector);
      ClientHop(PutClient(b, j, BlockScan(k)), j, 0, PutClient(b, j, BlockInjector), t);
    }
  }

  /** block_on's steal_work takes the oldest task queued, or nothing exactly if there is
      none. */
  lemma StealWorkAlone(s: State, j: nat) returns (t: State)
    requires ShapeInv(s) && j < |s.clients| && s.clients[j] == Outside(Quiet) && s.stealers == Free
    ensures Leads(TryClient(j), s, t)
    ensures s.injector == [] ==> t == s
    ensures s.injector != [] ==>
              t == s.(clients := s.clients[j := Helping(s.injector[0], Quiet)], injector := s.injector[1..],
                      log := s.log.(taken := s.log.taken + [s.injector[0]]))
  {
    var h := s.(stealers := Held(Client(j)));
    t := PutClient(Looked(s), j, Found(s));
    PutClientBack(s, j);
    LooksUnderLock(s, j, t);
    ScansAll(h, j, 0, t);
    PutClientTwice(s, j, BlockWantStealers, BlockScan(0));
    ClientHop(PutClient(s, j, BlockWantStealers), j, 0, PutClient(h, j, BlockScan(0)), t);
    assert TryClient(j)(s, ClientBlock(j)) == Some(PutClient(s, j, BlockWantStealers));
    LeadsFirst(TryClient(j), s, ClientBlock(j), t);
  }

  /** The same of the one step that looks, in any state. */
  lemma ClientLook(s: State, j: nat, w: nat)
    requires ClientEnabled(s, j, w) && s.clients[j] == BlockInjector
    ensures var t := ClientApply(s, j, w);
            if s.injector != [] then
              && t.clients == s.clients[j := BlockDrop(Some(s.injector[0]))] && t.injector == s.injector[1..]
              && t.log.taken == s.log.taken + [s.injector[0]]
            else t.clients == s.clients[j := BlockDrop(None)] && t.injector == [] && t.log == s.log
  {
  }

  // ----- the workers' own queues -----

  /** A task taken off the head of queue v. */
  function Popped(b: State, v: nat): State
    requires v < |b.local| && b.local[v] != []
  {
    b.(local := b.local[v := b.local[v][1..]], log := b.log.(taken := b.log.taken + [b.local[v][0]]))
  }

  /** Nothing is ever pushed to a worker's own queue, but were there a task, the worker would
      run the oldest before it looks anywhere else ... */
  lemma OwnQueueFirst(s: State, i: nat) returns (t: State)
    requires i < |s.workers| == |s.local| && s.workers[i] == Check && !s.shutdown && s.local[i] != []
    ensures Leads(TryWorker(i), s, t) && t == Put(Popped(s, i), i, Running(s.local[i][0], Quiet))
  {
    t := Put(Popped(s, i), i, Running(s.local[i][0], Quiet));
    WorkerThere(t, i);
    PutTwice(Popped(s, i), i, PopLocal, Running(s.local[i][0], Quiet));
    WorkerHop(Put(s, i, PopLocal), i, t, t);
    WorkerHop(s, i, Put(s, i, PopLocal), t);
  }

  /** ... drop it when woken ... */
  lemma OwnQueueDropped(s: State, i: nat) returns (t: State)
    requires i < |s.workers| == |s.local| && s.workers[i] == Woken && s.mutex == Free && s.local[i] != []
    ensures Leads(TryWorker(i), s, t)
    ensures t == Put(Discard(Popped(s, i), s.local[i][0]), i, Check).(active := s.active + 1)
  {
    var d := Discard(Popped(s, i), s.local[i][0]);
    var h := s.(mutex := Held(Worker(i)));
    t := Put(d, i, Check).(active := s.active + 1);
    LeavesSleep(d, i, t);
    PutTwice(h, i, WokenLocal, AddActive);
    WorkerHop(Put(h, i, WokenLocal), i, Put(d.(mutex := Held(Worker(i))), i, AddActive), t);
    WorkerHop(s, i, Put(h, i, WokenLocal), t);
  }

  /** ... and another worker's scan would run the oldest of the first queue that has one, in
      the order of its probes ... */
  lemma {:induction false} ScanTakesFirst(b: State, i: nat, k: nat, o: nat, t: State)
    requires i < |b.workers| == |b.local| && b.stealers == Free && k <= o < |b.workers| - 1
    requires forall q :: k <= q < o ==> b.local[Target(|b.workers|, i, q)] == []
    requires b.local[Target(|b.workers|, i, o)] != []
    requires var v := Target(|b.workers|, i, o); t == Put(Popped(b, v), i, Running(b.local[v][0], Quiet))
    ensures Leads(TryWorker(i), Put(b.(stealers := Held(Worker(i))), i, Scan(k)), t)
    decreases o - k
  {
    var h := b.(stealers := Held(Worker(i)));
    var v := Target(|b.workers|, i, o);
    if k < o {
      ScanTakesFirst(b, i, k + 1, o, t);
      PutTwice(h, i, Scan(k), Scan(k + 1));
      WorkerHop(Put(h, i, Scan(k)), i, Put(h, i, Scan(k + 1)), t);
    } else {
      WorkerThere(t, i);
      PutTwice(Popped(h, v), i, ScanHit(b.local[v][0]), Running(b.local[v][0], Quiet));
      WorkerHop(Put(Popped(h, v), i, ScanHit(b.local[v][0])), i, t, t);
      PutTwice(Popped(h, v), i, Scan(k), ScanHit(b.local[v][0]));
      WorkerHop(Put(h, i, Scan(k)), i, Put(Popped(h, v), i, ScanHit(b.local[v][0])), t);
    }
  }

  /** ... as would the scan of block_on, which goes through all queues from the first. */
  lemma {:induction false} BlockScanTakesFirst(b: State, j: nat, k: nat, v: nat, t: State)
    requires |b.workers| == |b.local| && j < |b.clients| && b.stealers == Free && k <= v < |b.workers|
    requires (forall q :: k <= q < v ==> b.local[q] == []) && b.local[v] != []
    requires t == PutClient(Popped(b, v), j, Helping(b.local[v][0], Quiet))
    ensures Leads(TryClient(j), PutClient(b.(stealers := Held(Client(j))), j, BlockScan(k)), t)
    decreases v - k
  {
    var h := b.(stealers := Held(Client(j)));
    if k < v {
      BlockScanTakesFirst(b, j, k + 1, v, t);
      PutClientTwice(h, j, BlockScan(k), BlockScan(k + 1));
      ClientHop(PutClient(h, j, BlockScan(k)), j, 0, PutClient(h, j, BlockScan(k + 1)), t);
    } else {
      var hand := Some(b.local[v][0]);
      LeadsNowhere(TryClient(j), t);
      PutClientTwice(Popped(h, v), j, BlockDrop(hand), Helping(b.local[v][0], Quiet));
      ClientHop(PutClient(Popped(h, v), j, BlockDrop(hand)), j, 0, t, t);
      PutClientTwice(Popped(h, v), j, BlockScan(k), BlockDrop(hand));
      ClientHop(PutClient(h, j, BlockScan(k)), j, 0, PutClient(Popped(h, v), j, BlockDrop(hand)), t);
    }
  }

  // ----- shutdown -----

  lemma BossHop(s: State, u: State, t: State)
    requires BossEnabled(s) && BossApply(s) == u && Leads(TryBoss(), u, t)
    ensures Leads(TryBoss(), s, t)
  {
    assert TryBoss()(s, BossStep) == Try(s, BossStep);
    LeadsFirst(TryBoss(), s, BossStep, t);
  }

  /** Every waiting worker comes out of the wait. */
  function AllRoused(workers: seq<WorkerPc>): seq<WorkerPc> {
    seq(|workers|, i requires 0 <= i < |workers| => if workers[i] == Waiting then Woken else workers[i])
  }

  /** shutdown up to its joins: the flag is set, everybody waiting is woken, and `unparkers`
      stays locked. */
  lemma ShutdownAlone(s: State) returns (t: State)
    requires s.boss == Idle && s.mutex == Free && s.unparkers == Free
    ensures Leads(TryBoss(), s, t)
    ensures t == s.(shutdown := true, workers := AllRoused(s.workers), unparkers := Held(Boss), boss := Joining(0))
  {
    var a := s.(shutdown := true, boss := StopWantMutex);
    var b := a.(mutex := Held(Boss), boss := StopHasMutex);
    var c := b.(workers := AllRoused(s.workers), boss := StopNotified);
    var d := c.(mutex := Free, boss := StopWantUnparkers);
    var e := d.(unparkers := Held(Boss), boss := StopUnparking);
    t := e.(boss := Joining(0));
    LeadsNowhere(TryBoss(), t);
    BossHop(e, t, t);
    BossHop(d, e, t);
    BossHop(c, d, t);
    assert WakeAll(s.workers) == AllRoused(s.workers);
    BossHop(b, c, t);
    BossHop(a, b, t);
    BossHop(s, a, t);
  }

  /** The joins: with every worker gone they return and give `unparkers` back. */
  lemma {:induction false} JoinsAlone(s: State, k: nat, t: State)
    requires s.boss == Joining(k) && k <= |s.workers|
    requires forall i :: 0 <= i < |s.workers| ==> s.workers[i] == Exited
    requires t == s.(unparkers := Free, boss := Done)
    ensures Leads(TryBoss(), s, t)
    decreases |s.workers| - k
  {
    if k < |s.workers| {
      JoinsAlone(s.(boss := Joining(k + 1)), k + 1, t);
      BossHop(s, s.(boss := Joining(k + 1)), t);
    } else {
      LeadsNowhere(TryBoss(), t);
      BossHop(s, t, t);
    }
  }

  // ----- LAST_NOTIFIED over runs -----

  function Selects(s: State, a: Action): nat {
    if a.WorkerStep? && a.i < |s.workers| && CallOf(s.workers[a.i]) == HasUnparkers then 1
    else if a.ClientStep? && a.j < |s.clients| && ClientCall(s.clients[a.j]) == HasUnparkers then 1
    else 0
  }

  /** How many selections a run makes. */
  function Selections(s: State, acts: seq<Action>): nat
    requires Runnable(Try, s, acts)
    decreases |acts|
  {
    if acts == [] then 0 else Selects(s, acts[0]) + Selections(Apply(s, acts[0]), acts[1..])
  }

  lemma WorkerSelects(s: State, i: nat, w: nat)
    requires WorkerEnabled(s, i, w)
    ensures WorkerApply(s, i, w).lastNotified ==
            if CallOf(s.workers[i]) == HasUnparkers then OneMore(s.lastNotified) else s.lastNotified
  {
  }

  lemma ClientSelects(s: State, j: nat, w: nat)
    requires ClientEnabled(s, j, w)
    ensures ClientApply(s, j, w).lastNotified ==
            if ClientCall(s.clients[j]) == HasUnparkers then OneMore(s.lastNotified) else s.lastNotified
  {
  }

  lemma StepSelects(s: State, a: Action)
    requires Enabled(s, a)
    ensures Apply(s, a).lastNotified == if Selects(s, a) == 1 then OneMore(s.lastNotified) else s.lastNotified
  {
    match a
    case WorkerStep(i, w) => WorkerSelects(s, i, w);
    case ClientStep(j, w) => ClientSelects(s, j, w);
    case _ =>
  }

  lemma CountsOn(n: nat, step: nat, k: nat)
    requires n < 0x1_0000_0000_0000_0000 && step <= 1
    ensures var next := if step == 1 then OneMore(n) else n;
            && next < 0x1_0000_0000_0000_0000
            && (next + k) % 0x1_0000_0000_0000_0000 == (n + (step + k)) % 0x1_0000_0000_0000_0000
  {
  }

  lemma SelectionsStep(s: State, acts: seq<Action>)
    requires acts != [] && Runnable(Try, s, acts)
    ensures Selections(s, acts) == Selects(s, acts[0]) + Selections(Apply(s, acts[0]), acts[1..])
    ensures Exec(Try, s, acts) == Exec(Try, Apply(s, acts[0]), acts[1..])
  {
  }

  /** LAST_NOTIFIED counts the notifies that got as far as the selection, modulo 2^64. */
  lemma {:induction false} LastNotifiedCounts(s: State, acts: seq<Action>)
    requires Runnable(Try, s, acts) && s.lastNotified < 0x1_0000_0000_0000_0000
    ensures Exec(Try, s, acts).lastNotified == (s.lastNotified + Selections(s, acts)) % 0x1_0000_0000_0000_0000
    decreases |acts|
  {
    if acts != [] {
      var t, rest := Apply(s, acts[0]), acts[1..];
      StepSelects(s, acts[0]);
      SelectionsStep(s, acts);
      CountsOn(s.lastNotified, Selects(s, acts[0]), Selections(t, rest));
      LastNotifiedCounts(t, rest);
    }
  }
}
