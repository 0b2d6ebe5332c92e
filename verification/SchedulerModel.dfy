/** The multi-threaded scheduler as a state machine.

    `n` worker threads execute `WorkerThread::run`, any number of client threads spawn
    tasks, wake tasks, and help out through `block_on` or `process_some_tasks`, and one
    thread calls `shutdown`. Each step of a thread is one lock operation, one atomic
    access, one queue operation, or one condition-variable operation. Atomics are
    sequentially consistent and the injector is an atomic FIFO whose `steal` gives the
    oldest task or nothing. */
module SchedulerModel {
  import opened Options
  import opened Runs
  import RoundRobin

  type Task = nat

  datatype Owner = Worker(i: nat) | Client(j: nat) | Boss

  datatype Lock = Free | Held(owner: Owner)

  /** Inside `notify_worker`, after the push that precedes it at every push site. */
  datatype Call =
    | Quiet           // not notifying
    | WantMutex       // pushed, about to lock `mutex`
    | HasMutex        // about to `notify_one`
    | Notified        // about to drop the mutex guard
    | WantUnparkers   // about to lock `unparkers`
    | HasUnparkers    // about to advance LAST_NOTIFIED
    | Picked          // about to drop the `unparkers` guard

  datatype WorkerPc =
    | Check                           // outer `while !shutdown`
    | PopLocal
    | WantStealers
    | Scan(k: nat)                    // holds `stealers`, next offset k
    | ScanHit(task: Task)             // holds `stealers`, about to return Some(task)
    | StealInjector
    | Running(task: Task, call: Call) // inside task.run(), which may push and notify
    | LockMutex
    | SubActive
    | RecheckLocal
    | RecheckInjector
    | InnerCheck                      // inner `while !shutdown`
    | AboutToWait
    | Waiting                         // in condvar.wait, mutex released
    | Woken                           // out of the condvar's queue, re-acquiring the mutex
    | WokenLocal
    | WokenInjector
    | AddActive
    | Unlock                          // the guard goes out of scope
    | Exited

  datatype ClientPc =
    | Outside(call: Call)
    | BlockWantStealers                           // MultiThread::steal_work
    | BlockScan(k: nat)
    | BlockInjector                               // still under the `stealers` guard
    | BlockDrop(hand: Option<Task>)
    | Helping(task: Task, call: Call)             // running a task it dequeued

  datatype BossPc =
    | Idle
    | StopWantMutex    // shutdown flag stored
    | StopHasMutex     // about to notify_all
    | StopNotified
    | StopWantUnparkers
    | StopUnparking
    | Joining(k: nat)  // joining worker k, `unparkers` still held
    | Done

  /** What happened so far: every push and every dequeue in order, and the fate of
      each dequeued task. */
  datatype Log = Log(pushed: seq<Task>, taken: seq<Task>, ran: multiset<Task>, discarded: multiset<Task>)

  datatype State = State(
    workers: seq<WorkerPc>, local: seq<seq<Task>>, clients: seq<ClientPc>, boss: BossPc,
    injector: seq<Task>, mutex: Lock, stealers: Lock, unparkers: Lock,
    active: int, shutdown: bool, lastNotified: nat, log: Log)

  datatype Action =
    | WorkerStep(i: nat, w: nat)    // the next access of worker i; w is whom a notify_one wakes
    | WorkerPush(i: nat, u: Task)   // the task worker i runs pushes u
    | ClientStep(j: nat, w: nat)
    | ClientPush(j: nat, u: Task)
    | ClientBlock(j: nat)           // block_on begins steal_work
    | ClientGrab(j: nat)            // process_some_tasks steals from the injector
    | BossStep
    | Spurious(i: nat)              // a spurious wake-up

  ghost predicate Init(s: State) {
    && |s.workers| >= 1
    && |s.local| == |s.workers|
    && (forall i :: 0 <= i < |s.workers| ==> s.workers[i] == Check && s.local[i] == [])
    && (forall j :: 0 <= j < |s.clients| ==> s.clients[j] == Outside(Quiet))
    && s.boss == Idle
    && s.injector == []
    && s.mutex == Free && s.stealers == Free && s.unparkers == Free
    && s.active == |s.workers|
    && !s.shutdown
    && s.log == Log([], [], multiset{}, multiset{})
  }

  // ----- queues -----

  function Push(s: State, u: Task): State {
    s.(injector := s.injector + [u], log := s.log.(pushed := s.log.pushed + [u]))
  }

  function Steal(s: State): State
    requires s.injector != []
  {
    s.(injector := s.injector[1..], log := s.log.(taken := s.log.taken + [s.injector[0]]))
  }

  function PopLocalQueue(s: State, i: nat): State
    requires i < |s.local| && s.local[i] != []
  {
    s.(local := s.local[i := s.local[i][1..]], log := s.log.(taken := s.log.taken + [s.local[i][0]]))
  }

  function Discard(s: State, t: Task): State {
    s.(log := s.log.(discarded := s.log.discarded + multiset{t}))
  }

  function Finish(s: State, t: Task): State {
    s.(log := s.log.(ran := s.log.ran + multiset{t}))
  }

  // ----- the condition variable -----

  /** notify_one may wake w: a waiting worker if there is one. */
  predicate MayWake(workers: seq<WorkerPc>, w: nat) {
    Waiting in workers ==> w < |workers| && workers[w] == Waiting
  }

  function WakeOne(workers: seq<WorkerPc>, w: nat): seq<WorkerPc> {
    if w < |workers| && workers[w] == Waiting then workers[w := Woken] else workers
  }

  function WakeAll(workers: seq<WorkerPc>): (r: seq<WorkerPc>)
    ensures |r| == |workers|
    ensures forall i :: 0 <= i < |r| ==> r[i] == if workers[i] == Waiting then Woken else workers[i]
  {
    seq(|workers|, i requires 0 <= i < |workers| => if workers[i] == Waiting then Woken else workers[i])
  }

  // ----- notify_worker -----

  predicate CallEnabled(s: State, c: Call, w: nat) {
    match c
    case Quiet => false
    case WantMutex => s.mutex == Free
    case HasMutex => MayWake(s.workers, w)
    case Notified => true
    case WantUnparkers => s.unparkers == Free
    case HasUnparkers => true
    case Picked => true
  }

  function CallNext(c: Call): Call {
    match c
    case Quiet => Quiet
    case WantMutex => HasMutex
    case HasMutex => Notified
    case Notified => WantUnparkers
    case WantUnparkers => HasUnparkers
    case HasUnparkers => Picked
    case Picked => Quiet
  }

  function CallApply(s: State, me: Owner, c: Call, w: nat): (r: State)
    ensures |r.workers| == |s.workers|
  {
    match c
    case Quiet => s
    case WantMutex => s.(mutex := Held(me))
    case HasMutex => s.(workers := WakeOne(s.workers, w))
    case Notified => s.(mutex := Free)
    case WantUnparkers => s.(unparkers := Held(me))
    case HasUnparkers => s.(lastNotified := RoundRobin.CounterAfter(s.lastNotified, 1))
    case Picked => s.(unparkers := Free)
  }

  // ----- workers -----

  /** The worker whose queue is probed at offset k of `steal_work`. */
  function Target(n: nat, me: nat, k: nat): nat
    requires n > 0
  {
    ((me + 1) % n + k) % n
  }

  predicate WorkerEnabled(s: State, i: nat, w: nat) {
    && i < |s.workers| == |s.local|
    && match s.workers[i]
       case WantStealers => s.stealers == Free
       case Running(t, c) => c == Quiet || CallEnabled(s, c, w)
       case LockMutex => s.mutex == Free
       case Waiting => false
       case Woken => s.mutex == Free
       case Exited => false
       case _ => true
  }

  function At(s: State, i: nat, pc: WorkerPc): State
    requires i < |s.workers|
  {
    s.(workers := s.workers[i := pc])
  }

  function WorkerApply(s: State, i: nat, w: nat): State
    requires WorkerEnabled(s, i, w)
  {
    var n := |s.workers|;
    match s.workers[i]
    case Check => At(s, i, if s.shutdown then Exited else PopLocal)
    case PopLocal =>
      if s.local[i] != [] then At(PopLocalQueue(s, i), i, Running(s.local[i][0], Quiet))
      else At(s, i, WantStealers)
    case WantStealers => At(s.(stealers := Held(Worker(i))), i, Scan(0))
    case Scan(k) =>
      if k >= n - 1 then At(s.(stealers := Free), i, StealInjector)
      else
        var v := Target(n, i, k);
        if s.local[v] != [] then At(PopLocalQueue(s, v), i, ScanHit(s.local[v][0]))
        else At(s, i, Scan(k + 1))
    case ScanHit(t) => At(s.(stealers := Free), i, Running(t, Quiet))
    case StealInjector =>
      if s.injector != [] then At(Steal(s), i, Running(s.injector[0], Quiet))
      else At(s, i, LockMutex)
    case Running(t, c) =>
      if c == Quiet then At(Finish(s, t), i, Check)
      else At(CallApply(s, Worker(i), c, w), i, Running(t, CallNext(c)))
    case LockMutex => At(s.(mutex := Held(Worker(i))), i, SubActive)
    case SubActive => At(s.(active := s.active - 1), i, RecheckLocal)
    case RecheckLocal =>
      if s.local[i] != [] then At(Discard(PopLocalQueue(s, i), s.local[i][0]), i, AddActive)
      else At(s, i, RecheckInjector)
    case RecheckInjector =>
      if s.injector != [] then At(Discard(Steal(s), s.injector[0]), i, AddActive)
      else At(s, i, InnerCheck)
    case InnerCheck => At(s, i, if s.shutdown then AddActive else AboutToWait)
    case AboutToWait => At(s.(mutex := Free), i, Waiting)
    case Woken => At(s.(mutex := Held(Worker(i))), i, WokenLocal)
    case WokenLocal =>
      if s.local[i] != [] then At(Discard(PopLocalQueue(s, i), s.local[i][0]), i, AddActive)
      else At(s, i, WokenInjector)
    case WokenInjector =>
      if s.injector != [] then At(Discard(Steal(s), s.injector[0]), i, AddActive)
      else At(s, i, InnerCheck)
    case AddActive => At(s.(active := s.active + 1), i, Unlock)
    case Unlock => At(s.(mutex := Free), i, Check)
  }

  // ----- clients -----

  predicate ClientEnabled(s: State, j: nat, w: nat) {
    && j < |s.clients|
    && |s.workers| == |s.local|
    && match s.clients[j]
       case Outside(c) => CallEnabled(s, c, w)
       case BlockWantStealers => s.stealers == Free
       case Helping(t, c) => c == Quiet || CallEnabled(s, c, w)
       case _ => true
  }

  function ClientAt(s: State, j: nat, pc: ClientPc): State
    requires j < |s.clients|
  {
    s.(clients := s.clients[j := pc])
  }

  function ClientApply(s: State, j: nat, w: nat): State
    requires ClientEnabled(s, j, w)
  {
    match s.clients[j]
    case Outside(c) => ClientAt(CallApply(s, Client(j), c, w), j, Outside(CallNext(c)))
    case BlockWantStealers => ClientAt(s.(stealers := Held(Client(j))), j, BlockScan(0))
    case BlockScan(k) =>
      if k >= |s.workers| then ClientAt(s, j, BlockInjector)
      else if s.local[k] != [] then ClientAt(PopLocalQueue(s, k), j, BlockDrop(Some(s.local[k][0])))
      else ClientAt(s, j, BlockScan(k + 1))
    case BlockInjector =>
      if s.injector != [] then ClientAt(Steal(s), j, BlockDrop(Some(s.injector[0])))
      else ClientAt(s, j, BlockDrop(None))
    case BlockDrop(hand) =>
      ClientAt(s.(stealers := Free), j,
               match hand case None => Outside(Quiet) case Some(t) => Helping(t, Quiet))
    case Helping(t, c) =>
      if c == Quiet then ClientAt(Finish(s, t), j, Outside(Quiet))
      else ClientAt(CallApply(s, Client(j), c, w), j, Helping(t, CallNext(c)))
  }

  // ----- shutdown -----

  predicate BossEnabled(s: State) {
    match s.boss
    case StopWantMutex => s.mutex == Free
    case StopWantUnparkers => s.unparkers == Free
    case Joining(k) => k < |s.workers| ==> s.workers[k] == Exited
    case Done => false
    case _ => true
  }

  function BossApply(s: State): State
    requires BossEnabled(s)
  {
    match s.boss
    case Idle => s.(shutdown := true, boss := StopWantMutex)
    case StopWantMutex => s.(mutex := Held(Boss), boss := StopHasMutex)
    case StopHasMutex => s.(workers := WakeAll(s.workers), boss := StopNotified)
    case StopNotified => s.(mutex := Free, boss := StopWantUnparkers)
    case StopWantUnparkers => s.(unparkers := Held(Boss), boss := StopUnparking)
    case StopUnparking => s.(boss := Joining(0))
    case Joining(k) =>
      if k < |s.workers| then s.(boss := Joining(k + 1))
      else s.(unparkers := Free, boss := Done)
  }

  // ----- all threads -----

  predicate Enabled(s: State, a: Action) {
    match a
    case WorkerStep(i, w) => WorkerEnabled(s, i, w)
    case WorkerPush(i, u) => i < |s.workers| && s.workers[i].Running? && s.workers[i].call == Quiet
    case ClientStep(j, w) => ClientEnabled(s, j, w)
    case ClientPush(j, u) =>
      && j < |s.clients|
      && (s.clients[j] == Outside(Quiet) || (s.clients[j].Helping? && s.clients[j].call == Quiet))
    case ClientBlock(j) => j < |s.clients| && s.clients[j] == Outside(Quiet)
    case ClientGrab(j) => j < |s.clients| && s.clients[j] == Outside(Quiet) && s.injector != []
    case BossStep => BossEnabled(s)
    case Spurious(i) => i < |s.workers| && s.workers[i] == Waiting
  }

  function Apply(s: State, a: Action): State
    requires Enabled(s, a)
  {
    match a
    case WorkerStep(i, w) => WorkerApply(s, i, w)
    case WorkerPush(i, u) => At(Push(s, u), i, Running(s.workers[i].task, WantMutex))
    case ClientStep(j, w) => ClientApply(s, j, w)
    case ClientPush(j, u) => ClientAt(Push(s, u), j, s.clients[j].(call := WantMutex))
    case ClientBlock(j) => ClientAt(s, j, BlockWantStealers)
    case ClientGrab(j) => ClientAt(Steal(s), j, Helping(s.injector[0], Quiet))
    case BossStep => BossApply(s)
    case Spurious(i) => At(s, i, Woken)
  }

  /** The machine's step function. */
  function Try(s: State, a: Action): Option<State> {
    if Enabled(s, a) then Some(Apply(s, a)) else None
  }

  ghost predicate Reachable(s: State) { ReachableBy(Init, Try, s) }
}
