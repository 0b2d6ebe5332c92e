/** The inductive invariant of the scheduler: who holds which lock, how many workers
    count as active, where every task is, and how many wake-ups are in flight. */
module SchedulerInvariant {
  import opened Options
  import opened Sums
  import opened SchedulerModel

  // ----- who holds which lock -----

  predicate CallHoldsMutex(c: Call) { c == HasMutex || c == Notified }

  predicate CallHoldsUnparkers(c: Call) { c == HasUnparkers || c == Picked }

  function CallOf(pc: WorkerPc): Call {
    if pc.Running? then pc.call else Quiet
  }

  function ClientCall(pc: ClientPc): Call {
    match pc
    case Outside(c) => c
    case Helping(_, c) => c
    case _ => Quiet
  }

  predicate WorkerHoldsMutex(pc: WorkerPc) {
    || pc.SubActive? || pc.RecheckLocal? || pc.RecheckInjector? || pc.InnerCheck? || pc.AboutToWait?
    || pc.WokenLocal? || pc.WokenInjector? || pc.AddActive? || pc.Unlock?
    || CallHoldsMutex(CallOf(pc))
  }

  predicate HoldsMutex(s: State, o: Owner) {
    match o
    case Worker(i) => i < |s.workers| && WorkerHoldsMutex(s.workers[i])
    case Client(j) => j < |s.clients| && CallHoldsMutex(ClientCall(s.clients[j]))
    case Boss => s.boss == StopHasMutex || s.boss == StopNotified
  }

  predicate HoldsStealers(s: State, o: Owner) {
    match o
    case Worker(i) => i < |s.workers| && (s.workers[i].Scan? || s.workers[i].ScanHit?)
    case Client(j) =>
      j < |s.clients| && (s.clients[j].BlockScan? || s.clients[j].BlockInjector? || s.clients[j].BlockDrop?)
    case Boss => false
  }

  predicate HoldsUnparkers(s: State, o: Owner) {
    match o
    case Worker(i) => i < |s.workers| && CallHoldsUnparkers(CallOf(s.workers[i]))
    case Client(j) => j < |s.clients| && CallHoldsUnparkers(ClientCall(s.clients[j]))
    case Boss => s.boss == StopUnparking || s.boss.Joining?
  }

  ghost predicate MutexInv(s: State) {
    forall o :: HoldsMutex(s, o) <==> s.mutex == Held(o)
  }

  ghost predicate StealersInv(s: State) {
    forall o :: HoldsStealers(s, o) <==> s.stealers == Held(o)
  }

  ghost predicate UnparkersInv(s: State) {
    forall o :: HoldsUnparkers(s, o) <==> s.unparkers == Held(o)
  }

  // ----- shape and shutdown -----

  /** Nothing ever pushes to a worker's own queue. */
  ghost predicate ShapeInv(s: State) {
    && |s.workers| >= 1
    && |s.local| == |s.workers|
    && forall i :: 0 <= i < |s.local| ==> s.local[i] == []
  }

  predicate StopNotifiedAll(b: BossPc) {
    b.StopNotified? || b.StopWantUnparkers? || b.StopUnparking? || b.Joining? || b.Done?
  }

  predicate InWait(pc: WorkerPc) { pc == AboutToWait || pc == Waiting }

  ghost predicate StopInv(s: State) {
    && (s.shutdown <==> s.boss != Idle)
    && (forall i :: 0 <= i < |s.workers| && s.workers[i] == Exited ==> s.shutdown)
    && (StopNotifiedAll(s.boss) ==> forall i :: 0 <= i < |s.workers| ==> !InWait(s.workers[i]))
    && (s.boss.Joining? ==> s.boss.k <= |s.workers|)
    && (forall i :: 0 <= i < |s.workers| && (s.boss.Done? || (s.boss.Joining? && i < s.boss.k))
          ==> s.workers[i] == Exited)
  }

  // ----- active workers -----

  /** 1 for a worker between its fetch_sub and its fetch_add on `active`. */
  function Inactive(pc: WorkerPc): nat {
    match pc
    case RecheckLocal => 1
    case RecheckInjector => 1
    case InnerCheck => 1
    case AboutToWait => 1
    case Waiting => 1
    case Woken => 1
    case WokenLocal => 1
    case WokenInjector => 1
    case AddActive => 1
    case _ => 0
  }

  ghost predicate ActiveInv(s: State) {
    s.active + Sum(s.workers, Inactive) == |s.workers|
  }

  // ----- tasks -----

  /** The dequeued task a thread is about to run, is running, or is handing over. */
  function WorkerHeld(pc: WorkerPc): Option<Task> {
    match pc
    case Running(t, _) => Some(t)
    case ScanHit(t) => Some(t)
    case _ => None
  }

  function ClientHeld(pc: ClientPc): Option<Task> {
    match pc
    case BlockDrop(hand) => hand
    case Helping(t, _) => Some(t)
    case _ => None
  }

  function Bag(o: Option<Task>): multiset<Task> {
    if o.Some? then multiset{o.value} else multiset{}
  }

  function WorkerHand(pc: WorkerPc): multiset<Task> { Bag(WorkerHeld(pc)) }

  function ClientHand(pc: ClientPc): multiset<Task> { Bag(ClientHeld(pc)) }

  function InHand(s: State): multiset<Task> {
    Gather(s.workers, WorkerHand) + Gather(s.clients, ClientHand)
  }

  ghost predicate FifoInv(s: State) {
    s.log.pushed == s.log.taken + s.injector
  }

  ghost predicate FateInv(s: State) {
    multiset(s.log.taken) == InHand(s) + s.log.ran + s.log.discarded
  }

  // ----- wake-ups in flight -----

  /** A push whose `notify_one` is still to come. */
  function PendingCall(c: Call): nat { if c == WantMutex || c == HasMutex then 1 else 0 }

  function WorkerPending(pc: WorkerPc): nat { PendingCall(CallOf(pc)) }

  function ClientPending(pc: ClientPc): nat { PendingCall(ClientCall(pc)) }

  function Pending(s: State): nat {
    Sum(s.workers, WorkerPending) + Sum(s.clients, ClientPending)
  }

  /** Blocked in `wait`, or committed to it: past the last look at the injector. */
  predicate Asleep(pc: WorkerPc) { pc == InnerCheck || pc == AboutToWait || pc == Waiting }

  function Awake(pc: WorkerPc): nat { if Asleep(pc) || pc == Exited then 0 else 1 }

  ghost predicate SomeAsleep(s: State) {
    exists i :: 0 <= i < |s.workers| && Asleep(s.workers[i])
  }

  /** While anybody sleeps, the queue is no longer than the wake-ups still to come plus
      the workers that will look at it again. */
  ghost predicate WakeInv(s: State) {
    !s.shutdown && SomeAsleep(s) ==> |s.injector| <= Pending(s) + Sum(s.workers, Awake)
  }

  ghost predicate Inv(s: State) {
    && ShapeInv(s)
    && MutexInv(s) && StealersInv(s) && UnparkersInv(s)
    && StopInv(s)
    && ActiveInv(s)
    && FifoInv(s) && FateInv(s)
    && WakeInv(s)
  }
}
