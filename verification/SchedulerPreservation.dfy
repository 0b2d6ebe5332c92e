/** Every step of every thread keeps the scheduler's invariant. */
module SchedulerPreservation {
  import opened Options
  import opened Runs
  import opened Sums
  import opened SchedulerModel
  import opened SchedulerInvariant

  lemma InitKeeps(s: State)
    requires Init(s)
    ensures Inv(s)
  {
    SumZero(s.workers, Inactive);
    InitLocks(s);
    InitFate(s);
  }

  lemma InitLocks(s: State)
    requires Init(s)
    ensures MutexInv(s) && StealersInv(s) && UnparkersInv(s)
  {
  }

  lemma InitFate(s: State)
    requires Init(s)
    ensures FifoInv(s) && FateInv(s)
  {
    GatherNone(s.workers, WorkerHand);
    GatherNone(s.clients, ClientHand);
  }

  /** The thread that performs an action. */
  function Actor(a: Action): Owner {
    match a
    case WorkerStep(i, _) => Worker(i)
    case WorkerPush(i, _) => Worker(i)
    case Spurious(i) => Worker(i)
    case ClientStep(j, _) => Client(j)
    case ClientPush(j, _) => Client(j)
    case ClientBlock(j) => Client(j)
    case ClientGrab(j) => Client(j)
    case BossStep => Boss
  }

  // A step moves its own thread's program counter; the only other thread it can move is
  // one it wakes, and that one holds nothing.

  predicate SameOrWoken(p: WorkerPc, q: WorkerPc) {
    q == p || (p == Waiting && q == Woken)
  }

  lemma WorkerMovesOthers(s: State, me: nat, w: nat)
    requires WorkerEnabled(s, me, w) && ShapeInv(s)
    ensures |WorkerApply(s, me, w).workers| == |s.workers|
    ensures forall i :: 0 <= i < |s.workers| && i != me
              ==> SameOrWoken(s.workers[i], WorkerApply(s, me, w).workers[i])
    ensures WorkerApply(s, me, w).clients == s.clients && WorkerApply(s, me, w).boss == s.boss
  {
  }

  lemma ClientMovesOthers(s: State, me: nat, w: nat)
    requires ClientEnabled(s, me, w) && ShapeInv(s)
    ensures |ClientApply(s, me, w).workers| == |s.workers|
    ensures forall i :: 0 <= i < |s.workers| ==> SameOrWoken(s.workers[i], ClientApply(s, me, w).workers[i])
    ensures |ClientApply(s, me, w).clients| == |s.clients|
    ensures forall j :: 0 <= j < |s.clients| && j != me ==> ClientApply(s, me, w).clients[j] == s.clients[j]
    ensures ClientApply(s, me, w).boss == s.boss
  {
  }

  lemma OthersKeepWorker(s: State, a: Action, i: nat)
    requires Enabled(s, a) && ShapeInv(s)
    requires i < |s.workers| && (Actor(a) != Worker(i) || a == Spurious(i))
    ensures |Apply(s, a).workers| == |s.workers|
    ensures SameOrWoken(s.workers[i], Apply(s, a).workers[i])
  {
    match a
    case WorkerStep(me, w) => WorkerMovesOthers(s, me, w);
    case ClientStep(me, w) => ClientMovesOthers(s, me, w);
    case _ =>
  }

  lemma OthersKeepClient(s: State, a: Action, j: nat)
    requires Enabled(s, a) && ShapeInv(s)
    requires j < |s.clients| && Actor(a) != Client(j)
    ensures |Apply(s, a).clients| == |s.clients|
    ensures Apply(s, a).clients[j] == s.clients[j]
  {
    match a
    case WorkerStep(me, w) => WorkerMovesOthers(s, me, w);
    case ClientStep(me, w) => ClientMovesOthers(s, me, w);
    case _ =>
  }

  lemma OthersKeepHolding(s: State, a: Action, o: Owner)
    requires Enabled(s, a) && ShapeInv(s)
    requires Actor(a) != o
    ensures HoldsMutex(Apply(s, a), o) == HoldsMutex(s, o)
    ensures HoldsStealers(Apply(s, a), o) == HoldsStealers(s, o)
    ensures HoldsUnparkers(Apply(s, a), o) == HoldsUnparkers(s, o)
  {
    match o
    case Worker(i) =>
      SameSizes(s, a);
      if i < |s.workers| { OthersKeepWorker(s, a, i); }
    case Client(j) =>
      SameSizes(s, a);
      if j < |s.clients| { OthersKeepClient(s, a, j); }
    case Boss => BossKeeps(s, a);
  }

  lemma SameSizes(s: State, a: Action)
    requires Enabled(s, a) && ShapeInv(s)
    ensures |Apply(s, a).workers| == |s.workers| && |Apply(s, a).clients| == |s.clients|
  {
    match a
    case WorkerStep(me, w) => WorkerMovesOthers(s, me, w);
    case ClientStep(me, w) => ClientMovesOthers(s, me, w);
    case _ =>
  }

  lemma BossKeeps(s: State, a: Action)
    requires Enabled(s, a) && ShapeInv(s) && !a.BossStep?
    ensures Apply(s, a).boss == s.boss
  {
    match a
    case WorkerStep(me, w) => WorkerMovesOthers(s, me, w);
    case ClientStep(me, w) => ClientMovesOthers(s, me, w);
    case _ =>
  }

  /** A thread takes a lock only when it is free and gives up only its own. */
  ghost predicate LockMove(before: Lock, after: Lock, me: Owner) {
    || after == before
    || (before == Free && after == Held(me))
    || (before == Held(me) && after == Free)
  }

  lemma WorkerMutex(s: State, i: nat, w: nat)
    requires WorkerEnabled(s, i, w) && ShapeInv(s)
    requires HoldsMutex(s, Worker(i)) <==> s.mutex == Held(Worker(i))
    ensures HoldsMutex(WorkerApply(s, i, w), Worker(i)) <==> WorkerApply(s, i, w).mutex == Held(Worker(i))
    ensures LockMove(s.mutex, WorkerApply(s, i, w).mutex, Worker(i))
  {
    WorkerMutexMove(s, i, w);
  }

  lemma WorkerMutexMove(s: State, i: nat, w: nat)
    requires WorkerEnabled(s, i, w) && ShapeInv(s)
    requires HoldsMutex(s, Worker(i)) <==> s.mutex == Held(Worker(i))
    ensures LockMove(s.mutex, WorkerApply(s, i, w).mutex, Worker(i))
  {
  }

  lemma ClientMutex(s: State, j: nat, w: nat)
    requires ClientEnabled(s, j, w) && ShapeInv(s)
    requires HoldsMutex(s, Client(j)) <==> s.mutex == Held(Client(j))
    ensures HoldsMutex(ClientApply(s, j, w), Client(j)) <==> ClientApply(s, j, w).mutex == Held(Client(j))
    ensures LockMove(s.mutex, ClientApply(s, j, w).mutex, Client(j))
  {
  }

  lemma WorkerStealers(s: State, i: nat, w: nat)
    requires WorkerEnabled(s, i, w) && ShapeInv(s)
    requires HoldsStealers(s, Worker(i)) <==> s.stealers == Held(Worker(i))
    ensures HoldsStealers(WorkerApply(s, i, w), Worker(i)) <==> WorkerApply(s, i, w).stealers == Held(Worker(i))
    ensures LockMove(s.stealers, WorkerApply(s, i, w).stealers, Worker(i))
  {
  }

  lemma ClientStealers(s: State, j: nat, w: nat)
    requires ClientEnabled(s, j, w) && ShapeInv(s)
    requires HoldsStealers(s, Client(j)) <==> s.stealers == Held(Client(j))
    ensures HoldsStealers(ClientApply(s, j, w), Client(j)) <==> ClientApply(s, j, w).stealers == Held(Client(j))
    ensures LockMove(s.stealers, ClientApply(s, j, w).stealers, Client(j))
  {
  }

  lemma WorkerUnparkers(s: State, i: nat, w: nat)
    requires WorkerEnabled(s, i, w) && ShapeInv(s)
    requires HoldsUnparkers(s, Worker(i)) <==> s.unparkers == Held(Worker(i))
    ensures HoldsUnparkers(WorkerApply(s, i, w), Worker(i)) <==> WorkerApply(s, i, w).unparkers == Held(Worker(i))
    ensures LockMove(s.unparkers, WorkerApply(s, i, w).unparkers, Worker(i))
  {
  }

  lemma ClientUnparkers(s: State, j: nat, w: nat)
    requires ClientEnabled(s, j, w) && ShapeInv(s)
    requires HoldsUnparkers(s, Client(j)) <==> s.unparkers == Held(Client(j))
    ensures HoldsUnparkers(ClientApply(s, j, w), Client(j)) <==> ClientApply(s, j, w).unparkers == Held(Client(j))
    ensures LockMove(s.unparkers, ClientApply(s, j, w).unparkers, Client(j))
  {
  }

  lemma ActorMutex(s: State, a: Action)
    requires Enabled(s, a) && ShapeInv(s)
    requires HoldsMutex(s, Actor(a)) <==> s.mutex == Held(Actor(a))
    ensures HoldsMutex(Apply(s, a), Actor(a)) <==> Apply(s, a).mutex == Held(Actor(a))
    ensures LockMove(s.mutex, Apply(s, a).mutex, Actor(a))
  {
    match a
    case WorkerStep(i, w) => WorkerMutex(s, i, w);
    case ClientStep(j, w) => ClientMutex(s, j, w);
    case _ =>
  }

  lemma ActorStealers(s: State, a: Action)
    requires Enabled(s, a) && ShapeInv(s)
    requires HoldsStealers(s, Actor(a)) <==> s.stealers == Held(Actor(a))
    ensures HoldsStealers(Apply(s, a), Actor(a)) <==> Apply(s, a).stealers == Held(Actor(a))
    ensures LockMove(s.stealers, Apply(s, a).stealers, Actor(a))
  {
    match a
    case WorkerStep(i, w) => WorkerStealers(s, i, w);
    case ClientStep(j, w) => ClientStealers(s, j, w);
    case _ =>
  }

  lemma ActorUnparkers(s: State, a: Action)
    requires Enabled(s, a) && ShapeInv(s)
    requires HoldsUnparkers(s, Actor(a)) <==> s.unparkers == Held(Actor(a))
    ensures HoldsUnparkers(Apply(s, a), Actor(a)) <==> Apply(s, a).unparkers == Held(Actor(a))
    ensures LockMove(s.unparkers, Apply(s, a).unparkers, Actor(a))
  {
    match a
    case WorkerStep(i, w) => WorkerUnparkers(s, i, w);
    case ClientStep(j, w) => ClientUnparkers(s, j, w);
    case _ =>
  }

  lemma StepLocks(s: State, a: Action)
    requires Enabled(s, a) && ShapeInv(s) && MutexInv(s) && StealersInv(s) && UnparkersInv(s)
    ensures MutexInv(Apply(s, a)) && StealersInv(Apply(s, a)) && UnparkersInv(Apply(s, a))
  {
    var t, me := Apply(s, a), Actor(a);
    assert HoldsMutex(s, me) <==> s.mutex == Held(me);
    assert HoldsStealers(s, me) <==> s.stealers == Held(me);
    assert HoldsUnparkers(s, me) <==> s.unparkers == Held(me);
    ActorMutex(s, a);
    ActorStealers(s, a);
    ActorUnparkers(s, a);
    forall o | o != me
      ensures HoldsMutex(t, o) == HoldsMutex(s, o)
      ensures HoldsStealers(t, o) == HoldsStealers(s, o)
      ensures HoldsUnparkers(t, o) == HoldsUnparkers(s, o)
    {
      OthersKeepHolding(s, a, o);
    }
  }

  lemma StepShape(s: State, a: Action)
    requires Enabled(s, a) && ShapeInv(s)
    ensures ShapeInv(Apply(s, a))
  {
  }

  // ----- shutdown -----

  lemma StepStop(s: State, a: Action)
    requires Enabled(s, a) && ShapeInv(s) && MutexInv(s) && StopInv(s)
    ensures StopInv(Apply(s, a))
  {
    match a
    case WorkerStep(i, w) => WorkerStepStop(s, i, w);
    case ClientStep(j, w) => ClientStepStop(s, j, w);
    case BossStep => BossStepStop(s);
    case _ =>
  }

  lemma WorkerStepStop(s: State, i: nat, w: nat)
    requires WorkerEnabled(s, i, w) && ShapeInv(s) && StopInv(s)
    ensures StopInv(WorkerApply(s, i, w))
  {
    WorkerMovesOthers(s, i, w);
    WorkerStop(s, i, w);
  }

  lemma ClientStepStop(s: State, j: nat, w: nat)
    requires ClientEnabled(s, j, w) && ShapeInv(s) && StopInv(s)
    ensures StopInv(ClientApply(s, j, w))
  {
    ClientMovesOthers(s, j, w);
    ClientStop(s, j, w);
  }

  // notify_all runs under the mutex, so nobody is between reading the flag and waiting.
  lemma BossStepStop(s: State)
    requires BossEnabled(s) && ShapeInv(s) && MutexInv(s) && StopInv(s)
    ensures StopInv(BossApply(s))
  {
    assert HoldsMutex(s, Boss) <==> s.mutex == Held(Boss);
    forall i | 0 <= i < |s.workers| && s.boss == StopHasMutex
      ensures s.workers[i] != AboutToWait
    {
      assert HoldsMutex(s, Worker(i)) <==> s.mutex == Held(Worker(i));
    }
  }

  lemma WorkerStop(s: State, i: nat, w: nat)
    requires WorkerEnabled(s, i, w) && ShapeInv(s) && StopInv(s)
    ensures WorkerApply(s, i, w).shutdown == s.shutdown
    ensures WorkerApply(s, i, w).workers[i] == Exited ==> s.shutdown
    ensures s.shutdown && InWait(WorkerApply(s, i, w).workers[i]) ==> InWait(s.workers[i])
    ensures s.workers[i] != Exited
  {
  }

  lemma ClientStop(s: State, j: nat, w: nat)
    requires ClientEnabled(s, j, w) && ShapeInv(s)
    ensures ClientApply(s, j, w).shutdown == s.shutdown && ClientApply(s, j, w).active == s.active
  {
  }

  // ----- active workers -----

  lemma WorkerActive(s: State, i: nat, w: nat)
    requires WorkerEnabled(s, i, w) && ShapeInv(s)
    ensures |WorkerApply(s, i, w).workers| == |s.workers|
    ensures WorkerApply(s, i, w).active + Inactive(WorkerApply(s, i, w).workers[i])
            == s.active + Inactive(s.workers[i])
  {
  }

  lemma WorkerStepActive(s: State, i: nat, w: nat)
    requires WorkerEnabled(s, i, w) && ShapeInv(s) && ActiveInv(s)
    ensures ActiveInv(WorkerApply(s, i, w))
  {
    WorkerMovesOthers(s, i, w);
    WorkerActive(s, i, w);
    SumOne(s.workers, WorkerApply(s, i, w).workers, Inactive, i);
  }

  lemma ClientStepActive(s: State, j: nat, w: nat)
    requires ClientEnabled(s, j, w) && ShapeInv(s) && ActiveInv(s)
    ensures ActiveInv(ClientApply(s, j, w))
  {
    ClientMovesOthers(s, j, w);
    ClientStop(s, j, w);
    SumSame(s.workers, ClientApply(s, j, w).workers, Inactive);
  }

  lemma StepActive(s: State, a: Action)
    requires Enabled(s, a) && ShapeInv(s) && ActiveInv(s)
    ensures ActiveInv(Apply(s, a))
  {
    match a
    case WorkerStep(i, w) => WorkerStepActive(s, i, w);
    case ClientStep(j, w) => ClientStepActive(s, j, w);
    case WorkerPush(i, _) => SumOne(s.workers, Apply(s, a).workers, Inactive, i);
    case Spurious(i) => SumOne(s.workers, Apply(s, a).workers, Inactive, i);
    case BossStep => SumSame(s.workers, Apply(s, a).workers, Inactive);
    case _ =>
  }

  // ----- tasks -----

  lemma WorkerFifo(s: State, i: nat, w: nat)
    requires WorkerEnabled(s, i, w) && ShapeInv(s) && FifoInv(s)
    ensures FifoInv(WorkerApply(s, i, w))
  {
  }

  lemma ClientFifo(s: State, j: nat, w: nat)
    requires ClientEnabled(s, j, w) && ShapeInv(s) && FifoInv(s)
    ensures FifoInv(ClientApply(s, j, w))
  {
  }

  lemma StepFifo(s: State, a: Action)
    requires Enabled(s, a) && ShapeInv(s) && FifoInv(s)
    ensures FifoInv(Apply(s, a))
  {
    match a
    case WorkerStep(i, w) => WorkerFifo(s, i, w);
    case ClientStep(j, w) => ClientFifo(s, j, w);
    case _ =>
  }

  /** The ways one step can touch the log, given what the stepping thread holds before
      and after: nothing is dequeued or settled; a task is dequeued into the hand; the
      task x is dequeued and discarded at once; the task in hand has run. */
  ghost predicate LogMove(before: Log, after: Log, h: Option<Task>, h': Option<Task>, x: Task) {
    || (h' == h && after == before.(pushed := after.pushed))
    || (h == None && h'.Some? && after == before.(taken := before.taken + [h'.value]))
    || (h == h' == None && after == before.(taken := before.taken + [x],
                                            discarded := before.discarded + multiset{x}))
    || (h.Some? && h' == None && after == before.(ran := before.ran + multiset{h.value}))
  }

  lemma MoveKeepsFate(before: Log, after: Log, hands: multiset<Task>, hands': multiset<Task>,
                      h: Option<Task>, h': Option<Task>, x: Task)
    requires LogMove(before, after, h, h', x)
    requires hands' + Bag(h) == hands + Bag(h')
    requires multiset(before.taken) == hands + before.ran + before.discarded
    ensures multiset(after.taken) == hands' + after.ran + after.discarded
  {
    forall y: Task ensures multiset(after.taken)[y] == (hands' + after.ran + after.discarded)[y] {
      assert (hands' + Bag(h))[y] == (hands + Bag(h'))[y];
      assert multiset(before.taken)[y] == (hands + before.ran + before.discarded)[y];
    }
  }

  /** The oldest queued task. */
  function Oldest(s: State): Task { if s.injector != [] then s.injector[0] else 0 }

  lemma WorkerLog(s: State, i: nat, w: nat)
    requires WorkerEnabled(s, i, w) && ShapeInv(s)
    ensures var t := WorkerApply(s, i, w);
            LogMove(s.log, t.log, WorkerHeld(s.workers[i]), WorkerHeld(t.workers[i]), Oldest(s))
  {
    match s.workers[i]
    case StealInjector =>
    case RecheckInjector =>
    case WokenInjector =>
    case Running(_, _) =>
    case _ => WorkerLogStill(s, i, w);
  }

  lemma WorkerLogStill(s: State, i: nat, w: nat)
    requires WorkerEnabled(s, i, w) && ShapeInv(s)
    requires !s.workers[i].StealInjector? && !s.workers[i].RecheckInjector? && !s.workers[i].WokenInjector?
    requires !s.workers[i].Running?
    ensures WorkerApply(s, i, w).log == s.log
    ensures WorkerHeld(WorkerApply(s, i, w).workers[i]) == WorkerHeld(s.workers[i])
  {
  }

  lemma ClientLog(s: State, j: nat, w: nat)
    requires ClientEnabled(s, j, w) && ShapeInv(s)
    ensures var t := ClientApply(s, j, w);
            LogMove(s.log, t.log, ClientHeld(s.clients[j]), ClientHeld(t.clients[j]), Oldest(s))
  {
  }

  lemma StepFate(s: State, a: Action)
    requires Enabled(s, a) && ShapeInv(s) && FateInv(s)
    ensures FateInv(Apply(s, a))
  {
    match a
    case WorkerStep(i, w) => WorkerStepFate(s, i, w);
    case ClientStep(j, w) => ClientStepFate(s, j, w);
    case BossStep => GatherSame(s.workers, Apply(s, a).workers, WorkerHand);
    case ClientGrab(j) => GrabFate(s, j);
    case _ => OtherStepFate(s, a);
  }

  lemma OtherStepFate(s: State, a: Action)
    requires Enabled(s, a) && ShapeInv(s) && FateInv(s)
    requires a.WorkerPush? || a.Spurious? || a.ClientPush? || a.ClientBlock?
    ensures FateInv(Apply(s, a))
  {
    OtherStepHands(s, a);
    SameHandsSame(s, Apply(s, a));
  }

  lemma OtherStepHands(s: State, a: Action)
    requires Enabled(s, a) && ShapeInv(s)
    requires a.WorkerPush? || a.Spurious? || a.ClientPush? || a.ClientBlock?
    ensures var t := Apply(s, a);
            && |s.workers| == |t.workers| && |s.clients| == |t.clients|
            && (forall i :: 0 <= i < |s.workers| ==> WorkerHeld(t.workers[i]) == WorkerHeld(s.workers[i]))
            && (forall j :: 0 <= j < |s.clients| ==> ClientHeld(t.clients[j]) == ClientHeld(s.clients[j]))
            && t.log.taken == s.log.taken && t.log.ran == s.log.ran && t.log.discarded == s.log.discarded
  {
  }

  lemma SameHandsSame(s: State, t: State)
    requires |s.workers| == |t.workers| && |s.clients| == |t.clients|
    requires forall i :: 0 <= i < |s.workers| ==> WorkerHeld(t.workers[i]) == WorkerHeld(s.workers[i])
    requires forall j :: 0 <= j < |s.clients| ==> ClientHeld(t.clients[j]) == ClientHeld(s.clients[j])
    ensures InHand(s) == InHand(t)
  {
    GatherSame(s.workers, t.workers, WorkerHand);
    GatherSame(s.clients, t.clients, ClientHand);
  }

  lemma WorkerStepFate(s: State, i: nat, w: nat)
    requires WorkerEnabled(s, i, w) && ShapeInv(s) && FateInv(s)
    ensures FateInv(WorkerApply(s, i, w))
  {
    var t := WorkerApply(s, i, w);
    WorkerMovesOthers(s, i, w);
    WorkerLog(s, i, w);
    GatherOne(s.workers, t.workers, WorkerHand, i);
    HandsMove(Gather(s.workers, WorkerHand), Gather(t.workers, WorkerHand), Gather(s.clients, ClientHand),
              Bag(WorkerHeld(s.workers[i])), Bag(WorkerHeld(t.workers[i])));
    MoveKeepsFate(s.log, t.log, InHand(s), InHand(t), WorkerHeld(s.workers[i]), WorkerHeld(t.workers[i]), Oldest(s));
  }

  lemma ClientFate(s: State, t: State, j: nat)
    requires j < |s.clients| == |t.clients| && FateInv(s)
    requires Gather(t.workers, WorkerHand) == Gather(s.workers, WorkerHand)
    requires forall k :: 0 <= k < |s.clients| && k != j ==> t.clients[k] == s.clients[k]
    requires LogMove(s.log, t.log, ClientHeld(s.clients[j]), ClientHeld(t.clients[j]), Oldest(s))
    ensures FateInv(t)
  {
    ClientHandsMove(s, t, j);
    MoveKeepsFate(s.log, t.log, InHand(s), InHand(t), ClientHeld(s.clients[j]), ClientHeld(t.clients[j]), Oldest(s));
  }

  lemma ClientStepFate(s: State, j: nat, w: nat)
    requires ClientEnabled(s, j, w) && ShapeInv(s) && FateInv(s)
    ensures FateInv(ClientApply(s, j, w))
  {
    var t := ClientApply(s, j, w);
    ClientMovesOthers(s, j, w);
    ClientLog(s, j, w);
    GatherSame(s.workers, t.workers, WorkerHand);
    ClientFate(s, t, j);
  }

  lemma GrabFate(s: State, j: nat)
    requires Enabled(s, ClientGrab(j)) && ShapeInv(s) && FateInv(s)
    ensures FateInv(Apply(s, ClientGrab(j)))
  {
    ClientFate(s, Apply(s, ClientGrab(j)), j);
  }

  lemma ClientHandsMove(s: State, t: State, j: nat)
    requires j < |s.clients| == |t.clients|
    requires Gather(t.workers, WorkerHand) == Gather(s.workers, WorkerHand)
    requires forall k :: 0 <= k < |s.clients| && k != j ==> t.clients[k] == s.clients[k]
    ensures InHand(t) + Bag(ClientHeld(s.clients[j])) == InHand(s) + Bag(ClientHeld(t.clients[j]))
  {
    GatherOne(s.clients, t.clients, ClientHand, j);
    HandsMove(Gather(s.clients, ClientHand), Gather(t.clients, ClientHand), Gather(s.workers, WorkerHand),
              Bag(ClientHeld(s.clients[j])), Bag(ClientHeld(t.clients[j])));
    assert InHand(s) == Gather(s.clients, ClientHand) + Gather(s.workers, WorkerHand);
    assert InHand(t) == Gather(t.clients, ClientHand) + Gather(s.workers, WorkerHand);
  }

  lemma HandsMove(a: multiset<Task>, b: multiset<Task>, rest: multiset<Task>, h: multiset<Task>, h': multiset<Task>)
    requires b + h == a + h'
    ensures (b + rest) + h == (a + rest) + h'
  {
    assert (b + rest) + h == (b + h) + rest;
    assert (a + rest) + h' == (a + h') + rest;
  }

  // ----- wake-ups in flight -----

  lemma WakeOneSums(workers: seq<WorkerPc>, w: nat)
    requires w < |workers| && workers[w] == Waiting
    ensures Sum(WakeOne(workers, w), Awake) == Sum(workers, Awake) + 1
    ensures Sum(WakeOne(workers, w), WorkerPending) == Sum(workers, WorkerPending)
  {
    SumUpdate(workers, Awake, w, Woken);
    SumUpdate(workers, WorkerPending, w, Woken);
  }

  /** With the mutex in the notifier's hands and nobody waiting, nobody is asleep. */
  lemma NobodyBetween(s: State, me: Owner)
    requires MutexInv(s) && s.mutex == Held(me) && !(me.Worker? && me.i < |s.workers| && s.workers[me.i].InnerCheck?)
    requires !(me.Worker? && me.i < |s.workers| && s.workers[me.i].AboutToWait?)
    requires Waiting !in s.workers
    ensures !SomeAsleep(s)
  {
    forall i | 0 <= i < |s.workers| ensures !Asleep(s.workers[i]) {
      assert HoldsMutex(s, Worker(i)) <==> s.mutex == Held(Worker(i));
    }
  }

  /** A quiet step: no notify_one, and at most one push. */
  lemma WorkerQuiet(s: State, i: nat, w: nat)
    requires WorkerEnabled(s, i, w) && ShapeInv(s)
    requires CallOf(s.workers[i]) != HasMutex
    ensures var t := WorkerApply(s, i, w);
            && t.workers == s.workers[i := t.workers[i]]
            && t.clients == s.clients
            && |t.injector| <= |s.injector|
            && WorkerPending(t.workers[i]) == WorkerPending(s.workers[i])
            && (Asleep(t.workers[i]) && !Asleep(s.workers[i]) ==> s.injector == t.injector == [])
            && (t.workers[i] == Exited ==> s.shutdown)
            && s.workers[i] != Exited
  {
    WorkerQuietFrame(s, i, w);
  }

  lemma WorkerQuietFrame(s: State, i: nat, w: nat)
    requires WorkerEnabled(s, i, w) && ShapeInv(s)
    requires CallOf(s.workers[i]) != HasMutex
    ensures var t := WorkerApply(s, i, w);
            && |t.workers| == |s.workers| && t.workers == s.workers[i := t.workers[i]]
            && t.clients == s.clients
            && |t.injector| <= |s.injector|
  {
  }

  lemma WorkerQuietWake(s: State, i: nat, w: nat)
    requires WorkerEnabled(s, i, w) && ShapeInv(s) && WakeInv(s)
    requires CallOf(s.workers[i]) != HasMutex
    requires WorkerApply(s, i, w).shutdown == s.shutdown
    ensures WakeInv(WorkerApply(s, i, w))
  {
    var t := WorkerApply(s, i, w);
    WorkerQuiet(s, i, w);
    SumUpdate(s.workers, Awake, i, t.workers[i]);
    SumUpdate(s.workers, WorkerPending, i, t.workers[i]);
    if !t.shutdown && SomeAsleep(t) && t.injector != [] {
      var k :| 0 <= k < |t.workers| && Asleep(t.workers[k]);
      assert Asleep(s.workers[k]);
    }
  }

  /** After a notify_one by `me`, whose own entry moves from pending to not pending. */
  lemma NotifyWake(s: State, t: State, me: Owner, w: nat)
    requires MutexInv(s) && WakeInv(s) && MayWake(s.workers, w)
    requires s.mutex == Held(me)
    requires me.Worker? && me.i < |s.workers| ==> s.workers[me.i].Running?
    requires t.shutdown == s.shutdown && t.injector == s.injector
    requires |t.workers| == |s.workers|
    requires forall i :: 0 <= i < |s.workers| ==> Asleep(t.workers[i]) == Asleep(WakeOne(s.workers, w)[i])
    requires Sum(t.workers, Awake) == Sum(WakeOne(s.workers, w), Awake)
    requires Pending(t) + 1 == Sum(WakeOne(s.workers, w), WorkerPending) + Sum(s.clients, ClientPending)
    ensures WakeInv(t)
  {
    if Waiting in s.workers {
      WakeOneSums(s.workers, w);
    } else {
      NobodyBetween(s, me);
    }
  }

  lemma WorkerNotifyWake(s: State, i: nat, w: nat)
    requires WorkerEnabled(s, i, w) && ShapeInv(s) && MutexInv(s) && WakeInv(s)
    requires CallOf(s.workers[i]) == HasMutex
    ensures WakeInv(WorkerApply(s, i, w))
  {
    var t := WorkerApply(s, i, w);
    assert HoldsMutex(s, Worker(i)) <==> s.mutex == Held(Worker(i));
    var woken := WakeOne(s.workers, w);
    SumUpdate(woken, Awake, i, t.workers[i]);
    SumUpdate(woken, WorkerPending, i, t.workers[i]);
    NotifyWake(s, t, Worker(i), w);
  }

  lemma ClientQuiet(s: State, j: nat, w: nat)
    requires ClientEnabled(s, j, w) && ShapeInv(s)
    requires ClientCall(s.clients[j]) != HasMutex
    ensures var t := ClientApply(s, j, w);
            && t.workers == s.workers
            && t.clients == s.clients[j := t.clients[j]]
            && |t.injector| <= |s.injector|
            && ClientPending(t.clients[j]) == ClientPending(s.clients[j])
            && t.shutdown == s.shutdown
  {
  }

  lemma ClientStepWake(s: State, j: nat, w: nat)
    requires ClientEnabled(s, j, w) && ShapeInv(s) && MutexInv(s) && WakeInv(s)
    ensures WakeInv(ClientApply(s, j, w))
  {
    var t := ClientApply(s, j, w);
    ClientMovesOthers(s, j, w);
    if ClientCall(s.clients[j]) == HasMutex {
      assert HoldsMutex(s, Client(j)) <==> s.mutex == Held(Client(j));
      SumUpdate(s.clients, ClientPending, j, t.clients[j]);
      NotifyWake(s, t, Client(j), w);
    } else {
      ClientQuiet(s, j, w);
      SumUpdate(s.clients, ClientPending, j, t.clients[j]);
    }
  }

  lemma StepWake(s: State, a: Action)
    requires Enabled(s, a) && ShapeInv(s) && MutexInv(s) && StopInv(s) && WakeInv(s)
    ensures WakeInv(Apply(s, a))
  {
    var t := Apply(s, a);
    match a
    case WorkerStep(i, w) =>
      if CallOf(s.workers[i]) == HasMutex {
        WorkerNotifyWake(s, i, w);
      } else {
        WorkerShutdown(s, i, w);
        WorkerQuietWake(s, i, w);
      }
    case ClientStep(j, w) => ClientStepWake(s, j, w);
    case BossStep => BossWake(s);
    case _ => OtherStepWake(s, a);
  }

  lemma WorkerShutdown(s: State, i: nat, w: nat)
    requires WorkerEnabled(s, i, w)
    ensures WorkerApply(s, i, w).shutdown == s.shutdown
  {
  }

  lemma BossWake(s: State)
    requires BossEnabled(s) && WakeInv(s) && StopInv(s)
    ensures WakeInv(BossApply(s))
  {
  }

  lemma OtherStepWake(s: State, a: Action)
    requires Enabled(s, a) && ShapeInv(s) && WakeInv(s)
    requires a.WorkerPush? || a.Spurious? || a.ClientPush? || a.ClientBlock? || a.ClientGrab?
    ensures WakeInv(Apply(s, a))
  {
    if a.WorkerPush? || a.Spurious? {
      WorkerOtherWake(s, a);
    } else {
      var t := Apply(s, a);
      SumUpdate(s.clients, ClientPending, a.j, t.clients[a.j]);
      assert t.workers == s.workers;
    }
  }

  lemma WorkerOtherWake(s: State, a: Action)
    requires Enabled(s, a) && ShapeInv(s) && WakeInv(s)
    requires a.WorkerPush? || a.Spurious?
    ensures WakeInv(Apply(s, a))
  {
    var t := Apply(s, a);
    SumUpdate(s.workers, Awake, a.i, t.workers[a.i]);
    SumUpdate(s.workers, WorkerPending, a.i, t.workers[a.i]);
    if SomeAsleep(t) {
      var k :| 0 <= k < |t.workers| && Asleep(t.workers[k]);
      assert Asleep(s.workers[k]);
    }
  }

  // ----- the whole invariant, over whole runs -----

  lemma StepKeeps(s: State, a: Action)
    requires Inv(s) && Enabled(s, a)
    ensures Inv(Apply(s, a))
  {
    StepShape(s, a);
    StepLocks(s, a);
    StepStop(s, a);
    StepActive(s, a);
    StepFifo(s, a);
    StepFate(s, a);
    StepWake(s, a);
  }

  lemma RunKeeps(s: State, acts: seq<Action>)
    requires Inv(s) && Runnable(Try, s, acts)
    ensures Inv(Exec(Try, s, acts))
  {
    forall x, a | Inv(x) && Try(x, a).Some? ensures Inv(Try(x, a).value) {
      StepKeeps(x, a);
    }
    HoldsAlong(Try, Inv, s, acts);
  }

  lemma ReachableInv(s: State)
    requires Reachable(s)
    ensures Inv(s)
  {
    forall x | Init(x) ensures Inv(x) {
      InitKeeps(x);
    }
    forall x, a | Inv(x) && Try(x, a).Some? ensures Inv(Try(x, a).value) {
      StepKeeps(x, a);
    }
    HoldsWhenReachable(Init, Try, Inv, s);
  }
}
