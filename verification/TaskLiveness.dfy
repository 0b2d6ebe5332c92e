/** What can still happen to a task: when its future can be polled again, when it can
    complete, and when a sleeping joiner can be woken. */
module TaskLiveness {
  import opened Options
  import opened Runs
  import opened TaskWord
  import opened TaskModel
  import opened TaskInvariant
  import opened TaskTheorems

  // ----- restricted runs -----

  /** No abort begins and the joiner sleeps. */
  function TryAsleep(s: State, a: Action): Option<State> {
    if Enabled(s, a) && !a.JoinStep? && !a.JoinDrop? && (a.AbortStep? ==> s.aborters[a.k] != NotAborting)
    then Some(Apply(s, a)) else None
  }

  /** Neither does any poll begin. */
  function TryFinish(s: State, a: Action): Option<State> {
    if a.PollStep? && a.p < |s.pollers| && s.pollers[a.p] == Away then None else TryAsleep(s, a)
  }

  // ----- polling again -----

  ghost predicate SomePoller(s: State, at: PollPc -> bool) {
    exists p :: 0 <= p < |s.pollers| && at(s.pollers[p])
  }

  ghost predicate SomeWon(s: State) { exists i :: 0 <= i < |s.wakers| && s.wakers[i] == Won }

  predicate AtBegun(pc: PollPc) { pc == Begun }

  /** Somebody is in a wake, or can begin one. */
  ghost predicate CanWake(s: State) {
    HasWaker(s) || exists i :: 0 <= i < |s.wakers| && s.wakers[i] != Out
  }

  /** The task is queued, or a winner is about to queue it, or a poll is about to enter the
      future, or the task is idle, not aborted, and somebody can wake it. */
  ghost predicate Alive(s: State) {
    || s.queued > 0 || SomeWon(s) || SomePoller(s, AtBegun)
    || (s.word.phase == Idle && !s.word.aborted && CanWake(s))
  }

  lemma DeadStaysDead(s: State, a: Action)
    requires Inv(s) && !Alive(s) && Enabled(s, a)
    ensures !Alive(Apply(s, a)) && Apply(s, a).log.entered == s.log.entered
  {
    match a
    case WakeStep(i, spurious) => DeadWaker(s, i, spurious);
    case Consume(i) => DeadConsume(s, i);
    case PollStep(p, ready) => DeadPoller(s, p, ready);
    case _ => DeadOther(s, a);
  }

  lemma DeadWaker(s: State, i: nat, spurious: bool)
    requires Inv(s) && !Alive(s) && WakeEnabled(s, i)
    ensures !Alive(WakeApply(s, i, spurious)) && WakeApply(s, i, spurious).log.entered == s.log.entered
  {
    var t := WakeApply(s, i, spurious);
    WakeForward(s, i, spurious);
    WakeKeepsOutput(s, i, spurious);
    assert s.wakers[i] != Won;
    assert t.wakers[i] != Won;
    forall k | 0 <= k < |t.wakers| ensures t.wakers[k] != Won {
      assert s.wakers[k] != Won;
    }
  }

  lemma DeadConsume(s: State, i: nat)
    requires !Alive(s) && Enabled(s, Consume(i))
    ensures !Alive(Apply(s, Consume(i)))
  {
    var t := Apply(s, Consume(i));
    forall k | 0 <= k < |t.wakers| ensures t.wakers[k] != Won {
      assert s.wakers[k] != Won;
    }
    assert !SomePoller(t, AtBegun);
  }

  lemma DeadPoller(s: State, p: nat, ready: Option<Output>)
    requires !Alive(s) && PollEnabled(s, p)
    ensures !Alive(PollApply(s, p, ready)) && PollApply(s, p, ready).log.entered == s.log.entered
  {
    var t := PollApply(s, p, ready);
    PollForward(s, p, ready);
    PollKeepsWakers(s, p, ready);
    assert !AtBegun(s.pollers[p]);
    PollTouches(s, p, ready);
    assert !SomeWon(t);
    forall q | 0 <= q < |t.pollers| ensures !AtBegun(t.pollers[q]) {
      assert !AtBegun(s.pollers[q]);
    }
    if CanWake(t) {
      SameCanWake(s, t, p);
    }
  }

  lemma SameCanWake(s: State, t: State, p: nat)
    requires p < |s.pollers| == |t.pollers| && t.pollers == s.pollers[p := t.pollers[p]] && t.pollers[p] != Polling
    requires t.live == s.live && t.wakers == s.wakers && CanWake(t)
    ensures CanWake(s)
  {
    if Polling in t.pollers {
      var q :| 0 <= q < |t.pollers| && t.pollers[q] == Polling;
      assert s.pollers[q] == Polling;
    }
  }

  lemma DeadOther(s: State, a: Action)
    requires !Alive(s) && Enabled(s, a) && !a.WakeStep? && !a.Consume? && !a.PollStep?
    ensures !Alive(Apply(s, a)) && Apply(s, a).log.entered == s.log.entered
  {
    OthersTouch(s, a);
    var t := Apply(s, a);
    assert !SomeWon(t) && !SomePoller(t, AtBegun);
  }

  lemma OthersTouch(s: State, a: Action)
    requires Enabled(s, a) && !a.WakeStep? && !a.Consume? && !a.PollStep?
    ensures var t := Apply(s, a);
            && t.queued <= s.queued && t.wakers == s.wakers && t.pollers == s.pollers
            && (t.live > s.live ==> HasWaker(s))
            && t.word.phase == s.word.phase && (s.word.aborted ==> t.word.aborted)
            && t.log.entered == s.log.entered
  {
    if a.JoinStep? { JoinKeepsWord(s); }
  }

  lemma PollTouches(s: State, p: nat, ready: Option<Output>)
    requires PollEnabled(s, p) && s.pollers[p] != Begun
    ensures var t := PollApply(s, p, ready);
            && t.pollers == s.pollers[p := t.pollers[p]] && (t.pollers[p] == Begun ==> s.queued > 0)
            && t.queued <= s.queued && t.live == s.live && t.log.entered == s.log.entered
            && (s.word.aborted ==> t.word.aborted) && t.pollers[p] != Polling
  {
  }

  // ----- it can be polled while it is alive -----

  /** How far poller p is from being free, finishing what it does without completing. */
  function ToAway(pc: PollPc): nat {
    match pc
    case Away => 0
    case DropOwn => 1
    case SubRef => 2
    case TakeWaker => 3
    case Mark => 4
    case Write(_) => 5
    case Polling => 6
    case Begun => 7
  }

  lemma StepAsleep(s: State, a: Action, t: State)
    requires Enabled(s, a) && (a.WakeStep? || a.Consume? || a.PollStep?) && Leads(TryAsleep, Apply(s, a), t)
    ensures Leads(TryAsleep, s, t)
  {
    LeadsFirst(TryAsleep, s, a, t);
  }

  lemma {:induction false} FreePoller(s: State, p: nat) returns (t: State)
    requires p < |s.pollers| && s.pollers[p] != Begun
    ensures Leads(TryAsleep, s, t) && p < |t.pollers| && t.pollers[p] == Away
    ensures t.queued == s.queued && t.log.entered == s.log.entered
    decreases ToAway(s.pollers[p])
  {
    if s.pollers[p] == Away {
      t := s;
      LeadsNowhere(TryAsleep, s);
    } else {
      PollNearer(s, p);
      t := FreePoller(PollApply(s, p, None), p);
      StepAsleep(s, PollStep(p, None), t);
    }
  }

  lemma PollNearer(s: State, p: nat)
    requires p < |s.pollers| && s.pollers[p] != Begun && s.pollers[p] != Away
    ensures var t := PollApply(s, p, None);
            && |t.pollers| == |s.pollers| && ToAway(t.pollers[p]) < ToAway(s.pollers[p]) && t.pollers[p] != Begun
            && t.queued == s.queued && t.log.entered == s.log.entered
  {
  }

  lemma EnterBegun(s: State, p: nat) returns (t: State)
    requires p < |s.pollers| && s.pollers[p] == Begun
    ensures Leads(TryAsleep, s, t) && t.log.entered == s.log.entered + 1
    ensures p < |t.pollers| && t.pollers[p] == Polling
  {
    t := PollApply(s, p, None);
    LeadsNowhere(TryAsleep, t);
    StepAsleep(s, PollStep(p, None), t);
  }

  lemma EnterQueued(s: State) returns (t: State, p: nat)
    requires s.queued > 0 && |s.pollers| > 0
    ensures Leads(TryAsleep, s, t) && t.log.entered > s.log.entered
    ensures p < |t.pollers| && t.pollers[p] == Polling
  {
    p := 0;
    if s.pollers[p] == Begun {
      t := EnterBegun(s, p);
    } else {
      var u := FreePoller(s, p);
      t := EnterBegun(PollApply(u, p, None), p);
      StepAsleep(u, PollStep(p, None), t);
      LeadsOn(TryAsleep, s, u, t);
    }
  }

  lemma EnterWon(s: State, i: nat) returns (t: State, p: nat)
    requires i < |s.wakers| && s.wakers[i] == Won && |s.pollers| > 0
    ensures Leads(TryAsleep, s, t) && t.log.entered > s.log.entered
    ensures p < |t.pollers| && t.pollers[p] == Polling
  {
    t, p := EnterQueued(WakeApply(s, i, false));
    StepAsleep(s, WakeStep(i, false), t);
  }

  function ToWon(pc: WakerPc, word: Rec): nat {
    match pc
    case Won => 0
    case Loaded(cur) => if cur == word then 1 else 3
    case Again => 2
    case Out => 3
  }

  /** A wake that runs alone on an idle task queues it. */
  lemma {:induction false} EnterIdle(s: State, i: nat) returns (t: State, p: nat)
    requires WakeEnabled(s, i) && |s.pollers| > 0
    requires s.word.phase == Idle && !s.word.aborted
    ensures Leads(TryAsleep, s, t) && t.log.entered > s.log.entered
    ensures p < |t.pollers| && t.pollers[p] == Polling
    decreases ToWon(s.wakers[i], s.word)
  {
    if s.wakers[i] == Won {
      t, p := EnterWon(s, i);
    } else {
      var u := WakeApply(s, i, false);
      WakeNearer(s, i);
      if u.wakers[i] == Won {
        t, p := EnterWon(u, i);
      } else {
        t, p := EnterIdle(u, i);
      }
      StepAsleep(s, WakeStep(i, false), t);
    }
  }

  lemma WakeNearer(s: State, i: nat)
    requires WakeEnabled(s, i) && s.wakers[i] != Won && s.word.phase == Idle && !s.word.aborted
    ensures var u := WakeApply(s, i, false);
            && |u.wakers| == |s.wakers| && u.pollers == s.pollers && u.log.entered == s.log.entered
            && (u.wakers[i] == Won
                || (u.wakers[i] != Out && u.word == s.word && ToWon(u.wakers[i], u.word) < ToWon(s.wakers[i], s.word)))
  {
  }

  lemma EnterAgain(s: State) returns (t: State, p: nat)
    requires Alive(s) && |s.pollers| > 0 && |s.wakers| > 0
    ensures Leads(TryAsleep, s, t) && t.log.entered > s.log.entered
    ensures p < |t.pollers| && t.pollers[p] == Polling
  {
    if s.queued > 0 {
      t, p := EnterQueued(s);
    } else if SomeWon(s) {
      var i :| 0 <= i < |s.wakers| && s.wakers[i] == Won;
      t, p := EnterWon(s, i);
    } else if SomePoller(s, AtBegun) {
      p :| 0 <= p < |s.pollers| && AtBegun(s.pollers[p]);
      t := EnterBegun(s, p);
    } else if s.wakers[0] == Out && !HasWaker(s) {
      var i :| 0 <= i < |s.wakers| && s.wakers[i] != Out;
      t, p := EnterIdle(s, i);
    } else {
      t, p := EnterIdle(s, 0);
    }
  }

  lemma AsleepIsRun(s: State, t: State)
    requires Leads(TryAsleep, s, t)
    ensures Leads(Try, s, t)
  {
    LeadsToo(TryAsleep, Try, s, t);
  }

  ghost predicate CanBeEntered(s: State) {
    exists t :: Leads(Try, s, t) && t.log.entered > s.log.entered
  }

  /** The future can be polled again if and only if the task is alive. */
  lemma EnteredAgainIff(s: State)
    requires Reachable(s) && |s.pollers| > 0 && |s.wakers| > 0
    ensures CanBeEntered(s) <==> Alive(s)
  {
    ReachableInv(s);
    if Alive(s) {
      var t, p := EnterAgain(s);
      AsleepIsRun(s, t);
    } else {
      forall t | Leads(Try, s, t) ensures t.log.entered == s.log.entered {
        DeadForever(s, t);
      }
    }
  }

  lemma DeadForever(s: State, t: State)
    requires Inv(s) && !Alive(s) && Leads(Try, s, t)
    ensures !Alive(t) && t.log.entered == s.log.entered
  {
    var dead := (x: State) => Inv(x) && !Alive(x) && x.log.entered == s.log.entered;
    forall x, a | dead(x) && Try(x, a).Some? ensures dead(Try(x, a).value) {
      StepKeeps(x, a);
      DeadStaysDead(x, a);
    }
    HoldsWhereLed(Try, dead, s, t);
  }

  /** After the abort flag, or completion, future.poll is entered again exactly if the task
      is still queued, or a wake won before that and has yet to queue it, or a poll had
      taken it off a queue and not entered it. */
  lemma AbortStopsIff(s: State)
    requires Reachable(s) && |s.pollers| > 0 && |s.wakers| > 0 && Done(s.word)
    ensures CanBeEntered(s) <==> s.queued > 0 || SomeWon(s) || SomePoller(s, AtBegun)
  {
    EnteredAgainIff(s);
  }

  /** A future that has used up both its queue entries is never polled again. */
  lemma NeverAThirdPoll(s: State, t: State)
    requires Reachable(s) && Leads(Try, s, t)
    requires s.log.entered + s.log.lost == 2
    ensures t.log.entered == s.log.entered
  {
    var s0 :| Init(s0) && Leads(Try, s0, s);
    LeadsOn(Try, s0, s, t);
    PolledAtMostTwice(s);
    PolledAtMostTwice(t);
    var grown := (x: State) => x.log.entered >= s.log.entered && x.log.lost >= s.log.lost;
    forall x, a | grown(x) && Try(x, a).Some? ensures grown(Try(x, a).value) {
      CountsGrow(x, a);
    }
    HoldsWhereLed(Try, grown, s, t);
  }

  lemma CountsGrow(s: State, a: Action)
    requires Enabled(s, a)
    ensures Apply(s, a).log.entered >= s.log.entered && Apply(s, a).log.lost >= s.log.lost
  {
    match a
    case WakeStep(i, spurious) => WakeCounts(s, i, spurious);
    case PollStep(p, ready) => PollCounts(s, p, ready);
    case JoinStep => JoinKeepsWord(s);
    case _ =>
  }

  lemma WakeCounts(s: State, i: nat, spurious: bool)
    requires i < |s.wakers|
    ensures var t := WakeApply(s, i, spurious); t.log.entered == s.log.entered && t.log.lost == s.log.lost
  {
  }

  lemma PollCounts(s: State, p: nat, ready: Option<Output>)
    requires PollEnabled(s, p)
    ensures var t := PollApply(s, p, ready); t.log.entered >= s.log.entered && t.log.lost == s.log.lost
  {
  }

  // ----- completing -----

  predicate AtWork(pc: PollPc) { pc == Polling || pc.Write? || pc == Mark }

  ghost predicate CanComplete(s: State) {
    exists t :: Leads(Try, s, t) && t.word.phase == Complete
  }

  function ToMarked(pc: PollPc): nat {
    match pc
    case Polling => 3
    case Write(_) => 2
    case Mark => 1
    case _ => 0
  }

  lemma {:induction false} CompleteBy(s: State, p: nat) returns (t: State)
    requires p < |s.pollers| && AtWork(s.pollers[p])
    ensures Leads(Try, s, t) && t.word.phase == Complete
    decreases ToMarked(s.pollers[p])
  {
    var a := PollStep(p, Some(0));
    var u := PollApply(s, p, Some(0));
    if s.pollers[p] == Mark {
      t := u;
      LeadsNowhere(Try, t);
    } else {
      t := CompleteBy(u, p);
    }
    LeadsFirst(Try, s, a, t);
  }

  /** A task that is not complete can still complete if and only if its future is being
      polled or can be polled again. */
  lemma CompletesIff(s: State)
    requires Reachable(s) && |s.pollers| > 0 && |s.wakers| > 0 && s.word.phase != Complete
    ensures CanComplete(s) <==> Alive(s) || SomePoller(s, AtWork)
  {
    ReachableInv(s);
    if SomePoller(s, AtWork) {
      var p :| 0 <= p < |s.pollers| && AtWork(s.pollers[p]);
      var t := CompleteBy(s, p);
    } else if Alive(s) {
      var u, p := EnterAgain(s);
      var t := CompleteBy(u, p);
      AsleepIsRun(s, u);
      LeadsOn(Try, s, u, t);
    } else {
      forall t | Leads(Try, s, t) ensures t.word.phase != Complete {
        NeverCompletes(s, t);
      }
    }
  }

  lemma NeverCompletes(s: State, t: State)
    requires Inv(s) && !Alive(s) && !SomePoller(s, AtWork) && s.word.phase != Complete && Leads(Try, s, t)
    ensures t.word.phase != Complete
  {
    var idle := (x: State) => Inv(x) && !Alive(x) && !SomePoller(x, AtWork) && x.word.phase != Complete;
    forall x, a | idle(x) && Try(x, a).Some? ensures idle(Try(x, a).value) {
      StepKeeps(x, a);
      DeadStaysDead(x, a);
      NobodyStartsWork(x, a);
    }
    HoldsWhereLed(Try, idle, s, t);
  }

  lemma NobodyStartsWork(s: State, a: Action)
    requires Inv(s) && !Alive(s) && !SomePoller(s, AtWork) && s.word.phase != Complete && Enabled(s, a)
    ensures !SomePoller(Apply(s, a), AtWork) && Apply(s, a).word.phase != Complete
  {
    var t := Apply(s, a);
    if a.PollStep? {
      NoWorkByPoll(s, a.p, a.ready);
    } else {
      if a.WakeStep? {
        WakeKeepsOutput(s, a.i, a.spurious);
      } else if !a.Consume? {
        OthersTouch(s, a);
      }
      SamePollers(s, t);
    }
  }

  lemma SamePollers(s: State, t: State)
    requires !SomePoller(s, AtWork) && t.pollers == s.pollers
    ensures !SomePoller(t, AtWork)
  {
    forall q | 0 <= q < |t.pollers| ensures !AtWork(t.pollers[q]) {
      assert !AtWork(s.pollers[q]);
    }
  }

  lemma NoWorkByPoll(s: State, p: nat, ready: Option<Output>)
    requires !Alive(s) && !SomePoller(s, AtWork) && s.word.phase != Complete && PollEnabled(s, p)
    ensures !SomePoller(PollApply(s, p, ready), AtWork) && PollApply(s, p, ready).word.phase != Complete
  {
    var t := PollApply(s, p, ready);
    assert !AtWork(s.pollers[p]) && !AtBegun(s.pollers[p]);
    forall q | 0 <= q < |t.pollers| ensures !AtWork(t.pollers[q]) {
      assert !AtWork(s.pollers[q]);
    }
  }

  // ----- waking the joiner -----

  predicate WillTake(pc: PollPc) {
    pc == Begun || pc == Polling || pc.Write? || pc == Mark || pc == TakeWaker
  }

  /** A poll that may complete the task and look for the waker, or an abort that will. */
  ghost predicate WakeUnderWay(s: State) { SomePoller(s, WillTake) || SomeoneAborting(s) }

  ghost predicate CanBeWoken(step: (State, Action) -> Option<State>, s: State) {
    exists t :: Leads(step, s, t) && t.log.woken
  }

  function ToTaken(pc: PollPc): nat {
    match pc
    case Begun => 5
    case Polling => 4
    case Write(_) => 3
    case Mark => 2
    case TakeWaker => 1
    case _ => 0
  }

  lemma {:induction false} WokenByPoller(s: State, p: nat) returns (t: State)
    requires Inv(s) && s.result == Pending && p < |s.pollers| && WillTake(s.pollers[p])
    ensures Leads(TryFinish, s, t) && t.log.woken
    decreases ToTaken(s.pollers[p])
  {
    var a := PollStep(p, Some(0));
    var u := PollApply(s, p, Some(0));
    if s.pollers[p] == TakeWaker {
      t := u;
      LeadsNowhere(TryFinish, t);
    } else {
      StepKeeps(s, a);
      PollForward(s, p, Some(0));
      t := WokenByPoller(u, p);
    }
    LeadsFirst(TryFinish, s, a, t);
  }

  lemma {:induction false} WokenByAborter(s: State, k: nat) returns (t: State)
    requires Inv(s) && s.result == Pending && k < |s.aborters| && MidAbort(s.aborters[k])
    ensures Leads(TryFinish, s, t) && t.log.woken
    decreases s.aborters[k] == Check
  {
    var a := AbortStep(k);
    var u := AbortApply(s, k);
    if s.aborters[k] == AbortTake {
      t := u;
      LeadsNowhere(TryFinish, t);
    } else {
      StepKeeps(s, a);
      AbortForward(s, k);
      t := WokenByAborter(u, k);
    }
    LeadsFirst(TryFinish, s, a, t);
  }

  lemma WokenUnderWay(s: State) returns (t: State)
    requires Inv(s) && s.result == Pending && WakeUnderWay(s)
    ensures Leads(TryFinish, s, t) && t.log.woken
  {
    if SomePoller(s, WillTake) {
      var p :| 0 <= p < |s.pollers| && WillTake(s.pollers[p]);
      t := WokenByPoller(s, p);
    } else {
      var k :| 0 <= k < |s.aborters| && MidAbort(s.aborters[k]);
      t := WokenByAborter(s, k);
    }
  }

  lemma NobodyTakes(s: State, a: Action)
    requires Inv(s) && !WakeUnderWay(s) && TryAsleep(s, a).Some?
    requires a.PollStep? ==> s.pollers[a.p] != Away
    ensures !WakeUnderWay(Apply(s, a)) && Apply(s, a).log.woken == s.log.woken
  {
    var t := Apply(s, a);
    if a.PollStep? {
      NoTakeByPoll(s, a.p, a.ready);
    } else {
      if a.WakeStep? {
        WakeKeepsOutput(s, a.i, a.spurious);
        WakeKeepsAborters(s, a.i, a.spurious);
      } else if !a.Consume? {
        assert a.AbortStep? ==> MidAbort(s.aborters[a.k]);
        OthersTouch(s, a);
      }
      NobodyNew(s, t);
    }
  }

  lemma NobodyNew(s: State, t: State)
    requires !WakeUnderWay(s) && t.pollers == s.pollers && t.aborters == s.aborters
    ensures !WakeUnderWay(t)
  {
    forall q | 0 <= q < |t.pollers| ensures !WillTake(t.pollers[q]) {
      assert !WillTake(s.pollers[q]);
    }
    forall k | 0 <= k < |t.aborters| ensures !MidAbort(t.aborters[k]) {
      assert !MidAbort(s.aborters[k]);
    }
  }

  lemma NoTakeByPoll(s: State, p: nat, ready: Option<Output>)
    requires !WakeUnderWay(s) && PollEnabled(s, p) && s.pollers[p] != Away
    ensures var t := PollApply(s, p, ready); !WakeUnderWay(t) && t.log.woken == s.log.woken
  {
    var t := PollApply(s, p, ready);
    PollKeepsAborters(s, p, ready);
    assert !WillTake(s.pollers[p]);
    forall q | 0 <= q < |t.pollers| ensures !WillTake(t.pollers[q]) {
      assert !WillTake(s.pollers[q]);
    }
    forall k | 0 <= k < |t.aborters| ensures !MidAbort(t.aborters[k]) {
      assert !MidAbort(s.aborters[k]);
    }
  }

  lemma FinishIsAsleep(s: State, t: State)
    requires Leads(TryFinish, s, t)
    ensures Leads(TryAsleep, s, t)
  {
    LeadsToo(TryFinish, TryAsleep, s, t);
  }

  lemma AsleepKeeps(s: State, a: Action)
    requires Inv(s) && TryAsleep(s, a).Some?
    ensures Inv(Apply(s, a))
  {
    StepKeeps(s, a);
  }

  /** A joiner that got Pending and was not woken yet can be woken, with no new poll and no
      new abort, if and only if some poll that may complete, or some abort, has not yet
      looked for its waker. */
  lemma WokenByThoseUnderWayIff(s: State)
    requires Reachable(s) && s.result == Pending && !s.log.woken
    ensures CanBeWoken(TryFinish, s) <==> WakeUnderWay(s)
  {
    ReachableInv(s);
    if WakeUnderWay(s) {
      var t := WokenUnderWay(s);
    } else {
      var asleep := (x: State) => Inv(x) && !WakeUnderWay(x) && !x.log.woken;
      forall x, a | asleep(x) && TryFinish(x, a).Some? ensures asleep(TryFinish(x, a).value) {
        AsleepKeeps(x, a);
        NobodyTakes(x, a);
      }
      forall t | Leads(TryFinish, s, t) ensures !t.log.woken {
        HoldsWhereLed(TryFinish, asleep, s, t);
      }
    }
  }

  /** And with new polls, which need a queue entry, if and only if besides the future can be
      polled again. Otherwise it sleeps until somebody aborts the task. */
  lemma JoinerCanWakeIff(s: State)
    requires Reachable(s) && s.result == Pending && !s.log.woken && |s.pollers| > 0 && |s.wakers| > 0
    ensures CanBeWoken(TryAsleep, s) <==> WakeUnderWay(s) || Alive(s)
  {
    ReachableInv(s);
    if WakeUnderWay(s) {
      var t := WokenUnderWay(s);
      FinishIsAsleep(s, t);
    } else if Alive(s) {
      var t := WokenByNewPoll(s);
    } else {
      forall t | Leads(TryAsleep, s, t) ensures !t.log.woken {
        SleepsOn(s, t);
      }
    }
  }

  lemma WokenByNewPoll(s: State) returns (t: State)
    requires Inv(s) && s.result == Pending && Alive(s) && |s.pollers| > 0 && |s.wakers| > 0
    ensures Leads(TryAsleep, s, t) && t.log.woken
  {
    var u, p := EnterAgain(s);
    StillPending(s, u);
    assert WillTake(u.pollers[p]);
    t := WokenUnderWay(u);
    FinishIsAsleep(u, t);
    LeadsOn(TryAsleep, s, u, t);
  }

  lemma StillPending(s: State, t: State)
    requires Inv(s) && s.result == Pending && Leads(TryAsleep, s, t)
    ensures Inv(t) && t.result == Pending
  {
    var pending := (x: State) => Inv(x) && x.result == Pending;
    forall x, a | pending(x) && TryAsleep(x, a).Some? ensures pending(TryAsleep(x, a).value) {
      AsleepKeeps(x, a);
      OthersForward(x, a);
    }
    HoldsWhereLed(TryAsleep, pending, s, t);
  }

  lemma SleepsOn(s: State, t: State)
    requires Inv(s) && !WakeUnderWay(s) && !Alive(s) && !s.log.woken && Leads(TryAsleep, s, t)
    ensures !t.log.woken
  {
    var asleep := (x: State) => Inv(x) && !WakeUnderWay(x) && !Alive(x) && !x.log.woken;
    forall x, a | asleep(x) && TryAsleep(x, a).Some? ensures asleep(TryAsleep(x, a).value) {
      AsleepKeeps(x, a);
      DeadStaysDead(x, a);
      NobodyTakes(x, a);
    }
    HoldsWhereLed(TryAsleep, asleep, s, t);
  }

  // ----- memory that is never given back -----

  /** Nobody holds a waker, no poll is under way or queued, and no wake is. */
  ghost predicate Abandoned(s: State) {
    && s.live == 0 && s.manuals == 0 && s.queued == 0 && AllAway(s)
    && forall i :: 0 <= i < |s.wakers| ==> s.wakers[i] == Out
  }

  /** Nobody makes a manual waker out of the bare header. */
  function TryNoManual(s: State, a: Action): Option<State> {
    if a.ManualNew? then None else Try(s, a)
  }

  lemma AbandonedStays(s: State, a: Action)
    requires Abandoned(s) && TryNoManual(s, a).Some?
    ensures Abandoned(Apply(s, a)) && Apply(s, a).log.deallocs == s.log.deallocs
  {
    assert Polling !in s.pollers;
    assert !a.PollStep?;
    assert !a.WakeStep?;
    OthersTouch(s, a);
    if a.JoinStep? { JoinKeepsWord(s); }
  }

  /** A task abandoned without having been given back is never given back. */
  lemma AbandonedForever(s: State, t: State)
    requires Abandoned(s) && Leads(TryNoManual, s, t)
    ensures Abandoned(t) && t.log.deallocs == s.log.deallocs
  {
    var abandoned := (x: State) => Abandoned(x) && x.log.deallocs == s.log.deallocs;
    forall x, a | abandoned(x) && TryNoManual(x, a).Some? ensures abandoned(TryNoManual(x, a).value) {
      AbandonedStays(x, a);
    }
    HoldsWhereLed(TryNoManual, abandoned, s, t);
  }
}
