/** What holds over whole runs of the task header protocol, and where the code falls
    short of what one would expect of it. */
module TaskTheorems {
  import opened Options
  import opened Runs
  import opened Sums
  import opened TaskWord
  import opened TaskModel
  import opened TaskInvariant

  // ----- phase and flags only go forward -----

  /** Idle to scheduled to complete, or idle to complete; nothing else, ever, and ABORTED
      is never cleared. */
  lemma {:induction false} OnlyForward(s: State, acts: seq<Action>)
    requires Inv(s) && Runnable(Try, s, acts)
    ensures PhaseMoves(s.word.phase, Exec(Try, s, acts).word.phase)
    ensures s.word.aborted ==> Exec(Try, s, acts).word.aborted
    ensures s.log.transitions <= Exec(Try, s, acts).log.transitions
    ensures Done(s.word) ==> Exec(Try, s, acts).log.transitions == s.log.transitions
    decreases |acts|
  {
    if acts != [] {
      StepKeeps(s, acts[0]);
      StepForward(s, acts[0]);
      OnlyForward(Apply(s, acts[0]), acts[1..]);
    }
  }

  lemma StepForward(s: State, a: Action)
    requires Inv(s) && Enabled(s, a)
    ensures var t := Apply(s, a);
            && PhaseMoves(s.word.phase, t.word.phase)
            && (s.word.aborted ==> t.word.aborted)
            && s.log.transitions <= t.log.transitions
            && (Done(s.word) ==> t.log.transitions == s.log.transitions)
  {
    match a
    case JoinStep => JoinKeepsWord(s);
    case JoinDrop =>
    case WakeStep(i, spurious) =>
      WakeForward(s, i, spurious);
      WakeWhenDone(s, i, spurious);
    case _ => OthersForward(s, a);
  }

  /** Not past the load of a wake. */
  predicate AtLoad(pc: WakerPc) { pc == Out || pc == Again }

  lemma WakeWhenDone(s: State, i: nat, spurious: bool)
    requires i < |s.wakers| && WakerInv(s)
    ensures Done(s.word) ==> WakeApply(s, i, spurious).log.transitions == s.log.transitions
    ensures Done(s.word) && AtLoad(s.wakers[i]) ==> AtLoad(WakeApply(s, i, spurious).wakers[i])
  {
  }

  // ----- wake storms collapse -----

  /** However many wakers run at once, however their compare-exchanges fail, the wakers
      call the scheduler exactly once per move from idle to scheduled, counting the call
      the winner has yet to make; and because no step leads back to idle, that is at most
      once in the whole life of the task. */
  lemma WakeStormCollapses(s: State)
    requires Reachable(s)
    ensures s.log.schedules + Sum(s.wakers, IsWon) == s.log.transitions <= 1
    ensures s.word.phase == Scheduled ==> s.log.transitions == 1
    ensures s.word.phase == Idle ==> s.log.schedules == 0
  {
    ReachableInv(s);
  }

  /** A wake that starts after the task is complete or aborted never gets past its load. */
  lemma {:induction false} LateWakeIsSilent(s: State, acts: seq<Action>, i: nat)
    requires Inv(s) && Runnable(Try, s, acts) && i < |s.wakers|
    requires Done(s.word) && AtLoad(s.wakers[i])
    ensures i < |Exec(Try, s, acts).wakers| && AtLoad(Exec(Try, s, acts).wakers[i])
    decreases |acts|
  {
    if acts != [] {
      var t := Apply(s, acts[0]);
      StepKeeps(s, acts[0]);
      StepForward(s, acts[0]);
      SilentStep(s, acts[0], i);
      LateWakeIsSilent(t, acts[1..], i);
    }
  }

  lemma SilentStep(s: State, a: Action, i: nat)
    requires Inv(s) && Enabled(s, a) && i < |s.wakers|
    requires Done(s.word) && AtLoad(s.wakers[i])
    ensures |Apply(s, a).wakers| == |s.wakers| && AtLoad(Apply(s, a).wakers[i])
  {
    match a
    case WakeStep(k, spurious) => WakeWhenDone(s, k, spurious);
    case Consume(k) =>
    case PollStep(p, ready) => PollKeepsWakers(s, p, ready);
    case JoinStep => JoinKeepsWord(s);
    case _ => AsideKeepsWakers(s, a);
  }

  // ----- join results -----

  lemma CompleteMeansWritten(s: State)
    requires Reachable(s)
    ensures s.word.phase == Complete ==> s.output.Some? && s.output.value in s.log.written
  {
    ReachableInv(s);
  }

  /** Every result a join poll can return, and what it says about the task. */
  lemma JoinResultSound(s: State)
    requires Reachable(s)
    ensures s.result.Ok? ==> s.result.value in s.log.written && s.word.phase == Complete
    ensures s.result == JoinResult.Aborted || s.result == AlreadyTaken ==> s.word.aborted
    // begun after the abort flag was set: the error, and nothing else
    ensures s.log.start.aborted ==> s.result == Nothing || s.result == JoinResult.Aborted
    // begun after the task left idle: never pending
    ensures s.log.start.phase != Idle ==> s.result != Pending
  {
    ReachableInv(s);
    if s.result.Ok? {
      var s0 :| Init(s0) && Leads(Try, s0, s);
      var acts :| Runnable(Try, s0, acts) && Exec(Try, s0, acts) == s;
      InitKeeps(s0);
      OkMeansComplete(s0, acts);
    }
  }

  predicate OkComplete(s: State) {
    s.result.Ok? || s.join == Copy ==> s.word.phase == Complete
  }

  lemma {:induction false} OkMeansComplete(s: State, acts: seq<Action>)
    requires Inv(s) && OkComplete(s) && Runnable(Try, s, acts)
    ensures OkComplete(Exec(Try, s, acts))
    decreases |acts|
  {
    if acts != [] {
      StepKeeps(s, acts[0]);
      OkStep(s, acts[0]);
      OkMeansComplete(Apply(s, acts[0]), acts[1..]);
    }
  }

  lemma OkStep(s: State, a: Action)
    requires Inv(s) && OkComplete(s) && Enabled(s, a)
    ensures OkComplete(Apply(s, a))
  {
    if a.JoinStep? {
      OkJoinStep(s);
    } else if !a.JoinDrop? {
      OthersForward(s, a);
    }
  }

  lemma OkJoinStep(s: State)
    requires Inv(s) && OkComplete(s)
    ensures OkComplete(JoinApply(s))
  {
  }

  /** How one step of a join poll ends it: with a value only out of a load that saw the
      task complete and not aborted, and with AlreadyTaken exactly when the abort flag
      appeared between its two loads, since nothing was taken by anyone else. */
  lemma JoinStepOutcome(s: State)
    requires Reachable(s) && s.join != Gone
    ensures var t := JoinApply(s);
            && (t.join == Copy ==> s.word.phase == Complete && !s.word.aborted)
            && (t.result.Ok? ==> s.join == Copy && s.output == Some(t.result.value))
            && (t.join == Resting ==> t.result != Nothing)
            && ((t.result == AlreadyTaken) == (s.join.Read? && !s.join.seen.aborted && s.word.aborted))
  {
    ReachableInv(s);
  }

  // ----- registering the join waker -----

  /** k steps of the joiner with nobody else running. */
  function JoinAlone(s: State, k: nat): State
    decreases k
  {
    if k == 0 then s else JoinAlone(JoinApply(s), k - 1)
  }

  /** set_join_waker answers "complete" for every phase but idle, so on a scheduled task the
      join poll calls itself again: told so, it is still at the same point n calls later
      exactly as long as the task is neither complete nor aborted. */
  lemma CompleteAnswerSpins(s: State, n: nat)
    requires Reachable(s) && s.join == Reload && n > 0
    ensures JoinAlone(s, 3 * n).join == Reload <==> !Done(s.word)
  {
    ReachableInv(s);
    if Done(s.word) {
      LeavesForGood(JoinApply(s), 3 * n - 1);
    } else {
      Spins(s, n);
    }
  }

  predicate Spinning(s: State) { s.join == Reload && s.word.phase != Idle && !Done(s.word) }

  lemma OneTurn(s: State)
    requires Spinning(s)
    ensures Spinning(JoinAlone(s, 3))
  {
    var t := JoinApply(s);
    var u := JoinApply(t);
    assert JoinAlone(s, 3) == JoinAlone(t, 2) == JoinAlone(u, 1) == JoinAlone(JoinApply(u), 0);
  }

  lemma {:induction false} JoinAloneSplits(s: State, a: nat, b: nat)
    ensures JoinAlone(s, a + b) == JoinAlone(JoinAlone(s, a), b)
    decreases a
  {
    if a > 0 {
      JoinAloneSplits(JoinApply(s), a - 1, b);
    }
  }

  lemma {:induction false} Spins(s: State, n: nat)
    requires Spinning(s)
    ensures Spinning(JoinAlone(s, 3 * n))
    decreases n
  {
    if n > 0 {
      OneTurn(s);
      JoinAloneSplits(s, 3, 3 * (n - 1));
      Spins(JoinAlone(s, 3), n - 1);
    }
  }

  lemma {:induction false} LeavesForGood(s: State, k: nat)
    requires Done(s.word) && (s.join.Read? || s.join == Copy || s.join == Resting)
    ensures JoinAlone(s, k).join != Reload
    decreases k
  {
    if k > 0 {
      LeavesForGood(JoinApply(s), k - 1);
    }
  }

  /** After a join poll returned Pending and the task completed or was aborted, and once
      every poller, or aborter, is done looking for the waker: the joiner was woken, or the
      completer looked for the waker between the joiner's fetch_or and its store, or the
      aborter between the joiner's load and its store. */
  lemma JoinerWokenOrMissed(s: State)
    requires Reachable(s) && s.result == Pending
    ensures s.word.phase == Complete && (forall p :: 0 <= p < |s.pollers| ==> s.pollers[p] != TakeWaker)
            ==> s.log.woken || s.log.missed
    ensures s.word.aborted && (forall k :: 0 <= k < |s.aborters| ==> !MidAbort(s.aborters[k]))
            ==> s.log.woken || s.log.abortMissed
    ensures !s.log.woken ==> s.joinWaker
  {
    ReachableInv(s);
  }

  // ----- abort does not stop the poll -----

  function WithAborted(s: State, b: bool): State { s.(word := s.word.(aborted := b)) }

  /** Polling never looks at the abort flag: set or not, every step of every poll does the
      same. The documentation of JoinHandle::abort and the test test_task_abort promise
      that an aborted task does not execute. */
  lemma PollIgnoresAbort(s: State, p: nat, ready: Option<Output>, b: bool)
    requires PollEnabled(s, p)
    ensures PollApply(WithAborted(s, b), p, ready) == WithAborted(PollApply(s, p, ready), b)
  {
    match s.pollers[p]
    case SubRef => SubRefIgnoresAbort(s, p, b);
    case DropOwn => DropIgnoresAbort(s, p, b);
    case _ =>
  }

  lemma DropRefIgnoresAbort(r: Rec, b: bool)
    ensures r.(aborted := b).DropRef() == r.DropRef().(aborted := b)
  {
  }

  lemma SubRefIgnoresAbort(s: State, p: nat, b: bool)
    requires p < |s.pollers| && s.pollers[p] == SubRef
    ensures PollApply(WithAborted(s, b), p, None) == WithAborted(PollApply(s, p, None), b)
  {
    DropRefIgnoresAbort(s.word, b);
  }

  lemma DropIgnoresAbort(s: State, p: nat, b: bool)
    requires p < |s.pollers| && s.pollers[p] == DropOwn
    ensures PollApply(WithAborted(s, b), p, None) == WithAborted(PollApply(s, p, None), b)
  {
    DropRefIgnoresAbort(s.word, b);
    assert ReleaseRef(WithAborted(s, b)) == WithAborted(ReleaseRef(s), b);
  }

  // ----- the run queues -----

  /** The task is put into a run queue at most twice, by its spawn and by one wake, and each
      poll and each drop by a worker's re-check takes one entry: its future is polled at
      most twice, so one that is pending both times is never polled again. */
  lemma PolledAtMostTwice(s: State)
    requires Reachable(s)
    ensures s.queued + s.log.polls + s.log.lost == 1 + s.log.schedules <= 2
    ensures s.log.entered <= s.log.polls
  {
    ReachableInv(s);
  }

  // ----- the reference count -----

  lemma RefcountLedger(s: State)
    requires Reachable(s)
    ensures s.word.refs == Ledger(s.log) % 0x10000
  {
    ReachableInv(s);
  }

  /** The memory is given back only by a waker going away that takes the count from one
      to zero in a complete task. */
  lemma DeallocatesOnly(s: State, a: Action)
    requires Reachable(s) && Enabled(s, a)
    ensures var t := Apply(s, a);
            t.log.deallocs != s.log.deallocs <==>
              && (a.DropWaker? || a.ManualDrop? || (a.PollStep? && s.pollers[a.p] == DropOwn))
              && s.word.refs == 1 && s.word.phase == Complete
  {
    match a
    case WakeStep(i, spurious) => WakeDeallocs(s, i, spurious);
    case PollStep(p, ready) => PollDeallocs(s, p, ready);
    case JoinStep => JoinKeepsWord(s);
    case _ =>
  }

  lemma WakeDeallocs(s: State, i: nat, spurious: bool)
    requires i < |s.wakers|
    ensures WakeApply(s, i, spurious).log.deallocs == s.log.deallocs
  {
  }

  lemma PollDeallocs(s: State, p: nat, ready: Option<Output>)
    requires PollEnabled(s, p)
    ensures PollApply(s, p, ready).log.deallocs ==
            s.log.deallocs + if s.pollers[p] == DropOwn && s.word.refs == 1 && s.word.phase == Complete then 1 else 0
  {
  }

  /** The rest of a poll that is past future.poll, with nobody else running. */
  function FinishPoll(s: State, p: nat): State
    requires p < |s.pollers|
    decreases Ahead(s.pollers[p])
  {
    if Ahead(s.pollers[p]) == 0 then s else FinishPoll(PollApply(s, p, None), p)
  }

  function Ahead(pc: PollPc): nat {
    match pc
    case Mark => 4
    case TakeWaker => 3
    case SubRef => 2
    case DropOwn => 1
    case _ => 0
  }

  /** A poll gives up two references and took none. So a poll that completes the task and is
      then left alone gives the memory back exactly when the count was two at its mark; and
      whatever it was, the count is lower by two, modulo 2^16, afterwards. */
  lemma PollAloneDeallocatesIff(s: State, p: nat)
    requires Reachable(s) && p < |s.pollers| && s.pollers[p] == Mark
    ensures var t := FinishPoll(s, p);
            && |t.pollers| == |s.pollers| && t.pollers[p] == Away && t.word.phase == Complete
            && t.word.refs == (s.word.refs - 2) % 0x10000
            && t.log.deallocs == s.log.deallocs + if s.word.refs == 2 then 1 else 0
  {
    ReachableInv(s);
    var t := PollApply(s, p, None);
    if t.pollers[p] == TakeWaker {
      LastTwo(PollApply(t, p, None), p);
    } else {
      LastTwo(t, p);
    }
  }

  lemma LastTwo(s: State, p: nat)
    requires p < |s.pollers| && s.pollers[p] == SubRef && s.word.refs < 0x10000 && s.word.phase == Complete
    ensures var t := FinishPoll(s, p);
            && |t.pollers| == |s.pollers| && t.pollers[p] == Away && t.word.phase == Complete
            && t.word.refs == (s.word.refs - 2) % 0x10000
            && t.log.deallocs == s.log.deallocs + if s.word.refs == 2 then 1 else 0
  {
    var t := PollApply(s, p, None);
    var u := PollApply(t, p, None);
    CountMoves(s.word.refs - 1, -1);
    assert t.word.refs == (s.word.refs - 1) % 0x10000;
    assert FinishPoll(s, p) == FinishPoll(t, p) == FinishPoll(u, p) == u;
  }

  // ----- deallocation comes at the wrong time -----

  ghost predicate AllAway(s: State) { forall p :: 0 <= p < |s.pollers| ==> s.pollers[p] == Away }

  /** What the count counts: the wakers held, those used up by wakes by value, which do not
      release their reference, and one, less the two references each poll gives up. */
  lemma CountOfHolders(s: State)
    requires Reachable(s)
    ensures s.word.refs == (1 + s.live + s.manuals + s.log.consumed - s.log.ended - s.log.pollSubs) % 0x10000
    ensures AllAway(s) ==> s.word.refs == (1 + s.live + s.manuals + s.log.consumed - 2 * s.log.polls) % 0x10000
  {
    ReachableInv(s);
    if AllAway(s) {
      SumZero(s.pollers, InPoll);
      SumZero(s.pollers, OwesSub);
    }
  }

  lemma DeallocationEmpties(s: State, a: Action)
    requires Reachable(s) && Enabled(s, a) && Apply(s, a).log.deallocs != s.log.deallocs
    ensures Reachable(Apply(s, a)) && Apply(s, a).word.refs == 0
  {
    StaysReachable(Init, Try, s, a);
    DeallocatesOnly(s, a);
  }

  /** Whenever the memory is given back with no poll under way, the number of wakers then
      still held is, modulo 2^16, twice the number of polls there were, less one, less the
      wakes by value. */
  lemma HeldAtDeallocation(s: State, a: Action)
    requires Reachable(s) && Enabled(s, a) && Apply(s, a).log.deallocs != s.log.deallocs
    requires AllAway(Apply(s, a))
    ensures var t := Apply(s, a);
            (t.live + t.manuals) % 0x10000 == (2 * t.log.polls - 1 - t.log.consumed) % 0x10000
  {
    var t := Apply(s, a);
    DeallocationEmpties(s, a);
    CountOfHolders(t);
    ZeroCount(t.live + t.manuals, 2 * t.log.polls - 1 - t.log.consumed);
  }

  lemma ZeroCount(held: int, due: int)
    requires (held - due) % 0x10000 == 0
    ensures held % 0x10000 == due % 0x10000
  {
  }

  /** So, with fewer than 2^16 wakers about, a deallocation comes when nobody holds a waker
      and no poll is under way exactly if the polls are over and the wakes by value were
      2 * polls - 1 modulo 2^16. */
  lemma DeallocatesInTimeIff(s: State, a: Action)
    requires Reachable(s) && Enabled(s, a) && Apply(s, a).log.deallocs != s.log.deallocs
    requires Apply(s, a).live + Apply(s, a).manuals < 0x10000
    ensures var t := Apply(s, a);
            t.live == 0 && t.manuals == 0 && AllAway(t) <==>
              AllAway(t) && t.log.consumed % 0x10000 == (2 * t.log.polls - 1) % 0x10000
  {
    var t := Apply(s, a);
    if AllAway(t) {
      HeldAtDeallocation(s, a);
      NoneHeld(t.live + t.manuals, 2 * t.log.polls - 1, t.log.consumed);
    }
  }

  lemma NoneHeld(held: nat, n: int, m: int)
    requires held < 0x10000 && held % 0x10000 == (n - m) % 0x10000
    ensures held == 0 <==> m % 0x10000 == n % 0x10000
  {
  }

  /** In particular, as long as every wake is by reference, every deallocation comes too
      early: somebody still holds a waker, or a poll is under way. */
  lemma WithoutConsumptionTooEarly(s: State, a: Action)
    requires Reachable(s) && Enabled(s, a) && Apply(s, a).log.deallocs != s.log.deallocs
    requires Apply(s, a).log.consumed == 0
    ensures Apply(s, a).live + Apply(s, a).manuals > 0 || !AllAway(Apply(s, a))
  {
    var t := Apply(s, a);
    if AllAway(t) {
      HeldAtDeallocation(s, a);
      OddIsHeld(t.live + t.manuals, t.log.polls, t.log.consumed);
    }
  }

  lemma OddIsHeld(held: nat, n: int, consumed: int)
    requires consumed == 0 && held % 0x10000 == (2 * n - 1 - consumed) % 0x10000
    ensures held > 0
  {
  }
}
