/** The task as its one join handle can be used. `JoinHandle` is not cloned, `abort` borrows
    it and `poll` borrows it exclusively, so an abort can overlap other aborts but no poll of
    the handle and not its drop. `TryHandle` is the machine under that rule; what is proved
    of all runs holds of its runs too. */
module TaskHandle {
  import opened Options
  import opened Runs
  import opened TaskWord
  import opened TaskModel
  import opened TaskInvariant

  predicate NobodyAborting(s: State) {
    forall k :: 0 <= k < |s.aborters| ==> s.aborters[k] == NotAborting
  }

  function TryHandle(s: State, a: Action): Option<State> {
    if (a.AbortStep? && a.k < |s.aborters| && s.aborters[a.k] == NotAborting && s.join != Resting)
       || (a.JoinStep? && s.join == Resting && !NobodyAborting(s))
       || (a.JoinDrop? && !NobodyAborting(s))
    then None else Try(s, a)
  }

  /** Reachable with the handle used as its receivers allow. */
  ghost predicate Usable(s: State) { ReachableBy(Init, TryHandle, s) }

  lemma UsableIsReachable(s: State)
    requires Usable(s)
    ensures Reachable(s)
  {
    var s0 :| Init(s0) && Leads(TryHandle, s0, s);
    LeadsToo(TryHandle, Try, s0, s);
  }

  // ----- an abort never slips in between -----

  /** While the handle is polled nobody aborts, so what the poll's first load saw of the
      flag stays true; and an abort meets every waker that was stored before it. */
  ghost predicate ReceiverInv(s: State) {
    && (s.join != Resting ==> NobodyAborting(s))
    && (match s.join
        case Read(seen) => seen.aborted == s.word.aborted
        case Reload => !s.word.aborted
        case Interest => !s.word.aborted
        case Store(_) => !s.word.aborted
        case _ => true)
    && s.result != AlreadyTaken
    && (s.result == Pending && s.word.aborted && NobodyAborting(s) ==> s.log.woken)
  }

  lemma PollKeepsHandle(s: State, p: nat, ready: Option<Output>)
    requires ReceiverInv(s) && PollEnabled(s, p)
    ensures ReceiverInv(PollApply(s, p, ready))
  {
    PollForward(s, p, ready);
    PollKeepsAborters(s, p, ready);
  }

  lemma AbortKeepsHandle(s: State, k: nat)
    requires ReceiverInv(s) && RegisterInv(s) && TryHandle(s, AbortStep(k)).Some?
    ensures ReceiverInv(AbortApply(s, k))
  {
    var t := AbortApply(s, k);
    AbortForward(s, k);
    assert s.join == Resting;
    if s.aborters[k] == NotAborting {
      assert t.aborters[k] == Check;
    } else if s.aborters[k] == Check && s.word.joinInterest {
      assert t.aborters[k] == AbortTake;
    }
  }

  lemma JoinKeepsHandle(s: State)
    requires JoinInv(s) && ReceiverInv(s) && TryHandle(s, JoinStep).Some?
    ensures ReceiverInv(JoinApply(s))
  {
    JoinKeepsAborters(s);
  }

  lemma WakeKeepsHandle(s: State, i: nat, spurious: bool)
    requires ReceiverInv(s) && i < |s.wakers|
    ensures ReceiverInv(WakeApply(s, i, spurious))
  {
    WakeKeepsAborters(s, i, spurious);
    WakeKeepsFlag(s, i, spurious);
  }

  lemma StepKeepsHandle(s: State, a: Action)
    requires Inv(s) && ReceiverInv(s) && TryHandle(s, a).Some?
    ensures ReceiverInv(Apply(s, a))
  {
    match a
    case WakeStep(i, spurious) => WakeKeepsHandle(s, i, spurious);
    case PollStep(p, ready) => PollKeepsHandle(s, p, ready);
    case AbortStep(k) => AbortKeepsHandle(s, k);
    case JoinStep => JoinKeepsHandle(s);
    case _ =>
  }

  lemma UsableInv(s: State)
    requires Usable(s)
    ensures Inv(s) && ReceiverInv(s)
  {
    var both := (x: State) => Inv(x) && ReceiverInv(x);
    forall x | Init(x) ensures both(x) {
      InitKeeps(x);
    }
    forall x, a | both(x) && TryHandle(x, a).Some? ensures both(TryHandle(x, a).value) {
      StepKeeps(x, a);
      StepKeepsHandle(x, a);
    }
    HoldsWhenReachable(Init, TryHandle, both, s);
  }

  /** No poll of the handle ever says AlreadyTaken, and an abort that is over has woken a
      joiner that was told Pending: it never sleeps through an abort. */
  lemma AbortReachesJoiner(s: State)
    requires Usable(s)
    ensures s.result != AlreadyTaken
    ensures s.result == Pending && s.word.aborted ==> s.log.woken || SomeoneAborting(s)
  {
    UsableInv(s);
    if !NobodyAborting(s) {
      var k :| 0 <= k < |s.aborters| && s.aborters[k] != NotAborting;
      assert MidAbort(s.aborters[k]);
    }
  }

  /** What a poll of the handle says is decided by the flag at its beginning: Aborted if and
      only if it was set. */
  lemma HandlePollDecides(s: State)
    requires Usable(s) && s.result != Nothing
    ensures s.log.start.aborted <==> s.result == JoinResult.Aborted
  {
    UsableInv(s);
    var decided := (x: State) => Inv(x) && ReceiverInv(x) && Decided(x);
    forall x | Init(x) ensures decided(x) {
      InitKeeps(x);
    }
    forall x, a | decided(x) && TryHandle(x, a).Some? ensures decided(TryHandle(x, a).value) {
      StepKeeps(x, a);
      StepKeepsHandle(x, a);
      DecidedStep(x, a);
    }
    HoldsWhenReachable(Init, TryHandle, decided, s);
  }

  /** During a poll the flag is what it was at the start. */
  ghost predicate Decided(s: State) {
    && (s.result != Nothing ==> (s.log.start.aborted <==> s.result == JoinResult.Aborted))
    && (s.join.Read? || s.join.Reload? || s.join.Interest? || s.join.Store? || s.join.Copy? ==>
          (s.log.start.aborted <==> s.word.aborted))
  }

  lemma DecidedStep(s: State, a: Action)
    requires Inv(s) && ReceiverInv(s) && Decided(s) && TryHandle(s, a).Some?
    ensures Decided(Apply(s, a))
  {
    if a.JoinStep? {
      DecidedJoin(s);
    } else if !a.JoinDrop? {
      OthersForward(s, a);
      SameFlag(s, a);
    }
  }

  lemma DecidedJoin(s: State)
    requires Inv(s) && ReceiverInv(s) && Decided(s)
    ensures Decided(JoinApply(s))
  {
  }

  lemma SameFlag(s: State, a: Action)
    requires Enabled(s, a) && !a.JoinStep? && !a.JoinDrop?
    ensures Apply(s, a).word.aborted != s.word.aborted ==> a.AbortStep? && s.aborters[a.k] == NotAborting
  {
    match a
    case WakeStep(i, spurious) => WakeKeepsFlag(s, i, spurious);
    case PollStep(p, ready) => PollKeepsAborters(s, p, ready);
    case _ =>
  }

  // ----- dropping the handle -----

  /** The handle of a complete task on its way out. */
  predicate Clearing(s: State) {
    match s.join
    case DropClear => true
    case DropTake => !s.word.joinInterest
    case Gone => !s.word.joinInterest && !s.joinWaker
    case _ => false
  }

  /** Nothing but the handle itself sets the interest flag or fills the waker slot. */
  lemma OthersLeaveJoin(s: State, a: Action)
    requires Enabled(s, a) && !a.JoinStep? && !a.JoinDrop?
    ensures var t := Apply(s, a);
            t.join == s.join && t.word.joinInterest == s.word.joinInterest && (t.joinWaker ==> s.joinWaker)
  {
    match a
    case WakeStep(i, spurious) => WakeKeepsInterest(s, i, spurious);
    case PollStep(p, ready) => PollForward(s, p, ready);
    case AbortStep(k) => AbortForward(s, k);
    case _ =>
  }

  lemma WakeKeepsInterest(s: State, i: nat, spurious: bool)
    requires i < |s.wakers|
    ensures WakeApply(s, i, spurious).word.joinInterest == s.word.joinInterest
    ensures WakeApply(s, i, spurious).join == s.join && WakeApply(s, i, spurious).joinWaker == s.joinWaker
  {
  }

  lemma {:induction false} ClearingAlong(s: State, acts: seq<Action>)
    requires Clearing(s) && Runnable(Try, s, acts)
    ensures Clearing(Exec(Try, s, acts))
    decreases |acts|
  {
    if acts != [] {
      var a := acts[0];
      if !a.JoinStep? {
        OthersLeaveJoin(s, a);
      }
      ClearingAlong(Apply(s, a), acts[1..]);
    }
  }

  /** Dropping the handle of a complete task: in every run after it, once the handle is gone
      the interest flag is clear and the waker slot empty, for good. */
  lemma DropOfCompleteClears(s: State, acts: seq<Action>)
    requires Enabled(s, JoinDrop) && s.word.phase == Complete && Runnable(Try, Apply(s, JoinDrop), acts)
    ensures var t := Exec(Try, Apply(s, JoinDrop), acts);
            t.join == Gone ==> !t.word.joinInterest && !t.joinWaker
  {
    ClearingAlong(Apply(s, JoinDrop), acts);
  }

  lemma {:induction false} GoneAlong(s: State, acts: seq<Action>)
    requires s.join == Gone && Runnable(Try, s, acts)
    ensures var t := Exec(Try, s, acts);
            t.join == Gone && t.word.joinInterest == s.word.joinInterest && (t.joinWaker ==> s.joinWaker)
    decreases |acts|
  {
    if acts != [] {
      OthersLeaveJoin(s, acts[0]);
      GoneAlong(Apply(s, acts[0]), acts[1..]);
    }
  }

  /** Dropping the handle of any other task is over at once and takes nothing back: in every
      run after it the interest flag stays as it was, so a completer still looks for a waker. */
  lemma DropOfOthersLeavesInterest(s: State, acts: seq<Action>)
    requires Enabled(s, JoinDrop) && s.word.phase != Complete && Runnable(Try, Apply(s, JoinDrop), acts)
    ensures Apply(s, JoinDrop) == s.(join := Gone, result := Nothing)
    ensures var t := Exec(Try, Apply(s, JoinDrop), acts);
            t.join == Gone && t.word.joinInterest == s.word.joinInterest && (t.joinWaker ==> s.joinWaker)
  {
    GoneAlong(Apply(s, JoinDrop), acts);
  }
}
