/** The inductive invariant of the task header protocol, and its preservation. */
module TaskInvariant {
  import opened Options
  import opened Runs
  import opened Sums
  import opened TaskWord
  import opened TaskModel

  // ----- the invariant -----

  ghost predicate PhaseInv(s: State) {
    && s.word.phase != Running
    && s.log.transitions <= 1
    && (s.word.phase == Idle ==> s.log.transitions == 0)
    && (s.word.phase == Scheduled ==> s.log.transitions == 1)
  }

  function IsWon(pc: WakerPc): nat { if pc == Won then 1 else 0 }

  /** A compare-exchange is only ever attempted from an idle, unaborted word, and each
      success is on its way to exactly one call of the scheduler. */
  ghost predicate WakerInv(s: State) {
    && (forall i :: 0 <= i < |s.wakers| && s.wakers[i].Loaded?
          ==> s.wakers[i].cur.phase == Idle && !s.wakers[i].cur.aborted)
    && s.log.schedules + Sum(s.wakers, IsWon) == s.log.transitions
  }

  ghost predicate OutputInv(s: State) {
    && (s.word.phase == Complete ==> s.output.Some?)
    && (forall p :: 0 <= p < |s.pollers| && s.pollers[p] == Mark ==> s.output.Some?)
    && (s.output.Some? ==> s.output.value in s.log.written)
  }

  function Ledger(l: Log): int {
    1 + l.clones + l.manualNew - l.wakerDrops - l.manualDrops - l.pollSubs
  }

  ghost predicate LedgerInv(s: State) { s.word.refs == Ledger(s.log) % 0x10000 }

  ghost predicate JoinInv(s: State) {
    && (s.log.start.aborted ==> s.word.aborted)
    && (s.log.start.phase != Idle ==> s.word.phase != Idle)
    && (match s.join
        case Read(seen) =>
          seen.phase == Complete && s.word.phase == Complete && (s.log.start.aborted ==> seen.aborted)
          && (seen.aborted ==> s.word.aborted)
        case Copy => s.output.Some? && !s.log.start.aborted
        case Interest => !s.log.start.aborted
        case Reload => !s.log.start.aborted && s.word.phase != Idle
        case Store(prev) =>
          && !s.log.start.aborted && s.word.joinInterest
          && (s.log.start.phase != Idle ==> prev != Idle)
          && (prev != Idle ==> s.word.phase != Idle)
        case _ => true)
    && (match s.result
        case Nothing => true
        case Pending => !s.log.start.aborted && s.log.start.phase == Idle
        case Ok(v) => v in s.log.written && !s.log.start.aborted
        case Aborted => s.word.aborted
        case AlreadyTaken => s.word.aborted && !s.log.start.aborted)
    && (s.result != Nothing ==> s.join == Resting)
  }

  ghost predicate SomeoneTaking(s: State) {
    exists p :: 0 <= p < |s.pollers| && s.pollers[p] == TakeWaker
  }

  predicate MidAbort(pc: AbortPc) { pc == Check || pc == AbortTake }

  ghost predicate SomeoneAborting(s: State) {
    exists k :: 0 <= k < |s.aborters| && MidAbort(s.aborters[k])
  }

  ghost predicate RegisterInv(s: State) {
    && (s.result == Pending ==> s.word.joinInterest && (s.joinWaker || s.log.woken))
    && (s.result == Pending && s.word.phase == Complete ==> s.log.woken || s.log.missed || SomeoneTaking(s))
    && (s.join == Store(Idle) && s.word.phase == Complete ==> s.log.missed || SomeoneTaking(s))
  }

  /** A joiner that has not seen the abort flag, on the way to its waker or waiting. */
  ghost predicate AbortInv(s: State) {
    && (Registering(s.join) && s.word.aborted ==> s.log.abortMissed || SomeoneAborting(s))
    && (s.result == Pending && s.word.aborted ==> s.log.woken || s.log.abortMissed || SomeoneAborting(s))
  }

  function IsBegun(pc: PollPc): nat { if pc == Begun then 1 else 0 }

  /** The spawn and each call of the scheduler are one queue entry; each poll takes one and
      calls future.poll once. */
  ghost predicate QueueInv(s: State) {
    && s.queued + s.log.polls + s.log.lost == 1 + s.log.schedules
    && s.log.entered + Sum(s.pollers, IsBegun) == s.log.polls
  }

  function InPoll(pc: PollPc): nat { if pc == Away then 0 else 1 }

  /** 1 until the poll's own fetch_sub. */
  function OwesSub(pc: PollPc): nat { if pc == Away || pc == DropOwn then 0 else 1 }

  /** Every waker ever made is held, dropped or used up; every poll has ended or is under
      way, and has made its own fetch_sub or still owes it. */
  ghost predicate HandleInv(s: State) {
    && s.live + s.log.wakerDrops + s.log.consumed == s.log.clones + s.log.ended
    && s.manuals + s.log.manualDrops == s.log.manualNew
    && s.log.ended + Sum(s.pollers, InPoll) == s.log.polls
    && s.log.pollSubs + Sum(s.pollers, OwesSub) == s.log.polls
  }

  ghost predicate Inv(s: State) {
    && PhaseInv(s) && WakerInv(s) && OutputInv(s) && LedgerInv(s) && JoinInv(s) && RegisterInv(s)
    && AbortInv(s) && QueueInv(s) && HandleInv(s)
  }

  // ----- preservation -----

  lemma InitKeeps(s: State)
    requires Init(s)
    ensures Inv(s)
  {
    SumZero(s.wakers, IsWon);
    SumZero(s.pollers, IsBegun);
    SumZero(s.pollers, InPoll);
    SumZero(s.pollers, OwesSub);
  }

  /** The phase moves from idle to scheduled, from either to complete, and never back. */
  predicate PhaseMoves(p: Phase, q: Phase) {
    q == p || (p == Idle && q == Scheduled) || q == Complete
  }

  /** What a step of anybody but the joiner can do to the things the joiner looks at. */
  ghost predicate Forward(s: State, t: State) {
    && t.join == s.join && t.result == s.result && t.log.start == s.log.start
    && PhaseMoves(s.word.phase, t.word.phase)
    && (s.word.aborted ==> t.word.aborted)
    && t.word.joinInterest == s.word.joinInterest
    && s.log.written <= t.log.written
    && (s.output.Some? ==> t.output.Some?)
    && t.log.transitions == s.log.transitions + (if s.word.phase == Idle && t.word.phase == Scheduled then 1 else 0)
  }

  lemma WakeForward(s: State, i: nat, spurious: bool)
    requires i < |s.wakers| && WakerInv(s)
    ensures Forward(s, WakeApply(s, i, spurious))
  {
  }

  lemma PollForward(s: State, p: nat, ready: Option<Output>)
    requires PollEnabled(s, p)
    ensures Forward(s, PollApply(s, p, ready))
  {
    match s.pollers[p]
    case Away =>
    case Begun =>
    case Polling =>
    case Write(v) =>
    case Mark =>
    case TakeWaker =>
    case SubRef =>
    case DropOwn =>
  }

  lemma AbortForward(s: State, k: nat)
    requires k < |s.aborters|
    ensures Forward(s, AbortApply(s, k))
  {
  }

  predicate Counting(a: Action) { a.Clone? || a.ManualNew? || a.DropWaker? || a.ManualDrop? }

  lemma OthersForward(s: State, a: Action)
    requires Enabled(s, a) && WakerInv(s) && !a.JoinStep? && !a.JoinDrop?
    ensures Forward(s, Apply(s, a))
  {
    match a
    case WakeStep(i, spurious) => WakeForward(s, i, spurious);
    case PollStep(p, ready) => PollForward(s, p, ready);
    case AbortStep(k) => AbortForward(s, k);
    case _ =>
  }

  lemma JoinKeepsWord(s: State)
    ensures JoinApply(s).word.(joinInterest := s.word.joinInterest) == s.word
    ensures JoinApply(s).wakers == s.wakers && JoinApply(s).pollers == s.pollers
    ensures JoinApply(s).output == s.output && JoinApply(s).queued == s.queued
    ensures JoinApply(s).live == s.live && JoinApply(s).manuals == s.manuals
    ensures JoinKeepsLog(s.log, JoinApply(s).log)
  {
    JoinKeepsCounts(s);
  }

  lemma JoinKeepsCounts(s: State)
    ensures JoinKeepsLog(s.log, JoinApply(s).log)
  {
    match s.join
    case Resting =>
    case Reload =>
    case _ =>
  }

  predicate JoinKeepsLog(l: Log, m: Log) {
    && m.transitions == l.transitions && m.schedules == l.schedules && m.written == l.written
    && m.deallocs == l.deallocs && Ledger(m) == Ledger(l)
    && m.polls == l.polls && m.entered == l.entered && m.lost == l.lost
    && m.ended == l.ended && m.pollSubs == l.pollSubs && m.consumed == l.consumed
    && m.clones == l.clones && m.wakerDrops == l.wakerDrops && m.manualNew == l.manualNew
    && m.manualDrops == l.manualDrops
  }

  lemma StepPhase(s: State, a: Action)
    requires Enabled(s, a) && PhaseInv(s) && WakerInv(s)
    ensures PhaseInv(Apply(s, a))
  {
    if a.JoinStep? || a.JoinDrop? {
      JoinKeepsWord(s);
    } else {
      OthersForward(s, a);
    }
  }

  lemma WakeKeepsWakers(s: State, i: nat, spurious: bool)
    requires i < |s.wakers| && PhaseInv(s) && WakerInv(s)
    ensures WakerInv(WakeApply(s, i, spurious))
  {
    SumUpdate(s.wakers, IsWon, i, WakeApply(s, i, spurious).wakers[i]);
  }

  lemma PollKeepsWakers(s: State, p: nat, ready: Option<Output>)
    requires PollEnabled(s, p)
    ensures var t := PollApply(s, p, ready); t.wakers == s.wakers && t.log.schedules == s.log.schedules
    ensures PollApply(s, p, ready).log.transitions == s.log.transitions
  {
  }

  lemma StepWaker(s: State, a: Action)
    requires Enabled(s, a) && PhaseInv(s) && WakerInv(s)
    ensures WakerInv(Apply(s, a))
  {
    match a
    case WakeStep(i, spurious) => WakeKeepsWakers(s, i, spurious);
    case Consume(i) => ConsumeKeepsWakers(s, i);
    case PollStep(p, ready) => PollKeepsWakers(s, p, ready);
    case JoinStep => JoinKeepsWord(s);
    case _ => AsideKeepsWakers(s, a);
  }

  lemma ConsumeKeepsWakers(s: State, i: nat)
    requires Enabled(s, Consume(i)) && WakerInv(s)
    ensures WakerInv(Apply(s, Consume(i)))
  {
    SumUpdate(s.wakers, IsWon, i, Again);
  }

  lemma AsideKeepsWakers(s: State, a: Action)
    requires Enabled(s, a) && !a.WakeStep? && !a.Consume? && !a.PollStep? && !a.JoinStep?
    ensures var t := Apply(s, a);
            && t.wakers == s.wakers && t.pollers == s.pollers && t.output == s.output
            && t.log.transitions == s.log.transitions && t.log.schedules == s.log.schedules
            && t.log.written == s.log.written
  {
  }

  lemma WakeKeepsOutput(s: State, i: nat, spurious: bool)
    requires i < |s.wakers| && WakerInv(s)
    ensures var t := WakeApply(s, i, spurious); t.output == s.output && t.pollers == s.pollers
    ensures WakeApply(s, i, spurious).word.phase == Complete ==> s.word.phase == Complete
    ensures WakeApply(s, i, spurious).log.written == s.log.written
  {
  }

  lemma PollKeepsOutput(s: State, p: nat, ready: Option<Output>)
    requires PollEnabled(s, p) && OutputInv(s)
    ensures OutputInv(PollApply(s, p, ready))
  {
  }

  lemma StepOutput(s: State, a: Action)
    requires Enabled(s, a) && WakerInv(s) && OutputInv(s)
    ensures OutputInv(Apply(s, a))
  {
    match a
    case WakeStep(i, spurious) => WakeKeepsOutput(s, i, spurious);
    case PollStep(p, ready) => PollKeepsOutput(s, p, ready);
    case JoinStep => JoinKeepsWord(s);
    case _ =>
  }

  // refs after a fetch_add or fetch_sub, as numbers modulo 2^16.
  lemma CountMoves(n: int, d: int)
    requires d == 1 || d == -1
    ensures (n % 0x10000 + d) % 0x10000 == (n + d) % 0x10000
  {
  }

  lemma WakeKeepsLedger(s: State, i: nat, spurious: bool)
    requires i < |s.wakers|
    ensures WakeApply(s, i, spurious).word.refs == s.word.refs
    ensures Ledger(WakeApply(s, i, spurious).log) == Ledger(s.log)
  {
  }

  lemma PollKeepsLedger(s: State, p: nat, ready: Option<Output>)
    requires PollEnabled(s, p)
    ensures var t := PollApply(s, p, ready);
            if s.pollers[p] == SubRef || s.pollers[p] == DropOwn
            then t.word.refs == (s.word.refs - 1) % 0x10000 && Ledger(t.log) == Ledger(s.log) - 1
            else t.word.refs == s.word.refs && Ledger(t.log) == Ledger(s.log)
  {
  }

  lemma StepLedger(s: State, a: Action)
    requires Enabled(s, a) && LedgerInv(s)
    ensures LedgerInv(Apply(s, a))
  {
    match a
    case WakeStep(i, spurious) => WakeKeepsLedger(s, i, spurious);
    case PollStep(p, ready) =>
      PollKeepsLedger(s, p, ready);
      CountMoves(Ledger(s.log), -1);
    case JoinStep => JoinKeepsWord(s);
    case _ => CountingKeepsLedger(s, a);
  }

  lemma CountingKeepsLedger(s: State, a: Action)
    requires Enabled(s, a) && LedgerInv(s) && !a.WakeStep? && !a.PollStep? && !a.JoinStep?
    ensures LedgerInv(Apply(s, a))
  {
    if a.Clone? || a.ManualNew? {
      CountMoves(Ledger(s.log), 1);
    } else if a.DropWaker? || a.ManualDrop? {
      ReleaseMoves(s);
      CountMoves(Ledger(s.log), -1);
    }
  }

  lemma ReleaseMoves(s: State)
    ensures ReleaseRef(s).word.refs == (s.word.refs - 1) % 0x10000
    ensures Ledger(ReleaseRef(s).log) == Ledger(s.log)
  {
  }

  lemma ForwardKeepsJoin(s: State, t: State)
    requires JoinInv(s) && Forward(s, t)
    ensures JoinInv(t)
  {
  }

  lemma JoinKeepsJoin(s: State)
    requires PhaseInv(s) && OutputInv(s) && JoinInv(s)
    ensures JoinInv(JoinApply(s))
  {
  }

  lemma StepJoin(s: State, a: Action)
    requires Enabled(s, a) && PhaseInv(s) && OutputInv(s) && WakerInv(s) && JoinInv(s)
    ensures JoinInv(Apply(s, a))
  {
    if a.JoinStep? {
      JoinKeepsJoin(s);
    } else if !a.JoinDrop? {
      OthersForward(s, a);
      ForwardKeepsJoin(s, Apply(s, a));
    }
  }

  lemma PollKeepsRegister(s: State, p: nat, ready: Option<Output>)
    requires PollEnabled(s, p) && JoinInv(s) && RegisterInv(s)
    ensures RegisterInv(PollApply(s, p, ready))
  {
    match s.pollers[p]
    case TakeWaker => TakingKeepsRegister(s, p);
    case Mark => MarkingKeepsRegister(s, p);
    case _ =>
      PollForward(s, p, ready);
      StillTaking(s, PollApply(s, p, ready), p);
      PollKeepsSlot(s, p, ready);
  }

  lemma StillTaking(s: State, t: State, p: nat)
    requires p < |s.pollers| == |t.pollers| && s.pollers[p] != TakeWaker
    requires forall q :: 0 <= q < |s.pollers| && q != p ==> t.pollers[q] == s.pollers[q]
    ensures SomeoneTaking(s) ==> SomeoneTaking(t)
  {
    if SomeoneTaking(s) {
      var q :| 0 <= q < |s.pollers| && s.pollers[q] == TakeWaker;
      assert t.pollers[q] == TakeWaker;
    }
  }

  lemma PollKeepsSlot(s: State, p: nat, ready: Option<Output>)
    requires PollEnabled(s, p) && s.pollers[p] != TakeWaker && s.pollers[p] != Mark
    ensures var t := PollApply(s, p, ready);
            && t.joinWaker == s.joinWaker && t.log.woken == s.log.woken && t.log.missed == s.log.missed
            && t.word.phase == s.word.phase
  {
  }

  lemma TakingKeepsRegister(s: State, p: nat)
    requires PollEnabled(s, p) && s.pollers[p] == TakeWaker && RegisterInv(s)
    ensures RegisterInv(PollApply(s, p, None))
  {
  }

  lemma MarkingKeepsRegister(s: State, p: nat)
    requires PollEnabled(s, p) && s.pollers[p] == Mark && JoinInv(s) && RegisterInv(s)
    ensures RegisterInv(PollApply(s, p, None))
  {
    var t := PollApply(s, p, None);
    StillTaking(s, t, p);
    if s.word.joinInterest {
      assert t.pollers[p] == TakeWaker;
    }
  }

  lemma JoinKeepsRegister(s: State)
    requires JoinInv(s) && RegisterInv(s)
    ensures RegisterInv(JoinApply(s))
  {
    JoinKeepsWord(s);
  }

  lemma StepRegister(s: State, a: Action)
    requires Enabled(s, a) && WakerInv(s) && JoinInv(s) && RegisterInv(s)
    ensures RegisterInv(Apply(s, a))
  {
    match a
    case WakeStep(i, spurious) =>
      WakeForward(s, i, spurious);
      WakeKeepsOutput(s, i, spurious);
      WakeKeepsSlot(s, i, spurious);
    case PollStep(p, ready) => PollKeepsRegister(s, p, ready);
    case JoinStep => JoinKeepsRegister(s);
    case AbortStep(k) => AbortKeepsRegister(s, k);
    case _ =>
  }

  lemma AbortKeepsRegister(s: State, k: nat)
    requires k < |s.aborters| && JoinInv(s) && RegisterInv(s)
    ensures RegisterInv(AbortApply(s, k))
  {
    assert AbortApply(s, k).pollers == s.pollers;
  }

  lemma WakeKeepsSlot(s: State, i: nat, spurious: bool)
    requires i < |s.wakers|
    ensures var t := WakeApply(s, i, spurious);
            t.joinWaker == s.joinWaker && t.log.woken == s.log.woken && t.log.missed == s.log.missed
  {
  }

  // ----- aborts against the joiner's registration -----

  lemma PollKeepsAbort(s: State, p: nat, ready: Option<Output>)
    requires PollEnabled(s, p) && AbortInv(s)
    ensures AbortInv(PollApply(s, p, ready))
  {
    PollForward(s, p, ready);
    PollKeepsAborters(s, p, ready);
  }

  lemma PollKeepsAborters(s: State, p: nat, ready: Option<Output>)
    requires PollEnabled(s, p)
    ensures var t := PollApply(s, p, ready);
            && t.aborters == s.aborters && t.log.abortMissed == s.log.abortMissed
            && t.word.aborted == s.word.aborted && (s.log.woken ==> t.log.woken)
  {
  }

  lemma AbortKeepsAbort(s: State, k: nat)
    requires k < |s.aborters| && JoinInv(s) && RegisterInv(s) && AbortInv(s)
    ensures AbortInv(AbortApply(s, k))
  {
    var t := AbortApply(s, k);
    if SomeoneAborting(s) {
      var i :| 0 <= i < |s.aborters| && MidAbort(s.aborters[i]);
      assert i != k ==> MidAbort(t.aborters[i]);
    }
    assert s.aborters[k] == NotAborting ==> MidAbort(t.aborters[k]);
    assert s.aborters[k] == Check && s.word.joinInterest ==> MidAbort(t.aborters[k]);
  }

  lemma JoinKeepsAbort(s: State)
    requires AbortInv(s)
    ensures AbortInv(JoinApply(s))
  {
    JoinKeepsAborters(s);
    JoinKeepsMissed(s);
    assert SomeoneAborting(JoinApply(s)) == SomeoneAborting(s);
  }

  lemma JoinKeepsAborters(s: State)
    ensures JoinApply(s).aborters == s.aborters && JoinApply(s).word.aborted == s.word.aborted
  {
  }

  // Only a load that saw no abort flag begins a registration; a wait ends one.
  lemma JoinKeepsMissed(s: State)
    ensures var t := JoinApply(s);
            && (Registering(t.join) ==>
                  if Registering(s.join) then t.log.abortMissed == s.log.abortMissed else !s.word.aborted)
            && (t.result == Pending && s.word.aborted ==>
                  && t.log.abortMissed == s.log.abortMissed
                  && (Registering(s.join) || (s.result == Pending && t.log.woken == s.log.woken)))
  {
  }

  lemma WakeKeepsAborters(s: State, i: nat, spurious: bool)
    requires i < |s.wakers|
    ensures var t := WakeApply(s, i, spurious);
            && t.aborters == s.aborters && t.log.abortMissed == s.log.abortMissed && t.log.woken == s.log.woken
  {
  }

  lemma StepAbort(s: State, a: Action)
    requires Enabled(s, a) && WakerInv(s) && JoinInv(s) && RegisterInv(s) && AbortInv(s)
    ensures AbortInv(Apply(s, a))
  {
    match a
    case WakeStep(i, spurious) =>
      WakeKeepsAborters(s, i, spurious);
      WakeKeepsFlag(s, i, spurious);
    case PollStep(p, ready) => PollKeepsAbort(s, p, ready);
    case AbortStep(k) => AbortKeepsAbort(s, k);
    case JoinStep => JoinKeepsAbort(s);
    case _ =>
  }

  lemma WakeKeepsFlag(s: State, i: nat, spurious: bool)
    requires i < |s.wakers|
    ensures var t := WakeApply(s, i, spurious);
            t.word.aborted == s.word.aborted && t.join == s.join && t.result == s.result
  {
  }

  // ----- the run queues -----

  /** A poll's beginning takes one queue entry, and nothing after it takes another. */
  lemma PollCounts(s: State, p: nat, ready: Option<Output>)
    requires PollEnabled(s, p)
    ensures var t := PollApply(s, p, ready);
            && t.queued + t.log.polls == s.queued + s.log.polls
            && t.log.lost == s.log.lost && t.log.schedules == s.log.schedules
  {
    match s.pollers[p]
    case Away =>
    case Begun =>
    case _ =>
  }

  lemma PollMovesOne(s: State, p: nat, ready: Option<Output>)
    requires PollEnabled(s, p)
    ensures var t := PollApply(s, p, ready);
            |t.pollers| == |s.pollers| && t.pollers == s.pollers[p := t.pollers[p]]
  {
    match s.pollers[p]
    case Away =>
    case Begun =>
    case _ =>
  }

  lemma PollEntersOnce(s: State, p: nat, ready: Option<Output>)
    requires PollEnabled(s, p)
    ensures var t := PollApply(s, p, ready);
            |t.pollers| == |s.pollers|
            && t.log.entered + IsBegun(t.pollers[p]) - t.log.polls
               == s.log.entered + IsBegun(s.pollers[p]) - s.log.polls
  {
  }

  lemma PollKeepsQueue(s: State, p: nat, ready: Option<Output>)
    requires PollEnabled(s, p) && QueueInv(s)
    ensures QueueInv(PollApply(s, p, ready))
  {
    var t := PollApply(s, p, ready);
    PollCounts(s, p, ready);
    PollMovesOne(s, p, ready);
    PollEntersOnce(s, p, ready);
    SumUpdate(s.pollers, IsBegun, p, t.pollers[p]);
  }

  lemma WakeKeepsQueue(s: State, i: nat, spurious: bool)
    requires i < |s.wakers| && QueueInv(s)
    ensures QueueInv(WakeApply(s, i, spurious))
  {
  }

  lemma JoinKeepsQueue(s: State)
    requires QueueInv(s)
    ensures QueueInv(JoinApply(s))
  {
    JoinKeepsWord(s);
  }

  lemma StepQueue(s: State, a: Action)
    requires Enabled(s, a) && QueueInv(s)
    ensures QueueInv(Apply(s, a))
  {
    match a
    case WakeStep(i, spurious) => WakeKeepsQueue(s, i, spurious);
    case PollStep(p, ready) => PollKeepsQueue(s, p, ready);
    case JoinStep => JoinKeepsQueue(s);
    case _ => OthersKeepQueue(s, a);
  }

  lemma OthersKeepQueue(s: State, a: Action)
    requires Enabled(s, a) && QueueInv(s)
    requires !a.WakeStep? && !a.PollStep? && !a.JoinStep?
    ensures QueueInv(Apply(s, a))
  {
    if Counting(a) { CountingFrame(s, a); }
  }

  lemma CountingFrame(s: State, a: Action)
    requires Enabled(s, a) && Counting(a)
    ensures var t := Apply(s, a);
            && t.wakers == s.wakers && t.pollers == s.pollers && t.queued == s.queued
            && t.log.schedules == s.log.schedules && t.log.polls == s.log.polls
            && t.log.entered == s.log.entered && t.log.lost == s.log.lost
            && t.log.ended == s.log.ended && t.log.pollSubs == s.log.pollSubs && t.log.consumed == s.log.consumed
  {
  }

  // ----- wakers held -----

  lemma PollKeepsHandles(s: State, p: nat, ready: Option<Output>)
    requires PollEnabled(s, p) && HandleInv(s)
    ensures HandleInv(PollApply(s, p, ready))
  {
    var t := PollApply(s, p, ready);
    PollCountsHandles(s, p, ready);
    SumOne(s.pollers, t.pollers, InPoll, p);
    SumOne(s.pollers, t.pollers, OwesSub, p);
  }

  lemma PollCountsHandles(s: State, p: nat, ready: Option<Output>)
    requires PollEnabled(s, p)
    ensures var t := PollApply(s, p, ready);
            && t.live == s.live && t.manuals == s.manuals && |t.pollers| == |s.pollers|
            && t.pollers == s.pollers[p := t.pollers[p]]
            && t.log.clones == s.log.clones && t.log.consumed == s.log.consumed
            && t.log.manualNew == s.log.manualNew && t.log.manualDrops == s.log.manualDrops
            && t.log.wakerDrops - s.log.wakerDrops == t.log.ended - s.log.ended
            && t.log.ended + InPoll(t.pollers[p]) - t.log.polls == s.log.ended + InPoll(s.pollers[p]) - s.log.polls
            && t.log.pollSubs + OwesSub(t.pollers[p]) - t.log.polls
               == s.log.pollSubs + OwesSub(s.pollers[p]) - s.log.polls
  {
  }

  lemma WakeKeepsHandles(s: State, i: nat, spurious: bool)
    requires i < |s.wakers| && HandleInv(s)
    ensures HandleInv(WakeApply(s, i, spurious))
  {
    match s.wakers[i]
    case Out =>
    case Again =>
    case Loaded(_) =>
    case Won =>
  }

  lemma StepHandles(s: State, a: Action)
    requires Enabled(s, a) && HandleInv(s)
    ensures HandleInv(Apply(s, a))
  {
    match a
    case WakeStep(i, spurious) => WakeKeepsHandles(s, i, spurious);
    case PollStep(p, ready) => PollKeepsHandles(s, p, ready);
    case JoinStep => JoinKeepsWord(s);
    case _ => OthersKeepHandles(s, a);
  }

  lemma OthersKeepHandles(s: State, a: Action)
    requires Enabled(s, a) && HandleInv(s)
    requires !a.WakeStep? && !a.PollStep? && !a.JoinStep?
    ensures HandleInv(Apply(s, a))
  {
    if Counting(a) {
      CountingFrame(s, a);
      CountingHandles(s, a);
    } else if a.AbortStep? {
      AbortKeepsHandles(s, a.k);
    }
  }

  lemma AbortKeepsHandles(s: State, k: nat)
    requires k < |s.aborters| && HandleInv(s)
    ensures HandleInv(AbortApply(s, k))
  {
    match s.aborters[k]
    case NotAborting =>
    case Check =>
    case AbortTake =>
  }

  lemma CountingHandles(s: State, a: Action)
    requires Enabled(s, a) && Counting(a)
    ensures var t := Apply(s, a);
            && t.live + t.log.wakerDrops - t.log.clones == s.live + s.log.wakerDrops - s.log.clones
            && t.manuals + t.log.manualDrops - t.log.manualNew == s.manuals + s.log.manualDrops - s.log.manualNew
  {
  }

  lemma StepKeeps(s: State, a: Action)
    requires Inv(s) && Enabled(s, a)
    ensures Inv(Apply(s, a))
  {
    StepPhase(s, a);
    StepWaker(s, a);
    StepOutput(s, a);
    StepLedger(s, a);
    StepJoin(s, a);
    StepRegister(s, a);
    StepAbort(s, a);
    StepQueue(s, a);
    StepHandles(s, a);
  }

  lemma ReachableInv(s: State)
    requires Reachable(s)
    ensures Inv(s)
  {
    forall x | Init(x) ensures Inv(x) {
      InitKeeps(x);
    }
    forall x, a | Inv(x) && Try(x, a).Some? ensures Inv(Try(x, a).value) {
      StepKeeps(x, a);
    }
    HoldsWhenReachable(Init, Try, Inv, s);
  }
}
