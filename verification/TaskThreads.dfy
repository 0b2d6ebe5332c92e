/** The task header with its packed word, changed in place by the source's own bit
    operations. Every access is shown to be the step of the record machine (TaskModel), so
    the packed implementation refines it; the wake loops are then written out as loops,
    with any number of steps of all other threads between two accesses. */
module TaskThreads {
  import opened Options
  import opened Runs
  import opened TaskWord
  import opened TaskModel
  import opened TaskInvariant
  import opened TaskTheorems

  class Header {
    const word: Word
    var output: Option<Output>
    var joinWaker: bool
    var queued: nat
    var live: nat
    var manuals: nat
    var wakers: seq<WakerPc>
    var current: seq<bv64> // what each waker loaded last
    var pollers: seq<PollPc>
    var aborters: seq<AbortPc>
    var join: JoinPc
    var joinSeen: bv64     // what the joiner loaded first
    var joinPrev: bv64     // what its fetch_or gave back
    var result: JoinResult
    var log: Log

    function View(): State
      reads this, word
    {
      State(Decode(word.bits), output, joinWaker, queued, live, manuals, wakers, pollers, aborters, join, result, log)
    }

    /** The locals of the threads hold the words their program counters speak of. */
    ghost predicate Valid()
      reads this
    {
      && |current| == |wakers|
      && (forall i :: 0 <= i < |wakers| && wakers[i].Loaded? ==> wakers[i].cur == Decode(current[i]))
      && (join.Read? ==> join.seen == Decode(joinSeen))
      && (join.Store? ==> join.prev == Decode(joinPrev).phase)
    }

    constructor (wakers: nat, pollers: nat, aborters: nat)
      ensures Valid() && Init(View()) && fresh(word)
      ensures |this.wakers| == wakers && |this.pollers| == pollers && |this.aborters| == aborters
    {
      word := new Word();
      output, joinWaker, queued, live, manuals, result := None, false, 1, 0, 0, Nothing;
      join, joinSeen, joinPrev := Resting, 0, 0;
      this.wakers, current := seq(wakers, _ => Out), seq(wakers, _ => 0);
      this.pollers, this.aborters := seq(pollers, _ => Away), seq(aborters, _ => NotAborting);
      log := NewLog(Rec(Idle, false, false, 0, 1, 0));
    }

    // ----- the wakers -----

    /** The call of a wake, by reference or by value; neither touches the count. */
    method WakeCall(i: nat, byValue: bool)
      requires Valid() && Enabled(View(), Call(i, byValue)) && wakers[i] == Out
      modifies this`wakers, this`live, this`log
      ensures Valid() && View() == Apply(old(View()), Call(i, byValue)) && wakers[i] == Again
    {
      wakers := wakers[i := Again];
      if byValue {
        live, log := live - 1, log.(consumed := log.consumed + 1);
      }
    }

    /** The load at the head of the wake loop, and the tests on it. */
    method WakeLoad(i: nat) returns (tryIt: bool)
      requires Valid() && i < |wakers| && wakers[i] == Again
      modifies this`wakers, this`current
      ensures Valid() && View() == WakeApply(old(View()), i, false)
      ensures tryIt <==> wakers[i].Loaded?
      ensures !tryIt ==> wakers[i] == Out
    {
      var seen := word.Load();
      Tests(seen);
      var state := TaskState(seen);
      current := current[i := seen];
      if state.IsComplete() || state.IsAborted() {
        tryIt := false;
      } else if state.IsScheduled() || state.IsRunning() {
        tryIt := false;
      } else {
        tryIt := true;
      }
      wakers := wakers[i := if tryIt then Loaded(Decode(seen)) else Out];
    }

    /** The word to install: raw.rs sets the SCHEDULED bit, waker.rs masks the phase out
        first. On the idle word that was loaded they are the same word. */
    method Desired(i: nat, raw: bool) returns (desired: bv64)
      requires Valid() && WakerInv(View()) && i < |wakers| && wakers[i].Loaded?
      ensures Decode(desired) == wakers[i].cur.(phase := Scheduled)
    {
      var w := current[i];
      if raw {
        SetSchedule(w);
        desired := TaskState(w).WithFlag(SCHEDULED).bits;
      } else {
        MaskedSchedule(w);
        desired := (w & !STATE_MASK) | SCHEDULED;
      }
    }

    method WakeExchange(i: nat, desired: bv64, spurious: bool) returns (ok: bool)
      requires Valid() && i < |wakers| && wakers[i].Loaded?
      requires Decode(desired) == wakers[i].cur.(phase := Scheduled)
      modifies word, this`wakers, this`log
      ensures Valid() && View() == WakeApply(old(View()), i, spurious)
      ensures wakers[i] == if ok then Won else Again
    {
      ok := word.CompareExchange(current[i], desired, spurious);
      Exchanged(i, ok);
    }

    method Exchanged(i: nat, ok: bool)
      requires Valid() && i < |wakers| && wakers[i].Loaded?
      modifies this`wakers, this`log
      ensures Valid() && wakers == old(wakers)[i := if ok then Won else Again]
      ensures log == if ok then old(log).(transitions := old(log).transitions + 1) else old(log)
    {
      if ok {
        wakers := wakers[i := Won];
        log := log.(transitions := log.transitions + 1);
      } else {
        wakers := wakers[i := Again];
      }
    }

    method Schedule(i: nat)
      requires Valid() && i < |wakers| && wakers[i] == Won
      modifies this`wakers, this`queued, this`log
      ensures Valid() && View() == WakeApply(old(View()), i, false)
      ensures wakers[i] == Out && log.schedules == old(log).schedules + 1
    {
      wakers, queued := wakers[i := Out], queued + 1;
      log := log.(schedules := log.schedules + 1);
    }

    // ----- poll -----

    /** The mark of completion: fetch_or, then the test of the old word's interest bit. */
    method MarkComplete(p: nat)
      requires Valid() && p < |pollers| && pollers[p] == Mark
      modifies word, this`pollers
      ensures Valid() && View() == PollApply(old(View()), p, None)
    {
      var prev := word.OrComplete();
      Tests(prev);
      pollers := pollers[p := if prev & JOIN_INTEREST != 0 then TakeWaker else SubRef];
    }

    method PollSubRef(p: nat)
      requires Valid() && p < |pollers| && pollers[p] == SubRef
      modifies word, this`pollers, this`log
      ensures Valid() && View() == PollApply(old(View()), p, None)
    {
      var _ := word.SubRef();
      pollers := pollers[p := DropOwn];
      log := log.(pollSubs := log.pollSubs + 1);
    }

    /** drop_waker and ManualWaker's drop: fetch_sub, and deallocate when the old word shows
        one reference and completion. */
    method Release() returns (dealloc: bool)
      requires Valid()
      modifies word, this`log
      ensures Valid() && View() == ReleaseRef(old(View()))
    {
      var prev := word.SubRef();
      Tests(prev);
      OneReference(prev);
      dealloc := TaskState(prev).Refcount() == 1 && TaskState(prev).IsComplete();
      if dealloc {
        log := log.(deallocs := log.deallocs + 1);
      }
    }

    method TakeByPoller(p: nat)
      requires Valid() && p < |pollers| && pollers[p] == TakeWaker
      modifies this`joinWaker, this`pollers, this`log
      ensures Valid() && View() == PollApply(old(View()), p, None)
    {
      log := log.(woken := log.woken || joinWaker, missed := log.missed || join.Store?);
      joinWaker, pollers := false, pollers[p := SubRef];
    }

    method DropOwnWaker(p: nat)
      requires Valid() && p < |pollers| && pollers[p] == DropOwn
      modifies word, this`pollers, this`log
      ensures Valid() && View() == PollApply(old(View()), p, None)
    {
      var _ := Release();
      pollers := pollers[p := Away];
      log := log.(wakerDrops := log.wakerDrops + 1, ended := log.ended + 1);
    }

    /** Off the run queue, and into the future. */
    method PollBegin(p: nat)
      requires Valid() && PollEnabled(View(), p) && (pollers[p] == Away || pollers[p] == Begun)
      modifies this`pollers, this`queued, this`log
      ensures Valid() && View() == PollApply(old(View()), p, None)
      ensures queued == old(queued) - if old(pollers)[p] == Away then 1 else 0
    {
      if pollers[p] == Away {
        queued, pollers := queued - 1, pollers[p := Begun];
        log := log.(polls := log.polls + 1);
      } else {
        pollers, log := pollers[p := Polling], log.(entered := log.entered + 1);
      }
    }

    /** future.poll returns, and what it returned is what is written. */
    method PollFuture(p: nat, ready: Option<Output>)
      requires Valid() && p < |pollers| && (pollers[p] == Polling || pollers[p].Write?)
      modifies this`pollers, this`output, this`log
      ensures Valid() && View() == PollApply(old(View()), p, ready)
      ensures old(pollers)[p] == Polling ==>
                pollers[p] == (if ready.Some? then Write(ready.value) else SubRef) && output == old(output)
      ensures old(pollers)[p].Write? ==> output == Some(old(pollers)[p].value) && pollers[p] == Mark
    {
      match pollers[p] {
        case Polling =>
          match ready {
            case Some(v) => pollers := pollers[p := Write(v)];
            case None => pollers := pollers[p := SubRef];
          }
        case Write(v) =>
          output, pollers := Some(v), pollers[p := Mark];
          log := log.(written := log.written + {v});
      }
    }

    // ----- abort, join -----

    method AbortFlag(k: nat)
      requires Valid() && k < |aborters| && aborters[k] == NotAborting
      modifies word, this`aborters
      ensures Valid() && View() == AbortApply(old(View()), k)
    {
      var _ := word.OrAborted();
      aborters := aborters[k := Check];
    }

    method AbortCheck(k: nat)
      requires Valid() && k < |aborters| && aborters[k] == Check
      modifies this`aborters, this`log
      ensures Valid() && View() == AbortApply(old(View()), k)
    {
      Tests(word.bits);
      if word.bits & JOIN_INTEREST != 0 {
        aborters := aborters[k := AbortTake];
      } else {
        aborters, log := aborters[k := NotAborting], AbortLooked(View(), log);
      }
    }

    /** The first load of JoinHandle::poll. */
    method JoinLoad()
      requires Valid() && (join == Resting || join == Reload)
      modifies this`join, this`joinSeen, this`result, this`log
      ensures Valid() && View() == JoinApply(old(View()))
    {
      if join == Resting {
        result, log := Nothing, log.(start := Decode(word.bits));
      }
      JoinDecide();
    }

    method JoinDecide()
      requires Valid()
      modifies this`join, this`joinSeen, this`result, this`log
      ensures Valid() && View() == AfterJoinLoad(old(View()))
    {
      Tests(word.bits);
      var state := TaskState(word.bits);
      joinSeen := word.bits;
      if state.IsComplete() {
        join := Read(Decode(word.bits));
      } else if state.IsAborted() {
        join, result := Resting, JoinResult.Aborted;
      } else {
        join, log := Interest, log.(abortMissed := false);
      }
    }

    /** try_read_output's load and tests, and the caller's test of the first load. */
    method JoinRead()
      requires Valid() && join.Read?
      modifies this`join, this`result
      ensures Valid() && View() == JoinApply(old(View()))
    {
      Tests(word.bits);
      Tests(joinSeen);
      if word.bits & COMPLETE != 0 && word.bits & TaskWord.ABORTED == 0 {
        join := Copy;
      } else if TaskState(joinSeen).IsAborted() {
        join, result := Resting, JoinResult.Aborted;
      } else {
        join, result := Resting, AlreadyTaken;
      }
    }

    method JoinRegister()
      requires Valid() && join == Interest
      modifies word, this`join, this`joinPrev, this`log
      ensures Valid() && View() == JoinApply(old(View()))
    {
      joinPrev := word.OrJoinInterest();
      join, log := Store(Decode(joinPrev).phase), log.(missed := false);
    }

    /** set_join_waker stores the waker and answers by a mask on the word its fetch_or gave
        back; the caller polls again or returns Pending. */
    method JoinStore()
      requires Valid() && join.Store?
      modifies this`joinWaker, this`join, this`result, this`log
      ensures Valid() && View() == JoinApply(old(View()))
    {
      Tests(joinPrev);
      joinWaker, log := true, log.(woken := false);
      var complete := joinPrev & COMPLETE != 0;
      if complete {
        join := Reload;
      } else {
        join, result := Resting, Pending;
      }
    }

    // ----- every access of every thread -----

    method WakeStep(i: nat, spurious: bool, raw: bool)
      requires Valid() && WakerInv(View()) && WakeEnabled(View(), i)
      requires raw ==> !spurious // raw.rs uses the strong compare-exchange
      modifies this, word
      ensures Valid() && View() == WakeApply(old(View()), i, spurious)
    {
      match wakers[i] {
        case Out => WakeCall(i, false);
        case Loaded(_) =>
          var desired := Desired(i, raw);
          var _ := WakeExchange(i, desired, spurious);
        case Won => Schedule(i);
        case _ => var _ := WakeLoad(i);
      }
    }

    method PollStep(p: nat, ready: Option<Output>)
      requires Valid() && PollEnabled(View(), p)
      modifies this, word
      ensures Valid() && View() == PollApply(old(View()), p, ready)
    {
      match pollers[p] {
        case Mark => MarkComplete(p);
        case TakeWaker => TakeByPoller(p);
        case SubRef => PollSubRef(p);
        case DropOwn => DropOwnWaker(p);
        case Polling => PollFuture(p, ready);
        case Write(_) => PollFuture(p, ready);
        case _ => PollBegin(p);
      }
    }

    method AbortStep(k: nat)
      requires Valid() && k < |aborters|
      modifies this, word
      ensures Valid() && View() == AbortApply(old(View()), k)
    {
      match aborters[k] {
        case NotAborting => AbortFlag(k);
        case Check => AbortCheck(k);
        case AbortTake =>
          log := AbortLooked(View(), log.(woken := log.woken || joinWaker));
          joinWaker, aborters := false, aborters[k := NotAborting];
      }
    }

    method JoinStep()
      requires Valid() && join != Gone
      modifies this, word
      ensures Valid() && View() == JoinApply(old(View()))
    {
      match join {
        case Resting => JoinLoad();
        case Reload => JoinLoad();
        case Read(_) => JoinRead();
        case Copy =>
          join, result := Resting, if output.Some? then Ok(output.value) else Nothing;
        case Interest => JoinRegister();
        case Store(_) => JoinStore();
        case DropClear =>
          var _ := word.ClearJoinInterest();
          join := DropTake;
        case DropTake => joinWaker, join := false, Gone;
      }
    }

    /** JoinHandle's drop, its load. */
    method DropHandle()
      requires Valid() && join == Resting
      modifies this
      ensures Valid() && View() == Apply(old(View()), Action.JoinDrop)
      // a complete task's flag and slot are still to be cleared, any other handle is gone
      ensures join == if old(View()).word.phase == Complete then DropClear else Gone
      ensures word.bits == old(word.bits) && joinWaker == old(joinWaker)
    {
      Tests(word.bits);
      join, result := if TaskState(word.bits).IsComplete() then DropClear else Gone, Nothing;
    }

    /** A worker's re-check takes the task off a run queue and drops it. */
    method LoseEntry()
      requires Valid() && queued > 0
      modifies this`queued, this`log
      ensures Valid() && View() == Apply(old(View()), Lose)
    {
      queued, log := queued - 1, log.(lost := log.lost + 1);
    }

    /** Cloning and dropping wakers, standard and manual. */
    method CountStep(a: Action)
      requires Valid() && Counting(a) && Enabled(View(), a)
      modifies word, this`live, this`manuals, this`log
      ensures Valid() && View() == Apply(old(View()), a)
    {
      if a.Clone? || a.ManualNew? {
        CountUp(a);
      } else {
        CountDown(a);
      }
    }

    method CountUp(a: Action)
      requires Valid() && (a.Clone? || a.ManualNew?) && Enabled(View(), a)
      modifies word, this`live, this`manuals, this`log
      ensures Valid() && View() == Apply(old(View()), a)
    {
      var _ := word.AddRef();
      if a.Clone? {
        live, log := live + 1, log.(clones := log.clones + 1);
      } else {
        manuals, log := manuals + 1, log.(manualNew := log.manualNew + 1);
      }
    }

    method CountDown(a: Action)
      requires Valid() && (a.DropWaker? || a.ManualDrop?) && Enabled(View(), a)
      modifies word, this`live, this`manuals, this`log
      ensures Valid() && View() == Apply(old(View()), a)
    {
      var _ := Release();
      if a.DropWaker? {
        live, log := live - 1, log.(wakerDrops := log.wakerDrops + 1);
      } else {
        manuals, log := manuals - 1, log.(manualDrops := log.manualDrops + 1);
      }
    }

    /** Every access to the packed header is the step of the record machine. */
    method Step(a: Action, raw: bool)
      requires Valid() && WakerInv(View()) && Enabled(View(), a)
      requires raw && a.WakeStep? ==> !a.spurious
      modifies this, word
      ensures Valid() && View() == Apply(old(View()), a)
    {
      match a {
        case WakeStep(i, spurious) => WakeStep(i, spurious, raw);
        case Consume(i) => WakeCall(i, true);
        case PollStep(p, ready) => PollStep(p, ready);
        case AbortStep(k) => AbortStep(k);
        case JoinStep => JoinStep();
        case JoinDrop => DropHandle();
        case Lose => LoseEntry();
        case _ => CountStep(a);
      }
    }

    // ----- wake and wake_by_ref -----

    ghost predicate On(start: State)
      reads this, word
    {
      Valid() && Inv(View()) && Leads(Try, start, View())
    }

    ghost predicate IsDone()
      reads this, word
    {
      Done(Decode(word.bits))
    }

    /** One access by this waker. */
    method Mine(i: nat, spurious: bool, raw: bool, ghost start: State)
      requires On(start) && i < |wakers| && wakers[i] != Out && (raw ==> !spurious)
      modifies this, word
      ensures On(start) && |wakers| == old(|wakers|) && (old(IsDone()) ==> IsDone())
      ensures match old(wakers[i])
              case Loaded(_) => (wakers[i] == Won || wakers[i] == Again) && (old(IsDone()) ==> wakers[i] == Again)
              case Won => wakers[i] == Out && log.schedules > 0
              case Again => wakers[i] == Out || wakers[i].Loaded?
              case Out => true
    {
      var a := Action.WakeStep(i, spurious);
      StepKeeps(View(), a);
      StepForward(View(), a);
      LeadsFurther(Try, start, View(), a);
      MyMove(View(), i, spurious);
      WakeStep(i, spurious, raw);
    }

    /** Any number of accesses by any threads but waker i. */
    method Others(i: nat, ghost start: State)
      requires On(start) && i < |wakers|
      modifies this, word
      ensures On(start) && |wakers| == old(|wakers|) && wakers[i] == old(wakers[i])
      ensures old(IsDone()) ==> IsDone()
    {
      var steps: nat := *;
      while steps > 0
        invariant On(start) && |wakers| == old(|wakers|) && wakers[i] == old(wakers[i])
        invariant old(IsDone()) ==> IsDone()
      {
        var a: Action := *;
        if Enabled(View(), a) && !((a.WakeStep? || a.Consume?) && a.i == i) {
          StepKeeps(View(), a);
          StepForward(View(), a);
          LeadsFurther(Try, start, View(), a);
          OtherWakers(View(), a, i);
          Step(a, false);
        }
        steps := steps - 1;
      }
    }

    /** The call, in a run. */
    method Begin(i: nat, byValue: bool, ghost start: State)
      requires On(start) && i < |wakers| && wakers[i] == Out && Enabled(View(), Call(i, byValue))
      modifies this, word
      ensures On(start) && |wakers| == old(|wakers|) && wakers[i] == Again && (old(IsDone()) ==> IsDone())
    {
      var a := Call(i, byValue);
      StepKeeps(View(), a);
      StepForward(View(), a);
      LeadsFurther(Try, start, View(), a);
      WakeCall(i, byValue);
    }

    /** The winner's call of the scheduler, the only one there ever was. */
    method CallScheduler(i: nat, raw: bool, ghost start: State)
      requires On(start) && i < |wakers| && wakers[i] == Won
      modifies this, word
      ensures On(start) && |wakers| == old(|wakers|) && wakers[i] == Out && log.schedules == 1
    {
      Others(i, start);
      Mine(i, false, raw, start);
      SchedulesOnce(View());
    }

    /** The wake loop, in the strong (raw.rs) or weak (waker.rs) form, called by reference or
        by value, for at most `attempts` rounds. A finished wake has called the scheduler or
        not; it has not if the task was complete or aborted when it began, and if it has,
        that is the only call there ever was. */
    method Wake(i: nat, byValue: bool, raw: bool, attempts: nat, ghost start: State)
      returns (finished: bool, scheduled: bool)
      requires On(start) && i < |wakers| && wakers[i] == Out && Enabled(View(), Call(i, byValue))
      modifies this, word
      ensures On(start) && |wakers| == old(|wakers|)
      ensures finished ==> wakers[i] == Out
      ensures old(IsDone()) ==> !scheduled
      ensures scheduled ==> finished && log.schedules == 1
    {
      Begin(i, byValue, start);
      finished, scheduled := false, false;
      var left := attempts;
      while left > 0
        invariant On(start) && |wakers| == old(|wakers|) && wakers[i] == Again
        invariant old(IsDone()) ==> IsDone()
        invariant !scheduled && !finished
      {
        Others(i, start);
        Mine(i, false, raw, start);
        if wakers[i] == Out {
          return true, false;
        }
        Others(i, start);
        var spurious: bool := *;
        Mine(i, spurious && !raw, raw, start);
        if wakers[i] == Won {
          CallScheduler(i, raw, start);
          return true, true;
        }
        left := left - 1;
      }
    }
  }

  function Call(i: nat, byValue: bool): Action {
    if byValue then Consume(i) else Action.WakeStep(i, false)
  }

  lemma MyMove(s: State, i: nat, spurious: bool)
    requires Inv(s) && i < |s.wakers| && s.wakers[i] != Out
    ensures var t := WakeApply(s, i, spurious);
            && |t.wakers| == |s.wakers|
            && match s.wakers[i]
               case Loaded(_) => (t.wakers[i] == Won || t.wakers[i] == Again) && (Done(s.word) ==> t.wakers[i] == Again)
               case Won => t.wakers[i] == Out && t.log.schedules > 0
               case Again => t.wakers[i] == Out || t.wakers[i].Loaded?
               case Out => true
  {
  }

  lemma OtherWakers(s: State, a: Action, i: nat)
    requires Enabled(s, a) && i < |s.wakers| && !((a.WakeStep? || a.Consume?) && a.i == i)
    ensures |Apply(s, a).wakers| == |s.wakers| && Apply(s, a).wakers[i] == s.wakers[i]
  {
    match a
    case PollStep(p, ready) => PollKeepsWakers(s, p, ready);
    case JoinStep => JoinKeepsWord(s);
    case _ =>
  }

  lemma SchedulesOnce(s: State)
    requires Inv(s) && s.log.schedules > 0
    ensures s.log.schedules == 1 && s.log.transitions == 1
  {
  }

  lemma OneReference(w: bv64)
    ensures TaskState(w).Refcount() == 1 <==> Decode(w).refs == 1
  {
    var r := TaskState(w).Refcount();
    NumberOfOne();
    if Decode(w).refs == 1 {
      SameNumber(r, 1);
      SmallBytes(w);
    }
  }

  lemma NumberOfOne()
    ensures Number(1) == 1
  {
    assert LowByte(1) == 1 && HighByte(1) == 0;
  }

  lemma SmallBytes(w: bv64)
    requires LowByte(TaskState(w).Refcount()) == LowByte(1) && HighByte(TaskState(w).Refcount()) == HighByte(1)
    ensures TaskState(w).Refcount() == 1
  {
  }
}
