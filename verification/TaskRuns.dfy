/** Concrete runs of the task header in which the code falls short, each one with the join
    handle used as its receivers allow. */
module TaskRuns {
  import opened Options
  import opened Runs
  import opened TaskWord
  import opened TaskModel
  import opened TaskTheorems
  import opened TaskLiveness
  import opened TaskHandle

  const NEW: Rec := Rec(Idle, false, false, 0, 1, 0)

  /** A task just spawned, with one poller and the wakers and aborters given. */
  lemma Spawned(wakers: seq<WakerPc>, aborters: seq<AbortPc>) returns (s: State)
    requires wakers == [] || wakers == [Out]
    requires aborters == [] || aborters == [NotAborting]
    ensures Usable(s)
    ensures s == State(NEW, None, false, 1, 0, 0, wakers, [Away], aborters, Resting, Nothing, NewLog(NEW))
  {
    s := State(NEW, None, false, 1, 0, 0, wakers, [Away], aborters, Resting, Nothing, NewLog(NEW));
    assert Init(s);
    LeadsNowhere(TryHandle, s);
  }

  // ----- a poll, step by step -----

  /** The one poller takes the task off the queue and enters the future. */
  lemma Enters(s: State) returns (t: State)
    requires Usable(s) && s.pollers == [Away] && s.queued > 0
    ensures Usable(t)
    ensures t == s.(queued := s.queued - 1, pollers := [Polling],
                    log := s.log.(polls := s.log.polls + 1, entered := s.log.entered + 1))
  {
    t := s;
    assert Apply(t, PollStep(0, None))
           == s.(queued := s.queued - 1, pollers := [Begun], log := s.log.(polls := s.log.polls + 1));
    t := Next(Init, TryHandle, t, PollStep(0, None));
    assert Apply(t, PollStep(0, None))
           == t.(pollers := [Polling], log := t.log.(entered := t.log.entered + 1));
    t := Next(Init, TryHandle, t, PollStep(0, None));
  }

  /** The future clones the waker it is lent. */
  lemma Clones(s: State) returns (t: State)
    requires Usable(s) && s.pollers == [Polling]
    ensures Usable(t)
    ensures t == s.(word := s.word.AddRef(), live := s.live + 1, log := s.log.(clones := s.log.clones + 1))
  {
    assert s.pollers[0] == Polling;
    assert Apply(s, Clone)
           == s.(word := s.word.AddRef(), live := s.live + 1, log := s.log.(clones := s.log.clones + 1));
    t := Next(Init, TryHandle, s, Clone);
  }

  /** The future is ready: the output is written, the task about to be marked complete. */
  lemma Writes(s: State) returns (t: State)
    requires Usable(s) && s.pollers == [Polling]
    ensures Usable(t)
    ensures t == s.(output := Some(5), pollers := [Mark], log := s.log.(written := s.log.written + {5}))
  {
    t := s;
    assert Apply(t, PollStep(0, Some(5))) == s.(pollers := [Write(5)]);
    t := Next(Init, TryHandle, t, PollStep(0, Some(5)));
    assert Apply(t, PollStep(0, None))
           == s.(output := Some(5), pollers := [Mark], log := s.log.(written := s.log.written + {5}));
    t := Next(Init, TryHandle, t, PollStep(0, None));
  }

  /** ... and is marked, with no join interest. */
  lemma Completes(s: State) returns (t: State)
    requires Usable(s) && s.pollers == [Polling] && !s.word.joinInterest
    ensures Usable(t)
    ensures t == s.(word := s.word.(phase := Complete), output := Some(5), pollers := [SubRef],
                    log := s.log.(written := s.log.written + {5}))
  {
    t := Writes(s);
    assert Apply(t, PollStep(0, None)) == t.(word := t.word.(phase := Complete), pollers := [SubRef]);
    t := Next(Init, TryHandle, t, PollStep(0, None));
  }

  /** The future is pending. */
  lemma Pends(s: State) returns (t: State)
    requires Usable(s) && s.pollers == [Polling]
    ensures Usable(t) && t == s.(pollers := [SubRef])
  {
    assert Apply(s, PollStep(0, None)) == s.(pollers := [SubRef]);
    t := Next(Init, TryHandle, s, PollStep(0, None));
  }

  predicate GivesBack(r: Rec) { r.refs == 1 && r.phase == Complete }

  /** The end of a poll. */
  lemma Leaves(s: State) returns (t: State)
    requires Usable(s) && s.pollers == [SubRef]
    ensures Usable(t)
    ensures t == s.(word := s.word.DropRef().DropRef(), pollers := [Away], log := Left(s))
  {
    assert Apply(s, PollStep(0, None))
           == s.(word := s.word.DropRef(), pollers := [DropOwn], log := s.log.(pollSubs := s.log.pollSubs + 1));
    t := Next(Init, TryHandle, s, PollStep(0, None));
    t := DropsOwn(s, t);
  }

  lemma DropsOwn(s: State, u: State) returns (t: State)
    requires Usable(u)
    requires u == s.(word := s.word.DropRef(), pollers := [DropOwn], log := s.log.(pollSubs := s.log.pollSubs + 1))
    ensures Usable(t)
    ensures t == s.(word := s.word.DropRef().DropRef(), pollers := [Away], log := Left(s))
  {
    assert Apply(u, PollStep(0, None)) == u.(word := u.word.DropRef(), pollers := [Away], log := Left(s));
    t := Next(Init, TryHandle, u, PollStep(0, None));
  }

  /** A whole poll of a future that is pending. */
  lemma PendingPoll(s: State) returns (t: State)
    requires Usable(s) && s.pollers == [Away] && s.queued > 0
    ensures Usable(t) && t.pollers == [Away] && t.queued == s.queued - 1
    ensures t.word == s.word.DropRef().DropRef() && t.live == s.live && t.wakers == s.wakers
    ensures t.log.polls == s.log.polls + 1 && t.log.entered == s.log.entered + 1 && t.log.lost == s.log.lost
  {
    t := Enters(s);
    t := Pends(t);
    t := Leaves(t);
  }

  function Left(s: State): Log {
    s.log.(pollSubs := s.log.pollSubs + 1, wakerDrops := s.log.wakerDrops + 1, ended := s.log.ended + 1,
           deallocs := if GivesBack(s.word.DropRef()) then s.log.deallocs + 1 else s.log.deallocs)
  }

  // ----- references -----

  /** The first poll takes the count from one below zero. */
  lemma FirstPollWraps() returns (s: State)
    ensures Usable(s) && s.word.refs == 0xFFFF && s.pollers == [Away] && s.log.polls == 1
  {
    s := FirstPollPends([]);
  }

  lemma FirstPollPends(wakers: seq<WakerPc>) returns (s: State)
    requires wakers == [] || wakers == [Out]
    ensures Usable(s) && s.pollers == [Away] && s.queued == 0 && s.live == 0 && s.wakers == wakers
    ensures s.word.refs == 0xFFFF && s.word.phase == Idle && !s.word.aborted && s.log.polls == 1
  {
    s := Spawned(wakers, []);
    s := PendingPoll(s);
  }

  /** The future makes two clones and is ready; one clone is dropped, and the memory is given
      back under the other. */
  lemma FreedWithCloneAlive() returns (s: State)
    ensures Usable(s) && s.log.deallocs == 1 && s.live == 1 && s.pollers == [Away]
  {
    s := ClonedTwice();
    s := Completes(s);
    s := Leaves(s);
    s := Next(Init, TryHandle, s, DropWaker);
  }

  lemma ClonedTwice() returns (s: State)
    ensures Usable(s) && s.pollers == [Polling] && s.word == NEW.(refs := 3) && s.live == 2 && s.log.deallocs == 0
  {
    s := Spawned([], []);
    s := Enters(s);
    s := Clones(s);
    assert s.word == NEW.(refs := 2);
    s := Clones(s);
  }

  /** The future makes no clone and is ready: the memory is never given back. */
  lemma NeverFreed() returns (s: State)
    ensures Usable(s) && Abandoned(s) && s.word.phase == Complete && s.log.deallocs == 0
  {
    s := Spawned([], []);
    s := Enters(s);
    s := Completes(s);
    s := Leaves(s);
  }

  /** The future makes one clone and is ready, the clone is used up by a wake, and the end of
      the poll gives the memory back when nobody refers to it any more. */
  lemma FreedInTime() returns (s: State)
    ensures Usable(s) && Abandoned(s) && s.log.deallocs == 1 && s.log.consumed == 1
  {
    s := ClonedOnce();
    s := Completes(s);
    s := WakesInVain(s);
    s := Leaves(s);
  }

  lemma ClonedOnce() returns (s: State)
    ensures Usable(s) && s.pollers == [Polling] && s.word == NEW.(refs := 2) && s.wakers == [Out]
    ensures s.live == 1 && s.manuals == 0 && s.queued == 0 && s.log.deallocs == 0 && s.log.consumed == 0
  {
    s := Spawned([Out], []);
    s := Enters(s);
    s := Clones(s);
  }

  lemma WakesInVain(s: State) returns (t: State)
    requires Usable(s) && s.wakers == [Out] && s.live > 0 && s.word.phase == Complete
    ensures Usable(t) && t == s.(live := s.live - 1, log := s.log.(consumed := s.log.consumed + 1))
  {
    assert Apply(s, Consume(0))
           == s.(live := s.live - 1, wakers := [Again], log := s.log.(consumed := s.log.consumed + 1));
    t := Next(Init, TryHandle, s, Consume(0));
    assert Apply(t, WakeStep(0, false)) == t.(wakers := [Out]);
    t := Next(Init, TryHandle, t, WakeStep(0, false));
  }

  // ----- the join waker -----

  /** The joiner's poll up to the point where it stores its waker. */
  lemma Registers(s: State) returns (t: State)
    requires Usable(s) && s.join == Resting && !Done(s.word) && s.aborters == []
    ensures Usable(t)
    ensures t == s.(word := s.word.(joinInterest := true), join := Store(s.word.phase), result := Nothing,
                    log := s.log.(start := s.word, missed := false, abortMissed := false))
  {
    t := s;
    assert Apply(t, JoinStep)
           == s.(join := Interest, result := Nothing, log := s.log.(start := s.word, abortMissed := false));
    t := Next(Init, TryHandle, t, JoinStep);
    assert Apply(t, JoinStep)
           == t.(word := s.word.(joinInterest := true), join := Store(s.word.phase), log := t.log.(missed := false));
    t := Next(Init, TryHandle, t, JoinStep);
  }

  /** The task completes, the handle's poll returned Pending, its waker sits in the slot,
      and nothing but an abort can wake it. */
  lemma JoinWakeCanBeLost() returns (s: State)
    ensures Usable(s) && s.result == Pending && s.word.phase == Complete && !s.word.aborted
    ensures s.joinWaker && !s.log.woken && s.log.missed
    ensures !CanBeWoken(TryAsleep, s)
  {
    s := Spawned([Out], []);
    s := Enters(s);
    s := Writes(s);
    s := Registers(s);
    s := CompletesMeanwhile(s);
    UsableIsReachable(s);
    JoinerCanWakeIff(s);
  }

  lemma CompletesMeanwhile(s: State) returns (t: State)
    requires Usable(s) && s.pollers == [Mark] && s.join == Store(Idle) && s.word.joinInterest
    requires s.word == NEW.(joinInterest := true) && s.queued == 0 && s.aborters == [] && s.wakers == [Out]
    requires !s.log.woken && !s.joinWaker
    ensures Usable(t)
    ensures t.result == Pending && t.word.phase == Complete && !t.word.aborted && t.joinWaker && !t.log.woken
    ensures t.log.missed && t.queued == 0 && t.pollers == [Away] && t.aborters == [] && t.wakers == [Out]
  {
    t := s;
    assert Apply(t, PollStep(0, None)) == t.(word := t.word.(phase := Complete), pollers := [TakeWaker]);
    t := Next(Init, TryHandle, t, PollStep(0, None));
    assert Apply(t, PollStep(0, None)) == t.(pollers := [SubRef], log := t.log.(missed := true));
    t := Next(Init, TryHandle, t, PollStep(0, None));
    assert Apply(t, JoinStep) == t.(joinWaker := true, join := Resting, result := Pending);
    t := Next(Init, TryHandle, t, JoinStep);
    t := Leaves(t);
  }

  // ----- the join poll -----

  /** A wake by reference, from its call to its call of the scheduler. */
  lemma Schedules(s: State) returns (t: State)
    requires Usable(s) && s.wakers == [Out] && s.word.phase == Idle && !s.word.aborted && HasWaker(s)
    ensures Usable(t)
    ensures t == s.(word := s.word.(phase := Scheduled), queued := s.queued + 1,
                    log := s.log.(transitions := s.log.transitions + 1, schedules := s.log.schedules + 1))
  {
    t := s;
    assert Apply(t, WakeStep(0, false)) == s.(wakers := [Again]);
    t := Next(Init, TryHandle, t, WakeStep(0, false));
    assert Apply(t, WakeStep(0, false)) == s.(wakers := [Loaded(s.word)]);
    t := Next(Init, TryHandle, t, WakeStep(0, false));
    t := Installs(s, t);
  }

  lemma Installs(s: State, u: State) returns (t: State)
    requires Usable(u) && s.wakers == [Out] && u == s.(wakers := [Loaded(s.word)])
    ensures Usable(t)
    ensures t == s.(word := s.word.(phase := Scheduled), queued := s.queued + 1,
                    log := s.log.(transitions := s.log.transitions + 1, schedules := s.log.schedules + 1))
  {
    assert Apply(u, WakeStep(0, false))
           == u.(word := s.word.(phase := Scheduled), wakers := [Won],
                 log := u.log.(transitions := u.log.transitions + 1));
    t := Next(Init, TryHandle, u, WakeStep(0, false));
    t := Queues(t);
  }

  lemma Queues(s: State) returns (t: State)
    requires Usable(s) && s.wakers == [Won]
    ensures Usable(t)
    ensures t == s.(queued := s.queued + 1, wakers := [Out], log := s.log.(schedules := s.log.schedules + 1))
  {
    assert Apply(s, WakeStep(0, false))
           == s.(queued := s.queued + 1, wakers := [Out], log := s.log.(schedules := s.log.schedules + 1));
    t := Next(Init, TryHandle, s, WakeStep(0, false));
  }

  /** A future that wakes itself in its first poll, and a join poll told complete of it while
      it is still being polled. */
  lemma JoinPollCanSpin() returns (s: State)
    ensures Usable(s) && s.join == Reload && !Done(s.word) && s.pollers == [Polling] && s.output == None
    ensures forall n: nat :: JoinAlone(s, 3 * n).join == Reload
  {
    s := Spawned([Out], []);
    s := Enters(s);
    assert s.pollers[0] == Polling;
    s := Schedules(s);
    s := Registers(s);
    s := Next(Init, TryHandle, s, JoinStep);
    UsableIsReachable(s);
    forall n: nat ensures JoinAlone(s, 3 * n).join == Reload {
      if n > 0 { CompleteAnswerSpins(s, n); }
    }
  }

  // ----- polls -----

  /** A task aborted before its first poll runs to completion: it is still queued. */
  lemma AbortedTaskStillRuns() returns (s: State, t: State)
    ensures Usable(s) && s.word.aborted && s.log.polls == 0 && s.output == None
    ensures Leads(TryHandle, s, t) && t.output == Some(5) && t.word.phase == Complete
  {
    s := AbortedWhileQueued();
    t := RunsAnyway(s);
    assert Apply(t, PollStep(0, Some(5))) == t.(pollers := [Write(5)]);
    t := Onward(TryHandle, s, t, PollStep(0, Some(5)));
    assert Apply(t, PollStep(0, None)) == t.(output := Some(5), pollers := [Mark], log := t.log.(written := {5}));
    t := Onward(TryHandle, s, t, PollStep(0, None));
    t := Onward(TryHandle, s, t, PollStep(0, None));
  }

  lemma AbortedWhileQueued() returns (s: State)
    ensures Usable(s)
    ensures s == State(NEW.(aborted := true), None, false, 1, 0, 0, [], [Away], [Check], Resting, Nothing, NewLog(NEW))
  {
    s := Spawned([], [NotAborting]);
    assert Apply(s, AbortStep(0)) == s.(word := NEW.(aborted := true), aborters := [Check]);
    s := Next(Init, TryHandle, s, AbortStep(0));
  }

  lemma RunsAnyway(s: State) returns (t: State)
    requires s.pollers == [Away] && s.queued == 1
    ensures Leads(TryHandle, s, t)
    ensures t == s.(queued := 0, pollers := [Polling],
                    log := s.log.(polls := s.log.polls + 1, entered := s.log.entered + 1))
  {
    LeadsNowhere(TryHandle, s);
    assert Apply(s, PollStep(0, None))
           == s.(queued := 0, pollers := [Begun], log := s.log.(polls := s.log.polls + 1));
    t := Onward(TryHandle, s, s, PollStep(0, None));
    assert Apply(t, PollStep(0, None))
           == t.(pollers := [Polling], log := t.log.(entered := t.log.entered + 1));
    t := Onward(TryHandle, s, t, PollStep(0, None));
  }

  /** A future that keeps a clone of its waker, is pending, woken, and pending again: however
      often it is woken after that, it is never polled again, and the task never completes. */
  lemma PendingTwiceIsStuck() returns (s: State)
    ensures Usable(s) && !Done(s.word) && s.log.entered == 2 && s.log.lost == 0
    ensures s.live == 1 && s.wakers == [Out] // the clone is still there to wake
    ensures !CanBeEntered(s) && !CanComplete(s)
  {
    s := Spawned([Out], []);
    s := PendsWithClone(s);
    s := Schedules(s);
    s := PendingPoll(s);
    UsableIsReachable(s);
    EnteredAgainIff(s);
    CompletesIff(s);
  }

  lemma PendsWithClone(s: State) returns (t: State)
    requires Usable(s) && s.pollers == [Away] && s.queued == 1 && s.word == NEW && s.live == 0
    requires s.log == NewLog(NEW)
    ensures Usable(t)
    ensures t.word.phase == Idle && !t.word.aborted && t.pollers == [Away] && t.queued == 0 && t.live == 1
    ensures t.wakers == s.wakers && t.log.entered == 1 && t.log.lost == 0
  {
    t := Enters(s);
    t := Clones(t);
    t := Pends(t);
    t := Leaves(t);
  }

  /** A future that is pending and keeps no waker is, as it should be, never polled again. */
  lemma PendingWithoutWaker() returns (s: State)
    ensures Usable(s) && s.word.phase == Idle && !s.word.aborted && s.live == 0 && s.wakers == [Out]
    ensures !CanBeEntered(s) && !CanComplete(s)
  {
    s := FirstPollPends([Out]);
    UsableIsReachable(s);
    EnteredAgainIff(s);
    CompletesIff(s);
  }
}
