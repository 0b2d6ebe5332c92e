/** What each operation on the task header does when its thread runs undisturbed, from call
    to return, as one change of the state. */
module TaskAlone {
  import opened Options
  import opened Runs
  import opened TaskWord
  import opened TaskModel

  // ----- a poll -----

  /** Poller p alone, with future.poll returning `ready`. */
  function TryPoller(p: nat, ready: Option<Output>): (State, Action) -> Option<State> {
    (s: State, a: Action) => if a == PollStep(p, ready) then Try(s, a) else None
  }

  lemma PollHop(s: State, p: nat, ready: Option<Output>, u: State, t: State)
    requires PollEnabled(s, p) && PollApply(s, p, ready) == u && Leads(TryPoller(p, ready), u, t)
    ensures Leads(TryPoller(p, ready), s, t)
  {
    assert TryPoller(p, ready)(s, PollStep(p, ready)) == Try(s, PollStep(p, ready));
    LeadsFirst(TryPoller(p, ready), s, PollStep(p, ready), t);
  }

  /** Poller p at pc, everything else as in b. */
  function Put(b: State, p: nat, pc: PollPc): State
    requires p < |b.pollers|
  {
    b.(pollers := b.pollers[p := pc])
  }

  lemma PutTwice(b: State, p: nat, x: PollPc, y: PollPc)
    requires p < |b.pollers|
    ensures Put(Put(b, p, x), p, y) == Put(b, p, y)
  {
    assert b.pollers[p := x][p := y] == b.pollers[p := y];
  }

  lemma PutBack(b: State, p: nat)
    requires p < |b.pollers|
    ensures Put(b, p, b.pollers[p]) == b
  {
    assert b.pollers[p := b.pollers[p]] == b.pollers;
  }

  /** A poll's two references given up, with the deallocation test at the second. */
  function GaveUpTwo(b: State): State {
    var one := b.word.DropRef();
    b.(word := one.DropRef(),
       log := b.log.(pollSubs := b.log.pollSubs + 1, wakerDrops := b.log.wakerDrops + 1, ended := b.log.ended + 1,
                     deallocs := if one.refs == 1 && one.phase == Complete then b.log.deallocs + 1
                                 else b.log.deallocs))
  }

  lemma Ends(b: State, p: nat, ready: Option<Output>, t: State)
    requires p < |b.pollers| && t == Put(GaveUpTwo(b), p, Away)
    ensures Leads(TryPoller(p, ready), Put(b, p, SubRef), t)
  {
    var m := b.(word := b.word.DropRef(), log := b.log.(pollSubs := b.log.pollSubs + 1));
    LeadsNowhere(TryPoller(p, ready), t);
    PutTwice(m, p, DropOwn, Away);
    assert PollApply(Put(m, p, DropOwn), p, ready) == t;
    PollHop(Put(m, p, DropOwn), p, ready, t, t);
    PutTwice(b, p, SubRef, DropOwn);
    PollHop(Put(b, p, SubRef), p, ready, Put(m, p, DropOwn), t);
  }

  /** The beginning: off the queue and into the future. */
  function Entered(s: State): State
    requires s.queued > 0
  {
    s.(queued := s.queued - 1, log := s.log.(polls := s.log.polls + 1, entered := s.log.entered + 1))
  }

  lemma Begins(s: State, p: nat, ready: Option<Output>, t: State)
    requires p < |s.pollers| && s.pollers[p] == Away && s.queued > 0
    requires Leads(TryPoller(p, ready), Put(Entered(s), p, Polling), t)
    ensures Leads(TryPoller(p, ready), s, t)
  {
    var b := s.(queued := s.queued - 1, log := s.log.(polls := s.log.polls + 1));
    PutTwice(b, p, Begun, Polling);
    PollHop(Put(b, p, Begun), p, ready, Put(Entered(s), p, Polling), t);
    PollHop(s, p, ready, Put(b, p, Begun), t);
  }

  /** Polling a future that is pending takes a queue entry and two references, and changes
      nothing else. */
  lemma PendingPollAlone(s: State, p: nat) returns (t: State)
    requires p < |s.pollers| && s.pollers[p] == Away && s.queued > 0
    ensures Leads(TryPoller(p, None), s, t) && t == GaveUpTwo(Entered(s))
  {
    var b := Entered(s);
    t := GaveUpTwo(b);
    PutBack(t, p);
    Ends(b, p, None, t);
    PutTwice(b, p, Polling, SubRef);
    PollHop(Put(b, p, Polling), p, None, Put(b, p, SubRef), t);
    Begins(s, p, None, t);
  }

  /** The state with the join waker taken and woken, if there is interest. */
  function Told(b: State): State {
    if b.word.joinInterest then b.(joinWaker := false, log := b.log.(woken := b.log.woken || b.joinWaker)) else b
  }

  /** What a completer leaves when it has looked for the join waker, and the joiner is about to
      store one. */
  function Looked(b: State): State {
    var t := Told(b);
    t.(log := t.log.(missed := t.log.missed || (b.word.joinInterest && b.join.Store?)))
  }

  lemma Tells(b: State, p: nat, v: Output, t: State)
    requires p < |b.pollers|
    requires Leads(TryPoller(p, Some(v)), Put(Looked(b).(word := b.word.(phase := Complete)), p, SubRef), t)
    ensures Leads(TryPoller(p, Some(v)), Put(b, p, Mark), t)
  {
    var c := b.(word := b.word.(phase := Complete));
    if b.word.joinInterest {
      PutTwice(c, p, TakeWaker, SubRef);
      PollHop(Put(c, p, TakeWaker), p, Some(v), Put(Looked(b).(word := b.word.(phase := Complete)), p, SubRef), t);
      PutTwice(b, p, Mark, TakeWaker);
      PollHop(Put(b, p, Mark), p, Some(v), Put(c, p, TakeWaker), t);
    } else {
      PutTwice(b, p, Mark, SubRef);
      PollHop(Put(b, p, Mark), p, Some(v), Put(c, p, SubRef), t);
    }
  }

  /** Polling a future that is ready with v stores v, completes the task, wakes the joiner if
      it registered, and takes a queue entry and two references. */
  lemma ReadyPollAlone(s: State, p: nat, v: Output) returns (t: State)
    requires p < |s.pollers| && s.pollers[p] == Away && s.queued > 0
    ensures Leads(TryPoller(p, Some(v)), s, t)
    ensures t.output == Some(v) && t.word == s.word.(phase := Complete).DropRef().DropRef()
    ensures t.joinWaker == (s.joinWaker && !s.word.joinInterest)
    ensures t.log.woken == (s.log.woken || (s.joinWaker && s.word.joinInterest))
    ensures t.pollers == s.pollers && t.wakers == s.wakers && t.aborters == s.aborters && t.queued == s.queued - 1
    ensures t.join == s.join && t.result == s.result && t.live == s.live && t.manuals == s.manuals
  {
    var b := Entered(s).(output := Some(v), log := Entered(s).log.(written := s.log.written + {v}));
    var c := Looked(b).(word := b.word.(phase := Complete));
    t := GaveUpTwo(c);
    PutBack(t, p);
    Ends(c, p, Some(v), t);
    Tells(b, p, v, t);
    var e := Entered(s);
    PutTwice(e, p, Write(v), Mark);
    PollHop(Put(e, p, Write(v)), p, Some(v), Put(b, p, Mark), t);
    PutTwice(e, p, Polling, Write(v));
    PollHop(Put(e, p, Polling), p, Some(v), Put(e, p, Write(v)), t);
    Begins(s, p, Some(v), t);
  }

  // ----- a poll of the join handle -----

  function TryJoiner(): (State, Action) -> Option<State> {
    (s: State, a: Action) => if a.JoinStep? || a.JoinDrop? then Try(s, a) else None
  }

  lemma JoinHop(s: State, u: State, t: State)
    requires s.join != Gone && JoinApply(s) == u && Leads(TryJoiner(), u, t)
    ensures Leads(TryJoiner(), s, t)
  {
    assert TryJoiner()(s, JoinStep) == Try(s, JoinStep);
    LeadsFirst(TryJoiner(), s, JoinStep, t);
  }

  /** What the handle is told of a task that nobody else touches meanwhile. */
  function Answer(s: State): JoinResult
    requires s.word.phase == Complete ==> s.output.Some?
  {
    if s.word.aborted then JoinResult.Aborted
    else if s.word.phase == Complete then Ok(s.output.value)
    else Pending
  }

  /** A poll of the handle of a complete, aborted or idle task gives that answer; only to say
      Pending does it change anything: it sets the interest flag and leaves its waker. */
  lemma JoinPollAlone(s: State) returns (t: State)
    requires s.join == Resting && (s.word.phase == Complete ==> s.output.Some?)
    requires Done(s.word) || s.word.phase == Idle
    ensures Leads(TryJoiner(), s, t) && t.join == Resting && t.result == Answer(s)
    ensures Done(s.word) ==> t == s.(result := Answer(s), log := s.log.(start := s.word))
    ensures !Done(s.word) ==>
              && t.word == s.word.(joinInterest := true) && t.joinWaker && !t.log.woken
              && t == s.(word := t.word, joinWaker := true, result := Pending, log := t.log)
  {
    var a := s.(result := Nothing, log := s.log.(start := s.word));
    if s.word.phase == Complete {
      t := ReadsOutput(s, a);
    } else if s.word.aborted {
      t := a.(result := JoinResult.Aborted);
      LeadsNowhere(TryJoiner(), t);
      JoinHop(s, t, t);
    } else {
      t := Registers(s, a);
    }
  }

  lemma ReadsOutput(s: State, a: State) returns (t: State)
    requires s.join == Resting && s.word.phase == Complete && s.output.Some?
    requires a == s.(result := Nothing, log := s.log.(start := s.word))
    ensures Leads(TryJoiner(), s, t) && t == a.(result := Answer(s))
  {
    t := a.(result := Answer(s));
    LeadsNowhere(TryJoiner(), t);
    var r := a.(join := Read(s.word));
    if s.word.aborted {
      JoinHop(r, t, t);
    } else {
      JoinHop(a.(join := Copy), t, t);
      JoinHop(r, a.(join := Copy), t);
    }
    JoinHop(s, r, t);
  }

  lemma Registers(s: State, a: State) returns (t: State)
    requires s.join == Resting && s.word.phase == Idle && !s.word.aborted
    requires a == s.(result := Nothing, log := s.log.(start := s.word))
    ensures Leads(TryJoiner(), s, t) && t.join == Resting && t.result == Pending
    ensures t.word == s.word.(joinInterest := true) && t.joinWaker && !t.log.woken
    ensures t == s.(word := t.word, joinWaker := true, result := Pending, log := t.log)
  {
    var b := a.(join := Interest, log := a.log.(abortMissed := false));
    var c := b.(word := s.word.(joinInterest := true), join := Store(Idle), log := b.log.(missed := false));
    t := c.(joinWaker := true, log := c.log.(woken := false), join := Resting, result := Pending);
    LeadsNowhere(TryJoiner(), t);
    JoinHop(c, t, t);
    JoinHop(b, c, t);
    JoinHop(s, b, t);
  }

  // ----- dropping the handle -----

  /** Dropping the handle of a complete task clears the interest flag and the waker slot;
      dropping that of any other task leaves both. */
  lemma DropAlone(s: State) returns (t: State)
    requires s.join == Resting
    ensures Leads(TryJoiner(), s, t)
    ensures t == if s.word.phase == Complete
                 then s.(word := s.word.(joinInterest := false), joinWaker := false, join := Gone, result := Nothing)
                 else s.(join := Gone, result := Nothing)
  {
    var a := s.(result := Nothing);
    assert TryJoiner()(s, JoinDrop) == Try(s, JoinDrop);
    if s.word.phase == Complete {
      var b := a.(word := s.word.(joinInterest := false), join := DropTake);
      t := b.(joinWaker := false, join := Gone);
      LeadsNowhere(TryJoiner(), t);
      JoinHop(b, t, t);
      JoinHop(a.(join := DropClear), b, t);
    } else {
      t := a.(join := Gone);
      LeadsNowhere(TryJoiner(), t);
    }
    LeadsFirst(TryJoiner(), s, JoinDrop, t);
  }

  // ----- an abort -----

  function TryAborter(k: nat): (State, Action) -> Option<State> {
    (s: State, a: Action) => if a == AbortStep(k) then Try(s, a) else None
  }

  lemma AbortHop(s: State, k: nat, u: State, t: State)
    requires k < |s.aborters| && AbortApply(s, k) == u && Leads(TryAborter(k), u, t)
    ensures Leads(TryAborter(k), s, t)
  {
    assert TryAborter(k)(s, AbortStep(k)) == Try(s, AbortStep(k));
    LeadsFirst(TryAborter(k), s, AbortStep(k), t);
  }

  /** An abort sets the flag, and wakes the joiner if it registered. */
  lemma AbortAlone(s: State, k: nat) returns (t: State)
    requires k < |s.aborters| && s.aborters[k] == NotAborting
    ensures Leads(TryAborter(k), s, t)
    ensures var b := Told(s);
            t == b.(word := s.word.(aborted := true),
                    log := b.log.(abortMissed := b.log.abortMissed || Registering(s.join)))
  {
    var d := Told(s);
    t := d.(word := s.word.(aborted := true), log := d.log.(abortMissed := d.log.abortMissed || Registering(s.join)));
    var a := s.(word := s.word.(aborted := true), aborters := s.aborters[k := Check]);
    LeadsNowhere(TryAborter(k), t);
    assert s.aborters[k := Check][k := NotAborting] == s.aborters;
    if s.word.joinInterest {
      var b := a.(aborters := s.aborters[k := AbortTake]);
      assert s.aborters[k := AbortTake][k := NotAborting] == s.aborters;
      AbortHop(b, k, t, t);
      assert a.aborters[k := AbortTake] == s.aborters[k := AbortTake];
      AbortHop(a, k, b, t);
    } else {
      AbortHop(a, k, t, t);
    }
    AbortHop(s, k, a, t);
  }

  // ----- a wake -----

  function TryWaker(i: nat): (State, Action) -> Option<State> {
    (s: State, a: Action) => if a == WakeStep(i, false) || a == Consume(i) then Try(s, a) else None
  }

  lemma WakeHop(s: State, i: nat, u: State, t: State)
    requires WakeEnabled(s, i) && WakeApply(s, i, false) == u && Leads(TryWaker(i), u, t)
    ensures Leads(TryWaker(i), s, t)
  {
    assert TryWaker(i)(s, WakeStep(i, false)) == Try(s, WakeStep(i, false));
    LeadsFirst(TryWaker(i), s, WakeStep(i, false), t);
  }

  function PutWaker(b: State, i: nat, pc: WakerPc): State
    requires i < |b.wakers|
  {
    b.(wakers := b.wakers[i := pc])
  }

  lemma PutWakerTwice(b: State, i: nat, x: WakerPc, y: WakerPc)
    requires i < |b.wakers|
    ensures PutWaker(PutWaker(b, i, x), i, y) == PutWaker(b, i, y)
  {
    assert b.wakers[i := x][i := y] == b.wakers[i := y];
  }

  /** The task queued once more, by its one move from idle to scheduled. */
  function Queued(b: State): State {
    b.(word := b.word.(phase := Scheduled), queued := b.queued + 1,
       log := b.log.(transitions := b.log.transitions + 1, schedules := b.log.schedules + 1))
  }

  lemma WakeFromLoad(b: State, i: nat, t: State)
    requires i < |b.wakers|
    requires t == PutWaker(if b.word.phase == Idle && !b.word.aborted then Queued(b) else b, i, Out)
    ensures Leads(TryWaker(i), PutWaker(b, i, Again), t)
  {
    LeadsNowhere(TryWaker(i), t);
    if b.word.phase == Idle && !b.word.aborted {
      var c := b.(word := b.word.(phase := Scheduled), log := b.log.(transitions := b.log.transitions + 1));
      PutWakerTwice(Queued(b), i, Won, Out);
      PutWakerTwice(c, i, Won, Out);
      WakeHop(PutWaker(c, i, Won), i, t, t);
      PutWakerTwice(b, i, Loaded(b.word), Won);
      WakeHop(PutWaker(b, i, Loaded(b.word)), i, PutWaker(c, i, Won), t);
      PutWakerTwice(b, i, Again, Loaded(b.word));
      WakeHop(PutWaker(b, i, Again), i, PutWaker(b, i, Loaded(b.word)), t);
    } else {
      PutWakerTwice(b, i, Again, Out);
      WakeHop(PutWaker(b, i, Again), i, t, t);
    }
  }

  /** A wake, by reference or by value, queues the task if it is idle and not aborted, and
      otherwise does nothing to it; by value it uses up a waker besides. */
  lemma WakeAlone(s: State, i: nat, byValue: bool) returns (t: State)
    requires i < |s.wakers| && s.wakers[i] == Out && (if byValue then s.live > 0 else HasWaker(s))
    ensures Leads(TryWaker(i), s, t)
    ensures var b := if byValue then s.(live := s.live - 1, log := s.log.(consumed := s.log.consumed + 1)) else s;
            t == if s.word.phase == Idle && !s.word.aborted then Queued(b) else b
  {
    var b := if byValue then s.(live := s.live - 1, log := s.log.(consumed := s.log.consumed + 1)) else s;
    t := if s.word.phase == Idle && !s.word.aborted then Queued(b) else b;
    assert t.wakers[i := Out] == t.wakers;
    WakeFromLoad(b, i, t);
    if byValue {
      assert TryWaker(i)(s, Consume(i)) == Try(s, Consume(i));
      assert Apply(s, Consume(i)) == PutWaker(b, i, Again);
      LeadsFirst(TryWaker(i), s, Consume(i), t);
    } else {
      WakeHop(s, i, PutWaker(b, i, Again), t);
    }
  }
}
