/** What a park and an unpark do when nobody else moves, from call to return; and what the
    argument of the call decides over every run up to the return. */
module ParkAlone {
  import opened Options
  import opened Runs
  import opened ParkModel
  import opened ParkTheorems

  // ----- the argument of the call -----

  /** The run of one park at most: no further call. */
  predicate NoCall(acts: seq<Action>) { forall k :: 0 <= k < |acts| ==> !acts[k].Park? }

  lemma TimedStep(s: State, a: Action)
    requires Enabled(s, a) && !a.Park?
    ensures Apply(s, a).timed == s.timed
  {
  }

  lemma {:induction false} TimedAlong(s: State, acts: seq<Action>)
    requires NoCall(acts) && Runnable(Try, s, acts)
    ensures Exec(Try, s, acts).timed == s.timed
    decreases |acts|
  {
    if acts != [] {
      TimedStep(s, acts[0]);
      TimedAlong(Apply(s, acts[0]), acts[1..]);
    }
  }

  /** A wait of park_timeout(Some(d)) can time out, one of park() cannot, whatever happened
      since the call. */
  lemma TimesOutIffAsked(s: State, timed: bool, acts: seq<Action>)
    requires Enabled(s, Park(timed)) && NoCall(acts) && Runnable(Try, Apply(s, Park(timed)), acts)
    ensures var t := Exec(Try, Apply(s, Park(timed)), acts);
            t.owner == Waiting ==> (Enabled(t, TimeOut) <==> timed)
  {
    TimedAlong(Apply(s, Park(timed)), acts);
  }

  /** So a call with a time-out is never stuck: at every point of every run after it, it has
      returned, or can move by itself, or waits for the mutex held by an unparker that can
      move. */
  lemma TimedCallNeverStuck(s: State, acts: seq<Action>)
    requires Reachable(s) && s.owner == Away && NoCall(acts) && Runnable(Try, Apply(s, Park(true)), acts)
    ensures var t := Exec(Try, Apply(s, Park(true)), acts);
            || t.owner == Away || Enabled(t, OwnerStep) || Enabled(t, TimeOut)
            || (t.mutex.ByUnparker? && Enabled(t, Unpark(t.mutex.i)) && t.unparkers[t.mutex.i] != Off)
  {
    var p := Apply(s, Park(true));
    var t := Exec(Try, p, acts);
    TimedAlong(p, acts);
    StaysReachable(Init, Try, s, Park(true));
    var s0 :| Init(s0) && Leads(Try, s0, p);
    assert Leads(Try, p, t);
    LeadsOn(Try, s0, p, t);
    if t.owner != Away {
      TimedNeverStuck(t);
    }
  }

  /** `out` says that the wait of this park ended by time-out. */
  predicate Remembers(pc: OwnerPc, out: bool) {
    match pc
    case Woken(b) => b == out
    case DropGuard(b) => b == out
    case CheckTimeout => out
    case StoreEmpty => out
    case Away => true
    case SwapLocked => true
    case Unlock => true
    case Swap => true
    case Unreachable => true
    case _ => !out
  }

  lemma RemembersStep(s: State, a: Action, out: bool)
    requires Enabled(s, a) && !a.Park? && Remembers(s.owner, out)
    ensures Remembers(Apply(s, a).owner, out || a == TimeOut)
  {
  }

  lemma {:induction false} RemembersAlong(s: State, acts: seq<Action>, out: bool)
    requires NoCall(acts) && Runnable(Try, s, acts) && Remembers(s.owner, out)
    ensures Remembers(Exec(Try, s, acts).owner, out || TimeOut in acts)
    decreases |acts|
  {
    if acts != [] {
      RemembersStep(s, acts[0], out);
      RemembersAlong(Apply(s, acts[0]), acts[1..], out || acts[0] == TimeOut);
      assert TimeOut in acts <==> acts[0] == TimeOut || TimeOut in acts[1..];
    }
  }

  /** After the wait, a park takes itself for timed out exactly if it was: it reaches the
      time-out branch, whose store can overwrite a notification, only if it was called with a
      time-out and its wait ended by it. */
  lemma TimeOutBranchOnlyAfterTimeOut(s: State, timed: bool, acts: seq<Action>)
    requires Enabled(s, Park(timed)) && NoCall(acts) && Runnable(Try, Apply(s, Park(timed)), acts)
    ensures var t := Exec(Try, Apply(s, Park(timed)), acts);
            && (t.owner.Woken? || t.owner.DropGuard? ==> (t.owner.timedOut <==> TimeOut in acts))
            && (t.owner == CheckTimeout || t.owner == OwnerPc.StoreEmpty ==> timed && TimeOut in acts)
  {
    RemembersAlong(Apply(s, Park(timed)), acts, false);
    if TimeOut in acts {
      OnlyTimedTimesOut(Apply(s, Park(timed)), acts);
    }
  }

  lemma {:induction false} OnlyTimedTimesOut(s: State, acts: seq<Action>)
    requires NoCall(acts) && Runnable(Try, s, acts) && TimeOut in acts
    ensures s.timed
    decreases |acts|
  {
    if acts[0] != TimeOut {
      TimedStep(s, acts[0]);
      OnlyTimedTimesOut(Apply(s, acts[0]), acts[1..]);
    }
  }

  lemma LostStep(s: State, a: Action)
    requires Enabled(s, a) && s.owner != OwnerPc.StoreEmpty
    ensures Apply(s, a).log.lost == s.log.lost
  {
  }

  /** A park whose wait does not end by time-out loses no notification. */
  lemma {:induction false} NothingLostWithoutTimeOut(s: State, timed: bool, acts: seq<Action>)
    requires Enabled(s, Park(timed)) && NoCall(acts) && Runnable(Try, Apply(s, Park(timed)), acts)
    requires TimeOut !in acts
    ensures Exec(Try, Apply(s, Park(timed)), acts).log.lost == s.log.lost
  {
    NothingLostAlong(Apply(s, Park(timed)), acts);
  }

  lemma {:induction false} NothingLostAlong(s: State, acts: seq<Action>)
    requires NoCall(acts) && Runnable(Try, s, acts) && TimeOut !in acts && Remembers(s.owner, false)
    ensures Exec(Try, s, acts).log.lost == s.log.lost
    decreases |acts|
  {
    if acts != [] {
      LostStep(s, acts[0]);
      RemembersStep(s, acts[0], false);
      NothingLostAlong(Apply(s, acts[0]), acts[1..]);
    }
  }

  // ----- a park alone -----

  /** The parking thread with its argument, and no unpark. */
  function TryParker(timed: bool): (State, Action) -> Option<State> {
    (s: State, a: Action) => if a == Park(timed) || a == OwnerStep || a == TimeOut then Try(s, a) else None
  }

  lemma Hop(timed: bool, s: State, u: State, t: State)
    requires OwnerEnabled(s) && OwnerApply(s) == u && Leads(TryParker(timed), u, t)
    ensures Leads(TryParker(timed), s, t)
  {
    assert TryParker(timed)(s, OwnerStep) == Try(s, OwnerStep);
    LeadsFirst(TryParker(timed), s, OwnerStep, t);
  }

  lemma Called(timed: bool, s: State, t: State)
    requires Enabled(s, Park(timed)) && Leads(TryParker(timed), s.(timed := timed, owner := Loop(s.state)), t)
    ensures Leads(TryParker(timed), s, t)
  {
    assert TryParker(timed)(s, Park(timed)) == Try(s, Park(timed));
    LeadsFirst(TryParker(timed), s, Park(timed), t);
  }

  /** With a token pending, a park takes it and returns at once. */
  lemma PendingTokenParkAlone(s: State, timed: bool) returns (t: State)
    requires Enabled(s, Park(timed)) && s.state == Notified
    ensures Leads(TryParker(timed), s, t)
    ensures t == s.(timed := timed, state := Empty,
                    log := s.log.(ends := s.log.ends + 1, consumed := s.log.consumed + 1))
  {
    t := s.(timed := timed, state := Empty, log := s.log.(ends := s.log.ends + 1, consumed := s.log.consumed + 1));
    LeadsNowhere(TryParker(timed), t);
    Hop(timed, s.(timed := timed, owner := Loop(Notified)), t, t);
    Called(timed, s, t);
  }

  /** The parker that has announced itself and waits. */
  function Asleep(s: State, timed: bool): State {
    s.(timed := timed, state := Parked, round := s.round + 1, owner := Waiting, log := s.log.(missed := false))
  }

  lemma FallsAsleep(s: State, timed: bool, t: State)
    requires Enabled(s, Park(timed)) && s.state == Empty && s.mutex == Free
    requires Leads(TryParker(timed), Asleep(s, timed), t)
    ensures Leads(TryParker(timed), s, t)
  {
    var p := Asleep(s, timed);
    Hop(timed, p.(owner := HasMutex, mutex := ByOwner), p, t);
    Hop(timed, p.(owner := WantMutex), p.(owner := HasMutex, mutex := ByOwner), t);
    Hop(timed, s.(timed := timed, owner := Loop(Empty)), p.(owner := WantMutex), t);
    Called(timed, s, t);
  }

  /** Without a token a park ends up waiting with PARKED stored and the mutex free, and from
      there only a time-out, if one was asked for, ends it. */
  lemma TokenlessParkAlone(s: State, timed: bool) returns (t: State)
    requires Enabled(s, Park(timed)) && s.state == Empty && s.mutex == Free
    ensures Leads(TryParker(timed), s, t) && t == Asleep(s, timed)
    ensures forall a :: TryParker(timed)(t, a).Some? <==> a == TimeOut && timed
  {
    t := Asleep(s, timed);
    LeadsNowhere(TryParker(timed), t);
    FallsAsleep(s, timed, t);
  }

  /** After the wait, with nobody else about, either parker takes the token if there is one and
      returns with the state EMPTY, whether it timed out or not: nothing is lost. */
  lemma ReturnAlone(s: State) returns (t: State)
    requires s.owner.Woken? && s.mutex == Free && s.state != Empty
    ensures Leads(TryParker(s.timed), s, t)
    ensures t == s.(state := Empty, owner := Away,
                    log := s.log.(ends := s.log.ends + 1,
                                  consumed := s.log.consumed + if s.state == Notified then 1 else 0))
  {
    t := s.(state := Empty, owner := Away,
            log := s.log.(ends := s.log.ends + 1,
                          consumed := s.log.consumed + if s.state == Notified then 1 else 0));
    var f := TryParker(s.timed);
    LeadsNowhere(f, t);
    if s.kind == ThreadPark {
      Hop(s.timed, t.(owner := Unlock, mutex := ByOwner), t, t);
      Hop(s.timed, s.(owner := SwapLocked, mutex := ByOwner), t.(owner := Unlock, mutex := ByOwner), t);
      Hop(s.timed, s, s.(owner := SwapLocked, mutex := ByOwner), t);
    } else {
      if s.state == Parked {
        Hop(s.timed, s.(owner := OwnerPc.StoreEmpty), t, t);
      }
      Hop(s.timed, s.(owner := Swap), t, t);
      Unguards(s, t);
      Hop(s.timed, s, s.(owner := DropGuard(s.owner.timedOut), mutex := ByOwner), t);
    }
  }

  lemma Unguards(s: State, t: State)
    requires s.owner.Woken? && s.mutex == Free
    requires Leads(TryParker(s.timed), s.(owner := Swap), t)
    requires s.state == Parked ==> Leads(TryParker(s.timed), s.(owner := OwnerPc.StoreEmpty), t)
    ensures Leads(TryParker(s.timed), s.(owner := DropGuard(s.owner.timedOut), mutex := ByOwner), t)
  {
    var g := s.(owner := DropGuard(s.owner.timedOut), mutex := ByOwner);
    if s.timed && s.owner.timedOut {
      if s.state == Parked {
        Hop(s.timed, s.(owner := CheckTimeout), s.(owner := OwnerPc.StoreEmpty), t);
      } else {
        Hop(s.timed, s.(owner := CheckTimeout), s.(owner := Swap), t);
      }
      Hop(s.timed, g, s.(owner := CheckTimeout), t);
    } else {
      Hop(s.timed, g, s.(owner := Swap), t);
    }
  }

  /** A park with a time-out that nobody unparks returns, and leaves the state EMPTY. */
  lemma TimedParkAlone(s: State) returns (t: State)
    requires Enabled(s, Park(true)) && s.state == Empty && s.mutex == Free
    ensures Leads(TryParker(true), s, t)
    ensures t == s.(timed := true, round := s.round + 1,
                    log := s.log.(ends := s.log.ends + 1, missed := false))
  {
    var p := Asleep(s, true);
    var w := p.(owner := Woken(true));
    t := ReturnAlone(w);
    assert TryParker(true)(p, TimeOut) == Try(p, TimeOut);
    LeadsFirst(TryParker(true), p, TimeOut, t);
    FallsAsleep(s, true, t);
  }

  // ----- an unpark alone -----

  function TryUnparker(i: nat): (State, Action) -> Option<State> {
    (s: State, a: Action) => if a == Unpark(i) then Try(s, a) else None
  }

  lemma UnparkHop(s: State, i: nat, u: State, t: State)
    requires UnparkEnabled(s, i) && UnparkApply(s, i) == u && Leads(TryUnparker(i), u, t)
    ensures Leads(TryUnparker(i), s, t)
  {
    assert TryUnparker(i)(s, Unpark(i)) == Try(s, Unpark(i));
    LeadsFirst(TryUnparker(i), s, Unpark(i), t);
  }

  /** An unpark leaves a token, one however often it is called. If the thread was PARKED it
      also notifies, which ends the wait if the thread is in it. */
  lemma UnparkAlone(s: State, i: nat) returns (t: State)
    requires i < |s.unparkers| && s.unparkers[i] == Off && s.mutex == Free
    ensures Leads(TryUnparker(i), s, t)
    ensures t == s.(state := Notified,
                    owner := if s.state == Parked && s.owner == Waiting then Woken(false) else s.owner,
                    log := s.log.(wins := s.log.wins + (if s.state == Notified then 0 else 1),
                                  missed := s.log.missed || (s.state == Parked && s.owner == WantMutex)))
  {
    var a := s.(state := Notified, log := s.log.(wins := s.log.wins + if s.state == Notified then 0 else 1));
    t := a.(owner := if s.state == Parked && s.owner == Waiting then Woken(false) else s.owner,
            log := a.log.(missed := s.log.missed || (s.state == Parked && s.owner == WantMutex)));
    LeadsNowhere(TryUnparker(i), t);
    if s.state == Parked {
      Notifies(s, i, a, t);
    } else {
      UnparkHop(s, i, t, t);
    }
  }

  lemma Notifies(s: State, i: nat, a: State, t: State)
    requires i < |s.unparkers| && s.unparkers[i] == Off && s.mutex == Free && s.state == Parked
    requires a == s.(state := Notified, log := s.log.(wins := s.log.wins + 1))
    requires t == a.(owner := if s.owner == Waiting then Woken(false) else s.owner,
                     log := a.log.(missed := s.log.missed || s.owner == WantMutex))
    requires Leads(TryUnparker(i), t, t)
    ensures Leads(TryUnparker(i), s, t)
  {
    var r, b := s.round, s.owner != WantMutex;
    var us := s.unparkers;
    assert us[i := Told(r, b)][i := Off] == us;
    assert us[i := OweLock(r, b)][i := OweNotify(r, b)] == us[i := OweNotify(r, b)];
    assert us[i := OweNotify(r, b)][i := Told(r, b)] == us[i := Told(r, b)];
    UnparkHop(t.(mutex := ByUnparker(i), unparkers := us[i := Told(r, b)]), i, t, t);
    UnparkHop(a.(mutex := ByUnparker(i), unparkers := us[i := OweNotify(r, b)]), i,
              t.(mutex := ByUnparker(i), unparkers := us[i := Told(r, b)]), t);
    UnparkHop(a.(unparkers := us[i := OweLock(r, b)]), i,
              a.(mutex := ByUnparker(i), unparkers := us[i := OweNotify(r, b)]), t);
    UnparkHop(s, i, a.(unparkers := us[i := OweLock(r, b)]), t);
  }

  // ----- a time-out does overwrite a notification -----

  /** A run in which an unpark comes between the timed-out parker's load and its store: the
      store overwrites NOTIFIED and the next park will not see it. */
  lemma NotificationVanishes() returns (s: State)
    ensures Reachable(s) && s.owner == Away && s.state == Empty
    ensures s.log == Log(1, 0, 1, 1, false)
  {
    s := State(ThreadParker, Empty, false, 0, Away, [Off], Free, Log(0, 0, 0, 0, false));
    assert Init(s);
    LeadsNowhere(Try, s);
    assert Apply(s, Park(true)) == s.(timed := true, owner := Loop(Empty));
    s := Next(Init, Try, s, Park(true));
    assert Apply(s, OwnerStep) == s.(state := Parked, round := 1, owner := WantMutex);
    s := Next(Init, Try, s, OwnerStep);
    assert Apply(s, OwnerStep) == s.(mutex := ByOwner, owner := HasMutex);
    s := Next(Init, Try, s, OwnerStep);
    assert Apply(s, OwnerStep) == s.(mutex := Free, owner := Waiting);
    s := Next(Init, Try, s, OwnerStep);
    assert Apply(s, TimeOut) == s.(owner := Woken(true));
    s := Next(Init, Try, s, TimeOut);
    s := TimesOutUnderUnpark(s);
  }

  lemma TimesOutUnderUnpark(r: State) returns (s: State)
    requires Reachable(r)
    requires r == State(ThreadParker, Parked, true, 1, Woken(true), [Off], Free, Log(0, 0, 0, 0, false))
    ensures Reachable(s) && s.owner == Away && s.state == Empty
    ensures s.log == Log(1, 0, 1, 1, false)
  {
    s := r;
    assert Apply(s, OwnerStep) == s.(mutex := ByOwner, owner := DropGuard(true));
    s := Next(Init, Try, s, OwnerStep);
    assert Apply(s, OwnerStep) == s.(mutex := Free, owner := CheckTimeout);
    s := Next(Init, Try, s, OwnerStep);
    assert Apply(s, OwnerStep) == s.(owner := OwnerPc.StoreEmpty);
    s := Next(Init, Try, s, OwnerStep);
    assert Apply(s, Unpark(0)) == s.(state := Notified, unparkers := [OweLock(1, true)], log := Log(1, 0, 0, 0, false));
    s := Next(Init, Try, s, Unpark(0));
    assert Apply(s, OwnerStep) == s.(state := Empty, owner := Away, log := Log(1, 0, 1, 1, false));
    s := Next(Init, Try, s, OwnerStep);
  }
}
