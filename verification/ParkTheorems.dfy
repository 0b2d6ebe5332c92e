/** What the three-state parkers keep over every run, and when a notification is lost. */
module ParkTheorems {
  import opened Runs
  import opened ParkModel

  // ----- the invariant -----

  /** Between the store of PARKED and the step that resets the state. */
  predicate Committed(pc: OwnerPc) {
    || pc.WantMutex? || pc.HasMutex? || pc.Waiting? || pc.Woken? || pc.SwapLocked?
    || pc.DropGuard? || pc.CheckTimeout? || pc.StoreEmpty? || pc.Swap?
  }

  ghost predicate TokenInv(s: State) {
    && !s.owner.Unreachable?
    && (s.state == Parked ==> Committed(s.owner))
    && (Committed(s.owner) ==> s.state != Empty)
    && (s.owner.Loop? ==> s.owner.seen != Parked && (s.owner.seen == Notified ==> s.state == Notified))
    && (s.kind == ThreadPark ==>
          !s.owner.DropGuard? && !s.owner.CheckTimeout? && !s.owner.StoreEmpty? && !s.owner.Swap?)
    && (s.kind == ThreadParker ==> !s.owner.SwapLocked? && !s.owner.Unlock?)
    && (s.kind == ThreadPark && s.owner != Away ==> s.timed)
  }

  predicate OwnerHolds(pc: OwnerPc) { pc.HasMutex? || pc.SwapLocked? || pc.Unlock? || pc.DropGuard? }

  ghost predicate LockInv(s: State) {
    && (OwnerHolds(s.owner) <==> s.mutex == ByOwner)
    && (forall i :: 0 <= i < |s.unparkers| ==>
          (s.unparkers[i].OweNotify? || s.unparkers[i].Told? <==> s.mutex == ByUnparker(i)))
    && (s.mutex.ByUnparker? ==> s.mutex.i < |s.unparkers|)
  }

  ghost predicate CountInv(s: State) {
    && s.log.wins == s.log.consumed + s.log.lost + (if s.state == Notified then 1 else 0)
    && s.log.consumed + s.log.lost <= s.log.ends
    && (s.kind == ThreadPark ==> s.log.lost == 0)
  }

  predicate Owes(pc: UnparkPc) { pc.OweLock? || pc.OweNotify? }

  ghost predicate SomeoneOwes(s: State) {
    exists i :: 0 <= i < |s.unparkers| && Owes(s.unparkers[i])
  }

  /** On the way into the wait, or in it. */
  predicate Sleeping(pc: OwnerPc) { pc.WantMutex? || pc.HasMutex? || pc.Waiting? }

  ghost predicate NotifyInv(s: State) {
    Sleeping(s.owner) && s.state == Notified ==> s.log.missed || SomeoneOwes(s)
  }

  ghost predicate RoundInv(s: State) {
    forall i :: 0 <= i < |s.unparkers| && s.unparkers[i] != Off ==>
      var u := s.unparkers[i];
      && u.round <= s.round
      && (u.inside && u.round == s.round ==> s.owner != WantMutex)
      && (u.Told? && u.inside && u.round == s.round ==> !Sleeping(s.owner))
  }

  ghost predicate Inv(s: State) {
    TokenInv(s) && LockInv(s) && CountInv(s) && NotifyInv(s) && RoundInv(s)
  }

  lemma InitKeeps(s: State)
    requires Init(s)
    ensures Inv(s)
  {
  }

  lemma OwnerKeeps(s: State)
    requires Inv(s) && OwnerEnabled(s)
    ensures Inv(OwnerApply(s))
  {
    OwnerKeepsTokens(s);
    OwnerKeepsRounds(s);
  }

  lemma OwnerKeepsTokens(s: State)
    requires Inv(s) && OwnerEnabled(s)
    ensures TokenInv(OwnerApply(s)) && CountInv(OwnerApply(s))
  {
  }

  lemma OwnerKeepsRounds(s: State)
    requires Inv(s) && OwnerEnabled(s)
    ensures RoundInv(OwnerApply(s))
  {
  }

  lemma UnparkKeeps(s: State, i: nat)
    requires Inv(s) && UnparkEnabled(s, i)
    ensures TokenInv(UnparkApply(s, i)) && LockInv(UnparkApply(s, i)) && CountInv(UnparkApply(s, i))
    ensures RoundInv(UnparkApply(s, i))
  {
    UnparkKeepsLock(s, i);
    UnparkKeepsRounds(s, i);
  }

  lemma UnparkKeepsLock(s: State, i: nat)
    requires Inv(s) && UnparkEnabled(s, i)
    ensures LockInv(UnparkApply(s, i))
  {
  }

  lemma UnparkKeepsRounds(s: State, i: nat)
    requires Inv(s) && UnparkEnabled(s, i)
    ensures RoundInv(UnparkApply(s, i))
  {
  }

  lemma UnparkKeepsNotify(s: State, i: nat)
    requires Inv(s) && UnparkEnabled(s, i)
    ensures NotifyInv(UnparkApply(s, i))
  {
    var t := UnparkApply(s, i);
    if SomeoneOwes(s) && !s.unparkers[i].OweNotify? {
      var k :| 0 <= k < |s.unparkers| && Owes(s.unparkers[k]);
      assert Owes(t.unparkers[k]);
    }
    if s.unparkers[i] == Off && s.state == Parked {
      assert Owes(t.unparkers[i]);
    }
  }

  lemma StepKeeps(s: State, a: Action)
    requires Inv(s) && Enabled(s, a)
    ensures Inv(Apply(s, a))
  {
    match a
    case OwnerStep => OwnerKeeps(s);
    case Unpark(i) =>
      UnparkKeeps(s, i);
      UnparkKeepsNotify(s, i);
    case _ =>
  }

  lemma ReachableInv(s: State)
    requires Reachable(s)
    ensures Inv(s)
  {
    forall x | Init(x) ensures Inv(x) {
      InitKeeps(x);
    }
    forall x, a | Inv(x) && Try(x, a).Some? ensures Inv(Try(x, a).value) {
      StepKeeps(x, a);
    }
    HoldsWhenReachable(Init, Try, Inv, s);
  }

  // ----- safety -----

  /** The unreachable!() arm is unreachable, and PARKED is never left behind. */
  lemma ParkedOnlyWhileCommitted(s: State)
    requires Reachable(s)
    ensures s.owner != Unreachable
    ensures s.state == Parked ==> Committed(s.owner)
    ensures s.owner == SwapLocked || s.owner == Swap ==> s.state == Parked || s.state == Notified
  {
    ReachableInv(s);
  }

  /** The compare-exchange loop is left after at most two attempts: only the owner takes
      NOTIFIED away, so an attempt to consume it cannot fail. */
  lemma LoopIsShort(s: State)
    requires Reachable(s) && s.owner.Loop?
    ensures s.owner.seen == Notified ==> OwnerApply(s).owner == Away
    ensures s.owner.seen != Notified ==> OwnerApply(s).owner in {WantMutex, Loop(Notified)}
  {
    ReachableInv(s);
  }

  // ----- accounting -----

  /** Every unpark that found the state un-notified is answered by one park return, or by
      the pending token, or vanished under a time-out store of a returning park. */
  lemma TokensAccounted(s: State)
    requires Reachable(s)
    ensures s.log.wins == s.log.consumed + s.log.lost + (if s.state == Notified then 1 else 0)
    ensures s.kind == ThreadPark ==> s.log.wins == s.log.consumed + (if s.state == Notified then 1 else 0)
    ensures s.log.wins <= s.log.ends + (if s.state == Notified then 1 else 0)
  {
    ReachableInv(s);
  }

  // ----- which unparks wake -----

  /** An unpark whose swap found PARKED after the owner had taken the mutex has woken that
      park by the time its notify_one is done. */
  lemma UnparkInsideWakes(s: State, i: nat)
    requires Reachable(s) && i < |s.unparkers| && s.unparkers[i].OweNotify?
    requires s.unparkers[i].inside && s.unparkers[i].round == s.round
    ensures !Sleeping(UnparkApply(s, i).owner)
  {
    ReachableInv(s);
    UnparkKeeps(s, i);
    var t := UnparkApply(s, i);
    assert t.unparkers[i] != Off;
  }

  /** A blocked parker with a notification pending and nobody about to notify was notified
      between storing PARKED and taking the mutex. */
  lemma BlockedMeansMissed(s: State)
    requires Reachable(s) && s.owner == Waiting && s.state == Notified && !SomeoneOwes(s)
    ensures s.log.missed
  {
    ReachableInv(s);
  }

  // ----- when unparks can no longer wake -----

  ghost predicate Stranded(s: State) { s.state == Notified && !SomeoneOwes(s) }

  predicate OnlyUnparks(acts: seq<Action>) { forall k :: 0 <= k < |acts| ==> acts[k].Unpark? }

  ghost predicate UnparksCanWake(s: State) {
    exists acts :: OnlyUnparks(acts) && Runnable(Try, s, acts) && Exec(Try, s, acts).owner != Waiting
  }

  lemma StrandedStep(s: State, i: nat)
    requires s.owner == Waiting && Stranded(s) && UnparkEnabled(s, i)
    ensures UnparkApply(s, i).owner == Waiting && Stranded(UnparkApply(s, i))
  {
    assert !Owes(s.unparkers[i]);
    var t := UnparkApply(s, i);
    forall k | 0 <= k < |t.unparkers| ensures !Owes(t.unparkers[k]) {
      assert !Owes(s.unparkers[k]);
    }
  }

  /** Without a time-out or a spurious wake-up, a stranded parker sleeps for ever. */
  lemma {:induction false} StrandedForever(s: State, acts: seq<Action>)
    requires s.owner == Waiting && Stranded(s) && Runnable(Try, s, acts)
    requires forall k :: 0 <= k < |acts| ==> !acts[k].TimeOut? && !acts[k].Spurious?
    ensures Exec(Try, s, acts).owner == Waiting && Stranded(Exec(Try, s, acts))
    decreases |acts|
  {
    if acts != [] {
      assert acts[0].Unpark?;
      StrandedStep(s, acts[0].i);
      StrandedForever(Apply(s, acts[0]), acts[1..]);
    }
  }

  /** One step and then the rest. */
  lemma Then(s: State, i: nat, rest: seq<Action>) returns (acts: seq<Action>)
    requires UnparkEnabled(s, i) && OnlyUnparks(rest) && Runnable(Try, UnparkApply(s, i), rest)
    ensures OnlyUnparks(acts) && Runnable(Try, s, acts) && Exec(Try, s, acts) == Exec(Try, UnparkApply(s, i), rest)
  {
    acts := [Unpark(i)] + rest;
    assert acts[1..] == rest;
  }

  lemma WakeByNotify(s: State, i: nat) returns (acts: seq<Action>)
    requires s.owner == Waiting && i < |s.unparkers| && s.unparkers[i].OweNotify?
    ensures OnlyUnparks(acts) && Runnable(Try, s, acts) && Exec(Try, s, acts).owner != Waiting
  {
    acts := Then(s, i, []);
  }

  lemma WakeByLock(s: State, i: nat) returns (acts: seq<Action>)
    requires s.owner == Waiting && s.mutex == Free && i < |s.unparkers| && s.unparkers[i].OweLock?
    ensures OnlyUnparks(acts) && Runnable(Try, s, acts) && Exec(Try, s, acts).owner != Waiting
  {
    var rest := WakeByNotify(UnparkApply(s, i), i);
    acts := Then(s, i, rest);
  }

  lemma WakeBySwap(s: State, i: nat) returns (acts: seq<Action>)
    requires s.owner == Waiting && s.mutex == Free && s.state == Parked
    requires i < |s.unparkers| && s.unparkers[i] == Off
    ensures OnlyUnparks(acts) && Runnable(Try, s, acts) && Exec(Try, s, acts).owner != Waiting
  {
    var rest := WakeByLock(UnparkApply(s, i), i);
    acts := Then(s, i, rest);
  }

  /** With the mutex free, an owing unparker or a fresh unpark wakes. */
  lemma WakeWhenFree(s: State) returns (acts: seq<Action>)
    requires Inv(s) && s.owner == Waiting && s.mutex == Free && |s.unparkers| > 0 && !Stranded(s)
    ensures OnlyUnparks(acts) && Runnable(Try, s, acts) && Exec(Try, s, acts).owner != Waiting
  {
    if SomeoneOwes(s) {
      var i :| 0 <= i < |s.unparkers| && Owes(s.unparkers[i]);
      acts := WakeByLock(s, i);
    } else {
      assert !Owes(s.unparkers[0]);
      acts := WakeBySwap(s, 0);
    }
  }

  lemma WakeSomehow(s: State) returns (acts: seq<Action>)
    requires Inv(s) && s.owner == Waiting && |s.unparkers| > 0 && !Stranded(s)
    ensures OnlyUnparks(acts) && Runnable(Try, s, acts) && Exec(Try, s, acts).owner != Waiting
  {
    if s.mutex == Free {
      acts := WakeWhenFree(s);
    } else {
      var k := s.mutex.i;
      if s.unparkers[k].OweNotify? {
        acts := WakeByNotify(s, k);
      } else {
        var t := UnparkApply(s, k);
        UnparkKeeps(s, k);
        UnparkKeepsNotify(s, k);
        if SomeoneOwes(s) {
          var i :| 0 <= i < |s.unparkers| && Owes(s.unparkers[i]);
          assert Owes(t.unparkers[i]);
        }
        var rest := WakeWhenFree(t);
        acts := Then(s, k, rest);
      }
    }
  }

  /** A blocked parker can still be woken by unparks exactly when it is not stranded:
      NOTIFIED already stored and no unparker about to notify. */
  lemma UnparksCanWakeIff(s: State)
    requires Reachable(s) && s.owner == Waiting && |s.unparkers| > 0
    ensures UnparksCanWake(s) <==> !Stranded(s)
  {
    ReachableInv(s);
    if Stranded(s) {
      forall acts | OnlyUnparks(acts) && Runnable(Try, s, acts) ensures Exec(Try, s, acts).owner == Waiting {
        StrandedForever(s, acts);
      }
    } else {
      var acts := WakeSomehow(s);
    }
  }

  /** A parker that waits with a time-out is never stuck: it can move by itself, or the
      unparker holding the mutex it needs can. */
  lemma TimedNeverStuck(s: State)
    requires Reachable(s) && s.owner != Away && s.timed
    ensures || Enabled(s, OwnerStep) || Enabled(s, TimeOut)
            || (s.mutex.ByUnparker? && Enabled(s, Unpark(s.mutex.i)) && s.unparkers[s.mutex.i] != Off)
  {
    ReachableInv(s);
  }

  lemma AlwaysTimed(s: State)
    requires Reachable(s) && s.kind == ThreadPark && s.owner != Away
    ensures s.timed
  {
    ReachableInv(s);
  }

  // ----- the code does strand the untimed parker -----

  /** A run of park() without a time-out in which the one unpark there is comes between the
      store of PARKED and the wait: the token is set, and nothing will ever wake. */
  lemma ParkCanBeStranded() returns (s: State)
    ensures Reachable(s) && s.kind == ThreadParker && !s.timed
    ensures s.owner == Waiting && Stranded(s) && s.log.wins == 1 && s.log.ends == 0
  {
    s := UnparkInterrupts();
    assert Apply(s, Unpark(0)) == s.(unparkers := [Told(1, false)], log := s.log.(missed := true));
    s := Next(Init, Try, s, Unpark(0));
    assert Apply(s, Unpark(0)) == s.(mutex := Free, unparkers := [Off]);
    s := Next(Init, Try, s, Unpark(0));
    assert Apply(s, OwnerStep) == s.(mutex := ByOwner, owner := HasMutex);
    s := Next(Init, Try, s, OwnerStep);
    assert Apply(s, OwnerStep) == s.(mutex := Free, owner := Waiting);
    s := Next(Init, Try, s, OwnerStep);
  }

  lemma UnparkInterrupts() returns (s: State)
    ensures Reachable(s)
    ensures s == State(ThreadParker, Notified, false, 1, WantMutex, [OweNotify(1, false)], ByUnparker(0),
                       Log(1, 0, 0, 0, false))
  {
    s := State(ThreadParker, Empty, false, 0, Away, [Off], Free, Log(0, 0, 0, 0, false));
    assert Init(s);
    LeadsNowhere(Try, s);
    assert Apply(s, Park(false)) == s.(owner := Loop(Empty));
    s := Next(Init, Try, s, Park(false));
    assert Apply(s, OwnerStep) == s.(state := Parked, round := 1, owner := WantMutex);
    s := Next(Init, Try, s, OwnerStep);
    assert Apply(s, Unpark(0)) == s.(state := Notified, unparkers := [OweLock(1, false)], log := s.log.(wins := 1));
    s := Next(Init, Try, s, Unpark(0));
    assert Apply(s, Unpark(0)) == s.(mutex := ByUnparker(0), unparkers := [OweNotify(1, false)]);
    s := Next(Init, Try, s, Unpark(0));
  }
}
