/** `ThreadPark` and `ThreadParker` as the source writes them: fields changed in place, the
    compare-exchange loop, the locked wait, the final swap. Between any two accesses of
    the parking thread the unparkers take any number of steps (`Others`), so every
    execution of `ParkTimeout` is a run of the state machine, and what is proved of its
    reachable states holds here: in particular the `unreachable!()` arms are dead. */
module ParkThreads {
  import opened Runs
  import opened ParkModel
  import opened ParkTheorems

  class Parker {
    const kind: Kind
    var state: Token
    var timed: bool
    var round: nat
    var owner: OwnerPc
    var unparkers: seq<UnparkPc>
    var mutex: Lock
    var log: Log

    function View(): State
      reads this
    {
      State(kind, state, timed, round, owner, unparkers, mutex, log)
    }

    constructor (kind: Kind, unparkers: nat)
      ensures Init(View()) && this.kind == kind && |this.unparkers| == unparkers
    {
      this.kind := kind;
      state, timed, round, owner, mutex := Empty, false, 0, Away, Free;
      this.unparkers := seq(unparkers, _ => Off);
      log := Log(0, 0, 0, 0, false);
    }

    // ----- unpark -----

    /** The next access of unparker i: swap, lock, notify_one, unlock. */
    method UnparkStep(i: nat)
      requires UnparkEnabled(View(), i)
      modifies this
      ensures View() == UnparkApply(old(View()), i)
    {
      match unparkers[i] {
        case Off =>
          if state == Parked {
            unparkers := unparkers[i := OweLock(round, owner != WantMutex)];
          }
          if state != Notified {
            log := log.(wins := log.wins + 1);
          }
          state := Notified;
        case OweLock(r, b) =>
          mutex := ByUnparker(i);
          unparkers := unparkers[i := OweNotify(r, b)];
        case OweNotify(r, b) =>
          if owner == WantMutex {
            log := log.(missed := true);
          }
          if owner == Waiting {
            owner := Woken(false);
          }
          unparkers := unparkers[i := Told(r, b)];
        case Told(_, _) =>
          mutex := Free;
          unparkers := unparkers[i := Off];
      }
    }

    /** Any number of steps of any unparkers. */
    method Others(ghost start: State)
      requires Inv(View()) && Leads(Try, start, View())
      modifies this
      ensures Inv(View()) && Leads(Try, start, View())
      ensures timed == old(timed) && (owner == old(owner) || (old(owner) == Waiting && owner == Woken(false)))
      ensures log.ends == old(log).ends && log.consumed == old(log).consumed && log.lost == old(log).lost
    {
      var steps: nat := *;
      while steps > 0
        invariant Inv(View()) && Leads(Try, start, View())
        invariant timed == old(timed) && (owner == old(owner) || (old(owner) == Waiting && owner == Woken(false)))
        invariant log.ends == old(log).ends && log.consumed == old(log).consumed && log.lost == old(log).lost
      {
        var i: nat := *;
        if UnparkEnabled(View(), i) {
          StepKeeps(View(), Unpark(i));
          LeadsFurther(Try, start, View(), Unpark(i));
          UnparkStep(i);
        }
        steps := steps - 1;
      }
    }

    // ----- the accesses of the parking thread -----

    method Load(t: bool) returns (seen: Token)
      requires owner == Away && (kind == ThreadPark ==> t)
      modifies this`timed, this`owner
      ensures View() == Apply(old(View()), Park(t)) && owner == Loop(seen)
      ensures seen == state && timed == t
    {
      seen := state;
      timed, owner := t, Loop(seen);
    }

    /** compare_exchange(NOTIFIED, EMPTY) */
    method TryConsume() returns (ok: bool, seen: Token)
      requires owner == Loop(Notified)
      modifies this
      ensures View() == OwnerApply(old(View()))
      ensures ok <==> old(state) == Notified
      ensures ok ==> owner == Away && state == Empty
      ensures !ok ==> owner == Loop(seen)
      ensures timed == old(timed) && log.lost == old(log).lost
    {
      seen := state;
      ok := state == Notified;
      if ok {
        state, owner := Empty, Away;
        log := log.(ends := log.ends + 1, consumed := log.consumed + 1);
      } else {
        owner := Loop(seen);
      }
    }

    /** compare_exchange(EMPTY, PARKED) */
    method TryPark() returns (ok: bool, seen: Token)
      requires owner.Loop? && owner.seen != Notified
      modifies this
      ensures View() == OwnerApply(old(View()))
      ensures ok <==> old(state) == Empty
      ensures ok ==> owner == WantMutex && state == Parked
      ensures !ok ==> owner == Loop(seen) && seen == old(state)
      ensures timed == old(timed)
    {
      seen := state;
      ok := state == Empty;
      if ok {
        state, owner, round := Parked, WantMutex, round + 1;
        log := log.(missed := false);
      } else {
        owner := Loop(seen);
      }
    }

    method LockMutex() returns (ok: bool)
      requires owner == WantMutex || owner.Woken?
      modifies this`mutex, this`owner
      ensures ok <==> OwnerEnabled(old(View()))
      ensures ok ==> View() == OwnerApply(old(View()))
      ensures ok && old(owner).Woken? ==>
                owner == if kind == ThreadPark then SwapLocked else DropGuard(old(owner).timedOut)
      ensures !ok ==> View() == old(View())
    {
      ok := mutex == Free;
      if ok {
        mutex := ByOwner;
        match owner {
          case WantMutex => owner := HasMutex;
          case Woken(out) => owner := if kind == ThreadPark then SwapLocked else DropGuard(out);
        }
      }
    }

    method UnlockMutex()
      requires owner == Unlock || owner.DropGuard?
      modifies this`mutex, this`owner
      ensures View() == OwnerApply(old(View()))
      // the time-out branch is for those who timed out
      ensures old(owner).DropGuard? ==> owner == if timed && old(owner).timedOut then CheckTimeout else Swap
    {
      mutex := Free;
      match owner {
        case Unlock => owner := Away;
        case DropGuard(out) => owner := if timed && out then CheckTimeout else Swap;
      }
    }

    method BeginWait()
      requires owner == HasMutex
      modifies this`mutex, this`owner
      ensures View() == OwnerApply(old(View())) && owner == Waiting
    {
      mutex, owner := Free, Waiting;
    }

    /** swap(EMPTY) */
    method SwapEmpty() returns (was: Token)
      requires (owner == SwapLocked || owner == Swap) && state != Empty
      modifies this
      ensures was == old(state) && View() == OwnerApply(old(View()))
      ensures owner == (if old(owner) == SwapLocked then Unlock else Away)
      ensures log.ends == old(log).ends + 1 && log.lost == old(log).lost && timed == old(timed)
    {
      was := state;
      state := Empty;
      owner := if owner == SwapLocked then Unlock else Away;
      log := log.(ends := log.ends + 1, consumed := if was == Notified then log.consumed + 1 else log.consumed);
    }

    method LoadAfterTimeOut() returns (seen: Token)
      requires owner == CheckTimeout
      modifies this`owner
      ensures seen == state && View() == OwnerApply(old(View()))
      ensures owner == if seen == Parked then OwnerPc.StoreEmpty else Swap
    {
      seen := state;
      owner := if seen == Parked then OwnerPc.StoreEmpty else Swap;
    }

    /** store(EMPTY) */
    method StoreEmpty()
      requires owner == OwnerPc.StoreEmpty
      modifies this
      ensures View() == OwnerApply(old(View()))
      ensures owner == Away && log.ends == old(log).ends + 1 && timed == old(timed)
    {
      log := log.(ends := log.ends + 1, lost := if state == Notified then log.lost + 1 else log.lost);
      state, owner := Empty, Away;
    }

    // ----- park_timeout -----

    /** The parking thread's next access keeps the invariant and extends the run. */
    ghost method Extend(start: State)
      requires Inv(View()) && Leads(Try, start, View()) && OwnerEnabled(View())
      ensures Inv(OwnerApply(View())) && Leads(Try, start, OwnerApply(View()))
    {
      StepKeeps(View(), OwnerStep);
      LeadsFurther(Try, start, View(), OwnerStep);
    }

    /** A time-out, if one was asked for, or a spurious wake-up of the wait, or nothing. */
    method WaitEnds(ghost start: State) returns (ghost out: bool)
      requires Inv(View()) && Leads(Try, start, View()) && (owner == Waiting || owner.Woken?)
      modifies this`owner
      ensures Inv(View()) && Leads(Try, start, View()) && (owner == Waiting || owner.Woken?)
      ensures out ==> timed && old(owner) == Waiting && owner == Woken(true)
      ensures !out ==> owner == old(owner) || owner == Woken(false)
    {
      out := false;
      var timeOut: bool, spurious: bool := *, *;
      if owner == Waiting && timed && timeOut {
        StepKeeps(View(), TimeOut);
        LeadsFurther(Try, start, View(), TimeOut);
        owner, out := Woken(true), true;
      } else if owner == Waiting && spurious {
        StepKeeps(View(), Spurious);
        LeadsFurther(Try, start, View(), Spurious);
        owner := Woken(false);
      }
    }

    /** The compare-exchange loop of park_timeout: consume a token and be done, or store
        PARKED. */
    method Announce(t: bool, ghost start: State) returns (parked: bool)
      requires Inv(View()) && owner == Away && (kind == ThreadPark ==> t) && Leads(Try, start, View())
      modifies this
      ensures Inv(View()) && Leads(Try, start, View())
      ensures owner == if parked then WantMutex else Away
      ensures log.ends == old(log).ends + if parked then 0 else 1
      ensures log.consumed == old(log).consumed + if parked then 0 else 1
      ensures timed == t && log.lost == old(log).lost
    {
      Others(start);
      StepKeeps(View(), Park(t));
      LeadsFurther(Try, start, View(), Park(t));
      var st := Load(t);
      while true
        invariant Inv(View()) && Leads(Try, start, View()) && owner == Loop(st)
        invariant log.ends == old(log).ends && log.consumed == old(log).consumed && log.lost == old(log).lost
        invariant timed == t
        decreases if st == Notified then 0 else 1
      {
        Others(start);
        Extend(start);
        if st == Notified {
          var ok, _ := TryConsume();
          if ok {
            return false;
          }
          assert false; // nobody but the owner takes NOTIFIED away
        } else {
          var ok, seen := TryPark();
          if ok {
            return true;
          }
          st := seen;
        }
      }
    }

    /** Lock, and let go of the mutex in the wait; false if the schedule ends with the thread
        still blocked on the mutex. */
    method FallAsleep(ghost start: State) returns (ok: bool)
      requires Inv(View()) && owner == WantMutex && Leads(Try, start, View())
      modifies this
      ensures Inv(View()) && Leads(Try, start, View()) && log.ends == old(log).ends
      ensures timed == old(timed) && log.lost == old(log).lost && owner == if ok then Waiting else WantMutex
    {
      Others(start);
      if OwnerEnabled(View()) { Extend(start); }
      ok := LockMutex();
      if ok {
        Others(start);
        Extend(start);
        BeginWait();
      }
    }

    /** Lock, wait, lock again. Gives false if the schedule ends with the thread still
        blocked on the mutex or in the wait; `out` says that the wait timed out. */
    method LockedWait(ghost start: State) returns (done: bool, ghost out: bool)
      requires Inv(View()) && owner == WantMutex && Leads(Try, start, View())
      modifies this
      ensures Inv(View()) && Leads(Try, start, View()) && log.ends == old(log).ends
      ensures timed == old(timed) && log.lost == old(log).lost && (out ==> timed)
      ensures done ==> owner == if kind == ThreadPark then SwapLocked else DropGuard(out)
      ensures !done ==> owner == WantMutex || owner == Waiting || owner.Woken?
    {
      out := false;
      done := FallAsleep(start);
      if !done { return; }
      Others(start);
      out := WaitEnds(start);
      if owner == Waiting {
        return false, out;
      }
      Others(start);
      if OwnerEnabled(View()) { Extend(start); }
      done := LockMutex();
    }

    /** The whole call; `out` says that its wait timed out. It is stuck in the wait only if no
        time-out was asked for: otherwise the time-out can end it. A notification can vanish only
        in a call that timed out. */
    method ParkTimeout(t: bool, ghost start: State) returns (done: bool, ghost out: bool)
      requires Inv(View()) && owner == Away && (kind == ThreadPark ==> t) && Leads(Try, start, View())
      modifies this
      ensures Inv(View()) && Leads(Try, start, View())
      ensures done ==> owner == Away && log.ends == old(log).ends + 1
      ensures !done ==> (owner == WantMutex || owner == Waiting || owner.Woken?) && log.ends == old(log).ends
      ensures timed == t && (owner == Waiting ==> (Enabled(View(), TimeOut) <==> t))
      ensures (out ==> t) && (!out || kind == ThreadPark ==> log.lost == old(log).lost)
    {
      out := false;
      var parked := Announce(t, start);
      if !parked {
        return true, out;
      }
      done, out := LockedWait(start);
      if !done { return; }
      Others(start);
      if kind == ThreadPark {
        FinishThreadPark(start);
      } else {
        FinishThreadParker(start);
      }
    }

    /** The end of ThreadPark's park_timeout, under the mutex. */
    method FinishThreadPark(ghost start: State)
      requires Inv(View()) && owner == SwapLocked && Leads(Try, start, View())
      modifies this
      ensures Inv(View()) && Leads(Try, start, View())
      ensures owner == Away && log.ends == old(log).ends + 1 && timed == old(timed) && log.lost == old(log).lost
    {
      Extend(start);
      var was := SwapEmpty();
      match was {
        case Notified => // normal wake-up
        case Parked =>   // time-out or spurious wake-up
        case Empty => assert false;
      }
      Others(start);
      Extend(start);
      UnlockMutex();
    }

    /** The end of ThreadParker's park_timeout, after the wait. */
    method FinishThreadParker(ghost start: State)
      requires Inv(View()) && owner.DropGuard? && kind == ThreadParker && Leads(Try, start, View())
      modifies this
      ensures Inv(View()) && Leads(Try, start, View())
      ensures owner == Away && log.ends == old(log).ends + 1 && timed == old(timed)
      ensures !old(owner).timedOut ==> log.lost == old(log).lost
    {
      Extend(start);
      UnlockMutex();
      if owner == CheckTimeout {
        Others(start);
        Extend(start);
        var seen := LoadAfterTimeOut();
        if seen == Parked {
          Others(start);
          Extend(start);
          StoreEmpty();
          return;
        }
      }
      Others(start);
      Extend(start);
      var was := SwapEmpty();
      match was {
        case Notified =>
        case Parked =>
        case Empty => assert false;
      }
    }
  }
}
