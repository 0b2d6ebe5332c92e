/** The two three-state parkers as one state machine.

    `ThreadPark` (park.rs) always waits with a time-out and keeps the mutex until it
    returns; `ThreadParker` (current_thread.rs) waits with or without one, drops the mutex
    first, and on a time-out stores EMPTY instead of swapping. One thread parks, any
    number unpark; waits may end spuriously or by time-out. */
module ParkModel {
  import opened Options
  import opened Runs

  datatype Kind = ThreadPark | ThreadParker

  datatype Token = Empty | Parked | Notified

  datatype OwnerPc =
    | Away
    | Loop(seen: Token)        // about to compare-exchange
    | WantMutex                // stored PARKED
    | HasMutex                 // about to wait
    | Waiting
    | Woken(timedOut: bool)    // re-acquiring the mutex
    | SwapLocked               // ThreadPark: about to swap, mutex held
    | Unlock                   // ThreadPark: swapped, about to drop the guard
    | DropGuard(timedOut: bool) // ThreadParker: about to drop the guard
    | CheckTimeout             // ThreadParker: timed out, about to load
    | StoreEmpty               // ThreadParker: about to store EMPTY
    | Swap                     // ThreadParker: about to swap
    | Unreachable              // the unreachable!() arm

  /** `round` and `inside` remember which park the swap interrupted and whether its owner
      had the mutex already. */
  datatype UnparkPc =
    | Off
    | OweLock(round: nat, inside: bool)   // the swap saw PARKED
    | OweNotify(round: nat, inside: bool) // mutex held
    | Told(round: nat, inside: bool)      // notified, mutex held

  datatype Lock = Free | ByOwner | ByUnparker(i: nat)

  /** `wins` counts unparks that found anything but NOTIFIED, `consumed` park returns that
      took NOTIFIED, `lost` time-out stores that overwrote it, `ends` all returns.
      `missed`: a notify_one ran after this park stored PARKED and before it had the
      mutex. */
  datatype Log = Log(wins: nat, consumed: nat, lost: nat, ends: nat, missed: bool)

  datatype State = State(
    kind: Kind, state: Token, timed: bool, round: nat, owner: OwnerPc,
    unparkers: seq<UnparkPc>, mutex: Lock, log: Log)

  datatype Action =
    | Park(timed: bool)  // park_timeout is called: its first load
    | OwnerStep
    | TimeOut
    | Spurious
    | Unpark(i: nat)     // the next access of unparker i

  ghost predicate Init(s: State) {
    && s.state == Empty && s.owner == Away && s.mutex == Free && s.round == 0
    && (forall i :: 0 <= i < |s.unparkers| ==> s.unparkers[i] == Off)
    && s.log == Log(0, 0, 0, 0, false)
  }

  function Return(s: State, pc: OwnerPc, next: Token): State {
    s.(state := next, owner := pc,
       log := s.log.(ends := s.log.ends + 1,
                     consumed := if s.state == Notified then s.log.consumed + 1 else s.log.consumed))
  }

  predicate OwnerEnabled(s: State) {
    match s.owner
    case Away => false
    case WantMutex => s.mutex == Free
    case Waiting => false
    case Woken(_) => s.mutex == Free
    case Unreachable => false
    case _ => true
  }

  function OwnerApply(s: State): State
    requires OwnerEnabled(s)
  {
    match s.owner
    case Loop(seen) =>
      if seen == Notified then
        (if s.state == Notified then Return(s, Away, Empty) else s.(owner := Loop(s.state)))
      else
        (if s.state == Empty
         then s.(state := Parked, owner := WantMutex, round := s.round + 1, log := s.log.(missed := false))
         else s.(owner := Loop(s.state)))
    case WantMutex => s.(mutex := ByOwner, owner := HasMutex)
    case HasMutex => s.(mutex := Free, owner := Waiting)
    case Woken(out) => s.(mutex := ByOwner, owner := if s.kind == ThreadPark then SwapLocked else DropGuard(out))
    case SwapLocked =>
      if s.state == Empty then s.(owner := Unreachable) else Return(s, Unlock, Empty)
    case Unlock => s.(mutex := Free, owner := Away)
    case DropGuard(out) => s.(mutex := Free, owner := if s.timed && out then CheckTimeout else Swap)
    case CheckTimeout => s.(owner := if s.state == Parked then StoreEmpty else Swap)
    case StoreEmpty =>
      s.(state := Empty, owner := Away,
         log := s.log.(ends := s.log.ends + 1,
                       lost := if s.state == Notified then s.log.lost + 1 else s.log.lost))
    case Swap =>
      if s.state == Empty then s.(owner := Unreachable) else Return(s, Away, Empty)
  }

  predicate UnparkEnabled(s: State, i: nat) {
    i < |s.unparkers| && (s.unparkers[i].OweLock? ==> s.mutex == Free)
  }

  function UnparkApply(s: State, i: nat): State
    requires UnparkEnabled(s, i)
  {
    match s.unparkers[i]
    case Off =>
      s.(state := Notified,
         unparkers := if s.state == Parked
                      then s.unparkers[i := OweLock(s.round, s.owner != WantMutex)]
                      else s.unparkers,
         log := if s.state == Notified then s.log else s.log.(wins := s.log.wins + 1))
    case OweLock(r, b) => s.(mutex := ByUnparker(i), unparkers := s.unparkers[i := OweNotify(r, b)])
    case OweNotify(r, b) =>
      s.(owner := if s.owner == Waiting then Woken(false) else s.owner,
         unparkers := s.unparkers[i := Told(r, b)],
         log := s.log.(missed := s.log.missed || s.owner == WantMutex))
    case Told(_, _) => s.(mutex := Free, unparkers := s.unparkers[i := Off])
  }

  predicate Enabled(s: State, a: Action) {
    match a
    case Park(timed) => s.owner == Away && (s.kind == ThreadPark ==> timed)
    case OwnerStep => OwnerEnabled(s)
    case TimeOut => s.owner == Waiting && s.timed
    case Spurious => s.owner == Waiting
    case Unpark(i) => UnparkEnabled(s, i)
  }

  function Apply(s: State, a: Action): State
    requires Enabled(s, a)
  {
    match a
    case Park(timed) => s.(timed := timed, owner := Loop(s.state))
    case OwnerStep => OwnerApply(s)
    case TimeOut => s.(owner := Woken(true))
    case Spurious => s.(owner := Woken(false))
    case Unpark(i) => UnparkApply(s, i)
  }

  /** The machine's step function. */
  function Try(s: State, a: Action): Option<State> {
    if Enabled(s, a) then Some(Apply(s, a)) else None
  }

  ghost predicate Reachable(s: State) { ReachableBy(Init, Try, s) }
}
