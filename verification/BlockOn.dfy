/** `MultiThread::block_on` with its `BlockOnParker`: one thread polls a future, helps out,
    and parks; any number of wakers unpark it through a flag and the thread's park token.
    Whether the future is ready, whether there is a task to help with and whether the
    injector is empty are left open at every turn, and so are spurious returns of
    `thread::park` and tokens set by other users of the thread. */
module BlockOn {
  import opened Options
  import opened Runs

  datatype OwnerPc =
    | Polling
    | Helping     // the poll was pending: steal_work
    | CheckEmpty  // injector.is_empty()
    | Swap        // park(): about to swap the flag to false
    | Blocked     // in thread::park
    | Returned

  datatype WakerPc = Off | OweUnpark  // the swap went from false to true

  /** `parks`: returns of park(); `raises`: swaps of the flag from false to true;
      `wokenSince`: some wake ran its swap since the latest poll began. */
  datatype Log = Log(parks: nat, raises: nat, wokenSince: bool)

  datatype State = State(flag: bool, token: bool, owner: OwnerPc, wakers: seq<WakerPc>, log: Log)

  datatype Action =
    | OwnerStep(yes: bool) // yes: ready, found a task, or not empty
    | Spurious
    | Outside              // somebody else unparks the thread
    | Wake(i: nat)

  ghost predicate Init(s: State) {
    && !s.flag && s.owner == Polling
    && (forall i :: 0 <= i < |s.wakers| ==> s.wakers[i] == Off)
    && s.log == Log(0, 0, false)
  }

  function Poll(s: State): State { s.(owner := Polling, log := s.log.(wokenSince := false)) }

  predicate Enabled(s: State, a: Action) {
    match a
    case OwnerStep(_) => s.owner != Returned && (s.owner == Blocked ==> s.token)
    case Spurious => s.owner == Blocked
    case Outside => true
    case Wake(i) => i < |s.wakers|
  }

  function Apply(s: State, a: Action): State
    requires Enabled(s, a)
  {
    match a
    case OwnerStep(yes) =>
      (match s.owner
       case Polling => s.(owner := if yes then Returned else Helping)
       case Helping => if yes then Poll(s) else s.(owner := CheckEmpty)
       case CheckEmpty => if yes then Poll(s) else s.(owner := Swap)
       case Swap =>
         var t := s.(flag := false);
         if s.flag then Poll(t.(log := t.log.(parks := t.log.parks + 1))) else t.(owner := Blocked)
       case Blocked => s.(token := false, owner := Swap))
    case Spurious => s.(owner := Swap)
    case Outside => s.(token := true)
    case Wake(i) =>
      (match s.wakers[i]
       case Off =>
         s.(flag := true,
            wakers := s.wakers[i := if s.flag then Off else OweUnpark],
            log := s.log.(raises := if s.flag then s.log.raises else s.log.raises + 1, wokenSince := true))
       case OweUnpark => s.(token := true, wakers := s.wakers[i := Off]))
  }

  /** The machine's step function. */
  function Try(s: State, a: Action): Option<State> {
    if Enabled(s, a) then Some(Apply(s, a)) else None
  }

  ghost predicate Reachable(s: State) { ReachableBy(Init, Try, s) }

  // ----- the invariant -----

  ghost predicate SomeoneOwes(s: State) {
    exists i :: 0 <= i < |s.wakers| && s.wakers[i] == OweUnpark
  }

  ghost predicate Inv(s: State) {
    && (s.owner == Blocked && s.flag ==> s.token || SomeoneOwes(s))
    && (s.log.wokenSince ==> s.flag)
    && s.log.parks + (if s.flag then 1 else 0) == s.log.raises
  }

  lemma StepKeeps(s: State, a: Action)
    requires Inv(s) && Enabled(s, a)
    ensures Inv(Apply(s, a))
  {
    var t := Apply(s, a);
    if a.Wake? {
      if SomeoneOwes(s) && s.wakers[a.i] == Off {
        var k :| 0 <= k < |s.wakers| && s.wakers[k] == OweUnpark;
        assert t.wakers[k] == OweUnpark;
      }
      assert s.wakers[a.i] == Off && !s.flag ==> t.wakers[a.i] == OweUnpark;
    }
  }

  lemma ReachableInv(s: State)
    requires Reachable(s)
    ensures Inv(s)
  {
    forall x, a | Inv(x) && Try(x, a).Some? ensures Inv(Try(x, a).value) {
      StepKeeps(x, a);
    }
    HoldsWhenReachable(Init, Try, Inv, s);
  }

  // ----- results -----

  /** If a wake ran since the latest poll began, the loop is not stuck in thread::park: the
      token is there, or the waker that raised the flag is about to give it. */
  lemma NeverSleepsThroughWake(s: State)
    requires Reachable(s) && s.log.wokenSince && s.owner == Blocked
    ensures s.token || SomeoneOwes(s)
  {
    ReachableInv(s);
  }

  lemma PollsFromSwap(s: State) returns (acts: seq<Action>)
    requires s.owner == Swap && s.flag
    ensures acts == [OwnerStep(true)] && Runnable(Try, s, acts) && Exec(Try, s, acts).owner == Polling
  {
    acts := [OwnerStep(true)];
    assert acts[1..] == [] && Exec(Try, Apply(s, acts[0]), []) == Apply(s, acts[0]);
  }

  lemma PollsFromBlocked(s: State) returns (acts: seq<Action>)
    requires s.owner == Blocked && s.flag && s.token
    ensures acts == [OwnerStep(true), OwnerStep(true)] && Runnable(Try, s, acts) && Exec(Try, s, acts).owner == Polling
  {
    var rest := PollsFromSwap(Apply(s, OwnerStep(true)));
    acts := [OwnerStep(true)] + rest;
    assert acts[1..] == rest;
  }

  /** Indeed the owner polls again after at most three more steps: at most one of a waker
      that already raised the flag, and two of its own. */
  lemma WokenOwnerPollsAgain(s: State) returns (acts: seq<Action>)
    requires Reachable(s) && s.log.wokenSince && (s.owner == Blocked || s.owner == Swap)
    ensures |acts| <= 3 && Runnable(Try, s, acts) && Exec(Try, s, acts).owner == Polling
    ensures forall k :: 0 <= k < |acts| ==>
              || acts[k].OwnerStep?
              || (acts[k].Wake? && acts[k].i < |s.wakers| && s.wakers[acts[k].i] == OweUnpark)
  {
    ReachableInv(s);
    if s.owner == Swap {
      acts := PollsFromSwap(s);
    } else if s.token {
      acts := PollsFromBlocked(s);
    } else {
      var i :| 0 <= i < |s.wakers| && s.wakers[i] == OweUnpark;
      var rest := PollsFromBlocked(Apply(s, Wake(i)));
      acts := [Wake(i)] + rest;
      assert acts[1..] == rest;
    }
  }

  /** One return of park absorbs any burst of unparks, and none is invented. */
  lemma ParksMatchRaises(s: State)
    requires Reachable(s)
    ensures s.log.parks + (if s.flag then 1 else 0) == s.log.raises
  {
    ReachableInv(s);
  }

  // ----- where the tokens go -----

  predicate Takes(s: State, a: Action) { a.OwnerStep? && s.owner == Blocked }

  /** A token is given to the thread that had none. */
  predicate Gives(s: State, a: Action) {
    !s.token && (a.Outside? || (a.Wake? && a.i < |s.wakers| && s.wakers[a.i] == OweUnpark))
  }

  /** How often, in a run, the step taken satisfies p. */
  function Times(p: (State, Action) -> bool, s: State, acts: seq<Action>): nat
    requires Runnable(Try, s, acts)
    decreases |acts|
  {
    if acts == [] then 0 else (if p(s, acts[0]) then 1 else 0) + Times(p, Apply(s, acts[0]), acts[1..])
  }

  /** thread::park returns for a token once per token: those given while there was none are
      those taken, and the one that may be left. */
  lemma {:induction false} TokensTakenOnce(s: State, acts: seq<Action>)
    requires Runnable(Try, s, acts)
    ensures Times(Takes, s, acts) + (if Exec(Try, s, acts).token then 1 else 0)
            == Times(Gives, s, acts) + (if s.token then 1 else 0)
    decreases |acts|
  {
    if acts != [] {
      TokensTakenOnce(Apply(s, acts[0]), acts[1..]);
    }
  }

  // ----- what each does alone -----

  const YES: Action := OwnerStep(true)
  const NO: Action := OwnerStep(false)

  ghost predicate Ends(s: State, acts: seq<Action>, t: State) { Runnable(Try, s, acts) && Exec(Try, s, acts) == t }

  lemma EndsCons(s: State, a: Action, acts: seq<Action>, t: State)
    requires Enabled(s, a) && Ends(Apply(s, a), acts, t)
    ensures Ends(s, [a] + acts, t)
  {
    assert ([a] + acts)[1..] == acts;
  }

  lemma EndsHere(s: State)
    ensures Ends(s, [], s)
  {
  }

  /** One turn of the loop, left alone. A ready future ends it. A pending one is polled again
      if steal_work found a task, or the injector has one, or the flag is up, which the swap
      takes down; with none of these the thread blocks, and a token left over from somebody
      else only makes it look at the flag once more. */
  lemma TurnAlone(s: State)
    requires s.owner == Polling
    ensures Ends(s, [YES], s.(owner := Returned))
    ensures Ends(s, [NO, YES], s.(log := s.log.(wokenSince := false)))
    ensures Ends(s, [NO, NO, YES], s.(log := s.log.(wokenSince := false)))
    ensures s.flag ==>
              Ends(s, [NO, NO, NO, NO], s.(flag := false, log := Log(s.log.parks + 1, s.log.raises, false)))
    ensures !s.flag ==> Ends(s, [NO, NO, NO, NO], s.(owner := Blocked))
    ensures !s.flag && s.token ==> Ends(s, [NO, NO, NO, NO, NO, NO], s.(owner := Blocked, token := false))
  {
    EndsAfter(s, YES);
    var h := s.(owner := Helping);
    EndsAfter(h, YES);
    EndsCons(s, NO, [YES], Poll(s));
    var c := s.(owner := CheckEmpty);
    EndsAfter(c, YES);
    EndsCons(h, NO, [YES], Poll(s));
    EndsCons(s, NO, [NO, YES], Poll(s));
    var w := s.(owner := Swap);
    var t := Apply(w, NO);
    EndsAfter(w, NO);
    AfterRefusals(s, [NO], t);
    assert [NO, NO, NO] + [NO] == [NO, NO, NO, NO];
    if !s.flag && s.token {
      var last := s.(owner := Blocked, token := false);
      EndsAfter(w.(token := false), NO);
      EndsCons(t, NO, [NO], last);
      assert [NO] + [NO] == [NO, NO] && [NO] + [NO, NO] == [NO, NO, NO];
      EndsCons(w, NO, [NO, NO], last);
      AfterRefusals(s, [NO, NO, NO], last);
      assert [NO, NO, NO] + [NO, NO, NO] == [NO, NO, NO, NO, NO, NO];
    }
  }

  lemma EndsAfter(s: State, a: Action)
    requires Enabled(s, a)
    ensures Ends(s, [a], Apply(s, a))
  {
    EndsHere(Apply(s, a));
    EndsCons(s, a, [], Apply(s, a));
    assert [a] + [] == [a];
  }

  /** Three refusals lead to the swap. */
  lemma AfterRefusals(s: State, rest: seq<Action>, t: State)
    requires s.owner == Polling && Ends(s.(owner := Swap), rest, t)
    ensures Ends(s, [NO, NO, NO] + rest, t)
  {
    EndsCons(s.(owner := CheckEmpty), NO, rest, t);
    EndsCons(s.(owner := Helping), NO, [NO] + rest, t);
    EndsCons(s, NO, [NO] + ([NO] + rest), t);
    assert [NO] + ([NO] + ([NO] + rest)) == [NO, NO, NO] + rest;
  }

  /** A wake alone raises the flag, and gives the thread its token only if the flag was down. */
  lemma WakeAlone(s: State, i: nat)
    requires i < |s.wakers| && s.wakers[i] == Off
    ensures s.flag ==> Ends(s, [Wake(i)], s.(log := s.log.(wokenSince := true)))
    ensures !s.flag ==> Ends(s, [Wake(i), Wake(i)], s.(flag := true, token := true,
                                                       log := s.log.(raises := s.log.raises + 1, wokenSince := true)))
  {
    var t := Apply(s, Wake(i));
    assert s.wakers[i := Off] == s.wakers && s.wakers[i := OweUnpark][i := Off] == s.wakers;
    EndsAfter(s, Wake(i));
    if !s.flag {
      EndsAfter(t, Wake(i));
      EndsCons(s, Wake(i), [Wake(i)], Apply(t, Wake(i)));
      assert [Wake(i)] + [Wake(i)] == [Wake(i), Wake(i)];
    }
  }

  // ----- the loops, in place -----

  /** `BlockOnParker` and the thread that owns it. */
  class BlockOnParker {
    var unparked: bool
    var token: bool
    var owner: OwnerPc
    var wakers: seq<WakerPc>
    var log: Log

    function View(): State
      reads this
    {
      State(unparked, token, owner, wakers, log)
    }

    constructor (token: bool, wakers: nat)
      ensures Init(View()) && this.token == token && |this.wakers| == wakers
    {
      unparked, this.token, owner := false, token, Polling;
      this.wakers := seq(wakers, _ => Off);
      log := Log(0, 0, false);
    }

    ghost predicate On(start: State)
      reads this
    {
      Inv(View()) && Leads(Try, start, View())
    }

    /** One access of unpark: the swap, then the thread's token if it raised the flag. */
    method Unpark(i: nat)
      requires i < |wakers|
      modifies this
      ensures View() == Apply(old(View()), Wake(i))
    {
      match wakers[i] {
        case Off =>
          var was := unparked;
          unparked, log := true, log.(wokenSince := true);
          if !was {
            wakers, log := wakers[i := OweUnpark], log.(raises := log.raises + 1);
          }
        case OweUnpark =>
          token, wakers := true, wakers[i := Off];
      }
    }

    /** Any number of steps of the wakers and of others who unpark the thread. */
    method Others(ghost start: State)
      requires On(start)
      modifies this
      ensures On(start) && owner == old(owner) && log.parks == old(log).parks
    {
      var steps: nat := *;
      while steps > 0
        invariant On(start) && owner == old(owner) && log.parks == old(log).parks
      {
        var i: nat := *;
        var a := if i < |wakers| then Wake(i) else Outside;
        StepKeeps(View(), a);
        LeadsFurther(Try, start, View(), a);
        if i < |wakers| {
          Unpark(i);
        } else {
          token := true;
        }
        steps := steps - 1;
      }
    }

    ghost method Extend(a: Action, start: State)
      requires On(start) && Enabled(View(), a)
      ensures Inv(Apply(View(), a)) && Leads(Try, start, Apply(View(), a))
    {
      StepKeeps(View(), a);
      LeadsFurther(Try, start, View(), a);
    }

    /** unparked.swap(false) */
    method SwapFalse(ghost start: State) returns (was: bool)
      requires On(start) && owner == Swap
      modifies this
      ensures On(start) && owner == if was then Polling else Blocked
      ensures log.parks == old(log).parks + if was then 1 else 0
    {
      Others(start);
      Extend(OwnerStep(true), start);
      was := unparked;
      unparked := false;
      if was {
        owner, log := Polling, log.(parks := log.parks + 1, wokenSince := false);
      } else {
        owner := Blocked;
      }
    }

    /** thread::park, which takes the token and may also return spuriously without one; false
        if the schedule ends first, with no token given. */
    method ThreadPark(ghost start: State) returns (back: bool)
      requires On(start) && owner == Blocked
      modifies this
      ensures On(start) && log.parks == old(log).parks
      ensures back ==> owner == Swap && !token
      ensures !back ==> owner == Blocked && !token
    {
      Others(start);
      var spurious: bool := *;
      back := token || spurious;
      if token {
        Extend(OwnerStep(true), start);
        token, owner := false, Swap;
      } else if spurious {
        Extend(Spurious, start);
        owner := Swap;
      }
    }

    /** while !unparked.swap(false) { thread::park() }, for at most `rounds` turns. Every
        return takes exactly one raise of the flag; blocked at the end of the schedule, the
        thread has not been woken, or its waker is about to give the token. */
    method Park(rounds: nat, ghost start: State) returns (done: bool)
      requires On(start) && owner == Swap
      modifies this
      ensures On(start) && log.parks == old(log).parks + if done then 1 else 0
      ensures done ==> owner == Polling
      ensures !done ==> owner == Swap || (owner == Blocked && (log.wokenSince ==> SomeoneOwes(View())))
    {
      var left := rounds;
      done := false;
      while left > 0
        invariant On(start) && owner == Swap && log.parks == old(log).parks && !done
      {
        done := SwapFalse(start);
        if done { return; }
        var back := ThreadPark(start);
        if !back { return false; }
        left := left - 1;
      }
    }

    /** One turn of the owner outside park: a poll, a steal, or the emptiness test. */
    method Turn(yes: bool, ghost start: State)
      requires On(start) && (owner == Polling || owner == Helping || owner == CheckEmpty)
      modifies this
      ensures On(start) && log.parks == old(log).parks
      ensures owner == match old(owner)
                       case Polling => if yes then Returned else Helping
                       case Helping => if yes then Polling else CheckEmpty
                       case _ => if yes then Polling else Swap
    {
      Others(start);
      Extend(OwnerStep(yes), start);
      if owner != Polling && yes {
        log := log.(wokenSince := false);
      }
      owner := match owner
        case Polling => if yes then Returned else Helping
        case Helping => if yes then Polling else CheckEmpty
        case _ => if yes then Polling else Swap;
    }

    /** The loop of block_on: poll, or help, or park. */
    method BlockOn(rounds: nat, ghost start: State) returns (returned: bool)
      requires On(start) && owner == Polling
      modifies this
      ensures On(start) && (returned ==> owner == Returned)
      ensures !returned && owner == Blocked && log.wokenSince ==> SomeoneOwes(View())
    {
      var left := rounds;
      while left > 0
        invariant On(start) && owner == Polling
      {
        var ready: bool, found: bool, nonEmpty: bool := *, *, *;
        Turn(ready, start);
        if ready { return true; }
        Turn(found, start);
        if !found {
          Turn(nonEmpty, start);
          if !nonEmpty {
            var done := Park(rounds, start);
            if !done { return false; }
          }
        }
        left := left - 1;
      }
      returned := false;
    }
  }
}
