/** What the scheduler's invariant gives in every reachable state. */
module SchedulerTheorems {
  import opened Runs
  import opened Sums
  import opened SchedulerModel
  import opened SchedulerInvariant
  import opened SchedulerPreservation

  // ----- no lost wake-up -----

  ghost predicate SomePusherOwesNotify(s: State) {
    || (exists i :: 0 <= i < |s.workers| && WorkerPending(s.workers[i]) > 0)
    || (exists j :: 0 <= j < |s.clients| && ClientPending(s.clients[j]) > 0)
  }

  ghost predicate SomeWorkerWillLook(s: State) {
    exists i :: 0 <= i < |s.workers| && !Asleep(s.workers[i])
  }

  lemma NoLostWakeup(s: State)
    requires Reachable(s) && !s.shutdown && s.injector != []
    ensures SomePusherOwesNotify(s) || SomeWorkerWillLook(s)
  {
    ReachableInv(s);
    if SomeAsleep(s) {
      if Sum(s.workers, Awake) > 0 {
        SumPositive(s.workers, Awake);
      } else if Sum(s.workers, WorkerPending) > 0 {
        SumPositive(s.workers, WorkerPending);
      } else {
        SumPositive(s.clients, ClientPending);
      }
    } else {
      assert !Asleep(s.workers[0]);
    }
  }

  /** The quantitative form: as long as some worker sleeps, every queued task is matched
      by a distinct wake-up still to be sent or a distinct worker that is not asleep. */
  lemma QueueCoveredByWakeups(s: State)
    requires Reachable(s) && !s.shutdown && SomeAsleep(s)
    ensures |s.injector| <= Pending(s) + Sum(s.workers, Awake)
  {
    ReachableInv(s);
  }

  // ----- one FIFO, and where every task went -----

  lemma OneFifo(s: State)
    requires Reachable(s)
    ensures s.log.pushed == s.log.taken + s.injector
    ensures forall i :: 0 <= i < |s.local| ==> s.local[i] == []
  {
    ReachableInv(s);
  }

  lemma TasksConserved(s: State)
    requires Reachable(s)
    ensures multiset(s.log.pushed) == multiset(s.injector) + InHand(s) + s.log.ran + s.log.discarded
  {
    ReachableInv(s);
    var taken, inj := multiset(s.log.taken), multiset(s.injector);
    assert multiset(s.log.pushed) == taken + inj;
    assert taken + inj == inj + (InHand(s) + s.log.ran + s.log.discarded);
    assert inj + (InHand(s) + s.log.ran + s.log.discarded) == inj + InHand(s) + s.log.ran + s.log.discarded;
  }

  // ----- active workers -----

  lemma ActiveCount(s: State)
    requires Reachable(s)
    ensures s.active == |s.workers| - Sum(s.workers, Inactive)
    ensures 0 <= s.active <= |s.workers|
    ensures forall i: nat, w: nat :: WorkerEnabled(s, i, w) && s.workers[i] == SubActive ==> s.active >= 1
    ensures s.boss.Done? ==> s.active == |s.workers|
  {
    ReachableInv(s);
    SumBound(s.workers, Inactive, 1);
    forall i: nat, w: nat | WorkerEnabled(s, i, w) && s.workers[i] == SubActive ensures s.active >= 1 {
      SumUpdate(s.workers, Inactive, i, RecheckLocal);
      SumBound(s.workers[i := RecheckLocal], Inactive, 1);
    }
    if s.boss.Done? {
      SumZero(s.workers, Inactive);
    }
  }

  // ----- stealing -----

  ghost predicate Probed(n: nat, me: nat, v: nat)
    requires n > 0
  {
    exists k :: 0 <= k < n - 1 && Target(n, me, k) == v
  }

  /** The offsets of `steal_work` probe every other worker's queue exactly once and never
      the worker's own. */
  lemma ScanCoversOthers(n: nat, me: nat)
    requires me < n
    ensures forall v: nat :: v < n ==> (Probed(n, me, v) <==> v != me)
    ensures forall k, l :: 0 <= k < l < n - 1 ==> Target(n, me, k) != Target(n, me, l)
  {
    forall k | 0 <= k < n - 1 ensures Target(n, me, k) == if me + 1 + k < n then me + 1 + k else me + 1 + k - n {
      TargetValue(n, me, k);
    }
    forall v: nat | v < n && v != me ensures Probed(n, me, v) {
      var k := if v > me then v - me - 1 else v + n - me - 1;
      assert Target(n, me, k) == v;
    }
  }

  lemma TargetValue(n: nat, me: nat, k: nat)
    requires me < n && k < n - 1
    ensures Target(n, me, k) == if me + 1 + k < n then me + 1 + k else me + 1 + k - n
  {
    ModOnce(me + 1, n);
    ModOnce((me + 1) % n + k, n);
  }

  lemma ModOnce(x: nat, n: nat)
    requires 0 < n && x < n + n
    ensures x % n == if x < n then x else x - n
  {
    var q, r := x / n, x % n;
    assert x == n * q + r;
    TwiceAtLeast(n, q);
  }

  lemma TwiceAtLeast(n: nat, q: nat)
    ensures q >= 2 ==> n * q >= n + n
  {
  }

  // ----- concrete runs -----

  /** One worker, one client, nothing done yet. */
  lemma Beginning() returns (s: State)
    ensures Reachable(s)
    ensures s == State([Check], [[]], [Outside(Quiet)], Idle, [], Free, Free, Free, 1, false, 0,
                       Log([], [], multiset{}, multiset{}))
  {
    s := State([Check], [[]], [Outside(Quiet)], Idle, [], Free, Free, Free, 1, false, 0,
               Log([], [], multiset{}, multiset{}));
    assert Init(s);
    LeadsNowhere(Try, s);
  }
}
