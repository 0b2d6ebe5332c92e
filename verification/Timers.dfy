/** The timer driver and the choice of a wait.

    `BinaryHeap` is the standard library's: all that is used of it is that peek shows, and
    pop removes, an entry no other entry exceeds in `Ord`. `TimerEntry` reverses the order
    of deadlines, so that greatest means earliest. Clock readings are parameters. */
module Timers {
  import opened Options

  datatype Ordering = Less | Equal | Greater

  datatype TimerEntry = TimerEntry(deadline: int, waker: nat)

  function CompareInt(a: int, b: int): Ordering {
    if a < b then Less else if a > b then Greater else Equal
  }

  /** `TimerEntry::cmp`, reversed. */
  function Cmp(a: TimerEntry, b: TimerEntry): Ordering {
    CompareInt(b.deadline, a.deadline)
  }

  /** No entry of the bag exceeds e. */
  ghost predicate Greatest(e: TimerEntry, bag: multiset<TimerEntry>) {
    e in bag && forall x :: x in bag ==> Cmp(x, e) != Greater
  }

  /** The greatest entries in `Ord` are those with the earliest deadline. */
  lemma GreatestIsEarliest(e: TimerEntry, bag: multiset<TimerEntry>)
    ensures Greatest(e, bag) <==> e in bag && forall x :: x in bag ==> e.deadline <= x.deadline
  {
    if Greatest(e, bag) {
      forall x | x in bag ensures e.deadline <= x.deadline {
        assert Cmp(x, e) != Greater;
      }
    }
  }

  // ----- BinaryHeap -----

  class Heap {
    var items: seq<TimerEntry>

    function Bag(): multiset<TimerEntry>
      reads this
    {
      multiset(items)
    }

    constructor ()
      ensures Bag() == multiset{}
    {
      items := [];
    }

    method Push(e: TimerEntry)
      modifies this
      ensures Bag() == old(Bag()) + multiset{e}
    {
      items := items + [e];
    }

    method Peek() returns (top: Option<TimerEntry>)
      ensures top == None <==> Bag() == multiset{}
      ensures top.Some? ==> Greatest(top.value, Bag())
    {
      if items == [] {
        return None;
      }
      var at := Top();
      top := Some(items[at]);
      assert top.value in Bag();
    }

    method Pop() returns (top: Option<TimerEntry>)
      modifies this
      ensures top == None <==> old(Bag()) == multiset{}
      ensures top.Some? ==> Greatest(top.value, old(Bag())) && Bag() == old(Bag()) - multiset{top.value}
      ensures top == None ==> Bag() == old(Bag())
    {
      if items == [] {
        return None;
      }
      var at := Top();
      top := Some(items[at]);
      assert top.value in Bag();
      Cut(items, at);
      items := items[..at] + items[at + 1..];
    }

    method Top() returns (at: nat)
      requires items != []
      ensures at < |items| && Greatest(items[at], Bag())
    {
      at := 0;
      var k := 1;
      while k < |items|
        invariant at < k <= |items|
        invariant forall j :: 0 <= j < k ==> items[at].deadline <= items[j].deadline
      {
        if Cmp(items[k], items[at]) == Greater {
          at := k;
        }
        k := k + 1;
      }
      assert forall x :: x in Bag() ==> x in items;
    }
  }

  lemma Cut(s: seq<TimerEntry>, at: nat)
    requires at < |s|
    ensures multiset(s[..at] + s[at + 1..]) == multiset(s) - multiset{s[at]}
  {
    assert s == s[..at] + [s[at]] + s[at + 1..];
  }

  // ----- TimeDriver -----

  predicate Sorted(s: seq<TimerEntry>) {
    forall i, j :: 0 <= i < j < |s| ==> s[i].deadline <= s[j].deadline
  }

  /** The entries of a bag that are due at a reading, each as often as it occurs. */
  ghost predicate IsDuePart(due: multiset<TimerEntry>, bag: multiset<TimerEntry>, now: int) {
    forall e :: due[e] == if e.deadline <= now then bag[e] else 0
  }

  /** The earliest deadline of a bag, if there is one. */
  ghost predicate IsNext(next: Option<int>, bag: multiset<TimerEntry>) {
    && (next == None <==> bag == multiset{})
    && (next.Some? ==> (exists e :: e in bag && e.deadline == next.value))
    && (next.Some? ==> forall e :: e in bag ==> next.value <= e.deadline)
  }

  class TimeDriver {
    const timers: Heap
    var woken: seq<TimerEntry> // every waker woken so far, in order

    constructor ()
      ensures fresh(timers) && timers.Bag() == multiset{} && woken == []
    {
      timers := new Heap();
      woken := [];
    }

    method Schedule(deadline: int, waker: nat)
      modifies timers
      ensures timers.Bag() == old(timers.Bag()) + multiset{TimerEntry(deadline, waker)}
    {
      timers.Push(TimerEntry(deadline, waker));
    }

    method NextDeadline() returns (next: Option<int>)
      ensures IsNext(next, timers.Bag())
    {
      var top := timers.Peek();
      match top {
        case None => next := None;
        case Some(e) =>
          GreatestIsEarliest(e, timers.Bag());
          next := Some(e.deadline);
      }
    }

    /** timers.pop().unwrap().waker.wake() */
    method FireTop(ghost all: multiset<TimerEntry>, fired: seq<TimerEntry>, now: int, ghost peeked: TimerEntry,
                   ghost woke: seq<TimerEntry>)
      returns (fired': seq<TimerEntry>)
      requires Draining(all, timers.Bag(), fired, now) && Greatest(peeked, timers.Bag()) && peeked.deadline <= now
      requires woken == woke + fired
      modifies this, timers
      ensures Draining(all, timers.Bag(), fired', now) && woken == woke + fired'
      ensures |timers.Bag()| < old(|timers.Bag()|)
    {
      ghost var before := timers.Bag();
      var popped := timers.Pop();
      DrainOne(all, before, fired, now, peeked, popped.value);
      Associative(woke, fired, popped.value);
      fired' := fired + [popped.value];
      woken := woken + [popped.value];
    }

    /** Wakes exactly the entries due at `now`, each once, earliest first, and keeps exactly
        the others. */
    method Process(now: int) returns (fired: seq<TimerEntry>)
      modifies this, timers
      ensures woken == old(woken) + fired
      ensures Sorted(fired)
      ensures IsDuePart(multiset(fired), old(timers.Bag()), now)
      ensures timers.Bag() + multiset(fired) == old(timers.Bag())
      ensures forall e :: e in timers.Bag() ==> e.deadline > now
    {
      fired := [];
      ghost var all := timers.Bag();
      var entry := timers.Peek();
      while entry.Some?
        invariant entry == None <==> timers.Bag() == multiset{}
        invariant entry.Some? ==> Greatest(entry.value, timers.Bag())
        invariant Draining(all, timers.Bag(), fired, now)
        invariant woken == old(woken) + fired
        decreases |timers.Bag()|
      {
        if entry.value.deadline > now {
          break;
        }
        fired := FireTop(all, fired, now, entry.value, old(woken));
        entry := timers.Peek();
      }
      if entry.Some? {
        GreatestIsEarliest(entry.value, timers.Bag());
      }
      DuePart(all, timers.Bag(), fired, now);
    }
  }

  lemma Associative(a: seq<TimerEntry>, b: seq<TimerEntry>, x: TimerEntry)
    ensures (a + b) + [x] == a + (b + [x])
  {
  }

  ghost predicate Draining(all: multiset<TimerEntry>, kept: multiset<TimerEntry>, fired: seq<TimerEntry>, now: int) {
    && kept + multiset(fired) == all
    && Sorted(fired)
    && (forall i :: 0 <= i < |fired| ==> fired[i].deadline <= now)
    && (forall i, x :: 0 <= i < |fired| && x in kept ==> fired[i].deadline <= x.deadline)
  }

  lemma DrainOne(all: multiset<TimerEntry>, kept: multiset<TimerEntry>, fired: seq<TimerEntry>, now: int,
                 peeked: TimerEntry, e: TimerEntry)
    requires Draining(all, kept, fired, now)
    requires Greatest(peeked, kept) && Greatest(e, kept) && peeked.deadline <= now
    ensures Draining(all, kept - multiset{e}, fired + [e], now)
  {
    GreatestIsEarliest(e, kept);
    var rest := kept - multiset{e};
    assert rest + multiset(fired + [e]) == kept + multiset(fired) by {
      assert multiset(fired + [e]) == multiset(fired) + multiset{e};
      assert rest + multiset{e} == kept;
      assert rest + (multiset(fired) + multiset{e}) == (rest + multiset{e}) + multiset(fired);
    }
    assert forall x :: x in rest ==> x in kept;
  }

  lemma DuePart(all: multiset<TimerEntry>, kept: multiset<TimerEntry>, fired: seq<TimerEntry>, now: int)
    requires kept + multiset(fired) == all
    requires forall e :: e in fired ==> e.deadline <= now
    requires forall e :: e in kept ==> e.deadline > now
    ensures IsDuePart(multiset(fired), all, now)
  {
    forall e ensures multiset(fired)[e] == if e.deadline <= now then all[e] else 0 {
      assert all[e] == kept[e] + multiset(fired)[e];
      if e.deadline <= now {
        assert e !in kept;
      } else {
        assert e !in fired;
      }
    }
  }

  // ----- Parker::park_timeout -----

  /** What `Park::park` without a time-out waits: 365 days, in the clock's unit. */
  const YEAR: int := 365 * 24 * 60 * 60

  /** The wait the parker ends up with, as a specification: the time to the next deadline
      if that lies ahead and before the time-out, otherwise the time-out. */
  function Wait(next: Option<int>, now: int, timeout: Option<int>): int {
    var limit := if timeout.Some? then timeout.value else YEAR;
    if next.Some? && next.value > now && (timeout == None || next.value - now < timeout.value)
    then next.value - now else limit
  }

  class Parker {
    const driver: TimeDriver
    const hasDriver: bool

    constructor (hasDriver: bool)
      ensures fresh(driver) && fresh(driver.timers) && driver.timers.Bag() == multiset{}
      ensures this.hasDriver == hasDriver
    {
      driver := new TimeDriver();
      this.hasDriver := hasDriver;
    }

    /** Parker::park_timeout at clock reading `now`: the duration handed to the thread
        parker. */
    method ParkTimeout(timeout: Option<int>, now: int) returns (wait: int)
      ensures exists next ::
                && IsNext(next, if hasDriver then driver.timers.Bag() else multiset{})
                && wait == Wait(next, now, timeout)
      // never longer than asked for
      ensures timeout.Some? ==> wait <= timeout.value
      // and, unless an entry is already overdue, never past the earliest deadline
      ensures hasDriver && (forall e :: e in driver.timers.Bag() ==> e.deadline > now)
              ==> forall e :: e in driver.timers.Bag() ==> wait <= e.deadline - now
      // and never shorter: with entries, all ahead, it is the time-out or the way to an entry
      ensures hasDriver && driver.timers.Bag() != multiset{}
              && (forall e :: e in driver.timers.Bag() ==> e.deadline > now)
              ==> || (timeout.Some? && wait == timeout.value)
                  || exists e :: e in driver.timers.Bag() && wait == e.deadline - now
      // without a driver, without entries, or with an overdue one, it is the time-out, or 365
      // days of 86400 seconds
      ensures !hasDriver || driver.timers.Bag() == multiset{}
              || (exists e :: e in driver.timers.Bag() && e.deadline <= now)
              ==> wait == if timeout.Some? then timeout.value else 31536000
    {
      var next: Option<int> := None;
      assert IsNext(None, multiset{});
      if hasDriver {
        next := driver.NextDeadline();
        assert IsNext(next, driver.timers.Bag());
        if next.Some? {
          var deadline := next.value;
          if deadline > now {
            var duration := deadline - now;
            match timeout {
              case Some(limit) =>
                if duration < limit {
                  assert duration == Wait(next, now, timeout);
                  return duration;
                }
              case None =>
                assert duration == Wait(next, now, timeout);
                return duration;
            }
          }
        }
      }
      match timeout {
        case Some(limit) => wait := limit;
        case None => wait := YEAR;
      }
      assert wait == Wait(next, now, timeout);
    }

    /** A turn at one clock reading: fire what is due, then park. The wait then never
        exceeds the time-out nor the time to the earliest remaining deadline. */
    method ProcessThenPark(timeout: Option<int>, now: int) returns (wait: int)
      requires hasDriver
      modifies driver, driver.timers
      ensures timeout.Some? ==> wait <= timeout.value
      ensures forall e :: e in driver.timers.Bag() ==> e.deadline > now && wait <= e.deadline - now
    {
      var _ := driver.Process(now);
      wait := ParkTimeout(timeout, now);
    }
  }

  /** Parking with overdue entries ignores them: the wait overshoots the earliest deadline
      exactly when that deadline is not ahead of the clock and the limit is positive. */
  lemma OvershootsIff(next: int, now: int, timeout: Option<int>)
    requires timeout.Some? ==> timeout.value >= 0
    ensures Wait(Some(next), now, timeout) > (if next > now then next - now else 0)
            <==> next <= now && (timeout.Some? ==> timeout.value > 0)
  {
  }

  /** A concrete case: at reading 5, with a timer due at 3 and not processed yet, a park for
      at most 7 waits the whole 7. */
  method OverdueTimerIsIgnored() returns (due: Option<int>, wait: int)
    ensures due == Some(3) && wait == 7
  {
    var parker := new Parker(true);
    parker.driver.Schedule(3, 0);
    due := parker.driver.NextDeadline();
    wait := parker.ParkTimeout(Some(7), 5);
  }
}
