/** Sums over a sequence of thread positions.

    Every global argument about "how many threads are at such a place" is a sum of a
    function over the sequence of program counters; a step changes one entry, so all
    the arithmetic needed is how a sum changes under a single update. */
module Sums {

  function Sum<T>(s: seq<T>, f: T -> nat): nat {
    if s == [] then 0 else Sum(s[..|s| - 1], f) + f(s[|s| - 1])
  }

  lemma {:induction false} SumUpdate<T>(s: seq<T>, f: T -> nat, i: nat, x: T)
    requires i < |s|
    ensures Sum(s[i := x], f) + f(s[i]) == Sum(s, f) + f(x)
    decreases |s|
  {
    var n := |s| - 1;
    var t := s[i := x];
    if i == n {
      assert t[..n] == s[..n];
    } else {
      assert t[..n] == s[..n][i := x];
      SumUpdate(s[..n], f, i, x);
    }
  }

  // A sum depends on the values of f only.
  lemma {:induction false} SumSame<T>(s: seq<T>, t: seq<T>, f: T -> nat)
    requires |s| == |t|
    requires forall i :: 0 <= i < |s| ==> f(s[i]) == f(t[i])
    ensures Sum(s, f) == Sum(t, f)
    decreases |s|
  {
    if s != [] {
      SumSame(s[..|s| - 1], t[..|t| - 1], f);
    }
  }

  // How a sum changes when f changes at one place only.
  lemma SumOne<T>(s: seq<T>, t: seq<T>, f: T -> nat, me: nat)
    requires |s| == |t| && me < |s|
    requires forall i :: 0 <= i < |s| && i != me ==> f(s[i]) == f(t[i])
    ensures Sum(t, f) + f(s[me]) == Sum(s, f) + f(t[me])
  {
    SumUpdate(s, f, me, t[me]);
    SumSame(s[me := t[me]], t, f);
  }

  lemma {:induction false} SumAtMost<T>(s: seq<T>, t: seq<T>, f: T -> nat)
    requires |s| == |t|
    requires forall i :: 0 <= i < |s| ==> f(s[i]) <= f(t[i])
    ensures Sum(s, f) <= Sum(t, f)
    decreases |s|
  {
    if s != [] {
      SumAtMost(s[..|s| - 1], t[..|t| - 1], f);
    }
  }

  lemma {:induction false} SumBound<T>(s: seq<T>, f: T -> nat, b: nat)
    requires forall i :: 0 <= i < |s| ==> f(s[i]) <= b
    ensures Sum(s, f) <= |s| * b
    decreases |s|
  {
    if s != [] {
      SumBound(s[..|s| - 1], f, b);
      assert |s| * b == (|s| - 1) * b + b;
    }
  }

  lemma {:induction false} SumMember<T>(s: seq<T>, f: T -> nat, i: nat)
    requires i < |s|
    ensures f(s[i]) <= Sum(s, f)
    decreases |s|
  {
    if i < |s| - 1 {
      SumMember(s[..|s| - 1], f, i);
    }
  }

  // A positive sum has a positive member.
  lemma {:induction false} SumPositive<T>(s: seq<T>, f: T -> nat)
    requires Sum(s, f) > 0
    ensures exists i :: 0 <= i < |s| && f(s[i]) > 0
    decreases |s|
  {
    if f(s[|s| - 1]) == 0 {
      SumPositive(s[..|s| - 1], f);
      var i :| 0 <= i < |s| - 1 && f(s[..|s| - 1][i]) > 0;
      assert f(s[i]) > 0;
    }
  }

  lemma {:induction false} SumZero<T>(s: seq<T>, f: T -> nat)
    requires forall i :: 0 <= i < |s| ==> f(s[i]) == 0
    ensures Sum(s, f) == 0
    decreases |s|
  {
    if s != [] {
      SumZero(s[..|s| - 1], f);
    }
  }

  /** The multiset of things held by the threads of a sequence. */
  function Gather<T, A>(s: seq<T>, f: T -> multiset<A>): multiset<A> {
    if s == [] then multiset{} else Gather(s[..|s| - 1], f) + f(s[|s| - 1])
  }

  lemma {:induction false} GatherUpdate<T, A>(s: seq<T>, f: T -> multiset<A>, i: nat, x: T)
    requires i < |s|
    ensures Gather(s[i := x], f) + f(s[i]) == Gather(s, f) + f(x)
    decreases |s|
  {
    var n := |s| - 1;
    var t := s[i := x];
    if i == n {
      assert t[..n] == s[..n];
    } else {
      assert t[..n] == s[..n][i := x];
      GatherUpdate(s[..n], f, i, x);
      var a, b, last := Gather(t[..n], f), Gather(s[..n], f), f(s[n]);
      assert (a + last) + f(s[i]) == (a + f(s[i])) + last;
      assert (b + last) + f(x) == (b + f(x)) + last;
      assert Gather(t, f) == a + last && Gather(s, f) == b + last;
    }
  }

  lemma {:induction false} GatherSame<T, A>(s: seq<T>, t: seq<T>, f: T -> multiset<A>)
    requires |s| == |t|
    requires forall i :: 0 <= i < |s| ==> f(s[i]) == f(t[i])
    ensures Gather(s, f) == Gather(t, f)
    decreases |s|
  {
    if s != [] {
      GatherSame(s[..|s| - 1], t[..|t| - 1], f);
    }
  }

  lemma GatherOne<T, A>(s: seq<T>, t: seq<T>, f: T -> multiset<A>, me: nat)
    requires |s| == |t| && me < |s|
    requires forall i :: 0 <= i < |s| && i != me ==> f(s[i]) == f(t[i])
    ensures Gather(t, f) + f(s[me]) == Gather(s, f) + f(t[me])
  {
    GatherUpdate(s, f, me, t[me]);
    GatherSame(s[me := t[me]], t, f);
  }

  lemma {:induction false} GatherNone<T, A>(s: seq<T>, f: T -> multiset<A>)
    requires forall i :: 0 <= i < |s| ==> f(s[i]) == multiset{}
    ensures Gather(s, f) == multiset{}
    decreases |s|
  {
    if s != [] {
      GatherNone(s[..|s| - 1], f);
    }
  }
}
