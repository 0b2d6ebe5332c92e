module Options {
  datatype Option<T> = None | Some(value: T)
}

/** Runs of a state machine given by its step function: `step(s, a)` is the state after
    action a, or None if a is not enabled in s. */
module Runs {
  import opened Options

  predicate Runnable<S, A>(step: (S, A) -> Option<S>, s: S, acts: seq<A>)
    decreases |acts|
  {
    acts != [] ==> step(s, acts[0]).Some? && Runnable(step, step(s, acts[0]).value, acts[1..])
  }

  function Exec<S, A>(step: (S, A) -> Option<S>, s: S, acts: seq<A>): S
    requires Runnable(step, s, acts)
    decreases |acts|
  {
    if acts == [] then s else Exec(step, step(s, acts[0]).value, acts[1..])
  }

  lemma {:induction false} ExecConcat<S, A>(step: (S, A) -> Option<S>, s: S, a: seq<A>, b: seq<A>)
    requires Runnable(step, s, a) && Runnable(step, Exec(step, s, a), b)
    ensures Runnable(step, s, a + b) && Exec(step, s, a + b) == Exec(step, Exec(step, s, a), b)
    decreases |a|
  {
    if a == [] {
      assert a + b == b;
    } else {
      ExecConcat(step, step(s, a[0]).value, a[1..], b);
      assert (a + b)[1..] == a[1..] + b;
    }
  }

  /** Some run leads from s to t. */
  ghost predicate Leads<S, A(!new)>(step: (S, A) -> Option<S>, s: S, t: S) {
    exists acts :: Runnable(step, s, acts) && Exec(step, s, acts) == t
  }

  lemma LeadsNowhere<S, A(!new)>(step: (S, A) -> Option<S>, s: S)
    ensures Leads(step, s, s)
  {
    assert Runnable(step, s, []) && Exec(step, s, []) == s;
  }

  lemma LeadsFurther<S, A(!new)>(step: (S, A) -> Option<S>, s: S, t: S, a: A)
    requires Leads(step, s, t) && step(t, a).Some?
    ensures Leads(step, s, step(t, a).value)
  {
    var acts :| Runnable(step, s, acts) && Exec(step, s, acts) == t;
    var u := step(t, a).value;
    assert [a][1..] == [] && Exec(step, u, []) == u;
    ExecConcat(step, s, acts, [a]);
  }

  lemma LeadsFirst<S, A(!new)>(step: (S, A) -> Option<S>, s: S, a: A, t: S)
    requires step(s, a).Some? && Leads(step, step(s, a).value, t)
    ensures Leads(step, s, t)
  {
    var acts :| Runnable(step, step(s, a).value, acts) && Exec(step, step(s, a).value, acts) == t;
    var all := [a] + acts;
    assert all[1..] == acts;
    assert Runnable(step, s, all) && Exec(step, s, all) == t;
  }

  lemma LeadsOn<S, A(!new)>(step: (S, A) -> Option<S>, s: S, t: S, u: S)
    requires Leads(step, s, t) && Leads(step, t, u)
    ensures Leads(step, s, u)
  {
    var a :| Runnable(step, s, a) && Exec(step, s, a) == t;
    var b :| Runnable(step, t, b) && Exec(step, t, b) == u;
    ExecConcat(step, s, a, b);
  }

  /** A machine with more steps has more runs. */
  lemma LeadsToo<S(!new), A(!new)>(step: (S, A) -> Option<S>, more: (S, A) -> Option<S>, s: S, t: S)
    requires Leads(step, s, t)
    requires forall x, a :: step(x, a).Some? ==> more(x, a) == step(x, a)
    ensures Leads(more, s, t)
  {
    var acts :| Runnable(step, s, acts) && Exec(step, s, acts) == t;
    SameRun(step, more, s, acts);
  }

  lemma {:induction false} SameRun<S(!new), A(!new)>(step: (S, A) -> Option<S>, more: (S, A) -> Option<S>, s: S,
                                                      acts: seq<A>)
    requires Runnable(step, s, acts)
    requires forall x, a :: step(x, a).Some? ==> more(x, a) == step(x, a)
    ensures Runnable(more, s, acts) && Exec(more, s, acts) == Exec(step, s, acts)
    decreases |acts|
  {
    if acts != [] {
      SameRun(step, more, step(s, acts[0]).value, acts[1..]);
    }
  }

  /** What every step keeps holds wherever a run leads. */
  lemma HoldsWhereLed<S(!new), A(!new)>(step: (S, A) -> Option<S>, inv: S -> bool, s: S, t: S)
    requires inv(s) && Leads(step, s, t)
    requires forall x, a :: inv(x) && step(x, a).Some? ==> inv(step(x, a).value)
    ensures inv(t)
  {
    var acts :| Runnable(step, s, acts) && Exec(step, s, acts) == t;
    HoldsAlong(step, inv, s, acts);
  }

  ghost predicate ReachableBy<S(!new), A(!new)>(init: S -> bool, step: (S, A) -> Option<S>, s: S) {
    exists s0 :: init(s0) && Leads(step, s0, s)
  }

  /** What holds at the beginning and is kept by every step holds in every reachable state. */
  lemma HoldsWhenReachable<S(!new), A(!new)>(init: S -> bool, step: (S, A) -> Option<S>, inv: S -> bool, s: S)
    requires ReachableBy(init, step, s)
    requires forall x :: init(x) ==> inv(x)
    requires forall x, a :: inv(x) && step(x, a).Some? ==> inv(step(x, a).value)
    ensures inv(s)
  {
    var s0 :| init(s0) && Leads(step, s0, s);
    var acts :| Runnable(step, s0, acts) && Exec(step, s0, acts) == s;
    HoldsAlong(step, inv, s0, acts);
  }

  lemma {:induction false} HoldsAlong<S(!new), A(!new)>(step: (S, A) -> Option<S>, inv: S -> bool, s: S, acts: seq<A>)
    requires inv(s) && Runnable(step, s, acts)
    requires forall x, a :: inv(x) && step(x, a).Some? ==> inv(step(x, a).value)
    ensures inv(Exec(step, s, acts))
    decreases |acts|
  {
    if acts != [] {
      HoldsAlong(step, inv, step(s, acts[0]).value, acts[1..]);
    }
  }

  lemma StaysReachable<S(!new), A(!new)>(init: S -> bool, step: (S, A) -> Option<S>, s: S, a: A)
    requires ReachableBy(init, step, s) && step(s, a).Some?
    ensures ReachableBy(init, step, step(s, a).value)
  {
    var s0 :| init(s0) && Leads(step, s0, s);
    LeadsFurther(step, s0, s, a);
  }

  /** One more step of a concrete run ... */
  lemma Next<S(!new), A(!new)>(init: S -> bool, step: (S, A) -> Option<S>, s: S, a: A) returns (r: S)
    requires ReachableBy(init, step, s) && step(s, a).Some?
    ensures r == step(s, a).value && ReachableBy(init, step, r)
  {
    StaysReachable(init, step, s, a);
    r := step(s, a).value;
  }

  /** ... and of one that does not start at the beginning. */
  lemma Onward<S, A(!new)>(step: (S, A) -> Option<S>, s: S, t: S, a: A) returns (r: S)
    requires Leads(step, s, t) && step(t, a).Some?
    ensures r == step(t, a).value && Leads(step, s, r)
  {
    LeadsFurther(step, s, t, a);
    r := step(t, a).value;
  }
}
