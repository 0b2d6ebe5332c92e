/** Where the values come from: whatever is about to be written, sits in the output slot, or
    is given out by the join handle was returned by future.poll earlier in the run. */
module TaskOutputs {
  import opened Options
  import opened Runs
  import opened TaskModel
  import opened TaskInvariant

  /** Action k of the run is a return of Ready(v) from future.poll. */
  ghost predicate ReturnedAt(s: State, acts: seq<Action>, k: nat, v: Output) {
    && k < |acts| && Runnable(Try, s, acts[..k])
    && ReadyStep(Exec(Try, s, acts[..k]), acts[k], v)
  }

  predicate ReadyStep(s: State, a: Action, v: Output) {
    a.PollStep? && a.ready == Some(v) && a.p < |s.pollers| && s.pollers[a.p] == Polling
  }

  /** Some call of future.poll in the run returned v. */
  ghost predicate Returned(s: State, acts: seq<Action>, v: Output) {
    exists k: nat :: ReturnedAt(s, acts, k, v)
  }

  lemma ReturnedNow(s: State, acts: seq<Action>, v: Output)
    requires acts != [] && ReadyStep(s, acts[0], v)
    ensures Returned(s, acts, v)
  {
    assert acts[..0] == [];
    assert ReturnedAt(s, acts, 0, v);
  }

  lemma ReturnedLater(s: State, acts: seq<Action>, v: Output)
    requires acts != [] && Enabled(s, acts[0]) && Returned(Apply(s, acts[0]), acts[1..], v)
    ensures Returned(s, acts, v)
  {
    var k: nat :| ReturnedAt(Apply(s, acts[0]), acts[1..], k, v);
    var pre := acts[..k + 1];
    assert pre[0] == acts[0] && pre[1..] == acts[1..][..k];
    assert ReturnedAt(s, acts, k + 1, v);
  }

  /** Every value in the state is in w. */
  ghost predicate From(s: State, w: iset<Output>) {
    && (s.output.Some? ==> s.output.value in w)
    && (s.result.Ok? ==> s.result.value in w)
    && (forall p :: 0 <= p < |s.pollers| && s.pollers[p].Write? ==> s.pollers[p].value in w)
  }

  lemma PollFrom(s: State, p: nat, ready: Option<Output>, w: iset<Output>)
    requires PollEnabled(s, p) && From(s, w)
    requires s.pollers[p] == Polling && ready.Some? ==> ready.value in w
    ensures From(PollApply(s, p, ready), w)
  {
  }

  lemma StepFrom(s: State, a: Action, w: iset<Output>)
    requires Enabled(s, a) && From(s, w) && WakerInv(s)
    requires forall v :: ReadyStep(s, a, v) ==> v in w
    ensures From(Apply(s, a), w)
  {
    match a
    case PollStep(p, ready) =>
      assert s.pollers[p] == Polling && ready.Some? ==> ReadyStep(s, a, ready.value);
      PollFrom(s, p, ready, w);
    case WakeStep(i, spurious) =>
      WakeKeepsOutput(s, i, spurious);
      WakeKeepsFlag(s, i, spurious);
    case JoinStep => JoinFrom(s, w);
    case _ =>
  }

  lemma JoinFrom(s: State, w: iset<Output>)
    requires From(s, w)
    ensures From(JoinApply(s), w)
  {
    JoinKeepsWord(s);
  }

  lemma {:induction false} RunFrom(s: State, acts: seq<Action>, w: iset<Output>)
    requires Inv(s) && Runnable(Try, s, acts) && From(s, w)
    requires forall v :: Returned(s, acts, v) ==> v in w
    ensures From(Exec(Try, s, acts), w)
    decreases |acts|
  {
    if acts != [] {
      var t := Apply(s, acts[0]);
      forall v | ReadyStep(s, acts[0], v) ensures v in w {
        ReturnedNow(s, acts, v);
      }
      forall v | Returned(t, acts[1..], v) ensures v in w {
        ReturnedLater(s, acts, v);
      }
      StepKeeps(s, acts[0]);
      StepFrom(s, acts[0], w);
      RunFrom(t, acts[1..], w);
    }
  }

  /** The output slot holds, and a poll is about to write, and the join handle answers, only
      what future.poll returned at some point of the run. */
  lemma OutputsAreReturned(s0: State, acts: seq<Action>, v: Output)
    requires Init(s0) && Runnable(Try, s0, acts)
    requires var t := Exec(Try, s0, acts);
             || t.output == Some(v) || t.result == Ok(v)
             || exists p :: 0 <= p < |t.pollers| && t.pollers[p] == Write(v)
    ensures Returned(s0, acts, v)
  {
    var w := iset x: Output | Returned(s0, acts, x);
    InitKeeps(s0);
    RunFrom(s0, acts, w);
  }
}
