/** The thread's runtime context: `Handle::enter` with `EnterGuard`, and the `ContextGuard`
    of `block_on`. Guards replace the thread-local cells and put the old values back. */
module Context {
  import opened Options

  type Shared = nat

  /** CURRENT_CONTEXT and CURRENT_WORKER of one thread. */
  class ThreadLocals {
    var context: Option<Shared>
    var worker: Option<nat>
    var seen: seq<(Option<Shared>, Option<nat>)> // what `Handle::current` and the scheduler saw

    constructor (context: Option<Shared>, worker: Option<nat>)
      ensures this.context == context && this.worker == worker && seen == []
    {
      this.context, this.worker, seen := context, worker, [];
    }

    method Look()
      modifies this`seen
      ensures seen == old(seen) + [(context, worker)]
    {
      seen := seen + [(context, worker)];
    }
  }

  class EnterGuard {
    const cells: ThreadLocals
    var old_: Option<Shared>

    /** Handle::enter */
    constructor (cells: ThreadLocals, shared: Shared)
      modifies cells
      ensures this.cells == cells && old_ == old(cells.context)
      ensures cells.context == Some(shared) && cells.worker == old(cells.worker) && cells.seen == old(cells.seen)
    {
      this.cells := cells;
      old_ := cells.context;
      new;
      cells.context := Some(shared);
    }

    method Drop()
      modifies this, cells
      ensures cells.context == old(old_) && cells.worker == old(cells.worker) && cells.seen == old(cells.seen)
      ensures old_ == None
    {
      cells.context := old_;
      old_ := None;
    }
  }

  class ContextGuard {
    const cells: ThreadLocals
    var oldContext: Option<Shared>
    var oldWorker: Option<nat>

    constructor (cells: ThreadLocals, shared: Shared)
      modifies cells
      ensures this.cells == cells && oldContext == old(cells.context) && oldWorker == old(cells.worker)
      ensures cells.context == Some(shared) && cells.worker == None && cells.seen == old(cells.seen)
    {
      this.cells := cells;
      oldContext, oldWorker := cells.context, cells.worker;
      new;
      cells.context := Some(shared);
      cells.worker := None;
    }

    method Drop()
      modifies this, cells
      ensures cells.context == old(oldContext) && cells.worker == old(oldWorker) && cells.seen == old(cells.seen)
      ensures oldContext == None && oldWorker == None
    {
      cells.context, oldContext := oldContext, None;
      cells.worker, oldWorker := oldWorker, None;
    }
  }

  // ----- programs of nested scopes -----

  datatype Program =
    | Skip
    | Observe
    | Both(first: Program, second: Program)
    | Enter(shared: Shared, body: Program)   // { let _guard = handle.enter(); body }
    | BlockOn(shared: Shared, body: Program) // { let _guard = ContextGuard::new(..); body }

  /** What a program observes, by lexical scope alone. */
  function Lexical(p: Program, context: Option<Shared>, worker: Option<nat>): seq<(Option<Shared>, Option<nat>)> {
    match p
    case Skip => []
    case Observe => [(context, worker)]
    case Both(q, r) => Lexical(q, context, worker) + Lexical(r, context, worker)
    case Enter(s, q) => Lexical(q, Some(s), worker)
    case BlockOn(s, q) => Lexical(q, Some(s), None)
  }

  /** Guards dropped in the reverse order of their creation restore both cells whatever
      the nesting, and inside, every observer sees the innermost enclosing scope. */
  method Run(p: Program, cells: ThreadLocals)
    modifies cells
    ensures cells.context == old(cells.context) && cells.worker == old(cells.worker)
    ensures cells.seen == old(cells.seen) + Lexical(p, old(cells.context), old(cells.worker))
    decreases p
  {
    match p {
      case Skip =>
        assert cells.seen == cells.seen + [];
      case Observe =>
        cells.Look();
      case Both(q, r) =>
        ghost var seen, first := cells.seen, Lexical(q, cells.context, cells.worker);
        ghost var second := Lexical(r, cells.context, cells.worker);
        Run(q, cells);
        Run(r, cells);
        assert (seen + first) + second == seen + (first + second);
      case Enter(s, q) =>
        var guard := new EnterGuard(cells, s);
        Run(q, cells);
        guard.Drop();
      case BlockOn(s, q) =>
        var guard := new ContextGuard(cells, s);
        Run(q, cells);
        guard.Drop();
    }
  }

  /** A program that opens no scope of its own. */
  predicate ScopeFree(p: Program) {
    match p
    case Both(q, r) => ScopeFree(q) && ScopeFree(r)
    case Enter(_, _) => false
    case BlockOn(_, _) => false
    case _ => true
  }

  /** How often a program looks. */
  function Looks(p: Program): nat {
    match p
    case Skip => 0
    case Observe => 1
    case Both(q, r) => Looks(q) + Looks(r)
    case Enter(_, q) => Looks(q)
    case BlockOn(_, q) => Looks(q)
  }

  /** Every look is answered once. */
  lemma {:induction false} EveryLookAnswered(p: Program, context: Option<Shared>, worker: Option<nat>)
    ensures |Lexical(p, context, worker)| == Looks(p)
  {
    match p
    case Both(q, r) =>
      EveryLookAnswered(q, context, worker);
      EveryLookAnswered(r, context, worker);
    case Enter(s, q) => EveryLookAnswered(q, Some(s), worker);
    case BlockOn(s, q) => EveryLookAnswered(q, Some(s), None);
    case _ =>
  }

  lemma {:induction false} WithoutScopesSeesOutside(p: Program, context: Option<Shared>, worker: Option<nat>)
    requires ScopeFree(p)
    ensures forall x :: x in Lexical(p, context, worker) ==> x == (context, worker)
  {
    if p.Both? {
      WithoutScopesSeesOutside(p.first, context, worker);
      WithoutScopesSeesOutside(p.second, context, worker);
    }
  }

  /** Directly inside an enter every look sees the runtime entered, and the thread's worker. */
  lemma EnterSees(shared: Shared, q: Program, context: Option<Shared>, worker: Option<nat>)
    requires ScopeFree(q)
    ensures var seen := Lexical(Enter(shared, q), context, worker);
            |seen| == Looks(q) && forall x :: x in seen ==> x == (Some(shared), worker)
  {
    EveryLookAnswered(q, Some(shared), worker);
    WithoutScopesSeesOutside(q, Some(shared), worker);
  }

  /** Directly inside a block_on every look sees its runtime, and no worker. */
  lemma BlockOnSees(shared: Shared, q: Program, context: Option<Shared>, worker: Option<nat>)
    requires ScopeFree(q)
    ensures var seen := Lexical(BlockOn(shared, q), context, worker);
            |seen| == Looks(q) && forall x :: x in seen ==> x == (Some(shared), None)
  {
    EveryLookAnswered(q, Some(shared), None);
    WithoutScopesSeesOutside(q, Some(shared), None);
  }

  /** One scope after the other: each is over when it ends, and the thread then sees again what
      it saw before. */
  lemma ScopesEnd(a: Shared, q: Program, b: Shared, r: Program, after: Program,
                  context: Option<Shared>, worker: Option<nat>)
    requires ScopeFree(q) && ScopeFree(r) && ScopeFree(after)
    ensures var seen := Lexical(Both(BlockOn(a, q), Both(Enter(b, r), after)), context, worker);
            && |seen| == Looks(q) + Looks(r) + Looks(after)
            && forall k :: 0 <= k < |seen| ==>
                 seen[k] == if k < Looks(q) then (Some(a), None)
                            else if k < Looks(q) + Looks(r) then (Some(b), worker)
                            else (context, worker)
  {
    BlockOnSees(a, q, context, worker);
    EnterSees(b, r, context, worker);
    WithoutScopesSeesOutside(after, context, worker);
    EveryLookAnswered(after, context, worker);
    var first, second := Lexical(BlockOn(a, q), context, worker), Lexical(Enter(b, r), context, worker);
    var third := Lexical(after, context, worker);
    assert Lexical(Both(BlockOn(a, q), Both(Enter(b, r), after)), context, worker) == first + (second + third);
    InThirds(first, second, third);
  }

  lemma InThirds<T>(a: seq<T>, b: seq<T>, c: seq<T>)
    ensures forall k :: 0 <= k < |a| ==> (a + (b + c))[k] in a
    ensures forall k :: |a| <= k < |a| + |b| ==> (a + (b + c))[k] in b
    ensures forall k :: |a| + |b| <= k < |a| + |b| + |c| ==> (a + (b + c))[k] in c
  {
  }

  /** A program without BlockOn leaves the worker cell alone at every observation. */
  predicate NoBlockOn(p: Program) {
    match p
    case Both(q, r) => NoBlockOn(q) && NoBlockOn(r)
    case Enter(_, q) => NoBlockOn(q)
    case BlockOn(_, _) => false
    case _ => true
  }

  lemma {:induction false} OnlyContextGuardChangesWorker(p: Program, context: Option<Shared>, worker: Option<nat>)
    requires NoBlockOn(p)
    ensures forall k :: 0 <= k < |Lexical(p, context, worker)| ==> Lexical(p, context, worker)[k].1 == worker
  {
    match p
    case Both(q, r) =>
      OnlyContextGuardChangesWorker(q, context, worker);
      OnlyContextGuardChangesWorker(r, context, worker);
    case Enter(s, q) => OnlyContextGuardChangesWorker(q, Some(s), worker);
    case _ =>
  }

  // ----- guards dropped in any order -----

  /** `EnterGuard` is a value: guards can be collected, and dropped in any order. */
  method EnterAll(cells: ThreadLocals, contexts: seq<Shared>) returns (guards: seq<EnterGuard>)
    modifies cells
    ensures |guards| == |contexts| && Distinct(guards)
    ensures forall i :: 0 <= i < |guards| ==> fresh(guards[i]) && guards[i].cells == cells
    ensures forall i :: 0 <= i < |guards| ==> guards[i].old_ == Before(old(cells.context), contexts, i)
    ensures cells.context == Before(old(cells.context), contexts, |contexts|) && cells.worker == old(cells.worker)
  {
    guards := [];
    while |guards| < |contexts|
      invariant |guards| <= |contexts| && Distinct(guards)
      invariant forall i :: 0 <= i < |guards| ==> fresh(guards[i]) && guards[i].cells == cells
      invariant forall i :: 0 <= i < |guards| ==> guards[i].old_ == Before(old(cells.context), contexts, i)
      invariant cells.context == Before(old(cells.context), contexts, |guards|) && cells.worker == old(cells.worker)
    {
      var guard := new EnterGuard(cells, contexts[|guards|]);
      guards := guards + [guard];
    }
  }

  /** The context the i-th of nested enters finds. */
  function Before(outer: Option<Shared>, contexts: seq<Shared>, i: nat): Option<Shared>
    requires i <= |contexts|
  {
    if i == 0 then outer else Some(contexts[i - 1])
  }

  ghost predicate Distinct(guards: seq<EnterGuard>) {
    forall i, j :: 0 <= i < j < |guards| ==> guards[i] != guards[j]
  }

  /** Whatever the order, the cell ends as the value the guard dropped last had saved. */
  method DropAll(cells: ThreadLocals, guards: seq<EnterGuard>)
    requires Distinct(guards) && forall i :: 0 <= i < |guards| ==> guards[i].cells == cells
    modifies cells, set g | g in guards
    ensures cells.context == if guards == [] then old(cells.context) else old(guards[|guards| - 1].old_)
    ensures cells.worker == old(cells.worker)
  {
    var k := 0;
    while k < |guards|
      invariant k <= |guards| && cells.worker == old(cells.worker)
      invariant cells.context == if k == 0 then old(cells.context) else old(guards[k - 1].old_)
      invariant forall i :: k <= i < |guards| ==> guards[i].old_ == old(guards[i].old_)
    {
      guards[k].Drop();
      k := k + 1;
    }
  }

  /** An order in which each of n guards is dropped once. */
  ghost predicate IsOrder(order: seq<nat>, n: nat) {
    && |order| == n
    && (forall k :: 0 <= k < n ==> order[k] < n)
    && (forall k, l :: 0 <= k < l < n ==> order[k] != order[l])
  }

  /** So any number of enters, dropped in any order, restore the thread's context if and only
      if the guard dropped last was the first one made, or was made in the thread's own
      context. */
  method EnterThenDrop(cells: ThreadLocals, contexts: seq<Shared>, order: seq<nat>)
    requires contexts != [] && IsOrder(order, |contexts|)
    modifies cells
    ensures var last := order[|order| - 1];
            cells.context == old(cells.context) <==> last == 0 || old(cells.context) == Some(contexts[last - 1])
    ensures cells.worker == old(cells.worker)
  {
    var guards := EnterAll(cells, contexts);
    var dropped := seq(|order|, k requires 0 <= k < |order| => guards[order[k]]);
    DropAll(cells, dropped);
  }
}
