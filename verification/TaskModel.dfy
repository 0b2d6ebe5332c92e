/** The life of one task as a state machine over its header.

    Any number of threads wake the task, poll it, or abort it, and one thread owns the
    join handle; each step is one access to the state word, to the output slot, to the
    join waker slot or to a run queue. The state word is the record it decodes to (module TaskWord). Every
    call of `wake` is a thread of its own. Nothing stops two threads from polling the
    task at once, so the model does not either. */
module TaskModel {
  import opened Options
  import opened Runs
  import opened TaskWord

  type Output = nat

  /** One call of `wake` or `wake_by_ref`. */
  datatype WakerPc =
    | Out
    | Again             // called, or a compare-exchange failed: about to load
    | Loaded(cur: Rec)  // about to compare-exchange
    | Won               // about to call `schedule`

  /** `VTableFor::poll`. */
  datatype PollPc =
    | Away
    | Begun               // taken off a run queue, about to call future.poll
    | Polling             // inside future.poll
    | Write(value: Output)
    | Mark                // about to fetch_or COMPLETE
    | TakeWaker
    | SubRef
    | DropOwn             // about to drop the waker made for this poll

  /** `abort_task`. */
  datatype AbortPc = NotAborting | Check | AbortTake

  /** `JoinHandle::poll` and `JoinHandle::drop`. */
  datatype JoinPc =
    | Resting
    | Reload              // set_join_waker returned true: about to load again
    | Read(seen: Rec)     // complete: about to load again in try_read_output
    | Copy                // about to read the output slot
    | Interest            // about to fetch_or JOIN_INTEREST
    | Store(prev: Phase)  // about to store the waker
    | DropClear
    | DropTake
    | Gone

  datatype JoinResult = Nothing | Pending | Ok(value: Output) | Aborted | AlreadyTaken

  /** What happened so far. `transitions` counts moves of the phase from idle to
      scheduled, `schedules` calls of the scheduler by wakers; `start` is the word at the
      beginning of the latest join poll; `woken` says that the waker stored last was
      taken and woken, `missed` that a completer looked for it between the joiner's
      fetch_or and its store, `abortMissed` that an aborter looked for it between the
      joiner's load and its store. `polls` counts polls begun, `entered` calls of
      future.poll, `ended` polls over, `lost` queue entries dropped without a poll.
      `consumed` counts calls of `wake` by value, which use a waker up without a drop. */
  datatype Log = Log(
    transitions: nat, schedules: nat,
    clones: nat, manualNew: nat, wakerDrops: nat, manualDrops: nat, pollSubs: nat, deallocs: nat,
    consumed: nat, polls: nat, entered: nat, ended: nat, lost: nat,
    written: set<Output>, start: Rec, woken: bool, missed: bool, abortMissed: bool)

  /** `queued`: how often the task is in a run queue. Spawning puts it there once.
      `live`: wakers somebody holds, all of them clones; the waker each poll makes for itself
      lives from the poll's beginning to its end and is not counted. `manuals`: manual wakers
      somebody holds. */
  datatype State = State(
    word: Rec, output: Option<Output>, joinWaker: bool, queued: nat, live: nat, manuals: nat,
    wakers: seq<WakerPc>, pollers: seq<PollPc>, aborters: seq<AbortPc>,
    join: JoinPc, result: JoinResult, log: Log)

  datatype Action =
    | WakeStep(i: nat, spurious: bool)       // spurious: a weak compare-exchange fails anyway
    | Consume(i: nat)                        // wake by value is called
    | PollStep(p: nat, ready: Option<Output>) // ready: what future.poll returns
    | AbortStep(k: nat)
    | JoinStep
    | JoinDrop                               // the handle is dropped
    | Clone | ManualNew | DropWaker | ManualDrop
    | Lose                                   // a re-check of a worker drops the queue entry

  function NewLog(start: Rec): Log { Log(0, 0, 0, 0, 0, 0, 0, 0, 0, 0, 0, 0, 0, {}, start, false, false, false) }

  ghost predicate Init(s: State) {
    && s.word == Rec(Idle, false, false, 0, 1, 0)
    && s.output == None && !s.joinWaker && s.queued == 1 && s.live == 0 && s.manuals == 0
    && (forall i :: 0 <= i < |s.wakers| ==> s.wakers[i] == Out)
    && (forall p :: 0 <= p < |s.pollers| ==> s.pollers[p] == Away)
    && (forall k :: 0 <= k < |s.aborters| ==> s.aborters[k] == NotAborting)
    && s.join == Resting && s.result == Nothing
    && s.log == NewLog(s.word)
  }

  // ----- wakers -----

  predicate Done(r: Rec) { r.phase == Complete || r.aborted }

  /** The tests between the load and the compare-exchange. */
  function AfterLoad(r: Rec): WakerPc {
    if r.phase == Complete || r.aborted then Out
    else if r.phase == Scheduled || r.phase == Running then Out
    else Loaded(r)
  }

  /** A waker can be called, or cloned, by who holds one, and by the future being polled: it
      is lent the poll's own. */
  predicate HasWaker(s: State) { s.live > 0 || Polling in s.pollers }

  predicate WakeEnabled(s: State, i: nat) {
    i < |s.wakers| && (s.wakers[i] == Out ==> HasWaker(s))
  }

  function WakeApply(s: State, i: nat, spurious: bool): State
    requires i < |s.wakers|
  {
    match s.wakers[i]
    case Out => s.(wakers := s.wakers[i := Again])
    case Again => s.(wakers := s.wakers[i := AfterLoad(s.word)])
    case Loaded(cur) =>
      if !spurious && s.word == cur then
        s.(word := cur.(phase := Scheduled), wakers := s.wakers[i := Won],
           log := s.log.(transitions := s.log.transitions + 1))
      else s.(wakers := s.wakers[i := Again])
    case Won =>
      s.(queued := s.queued + 1, wakers := s.wakers[i := Out], log := s.log.(schedules := s.log.schedules + 1))
  }

  // ----- the join waker slot -----

  /** take(), and wake what was there. */
  function TakeJoinWaker(s: State): State {
    s.(joinWaker := false, log := s.log.(woken := s.log.woken || s.joinWaker))
  }

  // ----- reference counts -----

  /** fetch_sub on the count by a waker going away, with its deallocation test. */
  function ReleaseRef(s: State): State {
    s.(word := s.word.DropRef(),
       log := if s.word.refs == 1 && s.word.phase == Complete then s.log.(deallocs := s.log.deallocs + 1) else s.log)
  }

  // ----- pollers -----

  /** A poll begins by taking the task off a run queue. */
  predicate PollEnabled(s: State, p: nat) {
    p < |s.pollers| && (s.pollers[p] == Away ==> s.queued > 0)
  }

  function PollApply(s: State, p: nat, ready: Option<Output>): State
    requires PollEnabled(s, p)
  {
    match s.pollers[p]
    case Away =>
      s.(queued := s.queued - 1, pollers := s.pollers[p := Begun], log := s.log.(polls := s.log.polls + 1))
    case Begun => s.(pollers := s.pollers[p := Polling], log := s.log.(entered := s.log.entered + 1))
    case Polling =>
      (match ready
       case Some(v) => s.(pollers := s.pollers[p := Write(v)])
       case None => s.(pollers := s.pollers[p := SubRef]))
    case Write(v) =>
      s.(output := Some(v), pollers := s.pollers[p := Mark], log := s.log.(written := s.log.written + {v}))
    case Mark =>
      s.(word := s.word.(phase := Complete),
         pollers := s.pollers[p := if s.word.joinInterest then TakeWaker else SubRef])
    case TakeWaker =>
      var t := TakeJoinWaker(s);
      t.(pollers := s.pollers[p := SubRef], log := t.log.(missed := t.log.missed || s.join.Store?))
    case SubRef =>
      s.(word := s.word.DropRef(), pollers := s.pollers[p := DropOwn],
         log := s.log.(pollSubs := s.log.pollSubs + 1))
    case DropOwn =>
      var t := ReleaseRef(s);
      t.(pollers := s.pollers[p := Away],
        log := t.log.(wakerDrops := t.log.wakerDrops + 1, ended := t.log.ended + 1))
  }

  // ----- aborters -----

  /** The joiner has looked at the word and not stored its waker yet. */
  predicate Registering(pc: JoinPc) { pc == Interest || pc.Store? }

  function AbortLooked(s: State, log: Log): Log {
    log.(abortMissed := log.abortMissed || Registering(s.join))
  }

  function AbortApply(s: State, k: nat): State
    requires k < |s.aborters|
  {
    match s.aborters[k]
    case NotAborting => s.(word := s.word.(aborted := true), aborters := s.aborters[k := Check])
    case Check =>
      if s.word.joinInterest then s.(aborters := s.aborters[k := AbortTake])
      else s.(aborters := s.aborters[k := NotAborting], log := AbortLooked(s, s.log))
    case AbortTake =>
      var t := TakeJoinWaker(s);
      t.(aborters := s.aborters[k := NotAborting], log := AbortLooked(s, t.log))
  }

  // ----- the joiner -----

  /** What the first load of a join poll decides. */
  function AfterJoinLoad(s: State): State {
    if s.word.phase == Complete then s.(join := Read(s.word))
    else if s.word.aborted then s.(join := Resting, result := JoinResult.Aborted)
    else s.(join := Interest, log := s.log.(abortMissed := false))
  }

  function JoinApply(s: State): State {
    match s.join
    case Resting => AfterJoinLoad(s.(result := Nothing, log := s.log.(start := s.word)))
    case Reload => AfterJoinLoad(s)
    case Read(seen) =>
      // try_read_output: its mask test, its abort test, then the caller's test of `seen`
      if s.word.phase != Idle && !s.word.aborted then s.(join := Copy)
      else s.(join := Resting, result := if seen.aborted then JoinResult.Aborted else AlreadyTaken)
    case Copy => s.(join := Resting, result := if s.output.Some? then Ok(s.output.value) else Nothing)
    case Interest =>
      s.(word := s.word.(joinInterest := true), join := Store(s.word.phase), log := s.log.(missed := false))
    case Store(prev) =>
      var t := s.(joinWaker := true, log := s.log.(woken := false));
      // the mask 0x3 of COMPLETE matches every phase but idle
      if prev != Idle then t.(join := Reload) else t.(join := Resting, result := Pending)
    case DropClear => s.(word := s.word.(joinInterest := false), join := DropTake)
    case DropTake => s.(joinWaker := false, join := Gone)
    case Gone => s
  }

  // ----- all threads -----

  predicate Enabled(s: State, a: Action) {
    match a
    case WakeStep(i, _) => WakeEnabled(s, i)
    case Consume(i) => i < |s.wakers| && s.wakers[i] == Out && s.live > 0
    case PollStep(p, _) => PollEnabled(s, p)
    case AbortStep(k) => k < |s.aborters|
    case JoinStep => s.join != Gone
    case JoinDrop => s.join == Resting
    case Lose => s.queued > 0
    case Clone => HasWaker(s)
    case DropWaker => s.live > 0
    case ManualNew => true
    case ManualDrop => s.manuals > 0
  }

  function Apply(s: State, a: Action): State
    requires Enabled(s, a)
  {
    match a
    case WakeStep(i, spurious) => WakeApply(s, i, spurious)
    case Consume(i) =>
      s.(live := s.live - 1, wakers := s.wakers[i := Again], log := s.log.(consumed := s.log.consumed + 1))
    case PollStep(p, ready) => PollApply(s, p, ready)
    case AbortStep(k) => AbortApply(s, k)
    case JoinStep => JoinApply(s)
    case JoinDrop => s.(join := if s.word.phase == Complete then DropClear else Gone, result := Nothing)
    case Lose => s.(queued := s.queued - 1, log := s.log.(lost := s.log.lost + 1))
    case Clone => s.(word := s.word.AddRef(), live := s.live + 1, log := s.log.(clones := s.log.clones + 1))
    case ManualNew =>
      s.(word := s.word.AddRef(), manuals := s.manuals + 1, log := s.log.(manualNew := s.log.manualNew + 1))
    case DropWaker =>
      var t := ReleaseRef(s);
      t.(live := s.live - 1, log := t.log.(wakerDrops := t.log.wakerDrops + 1))
    case ManualDrop =>
      var t := ReleaseRef(s);
      t.(manuals := s.manuals - 1, log := t.log.(manualDrops := t.log.manualDrops + 1))
  }

  /** The machine's step function. */
  function Try(s: State, a: Action): Option<State> {
    if Enabled(s, a) then Some(Apply(s, a)) else None
  }

  ghost predicate Reachable(s: State) { ReachableBy(Init, Try, s) }
}
