/** The task state word.

    One `usize` packs the phase (bits 0-1), the flags (bits 2-15) and the reference count
    (bits 16-31); what is above bit 31 has no name in the source but takes part in every
    comparison and receives the carries of the count. `TaskState` is the source's view of
    the word, `Rec` the abstract record, and the lemmas say that every operation applied
    to the word is the corresponding operation on the record. */
module TaskWord {

  const STATE_MASK: bv64 := 0x3
  const FLAGS_MASK: bv64 := 0xFFFC
  const REFCOUNT_MASK: bv64 := 0xFFFF0000
  const ONE_REF: bv64 := 0x10000 // 1 << REFCOUNT_SHIFT

  const IDLE: bv64 := 0
  const SCHEDULED: bv64 := 1
  const RUNNING: bv64 := 2
  const COMPLETE: bv64 := 3
  const ABORTED: bv64 := 0x4
  const JOIN_INTEREST: bv64 := 0x8

  datatype TaskState = TaskState(bits: bv64) {
    function State(): bv64 { bits & STATE_MASK }

    function Flags(): bv64 { bits & FLAGS_MASK }

    function Refcount(): bv64 { (bits & REFCOUNT_MASK) >> 16 }

    predicate IsIdle() { State() == IDLE }

    predicate IsScheduled() { State() == SCHEDULED }

    predicate IsRunning() { State() == RUNNING }

    predicate IsComplete() { State() == COMPLETE }

    predicate IsAborted() { bits & ABORTED != 0 }

    predicate HasJoinInterest() { bits & JOIN_INTEREST != 0 }

    function WithRefcount(refcount: bv64): TaskState {
      TaskState((bits & !REFCOUNT_MASK) | ((refcount << 16) & REFCOUNT_MASK))
    }

    function WithFlag(flag: bv64): TaskState { TaskState(bits | flag) }

    function WithoutFlag(flag: bv64): TaskState { TaskState(bits & !flag) }
  }

  // ----- the abstract record -----

  datatype Phase = Idle | Scheduled | Running | Complete

  /** `other` are the flag bits without a name, `high` the bits above the count. */
  datatype Rec = Rec(phase: Phase, aborted: bool, joinInterest: bool, other: bv64, refs: nat, high: bv64) {
    function AddRef(): Rec {
      this.(refs := (refs + 1) % 0x10000, high := if refs == 0xFFFF then (high + 1) & 0xFFFF_FFFF else high)
    }

    function DropRef(): Rec {
      this.(refs := (refs - 1) % 0x10000, high := if refs == 0 then (high - 1) & 0xFFFF_FFFF else high)
    }
  }

  function PhaseOf(w: bv64): Phase {
    var p := w & STATE_MASK;
    if p == IDLE then Idle else if p == SCHEDULED then Scheduled else if p == RUNNING then Running else Complete
  }

  function LowByte(r: bv64): bv8 { (r & 0xFF) as bv8 }

  function HighByte(r: bv64): bv8 { ((r >> 8) & 0xFF) as bv8 }

  /** The number a 16-bit count denotes. */
  function Number(r: bv64): nat { LowByte(r) as nat + 256 * (HighByte(r) as nat) }

  function Decode(w: bv64): Rec {
    Rec(PhaseOf(w), w & ABORTED != 0, w & JOIN_INTEREST != 0, w & 0xFFF0,
        Number(TaskState(w).Refcount()), w >> 32)
  }

  /** The parts do not overlap, and together with what lies above bit 31 they are the word. */
  lemma PartsRecombine(w: bv64)
    ensures var t := TaskState(w);
            && t.State() | t.Flags() | (t.Refcount() << 16) | (w & 0xFFFF_FFFF_0000_0000) == w
            && t.State() < 4 && t.Refcount() < 0x1_0000 && t.State() & t.Flags() == 0 && t.Flags() < 0x1_0000
  {
  }

  // ----- decoding loses nothing -----

  lemma ByteInjective(a: bv8, b: bv8)
    requires a as nat == b as nat
    ensures a == b
  {
  }

  lemma SameBytes(v: bv64, w: bv64)
    requires LowByte(TaskState(v).Refcount()) == LowByte(TaskState(w).Refcount())
    requires HighByte(TaskState(v).Refcount()) == HighByte(TaskState(w).Refcount())
    requires v & 0xFFFF == w & 0xFFFF && v >> 32 == w >> 32
    ensures v == w
  {
  }

  lemma SameLow(v: bv64, w: bv64)
    requires v & 0xFFF0 == w & 0xFFF0 && v & STATE_MASK == w & STATE_MASK
    requires (v & ABORTED != 0) == (w & ABORTED != 0) && (v & JOIN_INTEREST != 0) == (w & JOIN_INTEREST != 0)
    ensures v & 0xFFFF == w & 0xFFFF
  {
  }

  lemma SamePhase(v: bv64, w: bv64)
    requires PhaseOf(v) == PhaseOf(w)
    ensures v & STATE_MASK == w & STATE_MASK
  {
  }

  lemma SameNumber(q: bv64, r: bv64)
    requires Number(q) == Number(r)
    ensures LowByte(q) == LowByte(r) && HighByte(q) == HighByte(r)
  {
    assert LowByte(q) as nat < 256 && LowByte(r) as nat < 256;
    ByteInjective(LowByte(q), LowByte(r));
    ByteInjective(HighByte(q), HighByte(r));
  }

  /** A compare-exchange on the word succeeds exactly when the records agree. */
  lemma DecodeInjective(v: bv64, w: bv64)
    requires Decode(v) == Decode(w)
    ensures v == w
  {
    SameLowPart(v, w);
    SameRefs(v, w);
    SameHigh(v, w);
    SameBytes(v, w);
  }

  lemma SameHigh(v: bv64, w: bv64)
    requires Decode(v) == Decode(w)
    ensures v >> 32 == w >> 32
  {
  }

  lemma SameLowPart(v: bv64, w: bv64)
    requires Decode(v) == Decode(w)
    ensures v & 0xFFFF == w & 0xFFFF
  {
    SamePhase(v, w);
    SameLow(v, w);
  }

  lemma SameRefs(v: bv64, w: bv64)
    requires Decode(v) == Decode(w)
    ensures LowByte(TaskState(v).Refcount()) == LowByte(TaskState(w).Refcount())
    ensures HighByte(TaskState(v).Refcount()) == HighByte(TaskState(w).Refcount())
  {
    SameNumber(TaskState(v).Refcount(), TaskState(w).Refcount());
  }

  // ----- the count -----

  lemma ByteUp(b: bv8)
    ensures (b + 1) as nat == if b == 0xFF then 0 else b as nat + 1
    ensures b as nat == 255 ==> b == 0xFF
    ensures b as nat < 256
  {
  }

  lemma BytesUp(r: bv64)
    ensures LowByte(r + 1) == LowByte(r) + 1
    ensures HighByte(r + 1) == if LowByte(r) == 0xFF then HighByte(r) + 1 else HighByte(r)
  {
  }

  function Up(n: nat): nat { if n == 0xFFFF then 0 else n + 1 }

  lemma NumberUp(r: bv64)
    ensures Number(r + 1) == Up(Number(r))
    ensures Number(r) < 0x10000
    ensures Number(r) == 0xFFFF ==> LowByte(r) == 0xFF && HighByte(r) == 0xFF
  {
    BytesUp(r);
    ByteUp(LowByte(r));
    ByteUp(HighByte(r));
  }

  lemma RefcountUp(w: bv64)
    ensures LowByte(TaskState(w + ONE_REF).Refcount()) == LowByte(TaskState(w).Refcount() + 1)
    ensures HighByte(TaskState(w + ONE_REF).Refcount()) == HighByte(TaskState(w).Refcount() + 1)
  {
  }

  lemma LowUp(w: bv64)
    ensures (w + ONE_REF) & 0xFFFF == w & 0xFFFF
  {
  }

  lemma LowDecides(v: bv64, w: bv64)
    requires v & 0xFFFF == w & 0xFFFF
    ensures v & STATE_MASK == w & STATE_MASK && v & 0xFFF0 == w & 0xFFF0
    ensures v & ABORTED == w & ABORTED && v & JOIN_INTEREST == w & JOIN_INTEREST
  {
  }

  lemma NoCarry(w: bv64)
    requires w & REFCOUNT_MASK != REFCOUNT_MASK
    ensures (w + ONE_REF) >> 32 == w >> 32
  {
  }

  lemma Carry(w: bv64)
    requires w & REFCOUNT_MASK == REFCOUNT_MASK
    ensures (w + ONE_REF) >> 32 == ((w >> 32) + 1) & 0xFFFF_FFFF
  {
  }

  lemma AllOnes(w: bv64)
    ensures w & REFCOUNT_MASK == REFCOUNT_MASK
            <==> LowByte(TaskState(w).Refcount()) == 0xFF && HighByte(TaskState(w).Refcount()) == 0xFF
  {
  }

  lemma FullNumber(r: bv64)
    ensures Number(r) == 0xFFFF <==> LowByte(r) == 0xFF && HighByte(r) == 0xFF
  {
    NumberUp(r);
  }

  lemma RefsUp(w: bv64)
    ensures Number(TaskState(w + ONE_REF).Refcount()) == Up(Number(TaskState(w).Refcount()))
    ensures Number(TaskState(w).Refcount()) < 0x10000
  {
    RefcountUp(w);
    NumberUp(TaskState(w).Refcount());
  }

  lemma HighUp(w: bv64)
    ensures (w + ONE_REF) >> 32 ==
            if Number(TaskState(w).Refcount()) == 0xFFFF then ((w >> 32) + 1) & 0xFFFF_FFFF else w >> 32
  {
    FullNumber(TaskState(w).Refcount());
    AllOnes(w);
    if w & REFCOUNT_MASK == REFCOUNT_MASK {
      Carry(w);
    } else {
      NoCarry(w);
    }
  }

  /** fetch_add(1 << 16): the count goes up by one modulo 2^16 and the rest stays, also
      when the count wraps. */
  lemma FetchAddRef(w: bv64)
    ensures Decode(w + ONE_REF) == Decode(w).AddRef()
  {
    RestUp(w);
    CountUp(w);
    AddParts(Decode(w), Decode(w + ONE_REF));
  }

  lemma RestUp(w: bv64)
    ensures Decode(w + ONE_REF) == Decode(w).(refs := Decode(w + ONE_REF).refs, high := Decode(w + ONE_REF).high)
  {
    PartsUp(w);
  }

  lemma CountUp(w: bv64)
    ensures Decode(w).refs < 0x10000
    ensures Decode(w + ONE_REF).refs == Up(Decode(w).refs)
    ensures Decode(w + ONE_REF).high ==
            if Decode(w).refs == 0xFFFF then (Decode(w).high + 1) & 0xFFFF_FFFF else Decode(w).high
  {
    RefsUp(w);
    HighUp(w);
  }

  lemma AddParts(r: Rec, r': Rec)
    requires r' == r.(refs := r'.refs, high := r'.high)
    requires r.refs < 0x10000 && r'.refs == Up(r.refs)
    requires r'.high == if r.refs == 0xFFFF then (r.high + 1) & 0xFFFF_FFFF else r.high
    ensures r' == r.AddRef()
  {
  }

  lemma PartsUp(w: bv64)
    ensures PhaseOf(w + ONE_REF) == PhaseOf(w)
    ensures (w + ONE_REF) & ABORTED == w & ABORTED
    ensures (w + ONE_REF) & JOIN_INTEREST == w & JOIN_INTEREST
    ensures (w + ONE_REF) & 0xFFF0 == w & 0xFFF0
  {
    LowUp(w);
    LowDecides(w + ONE_REF, w);
  }

  lemma SameState(v: bv64, w: bv64)
    requires v & 0xFFFF == w & 0xFFFF
    ensures TaskState(v).State() == TaskState(w).State()
  {
  }

  lemma SameFlags(v: bv64, w: bv64)
    requires v & 0xFFFF == w & 0xFFFF
    ensures TaskState(v).Flags() == TaskState(w).Flags()
  {
  }

  lemma LowDown(w: bv64)
    ensures (w - ONE_REF) & 0xFFFF == w & 0xFFFF
  {
  }

  /** Neither fetch_add nor fetch_sub on the count touches the low 16 bits. */
  lemma AddingKeepsLowBits(w: bv64)
    ensures TaskState(w + ONE_REF).State() == TaskState(w).State()
    ensures TaskState(w + ONE_REF).Flags() == TaskState(w).Flags()
  {
    LowUp(w);
    SameState(w + ONE_REF, w);
    SameFlags(w + ONE_REF, w);
  }

  lemma SubtractingKeepsLowBits(w: bv64)
    ensures TaskState(w - ONE_REF).State() == TaskState(w).State()
    ensures TaskState(w - ONE_REF).Flags() == TaskState(w).Flags()
  {
    LowDown(w);
    SameState(w - ONE_REF, w);
    SameFlags(w - ONE_REF, w);
  }

  lemma BackAndForth(w: bv64)
    ensures (w - ONE_REF) + ONE_REF == w
  {
  }

  lemma HighSmall(w: bv64)
    ensures (w >> 32) == (w >> 32) & 0xFFFF_FFFF
  {
  }

  lemma HighBack(h: bv64)
    requires h == h & 0xFFFF_FFFF
    ensures (((h + 1) & 0xFFFF_FFFF) - 1) & 0xFFFF_FFFF == h
  {
  }

  /** Dropping undoes adding, on records that words decode to. */
  lemma DropUndoesAdd(r: Rec)
    requires r.refs < 0x10000 && r.high == r.high & 0xFFFF_FFFF
    ensures r.AddRef().DropRef() == r
  {
    if r.refs == 0xFFFF {
      DropUndoesWrap(r);
    } else {
      DropUndoesStep(r);
    }
  }

  lemma DropUndoesStep(r: Rec)
    requires r.refs < 0xFFFF
    ensures r.AddRef().DropRef() == r
  {
    assert r.AddRef() == r.(refs := r.refs + 1);
  }

  lemma DropUndoesWrap(r: Rec)
    requires r.refs == 0xFFFF && r.high == r.high & 0xFFFF_FFFF
    ensures r.AddRef().DropRef() == r
  {
    AddWraps(r);
    HighBack(r.high);
    DropWraps(r, r.AddRef().high);
  }

  lemma AddWraps(r: Rec)
    requires r.refs == 0xFFFF
    ensures r.AddRef() == r.(refs := 0, high := r.AddRef().high)
  {
  }

  lemma DropWraps(r: Rec, h: bv64)
    requires r.refs == 0xFFFF && (h - 1) & 0xFFFF_FFFF == r.high
    ensures r.(refs := 0, high := h).DropRef() == r
  {
  }

  /** fetch_sub(1 << 16) */
  lemma FetchSubRef(w: bv64)
    ensures Decode(w - ONE_REF) == Decode(w).DropRef()
  {
    BackAndForth(w);
    DropBefore(w - ONE_REF, w);
  }

  lemma DropBefore(v: bv64, w: bv64)
    requires v + ONE_REF == w
    ensures Decode(v) == Decode(w).DropRef()
  {
    FetchAddRef(v);
    RefsUp(v);
    HighSmall(v);
    DropUndoesAdd(Decode(v));
  }

  // ----- flags and phases -----

  lemma OrKeepsRest(w: bv64, m: bv64)
    requires m & 0xF == m
    ensures (w | m) & 0xFFF0 == w & 0xFFF0 && (w | m) >> 32 == w >> 32
    ensures TaskState(w | m).Refcount() == TaskState(w).Refcount()
  {
  }

  lemma AndKeepsRest(w: bv64, m: bv64)
    requires m & 0xF == m
    ensures (w & !m) & 0xFFF0 == w & 0xFFF0 && (w & !m) >> 32 == w >> 32
  {
  }

  lemma AndKeepsRefcount(w: bv64, m: bv64)
    requires m & 0xF == m
    ensures TaskState(w & !m).Refcount() == TaskState(w).Refcount()
  {
  }

  lemma FetchOrComplete(w: bv64)
    ensures Decode(w | COMPLETE) == Decode(w).(phase := Complete)
  {
    OrKeepsRest(w, COMPLETE);
    assert (w | 3) & 3 == 3 && (w | 3) & 4 == w & 4 && (w | 3) & 8 == w & 8;
  }

  lemma FetchOrAborted(w: bv64)
    ensures Decode(w | ABORTED) == Decode(w).(aborted := true)
  {
    OrKeepsRest(w, ABORTED);
    assert (w | 4) & 3 == w & 3 && (w | 4) & 4 == 4 && (w | 4) & 8 == w & 8;
  }

  lemma FetchOrJoin(w: bv64)
    ensures Decode(w | JOIN_INTEREST) == Decode(w).(joinInterest := true)
  {
    OrKeepsRest(w, JOIN_INTEREST);
    assert (w | 8) & 3 == w & 3 && (w | 8) & 4 == w & 4 && (w | 8) & 8 == 8;
  }

  lemma FetchAndNotJoin(w: bv64)
    ensures Decode(w & !JOIN_INTEREST) == Decode(w).(joinInterest := false)
  {
    AndKeepsRest(w, JOIN_INTEREST);
    AndKeepsRefcount(w, JOIN_INTEREST);
    assert (w & !8) & 3 == w & 3 && (w & !8) & 4 == w & 4 && (w & !8) & 8 == 0;
  }

  /** waker.rs masks the phase out and sets SCHEDULED. */
  lemma MaskedSchedule(w: bv64)
    ensures Decode((w & !STATE_MASK) | SCHEDULED) == Decode(w).(phase := Scheduled)
  {
    AndKeepsRest(w, STATE_MASK);
    AndKeepsRefcount(w, STATE_MASK);
    OrKeepsRest(w & !STATE_MASK, SCHEDULED);
    ScheduleBits(w);
  }

  lemma ScheduleBits(w: bv64)
    ensures ((w & !STATE_MASK) | SCHEDULED) & 3 == 1
    ensures ((w & !STATE_MASK) | SCHEDULED) & 4 == w & 4 && ((w & !STATE_MASK) | SCHEDULED) & 8 == w & 8
  {
  }

  /** raw.rs sets the SCHEDULED bit in the word it loaded. The two ways agree exactly on
      an idle or already scheduled word; on a running one the bit would say complete. */
  lemma TwoWaysToSchedule(w: bv64)
    ensures TaskState(w).WithFlag(SCHEDULED).bits == (w & !STATE_MASK) | SCHEDULED
            <==> PhaseOf(w) == Idle || PhaseOf(w) == Scheduled
  {
    if PhaseOf(w) == Idle || PhaseOf(w) == Scheduled {
      SameWhenLowBitOnly(w);
    } else {
      DifferWhenHighBit(w);
    }
  }

  lemma SetSchedule(w: bv64)
    requires Decode(w).phase == Idle
    ensures Decode(TaskState(w).WithFlag(SCHEDULED).bits) == Decode(w).(phase := Scheduled)
  {
    MaskedSchedule(w);
    TwoWaysToSchedule(w);
  }

  lemma SameWhenLowBitOnly(w: bv64)
    requires w & 3 == 0 || w & 3 == 1
    ensures w | SCHEDULED == (w & !STATE_MASK) | SCHEDULED
  {
  }

  lemma DifferWhenHighBit(w: bv64)
    requires w & 3 != 0 && w & 3 != 1
    ensures w | SCHEDULED != (w & !STATE_MASK) | SCHEDULED
  {
  }

  /** The tests on the word are the tests on the record; in particular masking with
      COMPLETE, as `set_join_waker` and `try_read_output` do, asks for "not idle". */
  lemma Tests(w: bv64)
    ensures TaskState(w).IsIdle() <==> Decode(w).phase == Idle
    ensures TaskState(w).IsScheduled() <==> Decode(w).phase == Scheduled
    ensures TaskState(w).IsRunning() <==> Decode(w).phase == Running
    ensures TaskState(w).IsComplete() <==> Decode(w).phase == Complete
    ensures TaskState(w).IsAborted() <==> Decode(w).aborted
    ensures TaskState(w).HasJoinInterest() <==> Decode(w).joinInterest
    ensures w & COMPLETE != 0 <==> Decode(w).phase != Idle
  {
    TwoBits(w);
  }

  lemma TwoBits(w: bv64)
    ensures w & 3 == 0 || w & 3 == 1 || w & 3 == 2 || w & 3 == 3
  {
  }

  /** Setting a flag inside the flag bits touches neither phase nor count ... */
  lemma SettingKeepsRest(w: bv64, f: bv64)
    requires f & FLAGS_MASK == f
    ensures TaskState(w).WithFlag(f).State() == TaskState(w).State()
    ensures TaskState(w).WithFlag(f).Refcount() == TaskState(w).Refcount()
  {
  }

  /** ... nor does clearing it. */
  lemma ClearingKeepsRest(w: bv64, f: bv64)
    requires f & FLAGS_MASK == f
    ensures TaskState(w).WithoutFlag(f).State() == TaskState(w).State()
    ensures TaskState(w).WithoutFlag(f).Refcount() == TaskState(w).Refcount()
  {
  }

  /** Clearing a flag undoes setting it exactly when it was not set before. */
  lemma FlagRoundTrip(w: bv64, f: bv64)
    ensures TaskState(w).WithFlag(f).WithoutFlag(f) == TaskState(w) <==> w & f == 0
  {
    if w & f == 0 {
      ClearUndoesSet(w, f);
    } else if (w | f) & !f == w {
      UndoneMeansUnset(w, f);
    }
  }

  lemma ClearUndoesSet(w: bv64, f: bv64)
    requires w & f == 0
    ensures (w | f) & !f == w
  {
  }

  lemma UndoneMeansUnset(w: bv64, f: bv64)
    requires (w | f) & !f == w
    ensures w & f == 0
  {
  }

  /** with_refcount installs the count modulo 2^16 ... */
  lemma WithRefcountModulo(w: bv64, r: bv64)
    ensures TaskState(w).WithRefcount(r).Refcount() == r & 0xFFFF
    ensures TaskState(w).WithRefcount(TaskState(w).Refcount()) == TaskState(w)
  {
  }

  /** ... and nothing else. */
  lemma WithRefcountKeepsLow(w: bv64, r: bv64)
    ensures TaskState(w).WithRefcount(r).State() == TaskState(w).State()
    ensures TaskState(w).WithRefcount(r).Flags() == TaskState(w).Flags()
  {
  }

  lemma WithRefcountKeepsHigh(w: bv64, r: bv64)
    ensures TaskState(w).WithRefcount(r).bits >> 32 == w >> 32
  {
  }

  /** The number a word denotes, by its lowest bytes first. */
  function Value(r: bv64, bytes: nat): nat {
    if bytes == 0 then 0 else LowByte(r) as nat + 256 * Value(r >> 8, bytes - 1)
  }

  lemma SecondByte(r: bv64)
    ensures LowByte(r >> 8) == HighByte(r)
  {
  }

  /** A count is the value modulo 2^16. */
  lemma NumberIsValue(r: bv64)
    ensures Number(r) == Value(r, 8) % 0x10000
  {
    SecondByte(r);
    NumberUp(r);
    assert Value(r, 8) == LowByte(r) as nat + 256 * Value(r >> 8, 7);
    assert Value(r >> 8, 7) == LowByte(r >> 8) as nat + 256 * Value((r >> 8) >> 8, 6);
    LowPart(Number(r), Value((r >> 8) >> 8, 6));
  }

  lemma LowPart(n: nat, k: nat)
    requires n < 0x10000
    ensures (n + 0x10000 * k) % 0x10000 == n
  {
  }

  lemma WithRefcountBytes(w: bv64, r: bv64)
    ensures LowByte(TaskState(w).WithRefcount(r).Refcount()) == LowByte(r)
    ensures HighByte(TaskState(w).WithRefcount(r).Refcount()) == HighByte(r)
  {
  }

  lemma WithRefcountLow(w: bv64, r: bv64)
    ensures TaskState(w).WithRefcount(r).bits & 0xFFFF == w & 0xFFFF
  {
  }

  /** On the record: with_refcount sets the count to the argument modulo 2^16 and leaves
      everything else alone. */
  lemma WithRefcountOnRecord(w: bv64, r: bv64)
    ensures Decode(TaskState(w).WithRefcount(r).bits) == Decode(w).(refs := Value(r, 8) % 0x10000)
  {
    WithRefcountRest(w, r);
    WithRefcountNumber(w, r);
  }

  lemma WithRefcountRest(w: bv64, r: bv64)
    ensures var d := Decode(TaskState(w).WithRefcount(r).bits); d == Decode(w).(refs := d.refs)
  {
    var v := TaskState(w).WithRefcount(r).bits;
    WithRefcountLow(w, r);
    LowDecides(v, w);
    WithRefcountKeepsHigh(w, r);
  }

  lemma WithRefcountNumber(w: bv64, r: bv64)
    ensures Decode(TaskState(w).WithRefcount(r).bits).refs == Value(r, 8) % 0x10000
  {
    WithRefcountBytes(w, r);
    NumberIsValue(r);
  }

  lemma Fresh()
    ensures Decode(TaskState(IDLE).WithRefcount(1).bits) == Rec(Idle, false, false, 0, 1, 0)
  {
    var w := TaskState(IDLE).WithRefcount(1).bits;
    assert w == 0x10000;
    assert TaskState(w).Refcount() == 1;
    assert LowByte(1) == 1 && HighByte(1) == 0;
  }

  // ----- the shared word -----

  /** `Header::state`: each atomic access, with the record before and after. */
  class Word {
    var bits: bv64

    constructor ()
      ensures Decode(bits) == Rec(Idle, false, false, 0, 1, 0)
    {
      bits := TaskState(IDLE).WithRefcount(1).bits;
      new;
      Fresh();
    }

    method Load() returns (seen: bv64)
      ensures Decode(seen) == Decode(bits)
    {
      seen := bits;
    }

    method AddRef() returns (prev: bv64)
      modifies this
      ensures Decode(prev) == old(Decode(bits)) && Decode(bits) == old(Decode(bits)).AddRef()
    {
      FetchAddRef(bits);
      prev := bits;
      bits := bits + ONE_REF;
    }

    method SubRef() returns (prev: bv64)
      modifies this
      ensures Decode(prev) == old(Decode(bits)) && Decode(bits) == old(Decode(bits)).DropRef()
    {
      FetchSubRef(bits);
      prev := bits;
      bits := bits - ONE_REF;
    }

    method OrComplete() returns (prev: bv64)
      modifies this
      ensures Decode(prev) == old(Decode(bits)) && Decode(bits) == old(Decode(bits)).(phase := Complete)
    {
      FetchOrComplete(bits);
      prev := bits;
      bits := bits | COMPLETE;
    }

    method OrAborted() returns (prev: bv64)
      modifies this
      ensures Decode(prev) == old(Decode(bits)) && Decode(bits) == old(Decode(bits)).(aborted := true)
    {
      FetchOrAborted(bits);
      prev := bits;
      bits := bits | ABORTED;
    }

    method OrJoinInterest() returns (prev: bv64)
      modifies this
      ensures Decode(prev) == old(Decode(bits)) && Decode(bits) == old(Decode(bits)).(joinInterest := true)
    {
      FetchOrJoin(bits);
      prev := bits;
      bits := bits | JOIN_INTEREST;
    }

    method ClearJoinInterest() returns (prev: bv64)
      modifies this
      ensures Decode(prev) == old(Decode(bits)) && Decode(bits) == old(Decode(bits)).(joinInterest := false)
    {
      FetchAndNotJoin(bits);
      prev := bits;
      bits := bits & !JOIN_INTEREST;
    }

    /** `spurious` is the weak form's freedom to fail on equal words. */
    method CompareExchange(current: bv64, desired: bv64, spurious: bool) returns (ok: bool)
      modifies this
      ensures ok <==> !spurious && old(Decode(bits)) == Decode(current)
      ensures Decode(bits) == if ok then Decode(desired) else old(Decode(bits))
    {
      if Decode(bits) == Decode(current) {
        DecodeInjective(bits, current);
      }
      ok := !spurious && bits == current;
      if ok {
        bits := desired;
      }
    }
  }
}
