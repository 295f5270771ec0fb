/**
 * What one spin cycle of the Universal Machine does, operator by operator,
 * and how runs of several cycles compose.
 *
 * Each lemma takes the decoded instruction and the state it runs in, and
 * states the resulting state in full: which register, segment, free-list
 * entry or stream changes, what it becomes, and that everything else stays.
 */
module MachineProperties {
  import opened Platter
  import opened Machine

  /** `t` differs from `s` at most in register `a`. */
  predicate RegistersAgreeExcept(s: State, t: State, a: Reg) {
    forall j :: 0 <= j < 8 && j != a ==> t.registers[j] == s.registers[j]
  }

  /** `t` has the segments, free list and streams of `s`. */
  predicate MemoryUnchanged(s: State, t: State) {
    t.programs == s.programs && t.freelist == s.freelist
    && t.input == s.input && t.output == s.output
  }

  /** `t` is `s` with register `a` set to `v` and the finger on the next platter. */
  predicate WritesRegister(s: State, t: State, a: Reg, v: Word) {
    && t.registers[a] == v
    && RegistersAgreeExcept(s, t, a)
    && MemoryUnchanged(s, t)
    && t.finger == s.finger + 1
  }

  /**
   * Addition, multiplication and not-and always succeed, and change register
   * A alone, to the wrapped sum, the wrapped product, or the bitwise
   * not-and of registers B and C.
   */
  lemma RegisterArithmetic(s: State, i: Instruction)
    requires i.Addition? || i.Multiplication? || i.NotAnd?
    ensures Execute(s, i).Running?
    ensures var r := s.registers;
      WritesRegister(s, Execute(s, i).state, i.a,
        if i.Addition? then WrappingAdd(r[i.b], r[i.c])
        else if i.Multiplication? then WrappingMul(r[i.b], r[i.c])
        else Nand(r[i.b], r[i.c]))
  {
  }

  /**
   * Division panics exactly when register C is zero; otherwise it changes
   * register A alone, to the unsigned quotient of registers B and C.
   */
  lemma DivisionByRegister(s: State, a: Reg, b: Reg, c: Reg)
    ensures Execute(s, Division(a, b, c)) == Panicked(DivideByZero) <==> s.registers[c] == 0
    ensures s.registers[c] != 0 ==>
      && Execute(s, Division(a, b, c)).Running?
      && WritesRegister(s, Execute(s, Division(a, b, c)).state, a,
                        WrappingDiv(s.registers[b], s.registers[c]))
  {
  }

  /**
   * Wrap-around: adding the two's complement of `y`, built from the machine's
   * own not-and and addition, undoes adding `y`; in particular the largest
   * word plus one is zero.
   */
  lemma AdditionWraps(x: Word, y: Word)
    ensures WrappingAdd(WrappingAdd(x, y), WrappingAdd(Nand(y, y), 1)) == x
    ensures WrappingAdd(0xffff_ffff, 1) == 0
  {
  }

  /**
   * Not-and is the machine's only bitwise operator. A not-and of a register
   * with itself complements it, and two not-and instructions in a row leave
   * the bitwise and of registers B and C in register A: only register A and
   * the finger change.
   */
  lemma NotAndBuildsAnd(s: State, a: Reg, b: Reg, c: Reg)
    ensures Execute(s, NotAnd(a, b, b)).state.registers[a] == !s.registers[b]
    ensures Execute(s, NotAnd(a, b, c)).Running?
    ensures var t := Execute(s, NotAnd(a, b, c)).state;
      && Execute(t, NotAnd(a, a, a)).Running?
      && var u := Execute(t, NotAnd(a, a, a)).state;
      && u.registers[a] == s.registers[b] & s.registers[c]
      && RegistersAgreeExcept(s, u, a)
      && MemoryUnchanged(s, u)
      && u.finger == s.finger + 2
  {
    RegisterArithmetic(s, NotAnd(a, b, b));
    RegisterArithmetic(s, NotAnd(a, b, c));
    var t := Execute(s, NotAnd(a, b, c)).state;
    RegisterArithmetic(t, NotAnd(a, a, a));
  }

  /**
   * Conditional move copies register B into register A exactly when register
   * C is not zero; the registers stay as they were exactly when C is zero
   * or A already holds B's value.
   */
  lemma ConditionalMoveCopies(s: State, a: Reg, b: Reg, c: Reg)
    ensures Execute(s, ConditionalMove(a, b, c)).Running?
    ensures var t := Execute(s, ConditionalMove(a, b, c)).state;
      && WritesRegister(s, t, a, if s.registers[c] != 0 then s.registers[b] else s.registers[a])
      && (t.registers == s.registers <==> s.registers[c] == 0 || s.registers[a] == s.registers[b])
  {
    var t := Execute(s, ConditionalMove(a, b, c)).state;
    if t.registers == s.registers {
      assert t.registers[a] == s.registers[a];
    }
  }

  /**
   * Orthography always succeeds, sets its destination register to its
   * 25-bit immediate and changes nothing else; fetched from a platter, the
   * destination is bits 27..25 and the value is bits 24..0.
   */
  lemma OrthographyLoads(s: State, p: Word)
    requires OpCode(p) == 13
    ensures Execute(s, Decode(p)).Running?
    ensures WritesRegister(s, Execute(s, Decode(p)).state, RegO(p), OrthoValue(p))
    ensures OrthoValue(p) < 0x200_0000
  {
  }

  /** The orthography unit test of src/main.rs:199-204: operator 13, register 7, value 1. */
  lemma OrthographyExample(s: State)
    ensures Execute(s, Decode(0xde00_0001)).Running?
    ensures Execute(s, Decode(0xde00_0001)).state.registers[7] == 1
  {
    OrthographyLoads(s, 0xde00_0001);
  }

  /**
   * Array Index panics exactly when segment `r[B]` does not exist or has no
   * word `r[C]`; otherwise register A receives that word and nothing else
   * changes.
   */
  lemma ArrayIndexReads(s: State, a: Reg, b: Reg, c: Reg)
    ensures Execute(s, ArrayIndex(a, b, c)).Panicked? <==> !InBounds(s, s.registers[b], s.registers[c])
    ensures var r := s.registers;
      InBounds(s, r[b], r[c]) ==>
        WritesRegister(s, Execute(s, ArrayIndex(a, b, c)).state, a, s.programs[r[b] as nat][r[c] as nat])
  {
    assert Execute(s, ArrayIndex(a, b, c)) == ReadCell(s, a, b, c);
  }

  /**
   * Array Amendment panics exactly when word `r[B]` of segment `r[A]` does
   * not exist; otherwise exactly that word changes, to `r[C]`: every segment
   * keeps its length, every other word its value, and the registers, free
   * list and streams stay as they were.
   */
  lemma ArrayAmendmentWrites(s: State, a: Reg, b: Reg, c: Reg)
    ensures Execute(s, ArrayAmendment(a, b, c)).Panicked? <==> !InBounds(s, s.registers[a], s.registers[b])
    ensures var r := s.registers;
      InBounds(s, r[a], r[b]) ==>
        var t := Execute(s, ArrayAmendment(a, b, c)).state;
        var id, offset := r[a] as nat, r[b] as nat;
        && t.programs[id][offset] == r[c]
        && |t.programs| == |s.programs|
        && (forall j :: 0 <= j < |s.programs| ==> |t.programs[j]| == |s.programs[j]|)
        && (forall j :: 0 <= j < |s.programs| && j != id ==> t.programs[j] == s.programs[j])
        && (forall j, k :: 0 <= j < |s.programs| && 0 <= k < |s.programs[j]| && (j, k) != (id, offset) ==>
              t.programs[j][k] == s.programs[j][k])
        && t.registers == s.registers && t.freelist == s.freelist
        && t.input == s.input && t.output == s.output
        && t.finger == s.finger + 1
  {
    var r := s.registers;
    if InBounds(s, r[a], r[b]) {
      assert Execute(s, ArrayAmendment(a, b, c)) == WriteCell(s, a, b, c);
      var t := Execute(s, ArrayAmendment(a, b, c)).state;
      assert t.programs == Amend(s.programs, r[a] as nat, r[b] as nat, r[c]);
    }
  }

  /**
   * Reading back an amended word: after Array Amendment stores `r[C]` at
   * word `r[B]` of segment `r[A]`, Array Index through the same two
   * registers loads that value.
   */
  lemma AmendThenIndex(s: State, a: Reg, b: Reg, c: Reg, d: Reg)
    requires Execute(s, ArrayAmendment(a, b, c)).Running?
    ensures var t := Execute(s, ArrayAmendment(a, b, c)).state;
      && Execute(t, ArrayIndex(d, a, b)).Running?
      && Execute(t, ArrayIndex(d, a, b)).state.registers[d] == s.registers[c]
  {
    ArrayAmendmentWrites(s, a, b, c);
  }

  /**
   * Allocation with an empty free list: register B receives the table length
   * (truncated to 32 bits) and a segment of `r[C]` zero words is appended;
   * every existing segment stays.
   */
  lemma AllocateAppends(s: State, b: Reg, c: Reg)
    requires |s.freelist| == 0
    ensures Execute(s, Allocation(b, c)).Running?
    ensures var t := Execute(s, Allocation(b, c)).state;
      && t.programs == s.programs + [Zeros(s.registers[c] as nat)]
      && t.registers[b] == (|s.programs| % 0x1_0000_0000) as Word
      && RegistersAgreeExcept(s, t, b)
      && t.freelist == s.freelist && t.input == s.input && t.output == s.output
      && t.finger == s.finger + 1
  {
    assert Execute(s, Allocation(b, c)) == Allocate(s, b, c);
  }

  /**
   * Allocation with a non-empty free list pops its last id `i`: register B
   * receives `i`, segment `i` is replaced by `r[C]` zero words, the table
   * keeps its length and every other segment stays.
   */
  lemma AllocateReuses(s: State, b: Reg, c: Reg)
    requires WellFormed(s) && |s.freelist| > 0
    ensures Execute(s, Allocation(b, c)).Running?
    ensures var t := Execute(s, Allocation(b, c)).state;
      var i := s.freelist[|s.freelist| - 1];
      && t.registers[b] == i
      && |t.programs| == |s.programs|
      && t.programs[i as nat] == Zeros(s.registers[c] as nat)
      && (forall j :: 0 <= j < |s.programs| && j != i as nat ==> t.programs[j] == s.programs[j])
      && t.freelist == s.freelist[..|s.freelist| - 1]
      && RegistersAgreeExcept(s, t, b)
      && t.input == s.input && t.output == s.output
      && t.finger == s.finger + 1
  {
    assert Execute(s, Allocation(b, c)) == Allocate(s, b, c);
  }

  /** On a well-formed machine allocation never panics. */
  lemma AllocateSucceeds(s: State, b: Reg, c: Reg)
    requires WellFormed(s)
    ensures Execute(s, Allocation(b, c)).Running?
  {
    if |s.freelist| > 0 {
      AllocateReuses(s, b, c);
    }
  }

  /**
   * Abandonment panics exactly when register C names no segment; otherwise
   * that id is pushed on the free list, its segment becomes empty, and the
   * registers and every other segment stay. Segment 0 and ids already on the
   * free list are accepted like any other.
   */
  lemma AbandonEmpties(s: State, c: Reg)
    ensures Execute(s, Abandonment(c)).Panicked? <==> !IsSegment(s, s.registers[c])
    ensures IsSegment(s, s.registers[c]) ==>
      var t := Execute(s, Abandonment(c)).state;
      var id := s.registers[c];
      && t.freelist == s.freelist + [id]
      && |t.programs| == |s.programs|
      && t.programs[id as nat] == []
      && (forall j :: 0 <= j < |s.programs| && j != id as nat ==> t.programs[j] == s.programs[j])
      && t.registers == s.registers && t.input == s.input && t.output == s.output
      && t.finger == s.finger + 1
  {
    assert Execute(s, Abandonment(c)) == Abandon(s, c);
  }

  /**
   * Free-slot reuse is last in, first out: allocating right after an
   * abandonment hands back the id just abandoned, now holding `r[C']` zero
   * words, and leaves the free list as it was before the abandonment.
   */
  lemma AbandonThenAllocate(s: State, c: Reg, b': Reg, c': Reg)
    requires WellFormed(s) && IsSegment(s, s.registers[c])
    ensures var t := Execute(s, Abandonment(c)).state;
      && Execute(t, Allocation(b', c')).Running?
      && var u := Execute(t, Allocation(b', c')).state;
      && u.registers[b'] == s.registers[c]
      && u.programs[s.registers[c] as nat] == Zeros(s.registers[c'] as nat)
      && u.freelist == s.freelist
      && |u.programs| == |s.programs|
  {
    var t := Execute(s, Abandonment(c)).state;
    AbandonEmpties(s, c);
    AllocateReuses(t, b', c');
  }

  /**
   * Abandonment does not track which ids are live: an id abandoned twice is
   * on the free list twice, and the next two allocations both receive it,
   * so two live handles name the same segment.
   */
  lemma DoubleAbandonAliases(s: State, c: Reg, b1: Reg, b2: Reg, n: Reg)
    requires WellFormed(s) && IsSegment(s, s.registers[c])
    ensures var t1 := Execute(s, Abandonment(c)).state;
      var t2 := Execute(t1, Abandonment(c)).state;
      var u1 := Execute(t2, Allocation(b1, n)).state;
      var u2 := Execute(u1, Allocation(b2, n)).state;
      && u1.registers[b1] == s.registers[c]
      && u2.registers[b2] == s.registers[c]
  {
    var t1 := Execute(s, Abandonment(c)).state;
    AbandonEmpties(s, c);
    AbandonEmpties(t1, c);
    var t2 := Execute(t1, Abandonment(c)).state;
    AllocateReuses(t2, b1, n);
    var u1 := Execute(t2, Allocation(b1, n)).state;
    AllocateReuses(u1, b2, n);
  }

  /**
   * Abandoning segment 0 is accepted, but it empties the running program,
   * so the next cycle cannot fetch and panics.
   */
  lemma AbandonProgramThenFetchFails(s: State, c: Reg)
    requires |s.programs| > 0 && s.registers[c] == 0
    ensures Execute(s, Abandonment(c)).Running?
    ensures Step(Execute(s, Abandonment(c)).state) == Panicked(FetchOutOfBounds)
  {
  }

  /** Output always succeeds and appends register C to the output, changing nothing else. */
  lemma OutputWrites(s: State, c: Reg)
    ensures Execute(s, Output(c)).Running?
    ensures var t := Execute(s, Output(c)).state;
      && t.output == s.output + [s.registers[c]]
      && t.registers == s.registers && t.programs == s.programs && t.freelist == s.freelist
      && t.input == s.input && t.finger == s.finger + 1
  {
    assert Execute(s, Output(c)) == WriteChar(s, c);
  }

  /**
   * Input panics exactly at the end of the input; otherwise register C
   * receives the next byte, which is below 256, and that byte is consumed.
   */
  lemma InputReads(s: State, c: Reg)
    ensures Execute(s, Input(c)) == Panicked(EndOfInput) <==> |s.input| == 0
    ensures |s.input| > 0 ==>
      var t := Execute(s, Input(c)).state;
      && t.registers[c] == s.input[0] as Word && t.registers[c] < 256
      && RegistersAgreeExcept(s, t, c)
      && t.input == s.input[1..]
      && t.programs == s.programs && t.freelist == s.freelist && t.output == s.output
      && t.finger == s.finger + 1
  {
    assert Execute(s, Input(c)) == ReadByte(s, c);
  }

  /**
   * Load Program panics exactly when register B is neither 0 nor a segment
   * id. Otherwise the finger becomes register C, with no increment; segment
   * 0 becomes a copy of segment `r[B]` when `r[B]` is not 0 and is untouched
   * when it is; no other segment and no register changes.
   */
  lemma LoadProgramJumps(s: State, b: Reg, c: Reg)
    ensures Execute(s, LoadProgram(b, c)).Panicked? <==>
      s.registers[b] != 0 && !IsSegment(s, s.registers[b])
    ensures !Execute(s, LoadProgram(b, c)).Panicked? ==>
      var t := Execute(s, LoadProgram(b, c)).state;
      && t.finger == s.registers[c] as nat
      && (if s.registers[b] == 0 then t.programs == s.programs
          else t.programs == s.programs[0 := s.programs[s.registers[b] as nat]])
      && t.registers == s.registers && t.freelist == s.freelist
      && t.input == s.input && t.output == s.output
  {
    assert Execute(s, LoadProgram(b, c)) == Jump(s, b, c);
  }

  /**
   * The loaded program is a copy, not a shared segment: amending the source
   * segment afterwards leaves segment 0 as it was loaded.
   */
  lemma LoadedProgramIsIndependent(s: State, b: Reg, c: Reg, a': Reg, b': Reg, c': Reg)
    requires Execute(s, LoadProgram(b, c)).Running?
    requires s.registers[a'] == s.registers[b] != 0
    ensures var t := Execute(s, LoadProgram(b, c)).state;
      Execute(t, ArrayAmendment(a', b', c')).Running? ==>
        Execute(t, ArrayAmendment(a', b', c')).state.programs[0] == t.programs[0]
  {
    LoadProgramJumps(s, b, c);
    var t := Execute(s, LoadProgram(b, c)).state;
    assert t.programs == s.programs[0 := s.programs[s.registers[b] as nat]];
    if Execute(t, ArrayAmendment(a', b', c')).Running? {
      ArrayAmendmentWrites(t, a', b', c');
    }
  }

  /**
   * Operators 14 and 15 are skipped: the finger moves on and nothing else
   * changes.
   */
  lemma UnknownIsSkipped(s: State, op: bv8)
    ensures Execute(s, Unknown(op)).Running?
    ensures var t := Execute(s, Unknown(op)).state;
      t.registers == s.registers && MemoryUnchanged(s, t) && t.finger == s.finger + 1
  {
  }

  /**
   * Every operation that completes, other than Load Program, moves the finger
   * to the next platter; Halt leaves the whole state as it was.
   */
  lemma FingerAdvances(s: State, i: Instruction)
    requires !i.LoadProgram?
    ensures Execute(s, i).Running? ==> Execute(s, i).state.finger == s.finger + 1
    ensures Execute(s, i).Halted? <==> i.Halt?
    ensures i.Halt? ==> Execute(s, i) == Halted(s)
  {
  }

  /**
   * A cycle fails to fetch exactly when the finger is outside segment 0; no
   * operation reports that fault itself.
   */
  lemma StepFetchFault(s: State)
    ensures Step(s) == Panicked(FetchOutOfBounds) <==> !CanFetch(s)
  {
    if CanFetch(s) {
      var i := Decode(Fetch(s));
      assert Execute(s, i) != Panicked(FetchOutOfBounds) by {
        match i
        case ArrayIndex(a, b, c) =>
        case ArrayAmendment(a, b, c) =>
        case Allocation(b, c) =>
        case Abandonment(c) =>
        case Input(c) =>
        case LoadProgram(b, c) =>
        case _ =>
      }
    }
  }

  /**
   * Runs compose: `m + n` turns of the loop are `m` turns and then, if the
   * loop is still going, `n` more.
   */
  lemma {:induction false} IterateAdditive(cycle: State -> Outcome, s: State, m: nat, n: nat)
    ensures Iterate(cycle, s, m + n) == match Iterate(cycle, s, m) { case Running(t) => Iterate(cycle, t, n) case o => o }
    decreases m
  {
    if m > 0 && cycle(s).Running? {
      IterateAdditive(cycle, cycle(s).state, m - 1, n);
      assert m + n - 1 == (m - 1) + n;
    }
  }

  /**
   * A halt or a panic is final: once the loop has stopped within `m` turns,
   * more fuel gives the same outcome.
   */
  lemma {:induction false} IterateStopsForGood(cycle: State -> Outcome, s: State, m: nat, n: nat)
    requires m <= n && !Iterate(cycle, s, m).Running?
    ensures Iterate(cycle, s, n) == Iterate(cycle, s, m)
    decreases m
  {
    if cycle(s).Running? {
      IterateStopsForGood(cycle, cycle(s).state, m - 1, n - 1);
    }
  }

  /**
   * When a halting cycle leaves its state as it was, a loop that halts
   * stops in a state whose own cycle is that halt.
   */
  lemma {:induction false} IterateHaltsInPlace(cycle: State -> Outcome, s: State, n: nat)
    requires forall u :: cycle(u).Halted? ==> cycle(u).state == u
    requires Iterate(cycle, s, n).Halted?
    ensures cycle(Iterate(cycle, s, n).state) == Iterate(cycle, s, n)
    decreases n
  {
    if cycle(s).Running? {
      IterateHaltsInPlace(cycle, cycle(s).state, n - 1);
    }
  }

  /** One turn of the loop, then the rest. */
  lemma {:induction false} IterateOnce(cycle: State -> Outcome, s: State, n: nat)
    ensures Iterate(cycle, s, n + 1) == match cycle(s) { case Running(t) => Iterate(cycle, t, n) case o => o }
  {
  }

  /** A machine run of `n + 1` cycles is one cycle and then, if still running, `n` more. */
  lemma {:induction false} RunOnce(s: State, n: nat)
    ensures Run(s, n + 1) == match Step(s) { case Running(t) => Run(t, n) case o => o }
  {
    IterateOnce(Step, s, n);
  }

  /** Machine runs compose: `m + n` cycles are `m` cycles and then `n` more. */
  lemma RunAdditive(s: State, m: nat, n: nat)
    ensures Run(s, m + n) == match Run(s, m) { case Running(t) => Run(t, n) case o => o }
  {
    IterateAdditive(Step, s, m, n);
  }

  /** A machine that has halted or panicked stays so whatever fuel is added. */
  lemma RunStopsForGood(s: State, m: nat, n: nat)
    requires m <= n && !Run(s, m).Running?
    ensures Run(s, n) == Run(s, m)
  {
    IterateStopsForGood(Step, s, m, n);
  }

  /**
   * A run that halts stops in the state where it fetched the halt: the
   * platter under the finger there is operator 7.
   */
  lemma RunHaltsAtHalt(s: State, n: nat)
    requires Run(s, n).Halted?
    ensures CanFetch(Run(s, n).state) && OpCode(Fetch(Run(s, n).state)) == 7
  {
    IterateHaltsInPlace(Step, s, n);
    StepHaltsOnOperatorSeven(Run(s, n).state);
  }

  /** A cycle halts exactly when the platter under the finger is operator 7; the state stays. */
  lemma StepHaltsOnOperatorSeven(s: State)
    ensures Step(s).Halted? <==> CanFetch(s) && OpCode(Fetch(s)) == 7
    ensures Step(s).Halted? ==> Step(s) == Halted(s)
  {
    if CanFetch(s) {
      DecodeHalt(Fetch(s));
    }
  }
}
