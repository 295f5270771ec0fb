/**
 * The Universal Machine as a value: its state, the effect of one spin cycle,
 * and a run of a bounded number of cycles.
 *
 * The machine has eight 32-bit registers, a growable table of word segments
 * ("programs"; segment 0 is the program being executed), a finger into
 * segment 0 and a stack of abandoned segment identifiers kept for reuse.
 * Console input and output are in-memory streams here: input is the bytes
 * still to be read, output is the words written so far.
 *
 * Where the interpreter would panic (an index out of range, a division by
 * zero, a read past the end of input), a step yields `Panicked` with the kind
 * of fault instead of a next state.
 */
module Machine {
  import opened Platter

  /** The register file: exactly eight words. */
  type Registers = r: seq<Word> | |r| == 8 witness [0, 0, 0, 0, 0, 0, 0, 0]

  /** A segment ("array") of words. */
  type Segment = seq<Word>

  type Byte = bv8

  datatype Fault =
    | FetchOutOfBounds    // the finger is not inside segment 0
    | SegmentOutOfBounds  // a segment id or an offset inside a segment is out of range
    | DivideByZero
    | EndOfInput

  datatype State = State(
    registers: Registers,
    programs: seq<Segment>,
    finger: nat,
    freelist: seq<Word>,
    input: seq<Byte>,
    output: seq<Word>)

  /** What one cycle, or a run of cycles, ends in. */
  datatype Outcome =
    | Running(state: State)
    | Halted(state: State)
    | Panicked(fault: Fault)

  /**
   * The machine as the interpreter starts it: registers zero, the program
   * image as segment 0, the finger at 0 and no abandoned segments.
   */
  function Init(program: seq<Word>, input: seq<Byte>): (s: State)
    ensures WellFormed(s)
    ensures s.programs[0] == program && |s.programs| == 1
    ensures forall i :: 0 <= i < 8 ==> s.registers[i] == 0
  {
    State([0, 0, 0, 0, 0, 0, 0, 0], [program], 0, [], input, [])
  }

  /**
   * The arena invariant: there is a segment 0 and every abandoned id on the
   * free list names a slot of the segment table.
   */
  predicate WellFormed(s: State) {
    |s.programs| > 0 && IdsBelow(s.freelist, |s.programs|)
  }

  /** Every id in `ids` is below `n`. */
  predicate IdsBelow(ids: seq<Word>, n: nat) {
    forall k :: 0 <= k < |ids| ==> ids[k] as nat < n
  }

  /** `id` names a slot of the segment table. */
  predicate IsSegment(s: State, id: Word) {
    id as nat < |s.programs|
  }

  /** `offset` is inside segment `id`. */
  predicate InBounds(s: State, id: Word, offset: Word) {
    IsSegment(s, id) && offset as nat < |s.programs[id as nat]|
  }

  predicate CanFetch(s: State) {
    |s.programs| > 0 && s.finger < |s.programs[0]|
  }

  /** The platter under the finger. */
  function Fetch(s: State): Word
    requires CanFetch(s)
  {
    s.programs[0][s.finger]
  }

  /** A fresh segment of `n` zero words. */
  function Zeros(n: nat): (z: Segment)
    ensures |z| == n
    ensures forall i :: 0 <= i < n ==> z[i] == 0
  {
    seq(n, _ => 0)
  }

  /** The segment table with word `offset` of segment `id` replaced by `v`. */
  function Amend(programs: seq<Segment>, id: nat, offset: nat, v: Word): (t: seq<Segment>)
    requires id < |programs| && offset < |programs[id]|
    ensures |t| == |programs| && |t[id]| == |programs[id]| && t[id][offset] == v
    ensures forall j :: 0 <= j < |t| && j != id ==> t[j] == programs[j]
    ensures forall k :: 0 <= k < |t[id]| && k != offset ==> t[id][k] == programs[id][k]
  {
    programs[id := programs[id][offset := v]]
  }

  /** The finger moved to the next platter. */
  function Advance(s: State): State {
    s.(finger := s.finger + 1)
  }

  /** Register `i` set to `v`; nothing else changes. */
  function SetRegister(s: State, i: Reg, v: Word): State {
    s.(registers := s.registers[i := v])
  }

  /** Array Index: register A receives word `r[C]` of segment `r[B]`. */
  function ReadCell(s: State, a: Reg, b: Reg, c: Reg): (o: Outcome)
    ensures !o.Halted?
    ensures !o.Panicked? ==> |o.state.programs| == |s.programs|
    ensures WellFormed(s) && !o.Panicked? ==> WellFormed(o.state)
  {
    var r := s.registers;
    if InBounds(s, r[b], r[c]) then
      Running(Advance(SetRegister(s, a, s.programs[r[b] as nat][r[c] as nat])))
    else
      Panicked(SegmentOutOfBounds)
  }

  /** Array Amendment: word `r[B]` of segment `r[A]` receives `r[C]`. */
  function WriteCell(s: State, a: Reg, b: Reg, c: Reg): (o: Outcome)
    ensures !o.Halted?
    ensures !o.Panicked? ==> |o.state.programs| == |s.programs|
    ensures WellFormed(s) && !o.Panicked? ==> WellFormed(o.state)
  {
    var r := s.registers;
    if InBounds(s, r[a], r[b]) then
      Running(Advance(s.(programs := Amend(s.programs, r[a] as nat, r[b] as nat, r[c]))))
    else
      Panicked(SegmentOutOfBounds)
  }

  /**
   * Allocation: the new segment has `r[C]` zero words; its id is the most
   * recently abandoned one if there is any, else the next slot of the table
   * (the table length, truncated to 32 bits as the interpreter's cast does).
   * The chosen id goes to register B.
   */
  function Allocate(s: State, b: Reg, c: Reg): (o: Outcome)
    ensures !o.Halted?
    ensures !o.Panicked? ==> |s.programs| <= |o.state.programs| <= |s.programs| + 1
    ensures WellFormed(s) && !o.Panicked? ==> WellFormed(o.state)
  {
    var blank := Zeros(s.registers[c] as nat);
    if |s.freelist| > 0 then
      var i := s.freelist[|s.freelist| - 1];
      if IsSegment(s, i) then
        Running(Advance(SetRegister(s, b, i).(programs := s.programs[i as nat := blank],
                                              freelist := s.freelist[..|s.freelist| - 1])))
      else
        Panicked(SegmentOutOfBounds)
    else
      var id := (|s.programs| % 0x1_0000_0000) as Word;
      Running(Advance(SetRegister(s, b, id).(programs := s.programs + [blank])))
  }

  /**
   * Abandonment: the id in register C goes on the free list and its segment
   * is emptied. Neither segment 0 nor an id already on the free list is refused.
   */
  function Abandon(s: State, c: Reg): (o: Outcome)
    ensures !o.Halted?
    ensures !o.Panicked? ==> |o.state.programs| == |s.programs|
    ensures WellFormed(s) && !o.Panicked? ==> WellFormed(o.state)
  {
    var id := s.registers[c];
    if IsSegment(s, id) then
      Running(Advance(s.(freelist := s.freelist + [id], programs := s.programs[id as nat := []])))
    else
      Panicked(SegmentOutOfBounds)
  }

  /** Output: the word in register C is written to the output stream. */
  function WriteChar(s: State, c: Reg): (o: Outcome)
    ensures o.Running?
    ensures o.state.programs == s.programs && o.state.freelist == s.freelist
  {
    Running(Advance(s.(output := s.output + [s.registers[c]])))
  }

  /** Input: register C receives the next input byte, zero-extended. */
  function ReadByte(s: State, c: Reg): (o: Outcome)
    ensures !o.Halted?
    ensures !o.Panicked? ==> o.state.programs == s.programs
    ensures WellFormed(s) && !o.Panicked? ==> WellFormed(o.state)
  {
    if |s.input| == 0 then Panicked(EndOfInput)
    else Running(Advance(SetRegister(s, c, s.input[0] as Word).(input := s.input[1..])))
  }

  /**
   * Load Program: unless register B is 0, segment 0 becomes a copy of segment
   * `r[B]`; the finger jumps to `r[C]` and is not incremented afterwards.
   */
  function Jump(s: State, b: Reg, c: Reg): (o: Outcome)
    ensures !o.Halted?
    ensures !o.Panicked? ==> |o.state.programs| == |s.programs|
    ensures WellFormed(s) && !o.Panicked? ==> WellFormed(o.state)
  {
    var id, target := s.registers[b] as nat, s.registers[c] as nat;
    if id == 0 then Running(s.(finger := target))
    else if id < |s.programs| then
      Running(s.(programs := s.programs[0 := s.programs[id]], finger := target))
    else
      Panicked(SegmentOutOfBounds)
  }

  /** Unsigned 32-bit addition, wrapping modulo 2^32 (`bv32` arithmetic wraps). */
  function WrappingAdd(x: Word, y: Word): Word { x + y }

  /** Unsigned 32-bit multiplication, wrapping modulo 2^32. */
  function WrappingMul(x: Word, y: Word): Word { x * y }

  /** Unsigned 32-bit division; a zero divisor is a panic, checked by the caller. */
  function WrappingDiv(x: Word, y: Word): Word
    requires y != 0
  {
    x / y
  }

  /** Bitwise not-and. */
  function Nand(x: Word, y: Word): Word { !(x & y) }

  /**
   * The effect of one decoded instruction on the state it was fetched in.
   * Every operation but Load Program and Halt moves the finger to the next
   * platter; operators 14 and 15 are reported and skipped.
   */
  function Execute(s: State, i: Instruction): (o: Outcome)
    ensures o.Halted? <==> i.Halt?
    ensures o.Halted? ==> o.state == s
    ensures !o.Panicked? ==> |s.programs| <= |o.state.programs| <= |s.programs| + 1
    ensures WellFormed(s) && !o.Panicked? ==> WellFormed(o.state)
  {
    var r := s.registers;
    match i
    case ConditionalMove(a, b, c) => Running(Advance(if r[c] != 0 then SetRegister(s, a, r[b]) else s))
    case ArrayIndex(a, b, c) => ReadCell(s, a, b, c)
    case ArrayAmendment(a, b, c) => WriteCell(s, a, b, c)
    case Addition(a, b, c) => Running(Advance(SetRegister(s, a, WrappingAdd(r[b], r[c]))))
    case Multiplication(a, b, c) => Running(Advance(SetRegister(s, a, WrappingMul(r[b], r[c]))))
    case Division(a, b, c) =>
      if r[c] == 0 then Panicked(DivideByZero)
      else Running(Advance(SetRegister(s, a, WrappingDiv(r[b], r[c]))))
    case NotAnd(a, b, c) => Running(Advance(SetRegister(s, a, Nand(r[b], r[c]))))
    case Halt => Halted(s)
    case Allocation(b, c) => Allocate(s, b, c)
    case Abandonment(c) => Abandon(s, c)
    case Output(c) => WriteChar(s, c)
    case Input(c) => ReadByte(s, c)
    case LoadProgram(b, c) => Jump(s, b, c)
    case Orthography(a, v) => Running(Advance(SetRegister(s, a, v)))
    case Unknown(_) => Running(Advance(s))
  }

  /**
   * One spin cycle: fetch the platter under the finger, decode and execute it.
   * A halt changes nothing, and the segment table never shrinks and grows by
   * at most one segment per cycle.
   */
  function Step(s: State): (o: Outcome)
    ensures o.Halted? ==> o.state == s
    ensures !o.Panicked? ==> |s.programs| <= |o.state.programs| <= |s.programs| + 1
    ensures WellFormed(s) && !o.Panicked? ==> WellFormed(o.state)
  {
    if !CanFetch(s) then Panicked(FetchOutOfBounds) else Execute(s, Decode(Fetch(s)))
  }

  /**
   * The fetch loop: at most `fuel` turns of `cycle` from `s`, stopping at the
   * first halt or panic (a loop still going when the fuel is spent is
   * `Running`).
   */
  function Iterate(cycle: State -> Outcome, s: State, fuel: nat): Outcome
    decreases fuel
  {
    if fuel == 0 then Running(s)
    else
      match cycle(s)
      case Running(t) => Iterate(cycle, t, fuel - 1)
      case o => o
  }

  /** At most `fuel` spin cycles of the machine from `s`. */
  function Run(s: State, fuel: nat): Outcome {
    Iterate(Step, s, fuel)
  }

  /**
   * The arena invariant holds in every state a run reaches, and the segment
   * table never shrinks along a run.
   */
  lemma {:induction false} RunKeepsWellFormed(s: State, fuel: nat)
    ensures WellFormed(s) && !Run(s, fuel).Panicked? ==> WellFormed(Run(s, fuel).state)
    ensures !Run(s, fuel).Panicked? ==> |s.programs| <= |Run(s, fuel).state.programs|
    decreases fuel
  {
    if fuel > 0 {
      var o := Step(s);
      if o.Running? {
        RunKeepsWellFormed(o.state, fuel - 1);
      }
    }
  }
}
