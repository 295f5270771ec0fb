/**
 * The interpreter object: the machine's registers, segment table, finger
 * and free list, updated in place one spin cycle at a time.
 *
 * `Model()` reads the object as a `Machine.State`; each method is proved to
 * change it exactly as the value-level `Step` and `Run` say.
 */
module Interpreter {
  import opened Platter
  import opened Machine
  import MachineProperties

  /** How a spin cycle, or a spin loop, ended. */
  datatype Status =
    | Proceed            // the machine is ready for its next cycle
    | Stop               // the machine executed Halt
    | Abort(fault: Fault) // the interpreter panicked

  /**
   * `status` and `now` are what the outcome `o` says: the next state, the
   * halted state, or the fault a panic reports.
   */
  predicate Reports(o: Outcome, status: Status, now: State) {
    match o
    case Running(t) => status == Proceed && now == t
    case Halted(t) => status == Stop && now == t
    case Panicked(f) => status == Abort(f)
  }

  class UM {
    const registers: array<Word>
    var programs: seq<Segment>
    var finger: nat
    var freelist: seq<Word>
    var input: seq<Byte>
    var output: seq<Word>

    /** The register file has its eight registers. */
    ghost predicate Valid()
      reads this
    {
      registers.Length == 8
    }

    /** The machine state this object holds. */
    function Model(): (s: State)
      requires Valid()
      reads this, registers
      ensures s.programs == programs && s.finger == finger && s.freelist == freelist
    {
      State(registers[..], programs, finger, freelist, input, output)
    }

    /** A machine loaded with `program` as segment 0, reading `input`. */
    constructor(program: seq<Word>, input: seq<Byte>)
      ensures Valid() && fresh(registers)
      ensures Model() == Init(program, input)
    {
      registers := new Word[8](_ => 0);
      programs := [program];
      finger := 0;
      freelist := [];
      this.input := input;
      output := [];
    }

    /**
     * One spin cycle: fetch the platter under the finger and carry it out.
     * The new state is the one `Step` gives; where the interpreter would
     * panic, nothing has been changed.
     */
    method Cycle() returns (status: Status)
      requires Valid()
      modifies this, registers
      ensures Valid()
      ensures Reports(Step(old(Model())), status, Model())
      ensures status.Abort? ==> Model() == old(Model())
    {
      if |programs| == 0 || finger >= |programs[0]| {
        return Abort(FetchOutOfBounds);
      }
      var p := programs[0][finger];
      status := Perform(Decode(p));
    }

    /** Carries out one decoded instruction, as `Execute` says. */
    method Perform(i: Instruction) returns (status: Status)
      requires Valid()
      modifies this, registers
      ensures Valid()
      ensures Reports(Execute(old(Model()), i), status, Model())
      ensures status.Abort? ==> Model() == old(Model())
    {
      match i {
      case ArrayIndex(a, b, c) => status := PerformIndex(a, b, c);
      case ArrayAmendment(a, b, c) => status := PerformAmendment(a, b, c);
      case Halt => status := Stop;
      case Allocation(b, c) => status := PerformAllocation(b, c);
      case Abandonment(c) => status := PerformAbandonment(c);
      case Output(c) => status := PerformOutput(c);
      case Input(c) => status := PerformInput(c);
      case LoadProgram(b, c) => status := PerformLoad(b, c);
      case Unknown(_) =>
        finger := finger + 1;
        status := Proceed;
      case _ => status := PerformRegisterOp(i);
      }
    }

    /**
     * The operations that only write a register: conditional move, the
     * arithmetic and not-and, and orthography.
     */
    method PerformRegisterOp(i: Instruction) returns (status: Status)
      requires Valid()
      requires i.ConditionalMove? || i.Addition? || i.Multiplication? || i.Division?
            || i.NotAnd? || i.Orthography?
      modifies registers, `finger
      ensures Valid()
      ensures Reports(Execute(old(Model()), i), status, Model())
      ensures status.Abort? ==> Model() == old(Model())
    {
      var r := registers[..];
      match i {
      case ConditionalMove(a, b, c) =>
        if r[c] != 0 {
          WriteRegister(a, r[b]);
        } else {
          finger := finger + 1;
        }
      case Addition(a, b, c) =>
        WriteRegister(a, WrappingAdd(r[b], r[c]));
      case Multiplication(a, b, c) =>
        WriteRegister(a, WrappingMul(r[b], r[c]));
      case Division(a, b, c) =>
        if r[c] == 0 {
          return Abort(DivideByZero);
        }
        WriteRegister(a, WrappingDiv(r[b], r[c]));
      case NotAnd(a, b, c) =>
        WriteRegister(a, Nand(r[b], r[c]));
      case Orthography(a, v) =>
        WriteRegister(a, v);
      }
      return Proceed;
    }

    /** Register `a` receives `v` and the finger moves to the next platter. */
    method WriteRegister(a: Reg, v: Word)
      requires Valid()
      modifies registers, `finger
      ensures Valid()
      ensures Model() == Advance(SetRegister(old(Model()), a, v))
    {
      registers[a] := v;
      finger := finger + 1;
    }

    /** Output, as `WriteChar` says. */
    method PerformOutput(c: Reg) returns (status: Status)
      requires Valid()
      modifies `output, `finger
      ensures Valid()
      ensures Reports(WriteChar(old(Model()), c), status, Model())
    {
      output := output + [registers[c]];
      finger := finger + 1;
      return Proceed;
    }

    /** Input, as `ReadByte` says: at the end of the input the interpreter panics. */
    method PerformInput(c: Reg) returns (status: Status)
      requires Valid()
      modifies registers, `input, `finger
      ensures Valid()
      ensures Reports(ReadByte(old(Model()), c), status, Model())
      ensures status.Abort? ==> Model() == old(Model())
    {
      if |input| == 0 {
        return Abort(EndOfInput);
      }
      registers[c] := input[0] as Word;
      input := input[1..];
      finger := finger + 1;
      return Proceed;
    }

    /** Array Index, as `ReadCell` says. */
    method PerformIndex(a: Reg, b: Reg, c: Reg) returns (status: Status)
      requires Valid()
      modifies this, registers
      ensures Valid()
      ensures Reports(ReadCell(old(Model()), a, b, c), status, Model())
      ensures status.Abort? ==> Model() == old(Model())
    {
      var id, offset := registers[b] as nat, registers[c] as nat;
      if id >= |programs| || offset >= |programs[id]| {
        return Abort(SegmentOutOfBounds);
      }
      registers[a] := programs[id][offset];
      finger := finger + 1;
      return Proceed;
    }

    /** Array Amendment, as `WriteCell` says. */
    method PerformAmendment(a: Reg, b: Reg, c: Reg) returns (status: Status)
      requires Valid()
      modifies this, registers
      ensures Valid()
      ensures Reports(WriteCell(old(Model()), a, b, c), status, Model())
      ensures status.Abort? ==> Model() == old(Model())
    {
      var id, offset := registers[a] as nat, registers[b] as nat;
      if id >= |programs| || offset >= |programs[id]| {
        return Abort(SegmentOutOfBounds);
      }
      programs := programs[id := programs[id][offset := registers[c]]];
      finger := finger + 1;
      return Proceed;
    }

    /**
     * Allocation, as `Allocate` says: the zeroed segment is built first, then
     * the free list is popped if it can be, else the table grows.
     */
    method PerformAllocation(b: Reg, c: Reg) returns (status: Status)
      requires Valid()
      modifies this, registers
      ensures Valid()
      ensures Reports(Allocate(old(Model()), b, c), status, Model())
      ensures status.Abort? ==> Model() == old(Model())
    {
      var blank := Zeros(registers[c] as nat);
      if |freelist| > 0 {
        var i := freelist[|freelist| - 1];
        if i as nat >= |programs| {
          return Abort(SegmentOutOfBounds);
        }
        freelist := freelist[..|freelist| - 1];
        registers[b] := i;
        programs := programs[i as nat := blank];
      } else {
        registers[b] := (|programs| % 0x1_0000_0000) as Word;
        programs := programs + [blank];
      }
      finger := finger + 1;
      return Proceed;
    }

    /** Abandonment, as `Abandon` says. */
    method PerformAbandonment(c: Reg) returns (status: Status)
      requires Valid()
      modifies this, registers
      ensures Valid()
      ensures Reports(Abandon(old(Model()), c), status, Model())
      ensures status.Abort? ==> Model() == old(Model())
    {
      var id := registers[c];
      if id as nat >= |programs| {
        return Abort(SegmentOutOfBounds);
      }
      freelist := freelist + [id];
      programs := programs[id as nat := []];
      finger := finger + 1;
      return Proceed;
    }

    /** Load Program, as `Jump` says: the finger is set and not incremented. */
    method PerformLoad(b: Reg, c: Reg) returns (status: Status)
      requires Valid()
      modifies this, registers
      ensures Valid()
      ensures Reports(Jump(old(Model()), b, c), status, Model())
      ensures status.Abort? ==> Model() == old(Model())
    {
      var id := registers[b] as nat;
      if id != 0 {
        if id >= |programs| {
          return Abort(SegmentOutOfBounds);
        }
        programs := programs[0 := programs[id]];
      }
      finger := registers[c] as nat;
      return Proceed;
    }

    /**
     * The interpreter's loop, for at most `fuel` cycles: it stops at a halt
     * or a panic, and otherwise after `fuel` cycles. The status and the state
     * reached are what `Run` gives.
     */
    method SpinCycle(fuel: nat) returns (status: Status)
      requires Valid()
      modifies this, registers
      ensures Valid()
      ensures Reports(Run(old(Model()), fuel), status, Model())
    {
      ghost var start := Model();
      var n := 0;
      status := Proceed;
      while n < fuel && status == Proceed
        invariant Valid()
        invariant n <= fuel
        invariant status == Proceed ==> Run(start, n) == Running(Model())
        invariant status != Proceed ==> Reports(Run(start, n), status, Model()) && !Run(start, n).Running?
        decreases fuel - n, if status == Proceed then 1 else 0
      {
        ghost var before := Model();
        status := Cycle();
        MachineProperties.RunAdditive(start, n, 1);
        assert Run(before, 1) == Step(before);
        n := n + 1;
      }
      if n < fuel || status != Proceed {
        MachineProperties.RunStopsForGood(start, n, fuel);
      }
    }
  }
}
