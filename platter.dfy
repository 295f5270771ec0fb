/**
 * Instruction decoding for the Universal Machine.
 *
 * A platter is one 32-bit instruction word. The standard form keeps the
 * operator number in bits 31..28 and three register selectors A (bits 8..6),
 * B (bits 5..3) and C (bits 2..0). The orthography form (operator 13) keeps a
 * destination selector in bits 27..25 and an immediate value in bits 24..0.
 *
 * Words are `bv32`, so shifts and masks are the machine's own; the operator
 * number is a byte and the selectors are plain indices, as in the Rust
 * interpreter.
 */
module Platter {

  /** One 32-bit machine word; registers, segment cells and platters are all words. */
  type Word = bv32

  /** The operator number: the top four bits of the platter. */
  function OpCode(p: Word): (op: bv8)
    ensures op < 16
    ensures ((op as Word) << 28) | (p & 0x0fff_ffff) == p
  {
    (p >> 28) as bv8
  }

  /** Register selector A: bits 8..6. */
  function RegA(p: Word): (r: nat)
    ensures r < 8
  {
    ((p >> 6) & 7) as nat
  }

  /** Register selector B: bits 5..3. */
  function RegB(p: Word): (r: nat)
    ensures r < 8
  {
    ((p >> 3) & 7) as nat
  }

  /** Register selector C: bits 2..0. */
  function RegC(p: Word): (r: nat)
    ensures r < 8
  {
    (p & 7) as nat
  }

  /** Destination selector of the orthography form: bits 27..25. */
  function RegO(p: Word): (r: nat)
    ensures r < 8
  {
    ((p >> 25) & 7) as nat
  }

  /** Immediate value of the orthography form: the low 25 bits, zero-extended. */
  function OrthoValue(p: Word): (v: Word)
    ensures v < 0x200_0000
    ensures (p & 0xfe00_0000) | v == p
  {
    p & 0x1ff_ffff
  }

  /**
   * The encoder of the Rust interpreter's unit tests: a standard-form platter from an
   * operator number up to 13 and three register selectors, each a byte.
   */
  function MakePlatter(op: bv8, a: bv8, b: bv8, c: bv8): (p: Word)
    requires op <= 13 && a <= 7 && b <= 7 && c <= 7
    ensures p & !StandardBits == 0
  {
    ((op as Word) << 28) | ((a as Word) << 6) | ((b as Word) << 3) | (c as Word)
  }

  /** The bits a standard-form instruction uses: the operator and the three selectors. */
  const StandardBits: Word := 0xf000_01ff

  /** Decoding an encoded platter gives back the operator and all three selectors. */
  lemma DecodeMakePlatter(op: bv8, a: bv8, b: bv8, c: bv8)
    requires op <= 13 && a <= 7 && b <= 7 && c <= 7
    ensures OpCode(MakePlatter(op, a, b, c)) == op
    ensures RegA(MakePlatter(op, a, b, c)) == a as nat
    ensures RegB(MakePlatter(op, a, b, c)) == b as nat
    ensures RegC(MakePlatter(op, a, b, c)) == c as nat
  {
  }

  /**
   * Conversely, a platter whose unused bits 27..9 are clear and whose operator
   * is defined is the encoding of its own decoded fields.
   */
  lemma MakePlatterOfDecode(p: Word)
    requires p & !StandardBits == 0
    requires OpCode(p) <= 13
    ensures MakePlatter(OpCode(p), RegA(p) as bv8, RegB(p) as bv8, RegC(p) as bv8) == p
  {
  }

  /** The standard fields do not depend on the unused bits 27..9. */
  lemma StandardFieldsIgnoreUnusedBits(p: Word, q: Word)
    requires p & StandardBits == q & StandardBits
    ensures OpCode(p) == OpCode(q)
    ensures RegA(p) == RegA(q) && RegB(p) == RegB(q) && RegC(p) == RegC(q)
  {
  }

  /**
   * An orthography platter is exactly its operator, its destination selector
   * and its immediate value laid side by side: no bit is left over.
   */
  lemma OrthoDecomposition(p: Word)
    ensures p == ((OpCode(p) as Word) << 28) | ((RegO(p) as Word) << 25) | OrthoValue(p)
  {
  }

  /** The orthography fields do not depend on the operator bits nor on each other's bits. */
  lemma OrthoFieldsIgnoreOperator(p: Word, q: Word)
    requires p & 0x0fff_ffff == q & 0x0fff_ffff
    ensures RegO(p) == RegO(q) && OrthoValue(p) == OrthoValue(q)
  {
  }

  /** A register selector: one of the eight registers. */
  type Reg = r: nat | r < 8

  /**
   * The fourteen operators, with the fields each one reads, and the two
   * unassigned operator numbers.
   */
  datatype Instruction =
    | ConditionalMove(a: Reg, b: Reg, c: Reg)
    | ArrayIndex(a: Reg, b: Reg, c: Reg)
    | ArrayAmendment(a: Reg, b: Reg, c: Reg)
    | Addition(a: Reg, b: Reg, c: Reg)
    | Multiplication(a: Reg, b: Reg, c: Reg)
    | Division(a: Reg, b: Reg, c: Reg)
    | NotAnd(a: Reg, b: Reg, c: Reg)
    | Halt
    | Allocation(b: Reg, c: Reg)
    | Abandonment(c: Reg)
    | Output(c: Reg)
    | Input(c: Reg)
    | LoadProgram(b: Reg, c: Reg)
    | Orthography(a: Reg, value: Word)
    | Unknown(op: bv8)

  /**
   * The dispatch of the interpreter's loop: the operator number selects the
   * operation; operator 13 reads the orthography fields, every other operator
   * the standard ones, and 14 and 15 are unknown.
   */
  function Decode(p: Word): Instruction {
    var a, b, c := RegA(p), RegB(p), RegC(p);
    match OpCode(p)
    case 0 => ConditionalMove(a, b, c)
    case 1 => ArrayIndex(a, b, c)
    case 2 => ArrayAmendment(a, b, c)
    case 3 => Addition(a, b, c)
    case 4 => Multiplication(a, b, c)
    case 5 => Division(a, b, c)
    case 6 => NotAnd(a, b, c)
    case 7 => Halt
    case 8 => Allocation(b, c)
    case 9 => Abandonment(c)
    case 10 => Output(c)
    case 11 => Input(c)
    case 12 => LoadProgram(b, c)
    case 13 => Orthography(RegO(p), OrthoValue(p))
    case op => Unknown(op)
  }

  /** Operator 13 loads its immediate into its destination register, whatever bits 8..0 say. */
  lemma DecodeOrthography(p: Word)
    requires OpCode(p) == 13
    ensures Decode(p).Orthography?
    ensures Decode(p).a == RegO(p) && Decode(p).value == OrthoValue(p)
    ensures Decode(p).value < 0x200_0000
  {
  }

  /** Exactly the operator numbers 14 and 15 decode to an unknown instruction. */
  lemma DecodeUnknown(p: Word)
    ensures Decode(p).Unknown? <==> OpCode(p) >= 14
    ensures Decode(p).Unknown? ==> Decode(p).op == OpCode(p)
  {
  }

  /** Exactly operator 7 decodes to a halt. */
  lemma DecodeHalt(p: Word)
    ensures Decode(p).Halt? <==> OpCode(p) == 7
  {
  }

  /**
   * Operators 0 to 12 decode to the operation with that number, reading the
   * selectors that operation uses from the standard fields.
   */
  lemma DecodeStandard(p: Word)
    ensures OpCode(p) == 0 ==> Decode(p) == ConditionalMove(RegA(p), RegB(p), RegC(p))
    ensures OpCode(p) == 1 ==> Decode(p) == ArrayIndex(RegA(p), RegB(p), RegC(p))
    ensures OpCode(p) == 2 ==> Decode(p) == ArrayAmendment(RegA(p), RegB(p), RegC(p))
    ensures OpCode(p) == 3 ==> Decode(p) == Addition(RegA(p), RegB(p), RegC(p))
    ensures OpCode(p) == 4 ==> Decode(p) == Multiplication(RegA(p), RegB(p), RegC(p))
    ensures OpCode(p) == 5 ==> Decode(p) == Division(RegA(p), RegB(p), RegC(p))
    ensures OpCode(p) == 6 ==> Decode(p) == NotAnd(RegA(p), RegB(p), RegC(p))
    ensures OpCode(p) == 7 ==> Decode(p) == Halt
    ensures OpCode(p) == 8 ==> Decode(p) == Allocation(RegB(p), RegC(p))
    ensures OpCode(p) == 9 ==> Decode(p) == Abandonment(RegC(p))
    ensures OpCode(p) == 10 ==> Decode(p) == Output(RegC(p))
    ensures OpCode(p) == 11 ==> Decode(p) == Input(RegC(p))
    ensures OpCode(p) == 12 ==> Decode(p) == LoadProgram(RegB(p), RegC(p))
  {
  }

  /**
   * A platter built by the encoder decodes, for every operator it accepts,
   * to that operator's instruction with the selectors it was given. Operator
   * 13 is read in the orthography form: the encoder's operator bits leave
   * destination register 0, and the three selectors become the immediate.
   */
  lemma DecodeOfMakePlatter(op: bv8, a: bv8, b: bv8, c: bv8)
    requires op <= 13 && a <= 7 && b <= 7 && c <= 7
    ensures var p := MakePlatter(op, a, b, c);
      var (ra, rb, rc) := (a as nat, b as nat, c as nat);
      && (op == 0 ==> Decode(p) == ConditionalMove(ra, rb, rc))
      && (op == 1 ==> Decode(p) == ArrayIndex(ra, rb, rc))
      && (op == 2 ==> Decode(p) == ArrayAmendment(ra, rb, rc))
      && (op == 3 ==> Decode(p) == Addition(ra, rb, rc))
      && (op == 4 ==> Decode(p) == Multiplication(ra, rb, rc))
      && (op == 5 ==> Decode(p) == Division(ra, rb, rc))
      && (op == 6 ==> Decode(p) == NotAnd(ra, rb, rc))
      && (op == 7 ==> Decode(p) == Halt)
      && (op == 8 ==> Decode(p) == Allocation(rb, rc))
      && (op == 9 ==> Decode(p) == Abandonment(rc))
      && (op == 10 ==> Decode(p) == Output(rc))
      && (op == 11 ==> Decode(p) == Input(rc))
      && (op == 12 ==> Decode(p) == LoadProgram(rb, rc))
      && (op == 13 ==> Decode(p) == Orthography(0, ((a as Word) << 6) | ((b as Word) << 3) | (c as Word)))
  {
    var p := MakePlatter(op, a, b, c);
    DecodeMakePlatter(op, a, b, c);
    DecodeStandard(p);
    DecodeHalt(p);
    if op == 13 {
      DecodeOrthography(p);
    }
  }

  /** The decoder unit tests of the Rust interpreter, src/main.rs:185-204. */
  lemma DecoderExamples()
    ensures OpCode(MakePlatter(5, 0, 1, 2)) == 5
    ensures RegA(MakePlatter(0, 1, 2, 3)) == 1
    ensures RegB(MakePlatter(0, 1, 2, 3)) == 2
    ensures RegC(MakePlatter(0, 1, 2, 3)) == 3
    ensures RegO(0x0e00_0001) == 7 && OrthoValue(0x0e00_0001) == 1
    ensures Decode(0xde00_0001) == Orthography(7, 1)
  {
  }
}
