# Universal Machine interpreter, modelled in Dafny

This project models the interpreter for the ICFP 2006 "Universal Machine" (UM) in
`src/main.rs`. The UM is a register machine with:

- eight 32-bit registers;
- a growable table of word segments ("programs"); segment 0 is the program being run;
- a finger, which is the index of the next platter in segment 0;
- a last-in-first-out free list of abandoned segment ids, reused by allocation.

Each 32-bit instruction word (a "platter") has an operator number in its top four
bits. Operators 0 to 12 read three 3-bit register selectors A, B and C. Operator 13
(orthography) reads a destination selector and a 25-bit immediate value.

The model has five modules:

- `Platter` (`platter.dfy`) holds the decoder and the encoder used by the interpreter's
  unit tests. `Decode` turns a platter into an `Instruction`. Lemmas state the round
  trip between the decoder and the encoder, and which bits each field depends on.
- `Machine` (`machine.dfy`) holds the machine as a value.
  - A `State` holds the registers, the segment table, the finger, the free list,
    the input not yet read, and the output written so far.
  - `Execute` gives the effect of one decoded instruction. `Step` is one spin
    cycle: fetch, decode, execute. `Run` is at most `fuel` cycles of the fetch
    loop (`Iterate`).
  - Where the interpreter panics, a cycle gives `Panicked(fault)` instead of a
    next state.
  - `WellFormed` is the arena invariant: segment 0 exists and every free-list id
    names a slot of the table. Every cycle preserves it.
- `MachineProperties` (`properties.dfy`) states, for each operator, the whole next
  state. It also proves that runs compose and that halting and panicking are final.
- `Interpreter` (`um.dfy`) holds the interpreter object: class `UM` with a
  register array and fields that its methods update in place.
  - `Cycle` and its per-operator methods are proved to change `Model()` exactly
    as `Step` says.
  - `SpinCycle` is the interpreter's loop, bounded by fuel. It is proved to end
    as `Run` says.
- `Programs` (`programs.dfy`) proves that a whole program writes "Hi" and halts,
  both on the value model and on the interpreter object.

The source code differs from the published UM specification in four places.
The model follows the code:

- Operators 14 and 15 are reported and skipped: the finger moves on and nothing
  else changes. They are not a machine failure.
- Abandonment checks only that the id indexes the table. Abandoning segment 0, or
  an id that is already on the free list, is accepted. The lemmas
  `AbandonProgramThenFetchFails` and `DoubleAbandonAliases` state the consequences.
- Reading past the end of input is a panic. No all-ones word is delivered.
- Output accepts any Unicode scalar value, not only 0 to 255: src/main.rs:138
  converts the register with `char::from_u32`. The model appends the register's
  whole word to the output.

## Model

| member | source | states |
|---|---|---|
| Platter.OpCode | src/main.rs:35-38 | the operator number is below 16, and it and the low 28 bits together rebuild the platter |
| Platter.RegA | src/main.rs:40-43 | selector A (bits 8..6) names one of the eight registers |
| Platter.RegB | src/main.rs:45-48 | selector B (bits 5..3) names one of the eight registers |
| Platter.RegC | src/main.rs:50-53 | selector C (bits 2..0) names one of the eight registers |
| Platter.RegO | src/main.rs:55-58 | the orthography destination (bits 27..25) names one of the eight registers |
| Platter.OrthoValue | src/main.rs:60-62 | the immediate is below 2^25, and with the top seven bits it rebuilds the platter |
| Platter.MakePlatter | src/main.rs:171-183 | the encoder accepts operators up to 13 and selectors up to 7 only, and sets no bit outside the operator and the three selectors |
| Platter.DecodeMakePlatter | src/main.rs:35-53 | decoding an encoded platter gives back its operator and all three selectors |
| Platter.MakePlatterOfDecode | src/main.rs:171-183 | a platter with operator at most 13 and bits 27..9 clear is the encoding of its own decoded fields |
| Platter.StandardFieldsIgnoreUnusedBits | src/main.rs:35-53 | the operator and the three selectors depend on bits 31..28 and 8..0 only |
| Platter.OrthoDecomposition | src/main.rs:35-62 | a platter is exactly its operator, its orthography destination and its immediate, with no bit left over |
| Platter.OrthoFieldsIgnoreOperator | src/main.rs:55-62 | the orthography destination and immediate do not depend on the operator bits |
| Platter.DecodeOrthography | src/main.rs:157 | operator 13 decodes to a load of the immediate (below 2^25) into the destination register |
| Platter.DecodeUnknown | src/main.rs:158-160 | exactly the operators 14 and 15 decode to an unknown instruction, keeping their number |
| Platter.DecodeHalt | src/main.rs:114-118 | exactly operator 7 decodes to Halt |
| Platter.DecodeStandard | src/main.rs:94-155 | each operator 0 to 12 decodes to its own operation, with the selectors that operation reads taken from fields A, B and C |
| Platter.DecodeOfMakePlatter | src/main.rs:94-183 | for every operator 0 to 13, an encoded platter decodes to that operator's instruction with the selectors it was given; operator 13 loads the selectors, read as an immediate, into register 0 |
| Platter.DecoderExamples | src/main.rs:185-204 | the test cases: operator 5 from `make_platter(5,0,1,2)`, selectors 1, 2, 3 from `make_platter(0,1,2,3)`, destination 7 and value 1 from 0x0e000001 |
| Machine.Init | src/main.rs:8-13 | a fresh machine: well formed, the program as its only segment, all registers zero |
| Machine.Zeros | src/main.rs:121 | a new segment of `n` words, all zero |
| Machine.Amend | src/main.rs:102 | exactly one word of one segment changes, and no segment changes length |
| Machine.ReadCell | src/main.rs:99 | Array Index never halts, keeps the table size, and keeps the arena invariant |
| Machine.WriteCell | src/main.rs:102 | Array Amendment never halts, keeps the table size, and keeps the arena invariant |
| Machine.Allocate | src/main.rs:120-129 | Allocation grows the table by at most one segment and keeps the arena invariant |
| Machine.Abandon | src/main.rs:131-135 | Abandonment keeps the table size and keeps the arena invariant, even though it pushes an id on the free list |
| Machine.WriteChar | src/main.rs:137-140 | Output never panics in the model and touches neither the segments nor the free list |
| Machine.ReadByte | src/main.rs:142-146 | Input touches no segment and keeps the arena invariant |
| Machine.Jump | src/main.rs:148-155 | Load Program keeps the table size and keeps the arena invariant |
| Machine.Execute | src/main.rs:94-162 | a decoded instruction halts exactly when it is Halt, and a halt changes nothing; the table grows by at most one segment and never shrinks; the arena invariant is kept |
| Machine.Step | src/main.rs:85-162 | one spin cycle: a halt leaves the state as it was, the table grows by at most one segment, and the arena invariant is kept |
| Machine.RunKeepsWellFormed | src/main.rs:73-165 | every state a run reaches satisfies the arena invariant, and the table never shrinks along a run |
| MachineProperties.RegisterArithmetic | src/main.rs:105-112 | addition, multiplication and not-and never panic and change only register A, to the wrapped sum, the wrapped product or the not-and of B and C; the finger moves on |
| MachineProperties.DivisionByRegister | src/main.rs:110 | division panics exactly when register C is zero; otherwise it changes only register A, to the unsigned quotient |
| MachineProperties.AdditionWraps | src/main.rs:105 | addition is modulo 2^32: adding the two's complement of y, built with the machine's not-and and addition, undoes adding y, and 0xffffffff + 1 is 0 |
| MachineProperties.NotAndBuildsAnd | src/main.rs:112 | a not-and of a register with itself puts its complement in A; two not-and instructions in a row leave the bitwise and of B and C in A, changing only A and moving the finger by two |
| MachineProperties.ConditionalMoveCopies | src/main.rs:96 | register A becomes B exactly when C is non-zero; the registers are unchanged exactly when C is zero or A already equals B; nothing else changes |
| MachineProperties.OrthographyLoads | src/main.rs:157 | operator 13 writes the immediate (below 2^25) into register bits 27..25, and changes nothing else |
| MachineProperties.OrthographyExample | src/main.rs:199-204 | operator 13 with destination 7 and value 1 sets register 7 to 1 |
| MachineProperties.ArrayIndexReads | src/main.rs:99 | Array Index panics exactly when the segment or the offset is out of range; otherwise only register A changes, to that word |
| MachineProperties.ArrayAmendmentWrites | src/main.rs:102 | Array Amendment panics exactly when the cell is out of range; otherwise exactly that word changes, to register C |
| MachineProperties.AmendThenIndex | src/main.rs:99-102 | a word written by Array Amendment is read back by Array Index through the same registers |
| MachineProperties.AllocateAppends | src/main.rs:125-128 | with an empty free list, B receives the table length (as u32) and a zeroed segment of r[C] words is appended |
| MachineProperties.AllocateReuses | src/main.rs:122-124 | with a non-empty free list, its last id is popped into B, that segment becomes r[C] zeros, and the other segments stay |
| MachineProperties.AllocateSucceeds | src/main.rs:120-129 | on a well-formed machine allocation never panics |
| MachineProperties.AbandonEmpties | src/main.rs:131-135 | Abandonment panics exactly when C names no segment; otherwise the id is pushed, its segment emptied, and nothing else changes |
| MachineProperties.AbandonThenAllocate | src/main.rs:120-135 | free slots are reused last in, first out: allocating right after abandoning returns the same id and restores the free list |
| MachineProperties.DoubleAbandonAliases | src/main.rs:120-135 | an id abandoned twice is handed out by the next two allocations |
| MachineProperties.AbandonProgramThenFetchFails | src/main.rs:131-135 | abandoning segment 0 is accepted, and the next fetch then panics |
| MachineProperties.OutputWrites | src/main.rs:137-140 | Output appends register C to the output and changes nothing else |
| MachineProperties.InputReads | src/main.rs:142-146 | Input panics exactly at end of input; otherwise register C receives the next byte (below 256) and that byte is consumed |
| MachineProperties.LoadProgramJumps | src/main.rs:148-155 | Load Program panics exactly when B is neither 0 nor a segment; otherwise the finger becomes C, with no increment, and segment 0 is replaced by segment B unless B is 0 |
| MachineProperties.LoadedProgramIsIndependent | src/main.rs:150-151 | the loaded program is a copy: amending the source segment afterwards leaves segment 0 unchanged |
| MachineProperties.UnknownIsSkipped | src/main.rs:158-162 | operators 14 and 15 only move the finger on |
| MachineProperties.FingerAdvances | src/main.rs:114-162 | every completed operation except Load Program moves the finger to the next platter, and Halt leaves the state as it was |
| MachineProperties.StepFetchFault | src/main.rs:86 | a cycle reports a fetch fault exactly when the finger is outside segment 0 |
| MachineProperties.StepHaltsOnOperatorSeven | src/main.rs:85-118 | a cycle halts exactly when the platter under the finger is operator 7, and halting keeps the state |
| MachineProperties.IterateAdditive | src/main.rs:85-165 | the fetch loop composes: m + n turns are m turns followed by n more |
| MachineProperties.IterateStopsForGood | src/main.rs:85-165 | once the loop has halted or panicked, more fuel changes nothing |
| MachineProperties.IterateHaltsInPlace | src/main.rs:114-118 | a loop that halts ends in a state whose own cycle is that halt |
| MachineProperties.RunAdditive | src/main.rs:85-165 | machine runs compose |
| MachineProperties.RunStopsForGood | src/main.rs:85-165 | a halted or panicked machine stays so |
| MachineProperties.RunHaltsAtHalt | src/main.rs:114-118 | a run that halts stops where the platter under the finger is operator 7 |
| Interpreter.UM.constructor | src/main.rs:8-13 | the new interpreter holds the initial machine |
| Interpreter.UM.Cycle | src/main.rs:85-162 | one in-place spin cycle changes the object as Step says; a panicking cycle changes nothing |
| Interpreter.UM.Perform | src/main.rs:94-162 | the in-place dispatch on the decoded instruction does what Execute says |
| Interpreter.UM.PerformRegisterOp | src/main.rs:96-157 | conditional move, arithmetic, not-and and orthography, in place, as Execute says |
| Interpreter.UM.WriteRegister | src/main.rs:105-162 | a register write followed by the finger increment |
| Interpreter.UM.PerformIndex | src/main.rs:99 | Array Index in place, as ReadCell says |
| Interpreter.UM.PerformAmendment | src/main.rs:102 | Array Amendment in place, as WriteCell says |
| Interpreter.UM.PerformAllocation | src/main.rs:120-129 | Allocation in place, as Allocate says |
| Interpreter.UM.PerformAbandonment | src/main.rs:131-135 | Abandonment in place, as Abandon says |
| Interpreter.UM.PerformOutput | src/main.rs:137-140 | Output in place, as WriteChar says |
| Interpreter.UM.PerformInput | src/main.rs:142-146 | Input in place, as ReadByte says |
| Interpreter.UM.PerformLoad | src/main.rs:148-155 | Load Program in place, as Jump says |
| Interpreter.UM.SpinCycle | src/main.rs:73-165 | the interpreter's loop, run for at most `fuel` cycles, ends with the status and state that Run gives |
| Programs.HelloWritesHi | src/main.rs:137-157 | a five-platter program of orthographies, outputs and a halt writes "Hi" and halts at its fifth platter |
| Programs.SpinHello | src/main.rs:8-15 | the interpreter object, loaded with that program and spun, halts having written "Hi" |

## Left out

- `main` and `read_file_to_vec` (src/main.rs:7-32) are not modelled: argument handling, file reading and the big-endian word decoding. `Init` takes segment 0 as a sequence of words.
- Output is an in-memory sequence of the words written. The character conversion and its panic on a word that is not a Unicode scalar value are left out. The console write and flush are left out too.
- Input is an in-memory sequence of bytes. Reading from standard input is left out; only its panic at end of input is kept.
- Halt's two lines of printing and the message for operators 14 and 15 are console effects and are left out.
- `shrink_to_fit` only changes capacity. An abandoned segment is modelled by its resulting length, zero.
- Run: the interpreter's loop need not terminate, so `Run` and `SpinCycle` take a fuel bound. A run still going when the fuel is spent ends `Running`/`Proceed`.
- Interpreter.UM.Cycle: a panic aborts the process, so the model leaves the object unchanged on a panicking cycle. Abandonment pushes onto the free list before its index panics; the model checks the index first, which differs only in a state nobody can observe.
- MachineProperties.DivisionByRegister: states the quotient as the unsigned 32-bit division of registers B and C. A lemma relating it to integer division is left out, because bit-vector division is beyond the solver's budget.
- MachineProperties.RegisterArithmetic: states the sum and product as 32-bit (modulo 2^32) operations. It does not restate them as integer arithmetic modulo 2^32, for the same reason.
- Allocation's fresh id is the table length cast to 32 bits. That cast wraps only past 2^32 segments, which no real machine reaches; the model writes the truncation out but proves nothing about tables that large.
