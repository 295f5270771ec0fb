/**
 * Whole programs run on the machine: the outcome after a number of spin
 * cycles, computed from the initial state.
 */
module Programs {
  import opened Platter
  import opened Machine
  import MachineProperties
  import opened Interpreter

  /** The cycle from `s` executes `i` when `i` is the decoded platter under the finger. */
  lemma StepExecutes(s: State, i: Instruction)
    requires CanFetch(s) && Decode(Fetch(s)) == i
    ensures Step(s) == Execute(s, i)
  {
  }

  /**
   * Writes "Hi" and halts: two orthographies load 'H' and 'i' into registers
   * 0 and 1, two outputs write them, and operator 7 halts.
   */
  const Hello: seq<Word> := [0xd000_0048, 0xd200_0069, 0xa000_0000, 0xa000_0001, 0x7000_0000]

  /** The states the Hello program passes through: after `k` cycles. */
  function HelloState(k: nat): State
    requires k <= 4
  {
    var regs: Registers := [if k >= 1 then 0x48 else 0, if k >= 2 then 0x69 else 0, 0, 0, 0, 0, 0, 0];
    var out: seq<Word> := if k == 4 then [0x48, 0x69] else if k == 3 then [0x48] else [];
    State(regs, [Hello], k, [], [], out)
  }

  lemma HelloCycle0()
    ensures Step(HelloState(0)) == Running(HelloState(1))
  {
    assert Decode(0xd000_0048) == Orthography(0, 0x48);
    StepExecutes(HelloState(0), Orthography(0, 0x48));
  }

  lemma HelloCycle1()
    ensures Step(HelloState(1)) == Running(HelloState(2))
  {
    assert Decode(0xd200_0069) == Orthography(1, 0x69);
    StepExecutes(HelloState(1), Orthography(1, 0x69));
  }

  lemma HelloCycle2()
    ensures Step(HelloState(2)) == Running(HelloState(3))
  {
    assert Decode(0xa000_0000) == Output(0);
    StepExecutes(HelloState(2), Output(0));
  }

  lemma HelloCycle3()
    ensures Step(HelloState(3)) == Running(HelloState(4))
  {
    assert Decode(0xa000_0001) == Output(1);
    StepExecutes(HelloState(3), Output(1));
  }

  lemma HelloCycle4()
    ensures Step(HelloState(4)) == Halted(HelloState(4))
  {
    assert Decode(0x7000_0000) == Halt;
    StepExecutes(HelloState(4), Halt);
  }

  /** From its initial state the Hello program writes "Hi" and halts at its fifth platter. */
  lemma HelloWritesHi()
    ensures Run(Init(Hello, []), 5) == Halted(HelloState(4))
    ensures HelloState(4).output == [0x48, 0x69] && HelloState(4).finger == 4
  {
    assert Init(Hello, []) == HelloState(0);
    HelloCycle4();
    MachineProperties.RunOnce(HelloState(4), 0);
    HelloCycle3();
    MachineProperties.RunOnce(HelloState(3), 1);
    HelloCycle2();
    MachineProperties.RunOnce(HelloState(2), 2);
    HelloCycle1();
    MachineProperties.RunOnce(HelloState(1), 3);
    HelloCycle0();
    MachineProperties.RunOnce(HelloState(0), 4);
  }

  /** The interpreter object, loaded with the Hello program and spun, halts having written "Hi". */
  method SpinHello() returns (status: Status, output: seq<Word>)
    ensures status == Stop && output == [0x48, 0x69]
  {
    var um := new UM(Hello, []);
    HelloWritesHi();
    status := um.SpinCycle(5);
    output := um.output;
  }
}
