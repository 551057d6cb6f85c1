/** One turn of the CPU's fetch/execute/interrupt loop (cpu/src/handle_connection.c:74-128,
    cpu/src/instruction_execution.c). The interrupt flag is tested and cleared in one piece: as
    written, the rejected branch (lines 105-111) leaves the loop holding mutex_interrupt. */
module Cpu {
  import opened Collections
  import opened Process
  import opened KernelSpec

  /** A register operand, AX to DX. */
  type Reg = r: nat | r < 4

  datatype Instr =
    | Set(reg: Reg, value: Word)
    | Sum(destiny: Reg, origin: Reg)
    | Sub(destiny: Reg, origin: Reg)
    | Jnz(reg: Reg, value: Word)
    | NoEffect
    | Wait(r: Name)
    | Signal(r: Name)
    | Sleep(time: int)
    | Exit

  /** The instruction files: what a program holds at a program counter. */
  type Code = (Name, int) -> Instr

  predicate IsLocal(i: Instr) { !i.Wait? && !i.Signal? && !i.Sleep? && !i.Exit? }

  // ---------- parse_register_param ----------

  const AX: Name := [65, 88]
  const BX: Name := [66, 88]
  const CX: Name := [67, 88]
  const DX: Name := [68, 88]

  datatype Operand = Register(index: Reg) | Text(identifier: Name)

  function OperandOf(identifier: Name): Operand {
    if identifier == AX then Register(0)
    else if identifier == BX then Register(1)
    else if identifier == CX then Register(2)
    else if identifier == DX then Register(3)
    else Text(identifier)
  }

  method ParseRegisterParam(params: seq<Name>, quantity: nat) returns (list: seq<Operand>)
    requires quantity < |params|
    ensures |list| == quantity
    ensures forall i :: 0 <= i < quantity ==> list[i] == OperandOf(params[i + 1])
  {
    list := [];
    for i := 0 to quantity
      invariant |list| == i
      invariant forall j :: 0 <= j < i ==> list[j] == OperandOf(params[j + 1])
    {
      var identifier := params[i + 1];
      if identifier == AX { list := list + [Register(0)]; }
      else if identifier == BX { list := list + [Register(1)]; }
      else if identifier == CX { list := list + [Register(2)]; }
      else if identifier == DX { list := list + [Register(3)]; }
      else { list := list + [Text(identifier)]; }
    }
  }

  // ---------- Registers ----------

  /** What a local instruction does to the register list. JNZ is as the source has it: it inserts. */
  function Effect(i: Instr, regs: seq<Word>): (r: seq<Word>)
    requires |regs| >= 4
    ensures |r| >= 4
  {
    match i
    case Set(d, v) => regs[d := v]
    case Sum(d, o) => regs[d := (regs[d] + regs[o]) % WORD_LIMIT]
    case Sub(d, o) => regs[d := (regs[d] - regs[o]) % WORD_LIMIT]
    case Jnz(d, v) => if regs[d] != 0 then regs[..d] + [v] + regs[d..] else regs
    case _ => regs
  }

  /** The 32-bit sum of two register values. */
  predicate WordSum(sum: int, a: int, b: int) { sum == a + b || sum + 0x1_0000_0000 == a + b }

  /** SUM adds, modulo the width of a register, and leaves the other registers alone. */
  lemma SumAdds(d: Reg, o: Reg, regs: seq<Word>)
    requires |regs| >= 4
    ensures var r := Effect(Sum(d, o), regs);
      && |r| == |regs| && (forall k :: 0 <= k < |regs| && k != d ==> r[k] == regs[k])
      && WordSum(r[d], regs[d], regs[o])
  {
    var x, y: int := regs[d], regs[o];
    assert x + y < 0x2_0000_0000;
  }

  /** SUB subtracts, modulo the width of a register, and leaves the other registers alone. */
  lemma SubSubtracts(d: Reg, o: Reg, regs: seq<Word>)
    requires |regs| >= 4
    ensures var r := Effect(Sub(d, o), regs);
      && |r| == |regs| && (forall k :: 0 <= k < |regs| && k != d ==> r[k] == regs[k])
      && WordSum(regs[d], r[d], regs[o])
  {
    var x, y: int := regs[d], regs[o];
    assert -0x1_0000_0000 < x - y < 0x1_0000_0000;
  }

  /** SUB takes back what SUM added. */
  lemma SubUndoesSum(d: Reg, o: Reg, regs: seq<Word>)
    requires |regs| >= 4 && d != o
    ensures Effect(Sub(d, o), Effect(Sum(d, o), regs)) == regs
  {
    SumAdds(d, o, regs);
    SubSubtracts(d, o, Effect(Sum(d, o), regs));
  }

  /** SET stores the value and leaves the other registers alone. */
  lemma SetStores(d: Reg, v: Word, regs: seq<Word>)
    requires |regs| >= 4
    ensures var r := Effect(Set(d, v), regs);
      |r| == |regs| && r[d] == v && forall k :: 0 <= k < |regs| && k != d ==> r[k] == regs[k]
  {}

  /** JNZ, as the source has it, does nothing at zero, and else pushes its register and those behind it one further. */
  lemma JnzInserts(d: Reg, v: Word, regs: seq<Word>)
    requires |regs| >= 4
    ensures var r := Effect(Jnz(d, v), regs);
      && (regs[d] == 0 ==> r == regs)
      && (regs[d] != 0 ==> |r| == |regs| + 1 && r[d] == v && r[..d] == regs[..d] && r[d + 1..] == regs[d..])
  {}

  /** Nothing else touches a register. */
  lemma OthersKeepRegisters(i: Instr, regs: seq<Word>)
    requires |regs| >= 4 && !i.Set? && !i.Sum? && !i.Sub? && !i.Jnz?
    ensures Effect(i, regs) == regs
  {}

  /** The registers are named AX to DX in the order of the list, and no other text names one. */
  lemma RegisterNames(identifier: Name)
    ensures OperandOf(identifier).Register? <==> |identifier| == 2 && 65 <= identifier[0] <= 68 && identifier[1] == 88
    ensures match OperandOf(identifier)
            case Register(index) => index + 65 == identifier[0] as int
            case Text(text) => text == identifier
  {
    if |identifier| == 2 { assert identifier == [identifier[0], identifier[1]]; }
  }

  // ---------- The loop body ----------

  datatype Unit = Idle | Busy(p: Pcb)

  /** What one turn leaves behind: a message to the kernel, the process it still runs, and the flag. */
  datatype Outcome = Outcome(message: Option<Event>, unit: Unit, flag: bool)

  function Advance(p: Pcb, i: Instr): Pcb
    requires |p.registers| >= 4
  {
    p.(programCounter := p.programCounter + 1, registers := Effect(i, p.registers))
  }

  function TurnOf(p: Pcb, i: Instr, flag: bool): Outcome
    requires |p.registers| >= 4
  {
    match i
    case Wait(r) => Outcome(Some(CpuWait(p, r)), Idle, false)
    case Signal(r) => Outcome(Some(CpuSignal(p, r)), Idle, false)
    case Sleep(_) => Outcome(Some(CpuSleep(p)), Idle, false)
    case Exit => Outcome(Some(CpuFinish(p)), Idle, false)
    case _ =>
      if flag then Outcome(Some(CpuInterrupt(Advance(p, i))), Idle, false)
      else Outcome(None, Busy(Advance(p, i)), false)
  }

  class Cpu {
    var process: Pcb
    var endOfExecution: bool
    var hasInterrupt: bool

    constructor (p: Pcb)
      ensures process == p && !endOfExecution && !hasInterrupt
    {
      process, endOfExecution, hasInterrupt := p, false, false;
    }

    /** list_remove then list_add_in_index. */
    method ReplaceRegister(index: nat, value: Word)
      requires index < |process.registers|
      modifies this`process
      ensures process == old(process).(registers := old(process.registers)[index := value])
    {
      var removed := Remove(process.registers, index);
      process := process.(registers := removed[..index] + [value] + removed[index..]);
    }

    /** execute_instruction_cycle; the result is whether the turn may go on, with the message sent if not. */
    method ExecuteInstructionCycle(i: Instr) returns (success: bool, message: Option<Event>)
      requires |process.registers| >= 4
      modifies this`process
      ensures success <==> IsLocal(i)
      ensures process == old(process).(registers := Effect(i, old(process.registers)))
      ensures message == TurnOf(old(process), i, false).message
    {
      success, message := true, None;
      match i {
        case Set(d, v) => ReplaceRegister(d, v);
        case Sum(d, o) =>
          var sum := (process.registers[d] + process.registers[o]) % WORD_LIMIT;
          ReplaceRegister(d, sum);
        case Sub(d, o) =>
          var difference := (process.registers[d] - process.registers[o]) % WORD_LIMIT;
          ReplaceRegister(d, difference);
        case Jnz(d, v) =>
          if process.registers[d] != 0 {
            process := process.(registers := process.registers[..d] + [v] + process.registers[d..]);
          }
        case NoEffect =>
        case Wait(r) => success, message := false, Some(CpuWait(process, r));
        case Signal(r) => success, message := false, Some(CpuSignal(process, r));
        case Sleep(_) => success, message := false, Some(CpuSleep(process));
        case Exit => success, message := false, Some(CpuFinish(process));
      }
    }

    /** The body of the do-while in execute_process. The counter is bumped after a request too, but the
        request already carries the PCB as it was, and the bumped copy dies with the loop. */
    method ExecuteTurn(i: Instr) returns (message: Option<Event>)
      requires |process.registers| >= 4
      modifies this
      ensures Outcome(message, if endOfExecution then Idle else Busy(process), hasInterrupt)
           == TurnOf(old(process), i, old(hasInterrupt))
    {
      endOfExecution := false;
      var success;
      success, message := ExecuteInstructionCycle(i);
      endOfExecution := !success;
      process := process.(programCounter := process.programCounter + 1);
      if hasInterrupt {
        hasInterrupt := false;
        if !endOfExecution {
          message := Some(CpuInterrupt(process));
          endOfExecution := true;
        }
      }
    }
  }
}
