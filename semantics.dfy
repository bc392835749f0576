/** The LS-8 CPU as a pure state machine: a `Machine` value holds what the
    `CPU` object holds, and each instruction is a function from the state before
    to a `Transition` (a status and the state after). These functions are the
    specification the `CPU` class in module Cpu is proved against, and the
    lemmas of module Properties are about them. */
module Semantics {
  import opened PyInt
  import opened Opcodes

  datatype Option<T> = None | Some(value: T)

  /** The compare results, kept by the source in the attributes JEQ, JLT and
      JGT, each 1 or 0. */
  datatype Flags = Flags(jeq: int, jlt: int, jgt: int)

  /** The state of a `CPU` object. `flags` is None until the first CMP creates
      the three attributes; `out` is what PRN has printed so far. */
  datatype Machine = Machine(ram: seq<int>, reg: seq<int>, pc: int, flags: Option<Flags>, out: seq<int>)

  /** The exceptions that end a run: IndexError from a list access,
      ZeroDivisionError from DIV or MOD, the ValueError of a negative shift
      count, and the exception the ALU raises for an operation it has no case for. */
  datatype Fault = IndexError | ZeroDivisionError | NegativeShiftCount | UnsupportedAluOperation

  /** FloatQuotient marks where the model stops following the source: DIV by a
      non-zero register stores a floating-point quotient, or raises
      OverflowError when the quotient lies beyond the float range. */
  datatype Status = Running | Halted | Faulted(fault: Fault) | FloatQuotient

  datatype Transition = Transition(status: Status, next: Machine)

  const RamSize: nat := 256
  const RegCount: nat := 8
  /** Register 7 is the stack pointer. */
  const SP: nat := 7
  const InitialSP: int := 0xF4

  predicate WellFormed(m: Machine) {
    |m.ram| == RamSize && |m.reg| == RegCount
  }

  /** The state a freshly constructed CPU is in. */
  function Initial(): (m: Machine)
    ensures WellFormed(m) && m.pc == 0 && m.flags == None && m.out == []
    ensures forall i :: 0 <= i < RamSize ==> m.ram[i] == 0
    ensures m.reg[SP] == InitialSP && forall i :: 0 <= i < SP ==> m.reg[i] == 0
  {
    Machine(seq(RamSize, _ => 0), seq(SP, _ => 0) + [InitialSP], 0, None, [])
  }

  /** A fresh CPU with a program image placed at address 0, which is what the
      loader leaves behind when it succeeds. */
  function Boot(image: seq<int>): (m: Machine)
    requires |image| <= RamSize
    ensures WellFormed(m) && m.pc == 0 && m.reg == Initial().reg
    ensures m.flags == None && m.out == []
    ensures forall i :: 0 <= i < |image| ==> m.ram[i] == image[i]
    ensures forall i :: |image| <= i < RamSize ==> m.ram[i] == 0
  {
    Initial().(ram := image + seq(RamSize - |image|, _ => 0))
  }

  /** `s[i]` on a Python list: None stands for IndexError. */
  function Read(s: seq<int>, i: int): Option<int> {
    if ValidIndex(i, |s|) then Some(s[At(i, |s|)]) else None
  }

  /** `s[i] = v` on a Python list, for an index that does not raise. */
  function Put(s: seq<int>, i: int, v: int): seq<int>
    requires ValidIndex(i, |s|)
  {
    s[At(i, |s|) := v]
  }

  function Continue(m: Machine): Transition {
    Transition(Running, m)
  }

  function Fail(f: Fault, m: Machine): Transition {
    Transition(Faulted(f), m)
  }

  // ---------------------------------------------------------------------------
  // The ALU

  function Compare(x: int, y: int): Flags {
    Flags(if x == y then 1 else 0, if x < y then 1 else 0, if x > y then 1 else 0)
  }

  /** The value `reg[a] op reg[b]` that an arithmetic or bitwise operation stores. */
  function Arith(op: int, x: int, y: int): int
    requires op in ArithOps
    requires op == MOD ==> y != 0
    requires op == SHL || op == SHR ==> y >= 0
  {
    if op == ADD then x + y
    else if op == SUB then x - y
    else if op == MUL then x * y
    else if op == MOD then FloorMod(x, y)
    else if op == AND then BitAnd(x, y)
    else if op == OR then BitOr(x, y)
    else if op == XOR then BitXor(x, y)
    else if op == SHL then Shl(x, y)
    else Shr(x, y)
  }

  /** `alu(op, reg_a, reg_b)`. INC and DEC change only the method's own copies of
      the operand bytes, so they touch nothing, not even the register file. */
  function AluOp(m: Machine, op: int, a: int, b: int): (t: Transition)
    requires WellFormed(m) && op in AluOps
    ensures WellFormed(t.next)
  {
    if op == INC || op == DEC then Continue(m)
    else if op == NOT then Fail(UnsupportedAluOperation, m)
    else if !ValidIndex(a, RegCount) || !ValidIndex(b, RegCount) then Fail(IndexError, m)
    else
      var x, y := m.reg[At(a, RegCount)], m.reg[At(b, RegCount)];
      if op == CMP then Continue(m.(flags := Some(Compare(x, y))))
      else if op == DIV then (if y == 0 then Fail(ZeroDivisionError, m) else Transition(FloatQuotient, m))
      else if op == MOD && y == 0 then Fail(ZeroDivisionError, m)
      else if (op == SHL || op == SHR) && y < 0 then Fail(NegativeShiftCount, m)
      else Continue(m.(reg := Put(m.reg, a, Arith(op, x, y))))
  }

  // ---------------------------------------------------------------------------
  // The instruction handlers; none of them moves the PC except CALL and RET

  /** `handle_prn(pc)`: print the register named by the byte after the opcode. */
  function Prn(m: Machine, pc: int): (t: Transition)
    requires WellFormed(m)
    ensures WellFormed(t.next)
  {
    match Read(m.ram, pc + 1)
    case None => Fail(IndexError, m)
    case Some(r) =>
      match Read(m.reg, r)
      case None => Fail(IndexError, m)
      case Some(v) => Continue(m.(out := m.out + [v]))
  }

  /** `handle_ldi(pc)`: load the literal byte at pc + 2 into the register named at pc + 1. */
  function Ldi(m: Machine, pc: int): (t: Transition)
    requires WellFormed(m)
    ensures WellFormed(t.next)
  {
    match (Read(m.ram, pc + 1), Read(m.ram, pc + 2))
    case (Some(r), Some(v)) =>
      if ValidIndex(r, RegCount) then Continue(m.(reg := Put(m.reg, r, v))) else Fail(IndexError, m)
    case _ => Fail(IndexError, m)
  }

  /** `handle_push(pc)`: decrement SP first, then store the named register at the
      new SP. The decrement survives a fault in the later steps, and PUSH R7
      stores the decremented SP. */
  function Push(m: Machine, pc: int): (t: Transition)
    requires WellFormed(m)
    ensures WellFormed(t.next)
  {
    var m1 := m.(reg := m.reg[SP := m.reg[SP] - 1]);
    match Read(m1.ram, pc + 1)
    case None => Fail(IndexError, m1)
    case Some(r) =>
      match Read(m1.reg, r)
      case None => Fail(IndexError, m1)
      case Some(v) =>
        var sp := m1.reg[SP];
        if ValidIndex(sp, RamSize) then Continue(m1.(ram := Put(m1.ram, sp, v))) else Fail(IndexError, m1)
  }

  /** `handle_pop(pc)`: load the cell at SP into the named register, then
      increment register 7, so POP R7 leaves SP at the popped value plus one. */
  function Pop(m: Machine, pc: int): (t: Transition)
    requires WellFormed(m)
    ensures WellFormed(t.next)
  {
    var sp := m.reg[SP];
    match (Read(m.ram, pc + 1), Read(m.ram, sp))
    case (Some(r), Some(v)) =>
      if ValidIndex(r, RegCount) then
        var reg1 := Put(m.reg, r, v);
        Continue(m.(reg := reg1[SP := reg1[SP] + 1]))
      else Fail(IndexError, m)
    case _ => Fail(IndexError, m)
  }

  /** `handle_call(pc)`: read the target from the named register, decrement SP,
      store the return address pc + 2 at the new SP and jump. */
  function Call(m: Machine, pc: int): (t: Transition)
    requires WellFormed(m)
    ensures WellFormed(t.next)
  {
    match Read(m.ram, pc + 1)
    case None => Fail(IndexError, m)
    case Some(r) =>
      match Read(m.reg, r)
      case None => Fail(IndexError, m)
      case Some(address) =>
        var m1 := m.(reg := m.reg[SP := m.reg[SP] - 1]);
        var sp := m1.reg[SP];
        if ValidIndex(sp, RamSize) then Continue(m1.(ram := Put(m1.ram, sp, pc + 2), pc := address))
        else Fail(IndexError, m1)
  }

  /** `handle_ret()`: jump to the address at SP and increment SP. */
  function Ret(m: Machine): (t: Transition)
    requires WellFormed(m)
    ensures WellFormed(t.next)
  {
    var sp := m.reg[SP];
    match Read(m.ram, sp)
    case None => Fail(IndexError, m)
    case Some(ret) => Continue(m.(reg := m.reg[SP := sp + 1], pc := ret))
  }

  /** The branch for an opcode the loop does not dispatch: `trace()` reads the
      bytes at pc + 1 and pc + 2 and prints; the PC does not move. */
  function Trace(m: Machine): (t: Transition)
    requires WellFormed(m)
    ensures WellFormed(t.next)
  {
    if ValidIndex(m.pc + 1, RamSize) && ValidIndex(m.pc + 2, RamSize) then Continue(m)
    else Fail(IndexError, m)
  }

  // ---------------------------------------------------------------------------
  // The run loop

  /** The generic PC advance that follows a handler that did not fault. */
  function Advance(t: Transition, width: int): Transition {
    if t.status == Running then t.(next := t.next.(pc := t.next.pc + width)) else t
  }

  /** One iteration of the `while True` loop in `run`. */
  function Step(m: Machine): (t: Transition)
    requires WellFormed(m)
    ensures WellFormed(t.next)
  {
    var pc := m.pc;
    match Read(m.ram, pc)
    case None => Fail(IndexError, m)
    case Some(inst) =>
      if inst in AluOps then
        match (Read(m.ram, pc + 1), Read(m.ram, pc + 2))
        case (Some(a), Some(b)) => Advance(AluOp(m, inst, a, b), 3)
        case _ => Fail(IndexError, m)
      else if inst == HLT then Transition(Halted, m)
      else if inst == PRN then Advance(Prn(m, pc), 2)
      else if inst == LDI then Advance(Ldi(m, pc), 3)
      else if inst == PUSH then Advance(Push(m, pc), 2)
      else if inst == POP then Advance(Pop(m, pc), 2)
      else if inst == CALL then Call(m, pc)
      else if inst == RET then Ret(m)
      else if inst == NOP then Continue(m.(pc := pc + 1))
      else Trace(m)
  }

  /** At most `fuel` iterations of the loop, stopping early at the first
      status other than Running. */
  function Run(m: Machine, fuel: nat): (t: Transition)
    requires WellFormed(m)
    ensures WellFormed(t.next)
    decreases fuel
  {
    if fuel == 0 then Continue(m)
    else
      var t := Step(m);
      if t.status == Running then Run(t.next, fuel - 1) else t
  }
}
