/** What the LS-8 CPU guarantees, stated about the transition functions of
    module Semantics (which the `CPU` class is proved to implement). The
    lemmas take an instruction at a non-negative PC with operands in range;
    Semantics itself also covers negative (wrapping) and out-of-range indices. */
module Properties {
  import opened PyInt
  import opened Opcodes
  import opened Semantics

  /** The instruction at the PC has opcode `op` and its `width` bytes lie in RAM. */
  predicate Fetches(m: Machine, op: int, width: nat) {
    WellFormed(m) && 0 <= m.pc < RamSize && m.pc + width <= RamSize && m.ram[m.pc] == op
  }

  /** Operand byte `k` (1 or 2) of the current instruction names a register 0..7. */
  predicate RegOperand(m: Machine, k: nat) {
    WellFormed(m) && 0 <= m.pc && m.pc + k < RamSize && 0 <= m.ram[m.pc + k] < RegCount
  }

  // ---------------------------------------------------------------------------
  // The ALU

  /** ADD, SUB, MUL, MOD, AND, OR, XOR, SHL and SHR store `reg[a] op reg[b]` in
      `reg[a]`, leave every other register, RAM, the flags and the output alone,
      and move the PC past the three-byte instruction. */
  lemma ArithmeticStep(m: Machine, op: int)
    requires op in ArithOps && Fetches(m, op, 3) && RegOperand(m, 1) && RegOperand(m, 2)
    requires op == MOD ==> m.reg[m.ram[m.pc + 2]] != 0
    requires op == SHL || op == SHR ==> m.reg[m.ram[m.pc + 2]] >= 0
    ensures var a, b := m.ram[m.pc + 1], m.ram[m.pc + 2];
            var x, y, t := m.reg[a], m.reg[b], Step(m);
            var v := t.next.reg[a];
            && t.status == Running
            && t.next == m.(reg := m.reg[a := v], pc := m.pc + 3)
            && (op == ADD ==> v == x + y)
            && (op == SUB ==> v == x - y)
            && (op == MUL ==> v == x * y)
            && (op == MOD ==> v == FloorMod(x, y))
            && (op == AND ==> forall i: nat :: Bit(v, i) == (Bit(x, i) && Bit(y, i)))
            && (op == OR ==> forall i: nat :: Bit(v, i) == (Bit(x, i) || Bit(y, i)))
            && (op == XOR ==> forall i: nat :: Bit(v, i) == (Bit(x, i) != Bit(y, i)))
            && (op == SHL ==> v == x * Pow2(y))
            && (op == SHR ==> Shl(v, y) <= x < Shl(v + 1, y))
  {
    var a, b := m.ram[m.pc + 1], m.ram[m.pc + 2];
    var x, y := m.reg[a], m.reg[b];
    var v := Arith(op, x, y);
    assert Step(m) == Continue(m.(reg := m.reg[a := v], pc := m.pc + 3));
    if op == AND {
      forall i: nat ensures Bit(v, i) == (Bit(x, i) && Bit(y, i)) { AndBits(x, y, i); }
    } else if op == OR {
      forall i: nat ensures Bit(v, i) == (Bit(x, i) || Bit(y, i)) { OrBits(x, y, i); }
    } else if op == XOR {
      forall i: nat ensures Bit(v, i) == (Bit(x, i) != Bit(y, i)) { XorBits(x, y, i); }
    } else if op == SHR {
      ShrBrackets(x, y);
    }
  }

  /** `x >> n` is the floor of x / 2^n: the unique v with v * 2^n <= x < (v + 1) * 2^n. */
  lemma ShrBrackets(x: int, n: nat)
    ensures Shl(Shr(x, n), n) <= x < Shl(Shr(x, n) + 1, n)
  {
    var p, v := Pow2(n), Shr(x, n);
    assert x == p * v + x % p;
    assert (v + 1) * p == v * p + p;
  }

  /** CMP changes no register and no RAM, and sets exactly one of JEQ, JLT and
      JGT to 1 and the other two to 0, by how `reg[a]` compares with `reg[b]`. */
  lemma CompareStep(m: Machine)
    requires Fetches(m, CMP, 3) && RegOperand(m, 1) && RegOperand(m, 2)
    ensures var x, y, t := m.reg[m.ram[m.pc + 1]], m.reg[m.ram[m.pc + 2]], Step(m);
            && t.status == Running
            && t.next.reg == m.reg && t.next.ram == m.ram && t.next.out == m.out
            && t.next.pc == m.pc + 3
            && t.next.flags.Some?
            && var f := t.next.flags.value;
            && f.jeq in {0, 1} && f.jlt in {0, 1} && f.jgt in {0, 1}
            && f.jeq + f.jlt + f.jgt == 1
            && (f.jeq == 1 <==> x == y)
            && (f.jlt == 1 <==> x < y)
            && (f.jgt == 1 <==> x > y)
  {
  }

  /** INC and DEC only change the ALU's own copies of the operand bytes: no
      register, no RAM, no flag changes, the operand bytes are never used as
      register indices, and the PC still advances by 3. */
  lemma IncDecStep(m: Machine, op: int)
    requires op == INC || op == DEC
    requires Fetches(m, op, 3)
    ensures Step(m) == Transition(Running, m.(pc := m.pc + 3))
  {
  }

  /** NOT is in the ALU set but the ALU has no case for it: it raises
      "Unsupported ALU operation" whatever its operands, and nothing changes. */
  lemma NotIsUnsupported(m: Machine)
    requires Fetches(m, NOT, 3)
    ensures Step(m) == Transition(Faulted(UnsupportedAluOperation), m)
  {
  }

  /** DIV and MOD by a register holding 0 raise ZeroDivisionError before
      anything changes. */
  lemma ZeroDivisor(m: Machine, op: int)
    requires op == DIV || op == MOD
    requires Fetches(m, op, 3) && RegOperand(m, 1) && RegOperand(m, 2)
    requires m.reg[m.ram[m.pc + 2]] == 0
    ensures Step(m) == Transition(Faulted(ZeroDivisionError), m)
  {
  }

  /** DIV by a non-zero register is where the model stops: the source stores a
      floating-point quotient, or raises OverflowError when the quotient lies
      beyond the float range. */
  lemma DivideLeavesIntegers(m: Machine)
    requires Fetches(m, DIV, 3) && RegOperand(m, 1) && RegOperand(m, 2)
    requires m.reg[m.ram[m.pc + 2]] != 0
    ensures Step(m) == Transition(FloatQuotient, m)
  {
  }

  /** SHL and SHR by a negative register raise ValueError before anything changes. */
  lemma NegativeShift(m: Machine, op: int)
    requires op == SHL || op == SHR
    requires Fetches(m, op, 3) && RegOperand(m, 1) && RegOperand(m, 2)
    requires m.reg[m.ram[m.pc + 2]] < 0
    ensures Step(m) == Transition(Faulted(NegativeShiftCount), m)
  {
  }

  // ---------------------------------------------------------------------------
  // LDI, PRN, NOP, HLT and the opcodes the loop does not dispatch

  /** LDI r, v sets register r to the literal v and advances the PC by 3. */
  lemma LoadImmediateStep(m: Machine)
    requires Fetches(m, LDI, 3) && RegOperand(m, 1)
    ensures Step(m) == Transition(Running, m.(reg := m.reg[m.ram[m.pc + 1] := m.ram[m.pc + 2]], pc := m.pc + 3))
  {
  }

  /** PRN r appends register r to the output, changes nothing else and advances the PC by 2. */
  lemma PrintStep(m: Machine)
    requires Fetches(m, PRN, 2) && RegOperand(m, 1)
    ensures Step(m) == Transition(Running, m.(out := m.out + [m.reg[m.ram[m.pc + 1]]], pc := m.pc + 2))
  {
  }

  /** `LDI r, v` followed by `PRN r` prints v. */
  lemma {:induction false} LoadThenPrint(m: Machine)
    requires Fetches(m, LDI, 5) && RegOperand(m, 1)
    requires m.ram[m.pc + 3] == PRN && m.ram[m.pc + 4] == m.ram[m.pc + 1]
    ensures var t := Run(m, 2);
            t.status == Running && t.next.out == m.out + [m.ram[m.pc + 2]] && t.next.pc == m.pc + 5
  {
    LoadImmediateStep(m);
    var m1 := Step(m).next;
    PrintStep(m1);
    assert Run(m, 2) == Run(m1, 1);
  }

  lemma NopStep(m: Machine)
    requires Fetches(m, NOP, 1)
    ensures Step(m) == Transition(Running, m.(pc := m.pc + 1))
  {
  }

  /** HLT stops the machine where it is; Halted is final. */
  lemma HaltStep(m: Machine, fuel: nat)
    requires Fetches(m, HLT, 1)
    ensures Step(m) == Transition(Halted, m)
    ensures fuel > 0 ==> Run(m, fuel) == Transition(Halted, m)
  {
  }

  /** An opcode without a case in the loop (the jumps, LD, ST, PRA, INT, IRET or
      any unassigned byte) changes nothing, not even the PC. */
  lemma UnknownOpcodeStalls(m: Machine)
    requires WellFormed(m) && 0 <= m.pc && m.pc + 2 < RamSize
    requires m.ram[m.pc] !in DispatchedOps
    ensures Step(m) == Transition(Running, m)
  {
  }

  /** ... so the machine stays at that PC, still running, however long it runs. */
  lemma {:induction false} StallIsForever(m: Machine, fuel: nat)
    requires WellFormed(m) && 0 <= m.pc && m.pc + 2 < RamSize
    requires m.ram[m.pc] !in DispatchedOps
    ensures Run(m, fuel) == Transition(Running, m)
    decreases fuel
  {
    if fuel > 0 {
      UnknownOpcodeStalls(m);
      StallIsForever(m, fuel - 1);
    }
  }

  /** Within two bytes of the end of RAM, the trace an unknown opcode prints
      reads past the last cell and raises IndexError instead of stalling. */
  lemma UnknownOpcodeAtEnd(m: Machine)
    requires WellFormed(m) && RamSize - 2 <= m.pc < RamSize
    requires m.ram[m.pc] !in DispatchedOps
    ensures Step(m) == Transition(Faulted(IndexError), m)
  {
  }

  // ---------------------------------------------------------------------------
  // The stack

  /** The value PUSH r stores: register r, read after SP was decremented, so
      PUSH R7 stores the new SP. */
  function Pushed(m: Machine, r: nat): int
    requires WellFormed(m) && r < RegCount
  {
    if r == SP then m.reg[SP] - 1 else m.reg[r]
  }

  /** PUSH r decrements SP, then stores register r at the new SP; the PC advances by 2. */
  lemma PushStep(m: Machine)
    requires Fetches(m, PUSH, 2) && RegOperand(m, 1)
    requires 0 < m.reg[SP] <= RamSize
    ensures var sp, v := m.reg[SP] - 1, Pushed(m, m.ram[m.pc + 1]);
            Step(m) == Transition(Running, m.(reg := m.reg[SP := sp], ram := m.ram[sp := v], pc := m.pc + 2))
  {
  }

  /** POP r loads the cell at SP into register r, then increments register 7;
      the PC advances by 2. */
  lemma PopStep(m: Machine)
    requires Fetches(m, POP, 2) && RegOperand(m, 1)
    requires 0 <= m.reg[SP] < RamSize
    ensures var r, sp := m.ram[m.pc + 1], m.reg[SP];
            var reg1 := m.reg[r := m.ram[sp]];
            Step(m) == Transition(Running, m.(reg := reg1[SP := reg1[SP] + 1], pc := m.pc + 2))
  {
  }

  /** `PUSH r; POP r'` (r' not SP) moves the value PUSH stored into r' and
      leaves SP where it was; the stack cell keeps the value. */
  lemma {:induction false} PushPopRoundTrip(m: Machine)
    requires Fetches(m, PUSH, 4) && RegOperand(m, 1) && RegOperand(m, 3)
    requires m.ram[m.pc + 2] == POP && m.ram[m.pc + 3] != SP
    requires 0 < m.reg[SP] <= RamSize
    requires m.reg[SP] - 1 != m.pc + 2 && m.reg[SP] - 1 != m.pc + 3
    ensures var v := Pushed(m, m.ram[m.pc + 1]);
            var t := Run(m, 2);
            && t.status == Running
            && t.next.reg == m.reg[m.ram[m.pc + 3] := v]
            && t.next.ram == m.ram[m.reg[SP] - 1 := v]
            && t.next.pc == m.pc + 4
            && t.next.flags == m.flags && t.next.out == m.out
  {
    PushStep(m);
    var m1 := Step(m).next;
    PopStep(m1);
    assert Run(m, 2) == Run(m1, 1);
  }

  /** `PUSH r; POP r` leaves every register as it was, SP included, for any
      register r (for R7 the quirks of PUSH and POP cancel out). */
  lemma {:induction false} PushPopSameRegister(m: Machine)
    requires Fetches(m, PUSH, 4) && RegOperand(m, 1)
    requires m.ram[m.pc + 2] == POP && m.ram[m.pc + 3] == m.ram[m.pc + 1]
    requires 0 < m.reg[SP] <= RamSize
    requires m.reg[SP] - 1 != m.pc + 2 && m.reg[SP] - 1 != m.pc + 3
    ensures var t := Run(m, 2);
            && t.status == Running && t.next.reg == m.reg && t.next.pc == m.pc + 4
            && t.next.flags == m.flags && t.next.out == m.out
  {
    PushStep(m);
    var m1 := Step(m).next;
    PopStep(m1);
    assert Run(m, 2) == Run(m1, 1);
  }

  /** CALL r reads the target from register r, decrements SP, stores the return
      address pc + 2 at the new SP and jumps, without a further PC advance. */
  lemma CallStep(m: Machine)
    requires Fetches(m, CALL, 2) && RegOperand(m, 1)
    requires 0 < m.reg[SP] <= RamSize
    ensures var sp := m.reg[SP] - 1;
            Step(m) == Transition(Running,
              m.(reg := m.reg[SP := sp], ram := m.ram[sp := m.pc + 2], pc := m.reg[m.ram[m.pc + 1]]))
  {
  }

  /** RET jumps to the address at SP and increments SP. */
  lemma ReturnStep(m: Machine)
    requires Fetches(m, RET, 1)
    requires 0 <= m.reg[SP] < RamSize
    ensures Step(m) == Transition(Running, m.(reg := m.reg[SP := m.reg[SP] + 1], pc := m.ram[m.reg[SP]]))
  {
  }

  /** A CALL followed, after any code that leaves the stack balanced, by a RET
      resumes right after the CALL's operand byte with SP as before the CALL.
      `m` is the state at the CALL, `n` the state at the RET: balanced means SP
      is back where the CALL left it and the return address is still there. */
  lemma {:induction false} CallReturns(m: Machine, n: Machine)
    requires Fetches(m, CALL, 2) && RegOperand(m, 1)
    requires 0 < m.reg[SP] <= RamSize
    requires Fetches(n, RET, 1)
    requires n.reg[SP] == m.reg[SP] - 1 && n.ram[n.reg[SP]] == Step(m).next.ram[n.reg[SP]]
    ensures var t := Step(n);
            t.status == Running && t.next.pc == m.pc + 2 && t.next.reg[SP] == m.reg[SP]
  {
    CallStep(m);
    ReturnStep(n);
  }

  /** CALL r to a subroutine whose first byte is RET comes straight back: after
      two iterations the PC is the CALL's pc + 2, every register (SP included)
      is as before, and the stack cell below SP holds the return address. */
  lemma {:induction false} CallThenRet(m: Machine)
    requires Fetches(m, CALL, 2) && RegOperand(m, 1)
    requires 0 < m.reg[SP] <= RamSize
    requires var target := m.reg[m.ram[m.pc + 1]];
             0 <= target < RamSize && m.ram[target] == RET && target != m.reg[SP] - 1
    ensures var t := Run(m, 2);
            && t.status == Running
            && t.next.pc == m.pc + 2
            && t.next.reg == m.reg
            && t.next.ram == m.ram[m.reg[SP] - 1 := m.pc + 2]
            && t.next.flags == m.flags && t.next.out == m.out
  {
    CallStep(m);
    var m1 := Step(m).next;
    ReturnStep(m1);
    assert Run(m, 2) == Run(m1, 1);
  }

  // ---------------------------------------------------------------------------
  // Whole runs

  /** Running for a + b iterations is running for a, then for b more. */
  lemma {:induction false} RunSplit(m: Machine, a: nat, b: nat)
    requires WellFormed(m)
    ensures var t := Run(m, a);
            Run(m, a + b) == if t.status == Running then Run(t.next, b) else t
    decreases a
  {
    if a > 0 {
      var t := Step(m);
      if t.status == Running {
        RunSplit(t.next, a - 1, b);
      }
    }
  }

  /** Only PUSH and CALL write RAM; only PRN writes output, and only one number. */
  lemma StepFrame(m: Machine)
    requires WellFormed(m)
    ensures var t, op := Step(m), Read(m.ram, m.pc);
            && (t.next.ram != m.ram ==> op == Some(PUSH) || op == Some(CALL))
            && (t.next.out != m.out ==> op == Some(PRN) && |t.next.out| == |m.out| + 1 && t.next.out[..|m.out|] == m.out)
  {
    match Read(m.ram, m.pc)
    case None =>
    case Some(inst) =>
      if inst in AluOps {
        match (Read(m.ram, m.pc + 1), Read(m.ram, m.pc + 2))
        case (Some(a), Some(b)) =>
        case _ =>
      }
  }

  /** The program `LDI R0,8; PRN R0; HLT` prints 8 and halts. */
  lemma PrintEight()
    ensures var t := Run(Boot([LDI, 0, 8, PRN, 0, HLT]), 3);
            t.status == Halted && t.next.out == [8]
  {
    var m := Boot([LDI, 0, 8, PRN, 0, HLT]);
    LoadImmediateStep(m);
    var m1 := Step(m).next;
    PrintStep(m1);
    var m2 := Step(m1).next;
    HaltStep(m2, 1);
    assert Run(m, 3) == Run(m2, 1);
  }

  /** A program that starts with a byte the loop does not dispatch never moves. */
  lemma StallAtStart(op: int, fuel: nat)
    requires op !in DispatchedOps
    ensures Run(Boot([op]), fuel) == Transition(Running, Boot([op]))
  {
    StallIsForever(Boot([op]), fuel);
  }
}
