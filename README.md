# LS-8 CPU execution engine in Dafny

This project models the execution engine of the LS-8, an 8-register machine
with 256 cells of RAM, as implemented by the `CPU` class of `ls8/cpu.py`:
the opcode table, the constructor, the ALU, the instruction handlers (LDI,
PRN, PUSH, POP, CALL, RET) and the fetch-decode-execute loop of `run`.

It has five modules:

- `PyInt` (`py_int.dfy`) gives the Python semantics the CPU relies on:
  - list indexing, where `xs[i]` works for `-n <= i < n` and a negative index
    counts from the end;
  - `%`, which is floored;
  - `<<` and `>>`;
  - `&`, `|` and `^` on unbounded integers in two's complement.

  `&`, `|`, `^`, `<<` and `>>` are proved against a bit-level reference
  (`Bit`). `%` is pinned down by its sign, its range and its congruence with
  the dividend.
- `Opcodes` (`opcodes.dfy`) holds the opcode constants, the `ALU` set
  (`AluOps`) and the set of opcodes the run loop has a case for
  (`DispatchedOps`).
- `Semantics` (`semantics.dfy`) is the machine as a pure state machine.
  - A `Machine` value holds RAM, the registers, the PC, the compare flags and
    the printed output.
  - Each handler and one loop iteration (`Step`) map a state to a
    `Transition`: a status (Running, Halted, Faulted with the Python
    exception, or FloatQuotient) and the next state.
  - `Run(m, fuel)` runs at most `fuel` iterations.
- `Cpu` (`cpu.dfy`) is the `CPU` class. RAM and the registers are `array<int>`
  and are updated in place. The PC, the flags and the output are fields.
  Every method is proved to have exactly the effect of its `Semantics`
  counterpart on the abstract state `State()`.
- `Properties` (`properties.dfy`) proves what the machine guarantees, one
  instruction or a short program at a time.

Register and RAM values are unbounded integers, as in Python. No masking to
8 bits happens anywhere, so none is modelled.

Exceptions are not preconditions. An out-of-range list index, a zero divisor,
a negative shift count and the unsupported NOT all end a step with a
`Faulted` status. PUSH decrements SP first. CALL decrements it after reading
its operand and target. A later IndexError keeps the decrement, as in the
source.

Quirks of the source that the model keeps:

- INC and DEC change only the ALU's local copies of the operand bytes. They
  are no-ops that never index the registers, and the PC still advances by 3.
- NOT is in the `ALU` set but has no branch in `alu`, so it always faults.
- An opcode the loop does not dispatch leaves the PC where it is, so the
  machine stalls forever. This covers JMP, the conditional jumps, LD, ST,
  PRA, INT and IRET.
- PUSH R7 stores the already decremented SP.
- POP R7 sets SP to the popped value plus one.
- CALL R7 jumps to the SP as it was before the decrement.

Further facts about the code that the model follows:

- INC and DEC look meant to increment or decrement a register, but the code
  never touches the register file. The model keeps the no-op rather than the
  evident intent.
- An unknown opcode does not always stall. The `trace()` call in that branch
  reads `ram[pc + 1]` and `ram[pc + 2]`, so at PC 254 or 255 it raises
  IndexError instead (`Properties.UnknownOpcodeAtEnd`).
- RAM cells are not limited to bytes. The code stores any integer there, such
  as a pushed register or a return address, and so does the model.
- The attributes `JEQ`, `JLT` and `JGT` do not exist until the first CMP
  creates them, so the model's `flags` is `None` until then.

## Model

| member | source | states |
|---|---|---|
| `Opcodes.AluTable` | ls8/cpu.py:54 | the `ALU` set holds 14 distinct opcodes, NOT among them, each a byte with the ALU bit (bit 5) set; it contains every operation that stores `reg[a] op reg[b]` |
| `Opcodes.DispatchCount` | ls8/cpu.py:182-215 | the run loop has cases for 22 distinct opcodes: the 14 of the `ALU` set and HLT, PRN, LDI, PUSH, POP, CALL, RET and NOP |
| `Opcodes.DispatchTable` | ls8/cpu.py:182-217 | every opcode the run loop has a case for is a byte, the `ALU` set included; JMP, JEQ, JNE, JGT, JLT, JLE, JGE, INT, IRET, LD, ST and PRA are declared but fall through to the trace branch |
| `Semantics.Initial` | ls8/cpu.py:60-65 | the initial state has 256 RAM cells all 0, registers 0..6 at 0, register 7 (SP) at 0xF4, PC 0, no flags and no output |
| `Semantics.Boot` | ls8/cpu.py:80-90 | the state a successful load leaves: a fresh CPU (PC 0, initial registers, no flags, no output) whose RAM holds the image from address 0 and zeros after it |
| `Semantics.AluOp` | ls8/cpu.py:96-146 | defines `alu`: INC/DEC touch nothing, NOT faults as unsupported, bad register indices raise IndexError, CMP sets the flags, DIV and MOD by 0 raise ZeroDivisionError, a negative shift faults, DIV otherwise stops at FloatQuotient, and the other operations write `reg[a]`; the result stays well formed. Its properties are `Properties.ArithmeticStep`, `CompareStep`, `IncDecStep`, `NotIsUnsupported`, `ZeroDivisor`, `DivideLeavesIntegers` and `NegativeShift` |
| `Semantics.Prn` | ls8/cpu.py:223-225 | defines `handle_prn`: read the operand at pc + 1 and the register it names, each possibly an IndexError, then append the value to the output; properties in `Properties.PrintStep` |
| `Semantics.Ldi` | ls8/cpu.py:227-233 | defines `handle_ldi`: read the register index and the literal, then store, each step possibly an IndexError; properties in `Properties.LoadImmediateStep` |
| `Semantics.Push` | ls8/cpu.py:235-245 | defines `handle_push`: decrement SP, read the operand and the register (the new SP for R7), store at the new SP; a later IndexError keeps the decrement; properties in `Properties.PushStep` |
| `Semantics.Pop` | ls8/cpu.py:247-257 | defines `handle_pop`: read the operand and the cell at SP, store into the register, then increment R7; every IndexError leaves the state unchanged; properties in `Properties.PopStep` |
| `Semantics.Call` | ls8/cpu.py:259-273 | defines `handle_call`: read the operand and the target register, then decrement SP, store pc + 2 at the new SP and jump; properties in `Properties.CallStep` |
| `Semantics.Ret` | ls8/cpu.py:275-279 | defines `handle_ret`: read the cell at SP, increment SP and jump there; properties in `Properties.ReturnStep` |
| `Semantics.Trace` | ls8/cpu.py:155-173 | defines the effect of `trace` on the state: none, unless reading pc + 1 or pc + 2 raises IndexError; properties in `Properties.UnknownOpcodeStalls` and `UnknownOpcodeAtEnd` |
| `Semantics.Step` | ls8/cpu.py:178-217 | defines one loop iteration: fetch at the PC, the ALU branch with its two operand reads, dispatch by opcode value, and PC advances of 3, 2, 3, 2 and 2 for ALU, PRN, LDI, PUSH and POP, none for CALL, RET and unknown opcodes, 1 for NOP; properties in `Properties.StepFrame` and the per-instruction lemmas |
| `Semantics.Run` | ls8/cpu.py:175-217 | defines the `while True` loop cut off after `fuel` iterations, stopping at the first status other than Running; properties in `Properties.RunSplit`, `StallIsForever` and `PrintEight` |
| `Cpu.CPU.constructor` | ls8/cpu.py:60-65 | a new CPU has fresh RAM and register arrays in exactly the initial state: zero RAM, R7 = 0xF4, the other registers 0, PC 0 |
| `Cpu.CPU.RamRead` | ls8/cpu.py:148-149 | reading succeeds exactly for addresses -256..255; a negative address reads the cell 256 further on; anything else is IndexError (None) |
| `Cpu.CPU.RamWrite` | ls8/cpu.py:151-153 | writing a valid address stores the value in that one cell and returns it; an invalid address raises IndexError and changes nothing |
| `PyInt.At` | ls8/cpu.py:148-149 | the cell a Python index designates lies in the list and is congruent to the index modulo the length; a non-negative index designates itself |
| `PyInt.FloorMod` | ls8/cpu.py:107-108 | Python's `%`: the result has the divisor's sign, is smaller in magnitude than the divisor, and differs from the dividend by a multiple of the divisor |
| `PyInt.AndBits` | ls8/cpu.py:135-136 | every two's-complement bit of `a & b` is the AND of the operands' bits, negative operands included |
| `PyInt.OrBits` | ls8/cpu.py:137-138 | every bit of the bitwise or of a and b is the OR of the operands' bits |
| `PyInt.XorBits` | ls8/cpu.py:139-140 | every bit of `a ^ b` is set exactly where the operands' bits differ |
| `PyInt.ShlBits` | ls8/cpu.py:141-142 | `a << n` moves bit i to bit i + n and clears the n low bits |
| `PyInt.ShrBits` | ls8/cpu.py:143-144 | `a >> n` moves bit i + n to bit i |
| `PyInt.ShrUndoesShl` | ls8/cpu.py:141-144 | `(a << n) >> n == a` |
| `Properties.ShrBrackets` | ls8/cpu.py:143-144 | `x >> n` is the floor of x / 2^n: `(x >> n) << n <= x < ((x >> n) + 1) << n` |
| `Cpu.CPU.Alu` | ls8/cpu.py:96-146 | the register file and flags after `alu` are exactly those of `Semantics.AluOp`, with its faults: IndexError, ZeroDivisionError, negative shift, unsupported NOT, and the float quotient of DIV |
| `Properties.ArithmeticStep` | ls8/cpu.py:99-144 | ADD, SUB, MUL, MOD, AND, OR, XOR, SHL and SHR set `reg[a]` to `reg[a] op reg[b]`, stated per operator (sum, difference, product, floored remainder, bitwise by bit, times 2^n, floor division by 2^n); every other register, RAM, the flags and the output stay unchanged; the PC advances by 3 (line 187) |
| `Properties.CompareStep` | ls8/cpu.py:119-133 | CMP leaves registers, RAM and output unchanged, advances the PC by 3, and sets exactly one of JEQ/JLT/JGT to 1 and the others to 0: JEQ iff equal, JLT iff less, JGT iff greater |
| `Properties.IncDecStep` | ls8/cpu.py:109-118 | INC and DEC change no register, RAM or flag, whatever their operand bytes, and the PC advances by 3 |
| `Properties.NotIsUnsupported` | ls8/cpu.py:145-146 | NOT, although in the ALU set, faults with "Unsupported ALU operation" and changes nothing |
| `Properties.ZeroDivisor` | ls8/cpu.py:105-108 | DIV or MOD by a register holding 0 raises ZeroDivisionError and changes nothing |
| `Properties.DivideLeavesIntegers` | ls8/cpu.py:105-106 | DIV by a non-zero register ends the modelled run with FloatQuotient, which stands for both the stored float and the OverflowError of a quotient beyond the float range |
| `Properties.NegativeShift` | ls8/cpu.py:141-144 | SHL or SHR by a negative register raises the negative-shift-count error and changes nothing |
| `Cpu.CPU.HandlePrn` | ls8/cpu.py:223-225 | the output and state after `handle_prn` are exactly those of `Semantics.Prn`, including its IndexErrors |
| `Properties.PrintStep` | ls8/cpu.py:191-193 | PRN r appends register r to the output, changes nothing else and advances the PC by 2 |
| `Cpu.CPU.HandleLdi` | ls8/cpu.py:227-233 | the registers after `handle_ldi` are exactly those of `Semantics.Ldi`, including its IndexErrors |
| `Properties.LoadImmediateStep` | ls8/cpu.py:194-197 | LDI r, v sets register r to v, changes nothing else and advances the PC by 3 |
| `Properties.LoadThenPrint` | ls8/cpu.py:191-197 | `LDI r, v; PRN r` appends v to the output and moves the PC past both instructions |
| `Properties.NopStep` | ls8/cpu.py:214-215 | NOP only advances the PC by 1 |
| `Properties.HaltStep` | ls8/cpu.py:188-190 | HLT halts with the state unchanged, and a run that reaches it ends Halted |
| `Properties.UnknownOpcodeStalls` | ls8/cpu.py:216-217 | an opcode the loop does not dispatch leaves PC, registers, RAM, flags and output unchanged, and the machine is still running |
| `Properties.StallIsForever` | ls8/cpu.py:178-217 | from such an opcode, any number of loop iterations leaves the machine exactly where it was, still running |
| `Properties.StallAtStart` | ls8/cpu.py:216-217 | a program whose first byte is not dispatched never moves from PC 0 |
| `Properties.UnknownOpcodeAtEnd` | ls8/cpu.py:161-168 | at PC 254 or 255 an undispatched opcode faults with IndexError, because the trace reads past the last cell |
| `Cpu.CPU.HandlePush` | ls8/cpu.py:235-245 | RAM and registers after `handle_push` are exactly those of `Semantics.Push`, including the SP decrement that survives a later IndexError |
| `Properties.PushStep` | ls8/cpu.py:198-202 | PUSH r decrements SP, stores register r (the new SP for R7) at the new SP, and advances the PC by 2 |
| `Cpu.CPU.HandlePop` | ls8/cpu.py:247-257 | the registers after `handle_pop` are exactly those of `Semantics.Pop`, including its IndexErrors |
| `Properties.PopStep` | ls8/cpu.py:203-207 | POP r loads the cell at SP into register r, then increments register 7, and advances the PC by 2 |
| `Properties.PushPopRoundTrip` | ls8/cpu.py:198-207 | `PUSH r; POP r'` with r' not SP sets r' to the pushed value, restores SP, leaves the value in the stack cell, keeps the flags and the output, and advances the PC by 4 |
| `Properties.PushPopSameRegister` | ls8/cpu.py:198-207 | `PUSH r; POP r` leaves every register unchanged, SP included, for every r including R7, keeps the flags and the output, and advances the PC by 4 |
| `Cpu.CPU.HandleCall` | ls8/cpu.py:259-273 | PC, RAM and registers after `handle_call` are exactly those of `Semantics.Call` |
| `Properties.CallStep` | ls8/cpu.py:208-210 | CALL r decrements SP, stores pc + 2 at the new SP and jumps to the old register r, with no further PC advance |
| `Cpu.CPU.HandleRet` | ls8/cpu.py:275-279 | PC and registers after `handle_ret` are exactly those of `Semantics.Ret` |
| `Properties.ReturnStep` | ls8/cpu.py:211-213 | RET jumps to the address at SP and increments SP |
| `Properties.CallReturns` | ls8/cpu.py:208-213 | a CALL followed by a RET with the stack balanced resumes at the CALL's pc + 2 with SP as before the CALL |
| `Properties.CallThenRet` | ls8/cpu.py:208-213 | CALL to a subroutine that starts with RET, run for two iterations, resumes at the CALL's pc + 2 with every register, SP included, as before, the flags and the output unchanged, and the return address left in the stack cell |
| `Cpu.CPU.TraceReads` | ls8/cpu.py:161-168 | the trace in the unknown-opcode branch fails exactly when pc + 1 or pc + 2 is not a valid address |
| `Cpu.CPU.Step` | ls8/cpu.py:178-217 | one loop iteration (fetch, dispatch on opcode value, advance the PC by the instruction's width) changes the CPU exactly as `Semantics.Step` |
| `Cpu.CPU.Run` | ls8/cpu.py:175-217 | running up to `fuel` iterations, stopping at the first halt or fault, changes the CPU exactly as `Semantics.Run` |
| `Properties.RunSplit` | ls8/cpu.py:178-217 | running a + b iterations is running a, then b more from where that stopped, unless it already stopped |
| `Properties.StepFrame` | ls8/cpu.py:178-217 | only PUSH and CALL change RAM; only PRN changes the output, and it appends exactly one number |
| `Properties.PrintEight` | ls8/cpu.py:188-197 | the image `LDI R0,8; PRN R0; HLT` prints 8 and halts after three iterations |

## Left out

- `load` (the file loader) is not modelled. It does file I/O, parses binary
  text and swallows every error. The model starts from a RAM image (`Boot`)
  instead.
- The text `trace` prints to stdout is not modelled. Only its RAM reads,
  which can fault, are kept (`Cpu.CPU.TraceReads`).
- The "Halted" message and `sys.exit()` become the terminal status `Halted`.
  The model does not exit a process.
- DIV by a non-zero register stores a Python float, or raises OverflowError
  when the quotient is beyond the float range (a register of 2^1100 divided
  by 1, say). Neither is modelled: the run stops with status `FloatQuotient`
  in both cases, and what the source does after that point is not captured.
- `Cpu.CPU.Run` bounds the `while True` loop by `fuel` iterations. A machine
  still running after `fuel` steps reports Running. Non-termination is stated
  for every finite bound (`Properties.StallIsForever`).
- SHL with an enormous count makes Python raise OverflowError or MemoryError.
  Since Python 3.11, `print` in PRN (cpu.py:225) raises ValueError for an
  integer of more than 4300 decimal digits, which SHL by about 15000 reaches.
  The model has no resource limits: it computes the shift, and
  `Semantics.Prn` appends any integer.
- The opcodes JMP, JEQ…JGE, LD, ST, PRA, INT and IRET exist only as constants.
  The loop never dispatches them, so only their stall is modelled.
- Identity comparison (`is`) of opcodes is modelled as value equality. They
  agree for integers of byte size in CPython.
- Properties.ArithmeticStep and the other instruction lemmas cover only
  instructions with these properties, for readability:
  - the PC is non-negative;
  - the whole instruction lies inside RAM (`Fetches`);
  - register operands are 0..7.
- Properties.PushStep and Properties.CallStep also assume `0 < SP <= 256`.
  A wrapped stack is therefore not covered by a lemma: for example, PUSH at
  SP 0 writes `ram[255]`.
- Properties.PopStep and Properties.ReturnStep also assume `0 <= SP < 256`.
- Properties.PushPopRoundTrip, Properties.PushPopSameRegister and
  Properties.CallThenRet also assume that the cell the push writes is not one
  of the bytes the second instruction is fetched from.
- `Semantics` and the `CPU` class themselves cover all of these cases: negative
  (wrapping) indices, out-of-range indices and a stack that overlaps the code.
