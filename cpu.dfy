/** The `CPU` class: RAM and the register file are arrays updated in place, the
    PC, the compare flags and the printed output are fields. Every method is
    proved to have exactly the effect of its counterpart in module Semantics. */
module Cpu {
  import opened PyInt
  import opened Opcodes
  import opened Semantics

  class CPU {
    var ram: array<int>
    var reg: array<int>
    var pc: int
    var flags: Option<Flags>
    /** The numbers PRN has printed, oldest first. */
    var out: seq<int>

    ghost predicate Valid()
      reads this
    {
      ram.Length == RamSize && reg.Length == RegCount && ram != reg
    }

    ghost function State(): (m: Machine)
      reads this, ram, reg
      requires Valid()
      ensures WellFormed(m)
    {
      Machine(ram[..], reg[..], pc, flags, out)
    }

    /** `__init__`: 256 zero cells of RAM, eight zero registers, then R7 := 0xF4. */
    constructor ()
      ensures Valid() && fresh(ram) && fresh(reg)
      ensures State() == Initial()
      ensures forall i :: 0 <= i < RamSize ==> ram[i] == 0
      ensures reg[SP] == InitialSP && forall i :: 0 <= i < SP ==> reg[i] == 0
      ensures pc == 0 && flags == None && out == []
    {
      ram := new int[RamSize](_ => 0);
      reg := new int[RegCount](_ => 0);
      pc := 0;
      flags := None;
      out := [];
      new;
      reg[RegCount - 1] := InitialSP;
      assert reg[..] == Initial().reg;
      assert ram[..] == Initial().ram;
    }

    /** `ram_read(mem)`: None stands for the IndexError of an address outside -256..255. */
    function RamRead(mem: int): (r: Option<int>)
      reads this, ram
      requires Valid()
      ensures r.Some? <==> -256 <= mem < 256
      ensures r.Some? ==> r.value == ram[if mem < 0 then mem + 256 else mem]
      ensures r == Read(State().ram, mem)
    {
      if ValidIndex(mem, ram.Length) then Some(ram[At(mem, ram.Length)]) else None
    }

    /** `ram_write(mem, value)`: store and return the stored value. */
    method RamWrite(mem: int, value: int) returns (r: Option<int>)
      requires Valid()
      modifies ram
      ensures r.Some? <==> -256 <= mem < 256
      ensures r.Some? ==> r.value == value && ram[..] == Put(old(ram[..]), mem, value)
      ensures r.None? ==> ram[..] == old(ram[..])
    {
      if !ValidIndex(mem, ram.Length) {
        return None;
      }
      ram[At(mem, ram.Length)] := value;
      r := Some(ram[At(mem, ram.Length)]);
    }

    /** `alu(op, reg_a, reg_b)`. */
    method Alu(op: int, a: int, b: int) returns (status: Status)
      requires Valid() && op in AluOps
      modifies this`flags, reg
      ensures Valid()
      ensures Transition(status, State()) == AluOp(old(State()), op, a, b)
    {
      if op == INC || op == DEC {
        // Only the parameters reg_a / reg_b are incremented or decremented.
        return Running;
      }
      if op == NOT {
        return Faulted(UnsupportedAluOperation);
      }
      if !ValidIndex(a, reg.Length) || !ValidIndex(b, reg.Length) {
        return Faulted(IndexError);
      }
      var i := At(a, reg.Length);
      var x, y := reg[i], reg[At(b, reg.Length)];
      if op == CMP {
        var jeq := if x == y then 1 else 0;
        var jlt := if x < y then 1 else 0;
        var jgt := if x > y then 1 else 0;
        flags := Some(Flags(jeq, jlt, jgt));
        return Running;
      }
      if op == DIV {
        return if y == 0 then Faulted(ZeroDivisionError) else FloatQuotient;
      }
      if op == MOD && y == 0 {
        return Faulted(ZeroDivisionError);
      }
      if (op == SHL || op == SHR) && y < 0 {
        return Faulted(NegativeShiftCount);
      }
      reg[i] := Arith(op, x, y);
      status := Running;
    }

    /** `handle_prn(pc)`. */
    method HandlePrn(pc: int) returns (status: Status)
      requires Valid()
      modifies this`out
      ensures Valid()
      ensures Transition(status, State()) == Prn(old(State()), pc)
    {
      var r := RamRead(pc + 1);
      if r.None? || !ValidIndex(r.value, reg.Length) {
        return Faulted(IndexError);
      }
      out := out + [reg[At(r.value, reg.Length)]];
      status := Running;
    }

    /** `handle_ldi(pc)`. */
    method HandleLdi(pc: int) returns (status: Status)
      requires Valid()
      modifies reg
      ensures Valid()
      ensures Transition(status, State()) == Ldi(old(State()), pc)
    {
      if !ValidIndex(pc + 1, ram.Length) || !ValidIndex(pc + 2, ram.Length) {
        return Faulted(IndexError);
      }
      var index := ram[At(pc + 1, ram.Length)];
      var value := ram[At(pc + 2, ram.Length)];
      if !ValidIndex(index, reg.Length) {
        return Faulted(IndexError);
      }
      reg[At(index, reg.Length)] := value;
      status := Running;
    }

    /** `handle_push(pc)`. */
    method HandlePush(pc: int) returns (status: Status)
      requires Valid()
      modifies ram, reg
      ensures Valid()
      ensures Transition(status, State()) == Push(old(State()), pc)
    {
      reg[SP] := reg[SP] - 1;
      if !ValidIndex(pc + 1, ram.Length) {
        return Faulted(IndexError);
      }
      var r := ram[At(pc + 1, ram.Length)];
      if !ValidIndex(r, reg.Length) {
        return Faulted(IndexError);
      }
      var value := reg[At(r, reg.Length)];
      var sp := reg[SP];
      if !ValidIndex(sp, ram.Length) {
        return Faulted(IndexError);
      }
      ram[At(sp, ram.Length)] := value;
      status := Running;
    }

    /** `handle_pop(pc)`. */
    method HandlePop(pc: int) returns (status: Status)
      requires Valid()
      modifies reg
      ensures Valid()
      ensures Transition(status, State()) == Pop(old(State()), pc)
    {
      var sp := reg[SP];
      if !ValidIndex(pc + 1, ram.Length) || !ValidIndex(sp, ram.Length) {
        return Faulted(IndexError);
      }
      var r := ram[At(pc + 1, ram.Length)];
      var value := ram[At(sp, ram.Length)];
      if !ValidIndex(r, reg.Length) {
        return Faulted(IndexError);
      }
      reg[At(r, reg.Length)] := value;
      reg[SP] := reg[SP] + 1;
      status := Running;
    }

    /** `handle_call(pc)`. */
    method HandleCall(pc: int) returns (status: Status)
      requires Valid()
      modifies this`pc, ram, reg
      ensures Valid()
      ensures Transition(status, State()) == Call(old(State()), pc)
    {
      if !ValidIndex(pc + 1, ram.Length) {
        return Faulted(IndexError);
      }
      var r := ram[At(pc + 1, ram.Length)];
      if !ValidIndex(r, reg.Length) {
        return Faulted(IndexError);
      }
      var address := reg[At(r, reg.Length)];
      var retAddress := pc + 2;
      reg[SP] := reg[SP] - 1;
      var sp := reg[SP];
      if !ValidIndex(sp, ram.Length) {
        return Faulted(IndexError);
      }
      ram[At(sp, ram.Length)] := retAddress;
      this.pc := address;
      status := Running;
    }

    /** `handle_ret()`. */
    method HandleRet() returns (status: Status)
      requires Valid()
      modifies this`pc, reg
      ensures Valid()
      ensures Transition(status, State()) == Ret(old(State()))
    {
      var sp := reg[SP];
      if !ValidIndex(sp, ram.Length) {
        return Faulted(IndexError);
      }
      var retAddress := ram[At(sp, ram.Length)];
      reg[SP] := reg[SP] + 1;
      pc := retAddress;
      status := Running;
    }

    /** `trace()`, as far as it matters to the state: it reads RAM at pc + 1
        and pc + 2, which raises IndexError near the end of RAM. */
    method TraceReads() returns (status: Status)
      requires Valid()
      ensures status == Trace(State()).status
    {
      var b1 := RamRead(pc + 1);
      var b2 := RamRead(pc + 2);
      status := if b1.None? || b2.None? then Faulted(IndexError) else Running;
    }

    /** One iteration of the loop in `run`: fetch, dispatch, advance the PC by
        the instruction's width. */
    method Step() returns (status: Status)
      requires Valid()
      modifies this`pc, this`flags, this`out, ram, reg
      ensures Valid()
      ensures Transition(status, State()) == Semantics.Step(old(State()))
    {
      var pc := this.pc;
      var fetched := RamRead(pc);
      if fetched.None? {
        return Faulted(IndexError);
      }
      var inst := fetched.value;
      if inst in AluOps {
        var a := RamRead(pc + 1);
        var b := RamRead(pc + 2);
        if a.None? || b.None? {
          return Faulted(IndexError);
        }
        status := Alu(inst, a.value, b.value);
        if status == Running { this.pc := this.pc + 3; }
      } else if inst == HLT {
        status := Halted;
      } else if inst == PRN {
        status := HandlePrn(pc);
        if status == Running { this.pc := this.pc + 2; }
      } else if inst == LDI {
        status := HandleLdi(pc);
        if status == Running { this.pc := this.pc + 3; }
      } else if inst == PUSH {
        status := HandlePush(pc);
        if status == Running { this.pc := this.pc + 2; }
      } else if inst == POP {
        status := HandlePop(pc);
        if status == Running { this.pc := this.pc + 2; }
      } else if inst == CALL {
        status := HandleCall(pc);
      } else if inst == RET {
        status := HandleRet();
      } else if inst == NOP {
        this.pc := this.pc + 1;
        status := Running;
      } else {
        status := TraceReads();
      }
    }

    /** `run`, with the `while True` loop cut off after `fuel` iterations: the
        result is Running if the machine is still going by then. */
    method Run(fuel: nat) returns (status: Status)
      requires Valid()
      modifies this`pc, this`flags, this`out, ram, reg
      ensures Valid()
      ensures Transition(status, State()) == Semantics.Run(old(State()), fuel)
    {
      status := Running;
      var i := 0;
      while i < fuel && status == Running
        invariant Valid() && 0 <= i <= fuel
        invariant status == Running ==> Semantics.Run(old(State()), fuel) == Semantics.Run(State(), fuel - i)
        invariant status != Running ==> Semantics.Run(old(State()), fuel) == Transition(status, State())
      {
        status := Step();
        i := i + 1;
      }
    }
  }
}
