/** The LS-8 instruction set: one opcode byte per instruction. The source writes
    each constant in binary; the hexadecimal values here are the same bytes. */
module Opcodes {

  // ALU operations
  const ADD: int := 0xA0  // 0b10100000
  const SUB: int := 0xA1  // 0b10100001
  const MUL: int := 0xA2  // 0b10100010
  const DIV: int := 0xA3  // 0b10100011
  const MOD: int := 0xA4  // 0b10100100
  const INC: int := 0x65  // 0b01100101
  const DEC: int := 0x66  // 0b01100110
  const CMP: int := 0xA7  // 0b10100111
  const AND: int := 0xA8  // 0b10101000
  const NOT: int := 0x69  // 0b01101001
  const OR: int := 0xAA   // 0b10101010
  const XOR: int := 0xAB  // 0b10101011
  const SHL: int := 0xAC  // 0b10101100
  const SHR: int := 0xAD  // 0b10101101

  // PC mutators
  const CALL: int := 0x50  // 0b01010000
  const RET: int := 0x11   // 0b00010001
  const INT: int := 0x52   // 0b01010010
  const IRET: int := 0x13  // 0b00010011
  const JMP: int := 0x54   // 0b01010100
  const JEQ: int := 0x55   // 0b01010101
  const JNE: int := 0x56   // 0b01010110
  const JGT: int := 0x57   // 0b01010111
  const JLT: int := 0x58   // 0b01011000
  const JLE: int := 0x59   // 0b01011001
  const JGE: int := 0x5A   // 0b01011010

  // Others
  const NOP: int := 0x00   // 0b00000000
  const HLT: int := 0x01   // 0b00000001
  const LDI: int := 0x82   // 0b10000010
  const LD: int := 0x83    // 0b10000011
  const ST: int := 0x84    // 0b10000100
  const PUSH: int := 0x45  // 0b01000101
  const POP: int := 0x46   // 0b01000110
  const PRN: int := 0x47   // 0b01000111
  const PRA: int := 0x48   // 0b01001000

  /** The opcodes the run loop hands to the ALU, with two operand bytes. NOT is
      among them although the ALU has no case for it. */
  const AluOps: set<int> := {ADD, SUB, MUL, DIV, MOD, INC, DEC, CMP, AND, NOT, OR, XOR, SHL, SHR}

  /** The ALU operations that store `reg[a] op reg[b]` into `reg[a]` and cannot
      leave the integers (DIV can: Python's `/=` yields a float). */
  const ArithOps: set<int> := {ADD, SUB, MUL, MOD, AND, OR, XOR, SHL, SHR}

  /** The opcodes the run loop tests for one by one after the ALU table. */
  const SingleOps: set<int> := {HLT, PRN, LDI, PUSH, POP, CALL, RET, NOP}

  /** Every opcode the run loop has a case for; any other byte stalls the machine. */
  const DispatchedOps: set<int> := AluOps + SingleOps

  /** The ALU table: fourteen distinct bytes, each with the ALU bit (bit 5) of
      the LS-8 encoding set, and NOT among them. */
  lemma AluTable()
    ensures |AluOps| == 14
    ensures NOT in AluOps && ArithOps <= AluOps
    ensures forall op :: op in AluOps ==> 0 <= op < 256 && (op / 32) % 2 == 1
  {
  }

  lemma SingleCount()
    ensures |SingleOps| == 8
  {
  }

  lemma AluSingleDisjoint()
    ensures AluOps * SingleOps == {}
  {
  }

  /** The run loop has cases for twenty-two distinct bytes: the fourteen of the
      ALU table and eight single opcodes. */
  lemma DispatchCount()
    ensures |DispatchedOps| == 22
  {
    AluTable();
    SingleCount();
    AluSingleDisjoint();
  }

  /** Every case of the run loop is a byte, the ALU table among them. The
      jumps, the interrupt opcodes, LD, ST and PRA are declared but have no
      case. */
  lemma DispatchTable()
    ensures AluOps <= DispatchedOps
    ensures forall op :: op in DispatchedOps ==> 0 <= op < 256
    ensures forall op :: op in {JMP, JEQ, JNE, JGT, JLT, JLE, JGE, INT, IRET, LD, ST, PRA} ==> op !in DispatchedOps
  {
  }
}
