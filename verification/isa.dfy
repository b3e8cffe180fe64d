/** The instruction set: the nine opcodes, the dispatch table keyed by opcode
    byte, and the number of operand bytes each handler takes. */
module Isa {
  import opened Results
  import opened Decoder

  const OP_LDI: int := 0x82
  const OP_PRN: int := 0x47
  const OP_ADD: int := 0xA0
  const OP_MUL: int := 0xA2
  const OP_HLT: int := 0x01
  const OP_PUSH: int := 0x45
  const OP_POP: int := 0x46
  const OP_CALL: int := 0x50
  const OP_RET: int := 0x11

  /** The handlers of the dispatch table. */
  datatype Op = LDI | PRN | ADD | MUL | HLT | PUSH | POP | CALL | RET

  function Opcode(op: Op): int {
    match op
    case LDI => OP_LDI
    case PRN => OP_PRN
    case ADD => OP_ADD
    case MUL => OP_MUL
    case HLT => OP_HLT
    case PUSH => OP_PUSH
    case POP => OP_POP
    case CALL => OP_CALL
    case RET => OP_RET
  }

  /** The `branchtable` built by the constructor. */
  const BranchTable: map<int, Op> := map[
    OP_LDI := LDI, OP_PRN := PRN, OP_ADD := ADD, OP_MUL := MUL, OP_HLT := HLT,
    OP_PUSH := PUSH, OP_POP := POP, OP_CALL := CALL, OP_RET := RET]

  /** How many operand parameters the handler's Python signature takes. */
  function HandlerArity(op: Op): Arity {
    match op
    case LDI | ADD | MUL => Binary
    case PRN | PUSH | POP | CALL => Unary
    case HLT | RET => Nullary
  }

  /** The dispatch table holds exactly the nine opcodes, each mapped to its own
      handler: it is the inverse of `Opcode`. */
  lemma BranchTableIsOpcodes()
    ensures forall op :: Opcode(op) in BranchTable && BranchTable[Opcode(op)] == op
    ensures forall ir :: ir in BranchTable ==> Opcode(BranchTable[ir]) == ir
  {
  }

  /** Every opcode is a byte, and its two top bits announce exactly the number
      of operands its handler takes; so the loop never calls a handler with
      the wrong number of arguments. */
  lemma DecodeMatchesHandler(op: Op)
    ensures 0 <= Opcode(op) < 256
    ensures OperandClass(Opcode(op)) == Some(HandlerArity(op))
  {
  }

  /** No opcode of the table has the top bits `11`. */
  lemma NoOpcodeInTopQuarter(ir: int)
    requires ir in BranchTable
    ensures 0 <= ir < 192
  {
  }
}
