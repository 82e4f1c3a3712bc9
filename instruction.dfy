/** The unit of bytecode: an opcode and an optional embedded operand. */
module Instructions {
  import opened Outcomes
  import opened Values

  /** `InstructionType`, in declaration order (the interpreter computes with the ordinals). */
  datatype Opcode =
    | InstNull | InstPush | InstPop | InstClear | InstPeek | InstSwap | InstSize | InstDup
    | InstAdd | InstSub | InstMul | InstDiv | InstMod
    | InstAnd | InstOr | InstXor | InstNot
    | InstNeq | InstEq | InstLess | InstGreater | InstLessEq | InstGreaterEq
    | InstJump | InstJumpIf | InstCall | InstRet
    | InstGet | InstSet
    | InstPrint | InstPrintln | InstRead | InstReadInt
    | InstAt | InstLen | InstType | InstConvert

  /** The enumerators as the header lists them. */
  const DeclarationOrder: seq<Opcode> := [
    InstNull, InstPush, InstPop, InstClear, InstPeek, InstSwap, InstSize, InstDup,
    InstAdd, InstSub, InstMul, InstDiv, InstMod,
    InstAnd, InstOr, InstXor, InstNot,
    InstNeq, InstEq, InstLess, InstGreater, InstLessEq, InstGreaterEq,
    InstJump, InstJumpIf, InstCall, InstRet,
    InstGet, InstSet,
    InstPrint, InstPrintln, InstRead, InstReadInt,
    InstAt, InstLen, InstType, InstConvert
  ]

  /** `static_cast<int>(op)`: the position of the enumerator in the declaration. */
  function Ordinal(op: Opcode): nat
  {
    match op
    case InstNull => 0
    case InstPush => 1
    case InstPop => 2
    case InstClear => 3
    case InstPeek => 4
    case InstSwap => 5
    case InstSize => 6
    case InstDup => 7
    case InstAdd => 8
    case InstSub => 9
    case InstMul => 10
    case InstDiv => 11
    case InstMod => 12
    case InstAnd => 13
    case InstOr => 14
    case InstXor => 15
    case InstNot => 16
    case InstNeq => 17
    case InstEq => 18
    case InstLess => 19
    case InstGreater => 20
    case InstLessEq => 21
    case InstGreaterEq => 22
    case InstJump => 23
    case InstJumpIf => 24
    case InstCall => 25
    case InstRet => 26
    case InstGet => 27
    case InstSet => 28
    case InstPrint => 29
    case InstPrintln => 30
    case InstRead => 31
    case InstReadInt => 32
    case InstAt => 33
    case InstLen => 34
    case InstType => 35
    case InstConvert => 36
  }

  /** The ordinal of an enumerator is its position in the declaration. */
  lemma OrdinalPosition(op: Opcode)
    ensures Ordinal(op) < |DeclarationOrder| && DeclarationOrder[Ordinal(op)] == op
  {
  }

  /** Distinct enumerators have distinct ordinals, so ordinal arithmetic can tell them apart. */
  lemma OrdinalInjective(a: Opcode, b: Opcode)
    requires Ordinal(a) == Ordinal(b)
    ensures a == b
  {
    OrdinalPosition(a);
    OrdinalPosition(b);
  }

  predicate IsComparison(op: Opcode)
  {
    op in {InstNeq, InstEq, InstLess, InstGreater, InstLessEq, InstGreaterEq}
  }

  /**
   * The comparison enumerators sit at 17..22, and exactly the two "or equal" ones come
   * after GREATER: the interpreter's test `op_code > INST_GREATER` relies on this.
   */
  lemma ComparisonOrdinals(op: Opcode)
    requires IsComparison(op)
    ensures 17 <= Ordinal(op) <= 22
    ensures Ordinal(op) > Ordinal(InstGreater) <==> op == InstLessEq || op == InstGreaterEq
  {
  }

  datatype Instruction = Instruction(opCode: Opcode, arg: Option<Value>)

  /** The default constructor. */
  function DefaultInstruction(): (inst: Instruction)
    ensures inst.opCode == InstNull && inst.arg == None
  {
    Instruction(InstNull, None)
  }

  /** `Instruction(op)`: the operand stays absent. */
  function Plain(op: Opcode): (inst: Instruction)
    ensures inst.opCode == op && inst.arg == None
  {
    Instruction(op, None)
  }

  /** `Instruction(op, v)`. */
  function WithArg(op: Opcode, v: Value): (inst: Instruction)
    ensures inst.opCode == op && inst.arg == Some(v)
  {
    Instruction(op, Some(v))
  }

  /** `set_arg`: replaces the operand and keeps the opcode. */
  function SetArg(inst: Instruction, v: Value): (r: Instruction)
    ensures r.opCode == inst.opCode && r.arg == Some(v)
  {
    inst.(arg := Some(v))
  }

  /** Only the last `set_arg` is visible, and setting the operand a plain instruction was built with changes nothing. */
  lemma SetArgOverwrites(inst: Instruction, v: Value, w: Value)
    ensures SetArg(SetArg(inst, v), w) == SetArg(inst, w)
    ensures SetArg(WithArg(inst.opCode, v), v) == WithArg(inst.opCode, v)
  {
  }
}
