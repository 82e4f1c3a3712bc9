/**
 * What running bytecode does: how each instruction group moves the stack, where the
 * control-flow instructions send `_next_op`, and how a bounded run composes.
 */
module InterpProps {
  import opened Outcomes
  import opened Values
  import opened Instructions
  import opened Operations
  import opened OperationsProps
  import opened Lexer
  import opened Interp
  import Parsing
  import ParsingProps

  // ------------------------------------------------------------------ operands

  /**
   * Reading an operand as an `int` succeeds exactly on an Int or type-tag operand and gives
   * the number it holds; reading it as a string succeeds exactly on a string, name or null
   * operand. An absent operand throws either way.
   */
  lemma OperandReads(inst: Instruction)
    ensures ArgInt(inst).Ok? <==> inst.arg.Some? && TypeOf(inst.arg.value) in {TypeInt, TypeValType}
    ensures ArgInt(inst).Ok? ==> inst.arg.value == Int(ArgInt(inst).value) || inst.arg.value == ValType(ArgInt(inst).value)
    ensures ArgString(inst).Ok? <==> inst.arg.Some? && TypeOf(inst.arg.value) in {TypeStr, TypeName, TypeNull}
    ensures ArgString(inst).Ok? ==>
      || inst.arg.value == Str(ArgString(inst).value)
      || inst.arg.value == Name(ArgString(inst).value)
      || (inst.arg.value == Null && ArgString(inst).value == "")
  {
  }

  /** `getline` consumes exactly one line of the remaining input, and gives "" with none left. */
  lemma NextLineConsumes(input: seq<string>)
    ensures |input| > 0 ==> [NextLine(input).0] + NextLine(input).1 == input
    ensures |input| == 0 ==> NextLine(input) == ("", [])
  {
  }

  // ----------------------------------------------------------- stack discipline

  /**
   * A binary instruction needs two values. It pops both, the right operand from the
   * top, and pushes the one result when the operation succeeds; when it throws, both
   * operands are already gone. Nothing but the stack changes.
   */
  lemma BinaryStack(m: VM, f: (Value, Value) -> Result<Value>)
    ensures |m.stack| < 2 ==> Binary(m, f) == Failed(m)
    ensures |m.stack| >= 2 ==>
      var n := |m.stack|;
      var res := f(m.stack[n - 2], m.stack[n - 1]);
      Binary(m, f) ==
        if res.Ok? then Done(m.(stack := m.stack[..n - 2] + [res.value]))
        else Failed(m.(stack := m.stack[..n - 2]))
  {
    if |m.stack| >= 2 {
      var n := |m.stack|;
      assert Pop(m).stack == m.stack[..n - 1];
      assert Pop(Pop(m)).stack == m.stack[..n - 2];
      assert Top(Pop(m)) == m.stack[n - 2];
    }
  }

  /**
   * `sub` with `a` below `b` leaves `a - b`. The parser emits the operands of the text
   * `sub x y` so that `y` ends up below `x`: the text computes `y - x`.
   */
  lemma SubtractStack(m: VM, rest: seq<Value>, a: Int32, b: Int32, render: Value -> string)
    requires m.stack == rest + [Int(a), Int(b)]
    requires -0x8000_0000 <= a - b < 0x8000_0000
    ensures Exec(m, Plain(InstSub), render) == Done(m.(stack := rest + [Int(a - b)]))
  {
    BinaryStack(m, (l, r) => Arith(InstSub, l, r));
    assert m.stack[..|m.stack| - 2] == rest;
    SubtractionOrder(a, b, Null);
  }

  /**
   * A comparison of two Ints replaces them by one Bool, with the source's ordinal
   * arithmetic: `neq` tests equality, `lt` and `gt` both test `a > b`, `lte` and `gte`
   * both test `a >= b`.
   */
  lemma CompareStack(m: VM, rest: seq<Value>, op: Opcode, a: Int32, b: Int32, render: Value -> string)
    requires IsComparison(op)
    requires m.stack == rest + [Int(a), Int(b)]
    ensures Exec(m, Plain(op), render) == Done(m.(stack := rest + [Bool(
      if op == InstEq || op == InstNeq then a == b
      else if op == InstLess || op == InstGreater then a > b
      else a >= b)]))
  {
    BinaryStack(m, (l, r) => Compare(op, l, r));
    assert m.stack[..|m.stack| - 2] == rest;
    CompareIntegers(op, a, b);
  }

  /** NULL, CLEAR, PEEK and SWAP have no case in the interpreter's switch: they change nothing. */
  lemma UnhandledInstructions(m: VM, inst: Instruction, render: Value -> string)
    requires inst.opCode == InstNull || inst.opCode == InstClear || inst.opCode == InstPeek || inst.opCode == InstSwap
    ensures Exec(m, inst, render) == Done(m)
  {
    assert !Parsing.IsJump(inst.opCode);
  }

  /** `dup` pushes a second copy of the top; `size` pushes the depth before the push. */
  lemma DupAndSize(m: VM, render: Value -> string)
    requires |m.stack| < 0x8000_0000
    ensures |m.stack| > 0 ==> Exec(m, Plain(InstDup), render) == Done(m.(stack := m.stack + [m.stack[|m.stack| - 1]]))
    ensures |m.stack| == 0 ==> Exec(m, Plain(InstDup), render) == Failed(m)
    ensures Exec(m, Plain(InstSize), render) == Done(m.(stack := m.stack + [Int(|m.stack|)]))
  {
  }

  // --------------------------------------------------------------- control flow

  /** The control-flow instructions dispatch to `_jump_op`. */
  lemma DispatchJump(m: VM, inst: Instruction, render: Value -> string)
    requires Parsing.IsJump(inst.opCode) || inst.opCode == InstRet
    ensures Exec(m, inst, render) == ExecJump(m, inst)
  {
  }

  /** `push` appends its operand and moves on. */
  lemma PushStep(m: VM, prog: seq<Instruction>, v: Value, render: Value -> string)
    requires m.nextOp < |prog| && prog[m.nextOp] == WithArg(InstPush, v)
    ensures Step(m, prog, render) == Done(m.(stack := m.stack + [v], nextOp := SizeT(m.nextOp + 1)))
  {
    StepBy(m, prog, render, Done(m.(stack := m.stack + [v])));
  }

  /** `sub` replaces its two Int operands by their difference and moves on. */
  lemma SubtractStep(m: VM, prog: seq<Instruction>, rest: seq<Value>, a: Int32, b: Int32, render: Value -> string)
    requires m.nextOp < |prog| && prog[m.nextOp] == Plain(InstSub)
    requires m.stack == rest + [Int(a), Int(b)] && -0x8000_0000 <= a - b < 0x8000_0000
    ensures Step(m, prog, render) == Done(m.(stack := rest + [Int(a - b)], nextOp := SizeT(m.nextOp + 1)))
  {
    SubtractStack(m, rest, a, b, render);
    StepBy(m, prog, render, Done(m.(stack := rest + [Int(a - b)])));
  }

  /** Decrementing a target and then incrementing it gives the target back, modulo `size_t`. */
  lemma SizeTStep(n: int)
    ensures SizeT(SizeT(n - 1) + 1) == SizeT(n)
  {
    var q := (n - 1) / SizeRange;
    var r := (n - 1) % SizeRange;
    assert n == SizeRange * q + (r + 1);
    if r + 1 < SizeRange {
      assert SizeT(n) == r + 1;
    } else {
      assert n == SizeRange * (q + 1);
      assert SizeT(n) == 0;
    }
  }

  /** `_jump_op` on a `jump` or `call`: one before the target, and a `call` saves its own index. */
  lemma JumpExec(m: VM, n: Int32)
    ensures ExecJump(m, WithArg(InstJump, Int(n))) == Done(m.(nextOp := SizeT(n - 1)))
    ensures ExecJump(m, WithArg(InstCall, Int(n))) ==
      Done(m.(nextOp := SizeT(n - 1), returnAddrs := m.returnAddrs + [m.nextOp]))
  {
  }

  /**
   * A `jump` to label index `n` makes instruction `n` the next one: the stored target
   * minus one and the loop's increment cancel.
   */
  lemma JumpLands(m: VM, prog: seq<Instruction>, n: Int32, render: Value -> string)
    requires m.nextOp < |prog| && prog[m.nextOp] == WithArg(InstJump, Int(n))
    ensures Step(m, prog, render) == Done(m.(nextOp := SizeT(n)))
    ensures 0 <= n ==> Step(m, prog, render).state.nextOp == n
  {
    DispatchJump(m, WithArg(InstJump, Int(n)), render);
    JumpExec(m, n);
    StepBy(m, prog, render, Done(m.(nextOp := SizeT(n - 1))));
    SizeTStep(n);
  }

  /** A `call` saves its own index on the call stack and lands on its target. */
  lemma CallLands(m: VM, prog: seq<Instruction>, n: Int32, render: Value -> string)
    requires m.nextOp < |prog| && prog[m.nextOp] == WithArg(InstCall, Int(n))
    ensures Step(m, prog, render) ==
      Done(m.(nextOp := SizeT(n), returnAddrs := m.returnAddrs + [m.nextOp]))
  {
    DispatchJump(m, WithArg(InstCall, Int(n)), render);
    JumpExec(m, n);
    StepBy(m, prog, render, Done(m.(nextOp := SizeT(n - 1), returnAddrs := m.returnAddrs + [m.nextOp])));
    SizeTStep(n);
  }

  /** `_jump_op` on a `ret`: back to the last saved index, dropping it, or to 0 with none saved. */
  lemma ReturnExec(m: VM, inst: Instruction)
    requires inst.opCode == InstRet
    ensures |m.returnAddrs| == 0 ==> ExecJump(m, inst) == Done(m.(nextOp := 0))
    ensures |m.returnAddrs| > 0 ==>
      var k := |m.returnAddrs| - 1;
      ExecJump(m, inst) == Done(m.(nextOp := m.returnAddrs[k], returnAddrs := m.returnAddrs[..k]))
  {
  }

  /**
   * A `ret` resumes just after the last saved index and drops it. With no saved index
   * it restarts the program one past its first instruction.
   */
  lemma ReturnResumes(m: VM, prog: seq<Instruction>, render: Value -> string)
    requires m.nextOp < |prog| && prog[m.nextOp].opCode == InstRet
    ensures |m.returnAddrs| == 0 ==> Step(m, prog, render) == Done(m.(nextOp := 1))
    ensures |m.returnAddrs| > 0 ==>
      var k := |m.returnAddrs| - 1;
      Step(m, prog, render) ==
        Done(m.(nextOp := SizeT(m.returnAddrs[k] + 1), returnAddrs := m.returnAddrs[..k]))
  {
    DispatchJump(m, prog[m.nextOp], render);
    ReturnExec(m, prog[m.nextOp]);
    StepBy(m, prog, render, ExecJump(m, prog[m.nextOp]));
  }

  /**
   * A `call` whose target is a `ret` comes straight back: two steps later execution
   * continues after the call, with the call stack as it was.
   */
  lemma CallThenReturn(m: VM, prog: seq<Instruction>, n: Int32, render: Value -> string)
    requires m.nextOp < |prog| < SizeRange && prog[m.nextOp] == WithArg(InstCall, Int(n))
    requires 0 <= n < |prog| && prog[n].opCode == InstRet
    ensures Step(m, prog, render).Done?
    ensures var m1 := Step(m, prog, render).state;
      m1.nextOp < |prog| && Step(m1, prog, render) == Done(m.(nextOp := m.nextOp + 1))
  {
    CallLands(m, prog, n, render);
    var m1 := Step(m, prog, render).state;
    ReturnResumes(m1, prog, render);
    assert m1.returnAddrs[..|m1.returnAddrs| - 1] == m.returnAddrs;
  }

  /** `_jump_op` on a `jump_if`: it pops the condition and, when that is non-zero, lands one before the target. */
  lemma JumpIfExec(m: VM, n: Int32)
    requires |m.stack| > 0 && IsIntegral(Top(m))
    ensures ExecJump(m, WithArg(InstJumpIf, Int(n))) ==
      Done(if AsInt(Top(m)).value != 0 then Pop(m).(nextOp := SizeT(n - 1)) else Pop(m))
  {
  }

  /** A `jump_if` pops its condition; a non-zero integral condition sends execution to the target. */
  lemma JumpIfTaken(m: VM, prog: seq<Instruction>, n: Int32, render: Value -> string)
    requires m.nextOp < |prog| && prog[m.nextOp] == WithArg(InstJumpIf, Int(n))
    requires |m.stack| > 0 && IsIntegral(Top(m)) && AsInt(Top(m)).value != 0
    ensures Step(m, prog, render) == Done(Pop(m).(nextOp := SizeT(n)))
  {
    var o := Done(Pop(m).(nextOp := SizeT(n - 1)));
    DispatchJump(m, WithArg(InstJumpIf, Int(n)), render);
    JumpIfExec(m, n);
    StepBy(m, prog, render, o);
    SizeTStep(n);
  }

  /** A `jump_if` pops its condition; a zero condition falls through to the next instruction. */
  lemma JumpIfFalls(m: VM, prog: seq<Instruction>, n: Int32, render: Value -> string)
    requires m.nextOp < |prog| && prog[m.nextOp] == WithArg(InstJumpIf, Int(n))
    requires |m.stack| > 0 && IsIntegral(Top(m)) && AsInt(Top(m)).value == 0
    ensures Step(m, prog, render) == Done(Pop(m).(nextOp := SizeT(m.nextOp + 1)))
  {
    DispatchJump(m, WithArg(InstJumpIf, Int(n)), render);
    JumpIfExec(m, n);
    StepBy(m, prog, render, Done(Pop(m)));
  }

  /** A `jump_if` on an empty stack throws; on a condition that is not integral it throws after popping it. */
  lemma JumpIfThrows(m: VM, n: Int32)
    ensures |m.stack| == 0 ==> ExecJump(m, WithArg(InstJumpIf, Int(n))) == Failed(m)
    ensures |m.stack| > 0 && !IsIntegral(Top(m)) ==> ExecJump(m, WithArg(InstJumpIf, Int(n))) == Failed(Pop(m))
  {
  }

  /** The jumps the parser leaves behind: every JUMP, JUMPIF and CALL carries an Int. */
  predicate JumpsResolved(prog: seq<Instruction>)
  {
    forall k :: 0 <= k < |prog| && Parsing.IsJump(prog[k].opCode) ==> prog[k].arg.Some? && prog[k].arg.value.Int?
  }

  /** In a program whose jumps are resolved, a `jump` or `call` never throws. */
  lemma ResolvedJumpsDoNotThrow(m: VM, prog: seq<Instruction>, render: Value -> string)
    requires JumpsResolved(prog)
    requires m.nextOp < |prog| && (prog[m.nextOp].opCode == InstJump || prog[m.nextOp].opCode == InstCall)
    ensures Step(m, prog, render).Done?
  {
    assert Parsing.IsJump(prog[m.nextOp].opCode);
  }

  /**
   * `run_prog` only runs what `parse_program` produced from a reset parser, so every
   * jump it runs is resolved to a label index.
   */
  lemma ProgramsHaveResolvedJumps(s: Session, lines: seq<string>, statements: seq<seq<Token>>)
    requires TokenizeLines(TokenMap, lines) == Ok(statements)
    requires Parsing.ProgramSpec(Parsing.ResetSpec(s.parser, []), statements).Done?
    ensures JumpsResolved(Parsing.ProgramSpec(Parsing.ResetSpec(s.parser, []), statements).state.instructions)
  {
    ParsingProps.ResetSatisfiesInvariant(s.parser, []);
    ParsingProps.ProgramJumpsResolved(Parsing.ResetSpec(s.parser, []), statements);
  }

  // ------------------------------------------------------------ variables, I/O

  /** `set` and `get` dispatch to `_var_op`. */
  lemma DispatchVar(m: VM, inst: Instruction, render: Value -> string)
    requires inst.opCode == InstSet || inst.opCode == InstGet
    ensures Exec(m, inst, render) == ExecVar(m, inst)
  {
  }

  /** `print` dispatches to `_io_op`. */
  lemma DispatchPrint(m: VM, inst: Instruction, render: Value -> string)
    requires inst.opCode == InstPrint
    ensures Exec(m, inst, render) == ExecIo(m, InstPrint)
  {
  }

  /** `println` dispatches to `_io_op`. */
  lemma DispatchPrintln(m: VM, inst: Instruction, render: Value -> string)
    requires inst.opCode == InstPrintln
    ensures Exec(m, inst, render) == ExecIo(m, InstPrintln)
  {
  }

  /** `read` dispatches to `_io_op`. */
  lemma DispatchRead(m: VM, inst: Instruction, render: Value -> string)
    requires inst.opCode == InstRead
    ensures Exec(m, inst, render) == ExecIo(m, InstRead)
  {
  }

  /** `readint` dispatches to `_io_op`. */
  lemma DispatchReadInt(m: VM, inst: Instruction, render: Value -> string)
    requires inst.opCode == InstReadInt
    ensures Exec(m, inst, render) == ExecIo(m, InstReadInt)
  {
  }

  /**
   * `set` pops the top into the variable; a `get` of the same name pushes it back,
   * restoring the stack. A `get` of an unset name throws and changes nothing.
   */
  lemma SetThenGet(m: VM, name: string, render: Value -> string)
    requires |m.stack| > 0
    ensures Exec(m, WithArg(InstSet, Name(name)), render) == Done(Pop(m).(vars := m.vars[name := Top(m)]))
    ensures Exec(Pop(m).(vars := m.vars[name := Top(m)]), WithArg(InstGet, Name(name)), render) ==
      Done(m.(vars := m.vars[name := Top(m)]))
    ensures name !in m.vars ==> Exec(m, WithArg(InstGet, Name(name)), render) == Failed(m)
  {
    var m1 := Pop(m).(vars := m.vars[name := Top(m)]);
    DispatchVar(m, WithArg(InstSet, Name(name)), render);
    DispatchVar(m1, WithArg(InstGet, Name(name)), render);
    DispatchVar(m, WithArg(InstGet, Name(name)), render);
    assert m1.stack + [Top(m)] == m.stack;
  }

  /** `print` and `println` show the top and leave it on the stack; on an empty stack they throw. */
  lemma PrintKeepsStack(m: VM, render: Value -> string)
    ensures |m.stack| == 0 ==> Exec(m, Plain(InstPrint), render) == Failed(m)
    ensures |m.stack| > 0 ==>
      && Exec(m, Plain(InstPrint), render) == Done(m.(output := m.output + [Printed(Top(m))]))
      && Exec(m, Plain(InstPrintln), render) == Done(m.(output := m.output + [PrintedLine(Top(m))]))
  {
    DispatchPrint(m, Plain(InstPrint), render);
    DispatchPrintln(m, Plain(InstPrintln), render);
  }

  /** `_io_op` on `read` and `read_int`: the next line, or "" once the input is exhausted. */
  lemma ReadExec(m: VM)
    ensures |m.input| > 0 ==> ExecIo(m, InstRead) == Done(m.(stack := m.stack + [Str(m.input[0])], input := m.input[1..]))
    ensures |m.input| == 0 ==> ExecIo(m, InstRead) == Done(m.(stack := m.stack + [Str("")]))
    ensures |m.input| == 0 ==> ExecIo(m, InstReadInt).Failed?
  {
    assert Decimal.StoI("") == Err;
  }

  /**
   * `read` pushes the next input line as a Str and consumes it; once input is exhausted
   * it pushes "". `read_int` on exhausted input throws, as `std::stoi("")` does.
   */
  lemma ReadLines(m: VM, render: Value -> string)
    ensures |m.input| > 0 ==>
      Exec(m, Plain(InstRead), render) == Done(m.(stack := m.stack + [Str(m.input[0])], input := m.input[1..]))
    ensures |m.input| == 0 ==>
      && Exec(m, Plain(InstRead), render) == Done(m.(stack := m.stack + [Str("")]))
      && Exec(m, Plain(InstReadInt), render).Failed?
  {
    DispatchRead(m, Plain(InstRead), render);
    DispatchReadInt(m, Plain(InstReadInt), render);
    ReadExec(m);
  }

  // ----------------------------------------------------------------- bounded runs

  /** One step of a run that continues: the run from `m` is the run from the next state. */
  lemma RunContinues(m: VM, prog: seq<Instruction>, fuel: nat, render: Value -> string)
    requires m.nextOp < |prog| && Step(m, prog, render).Done?
    requires fuel > 0 || Run(m, prog, fuel, render).status != OutOfFuel
    ensures fuel > 0 && Run(m, prog, fuel, render) == Run(Step(m, prog, render).state, prog, fuel - 1, render)
  {
  }

  /** A step where there is an instruction to run; past the end the machine stays put. */
  function Next(m: VM, prog: seq<Instruction>, render: Value -> string): Outcome<VM>
  {
    if m.nextOp < |prog| then Step(m, prog, render) else Done(m)
  }

  /** A fuel-bounded loop over any transition function: the shape of `Run`, with the step left abstract. */
  function Loop(next: VM -> Outcome<VM>, halted: VM -> bool, m: VM, fuel: nat): RunResult
    decreases fuel
  {
    if halted(m) then RunResult(Halted, m)
    else if fuel == 0 then RunResult(OutOfFuel, m)
    else
      match next(m)
      case Failed(m1) => RunResult(Faulted, m1)
      case Done(m1) => Loop(next, halted, m1, fuel - 1)
  }

  /** `Run` is the loop over `Next`, stopping once `_next_op` leaves the program. */
  lemma {:induction false} RunIsLoop(m: VM, prog: seq<Instruction>, fuel: nat, render: Value -> string)
    ensures Run(m, prog, fuel, render) ==
      Loop((s: VM) => Next(s, prog, render), (s: VM) => s.nextOp >= |prog|, m, fuel)
    decreases fuel
  {
    if m.nextOp < |prog| && fuel > 0 && Step(m, prog, render).Done? {
      RunIsLoop(Step(m, prog, render).state, prog, fuel - 1, render);
    }
  }

  /** Whatever the step, a loop that halted or faulted is not changed by more fuel. */
  lemma {:induction false} LoopMoreFuel(next: VM -> Outcome<VM>, halted: VM -> bool, m: VM, fuel: nat, extra: nat)
    requires Loop(next, halted, m, fuel).status != OutOfFuel
    ensures Loop(next, halted, m, fuel + extra) == Loop(next, halted, m, fuel)
    decreases fuel
  {
    if !halted(m) && next(m).Done? {
      LoopMoreFuel(next, halted, next(m).state, fuel - 1, extra);
      assert fuel + extra - 1 == (fuel - 1) + extra;
    }
  }

  /** A run that halted or faulted is not changed by more fuel. */
  lemma RunMoreFuel(m: VM, prog: seq<Instruction>, fuel: nat, extra: nat, render: Value -> string)
    requires Run(m, prog, fuel, render).status != OutOfFuel
    ensures Run(m, prog, fuel + extra, render) == Run(m, prog, fuel, render)
  {
    RunIsLoop(m, prog, fuel, render);
    RunIsLoop(m, prog, fuel + extra, render);
    LoopMoreFuel((s: VM) => Next(s, prog, render), (s: VM) => s.nextOp >= |prog|, m, fuel, extra);
  }

  /** The bytecode the parser emits for `sub 1 3`: 3 is pushed first, then 1. */
  const SubOneThree: seq<Instruction> := [WithArg(InstPush, Int(3)), WithArg(InstPush, Int(1)), Plain(InstSub)]

  /** A run that continues with a completed step: the rest of the run starts from the stepped state. */
  lemma RunThrough(m: VM, prog: seq<Instruction>, fuel: nat, render: Value -> string, m1: VM)
    requires m.nextOp < |prog| && fuel > 0 && Step(m, prog, render) == Done(m1)
    ensures Run(m, prog, fuel, render) == Run(m1, prog, fuel - 1, render)
  {
  }

  /** `sub 1 3` computes 3 - 1: the run halts after three instructions with 2 alone on the stack. */
  lemma SubtractionProgram(m: VM, render: Value -> string)
    requires m == VM([], map[], [], 0, [], [])
    ensures Run(m, SubOneThree, 3, render) == RunResult(Halted, m.(stack := [Int(2)], nextOp := 3))
  {
    var m1 := m.(stack := [Int(3)], nextOp := 1);
    var m2 := m.(stack := [Int(3), Int(1)], nextOp := 2);
    var m3 := m.(stack := [Int(2)], nextOp := 3);
    assert Step(m, SubOneThree, render) == Done(m1) by {
      PushStep(m, SubOneThree, Int(3), render);
      assert [] + [Int(3)] == [Int(3)];
    }
    assert Step(m1, SubOneThree, render) == Done(m2) by {
      PushStep(m1, SubOneThree, Int(1), render);
      assert [Int(3)] + [Int(1)] == [Int(3), Int(1)];
    }
    assert Step(m2, SubOneThree, render) == Done(m3) by {
      assert m2.stack == [] + [Int(3), Int(1)];
      SubtractStep(m2, SubOneThree, [], 3, 1, render);
      assert [] + [Int(2)] == [Int(2)];
    }
    RunThrough(m, SubOneThree, 3, render, m1);
    RunThrough(m1, SubOneThree, 2, render, m2);
    RunThrough(m2, SubOneThree, 1, render, m3);
  }

  // ---------------------------------------------------------------- sessions

  /**
   * `run_expr` answers the top of the stack and leaves it there. A run that does not
   * halt answers the null Value.
   */
  lemma ExprKeepsResult(s: Session, expr: string, fuel: nat, render: Value -> string)
    ensures var r := ExprRun(s, expr, fuel, render);
      && (r.status != Halted ==> r.result == Null)
      && (r.status == Halted && |r.session.vm.stack| > 0 ==> r.result == Top(r.session.vm))
  {
  }

  /**
   * `run_prog` answers the top of the stack its run halted with and pops it: the stack
   * it leaves, plus the answer, is that final stack.
   */
  lemma ProgPopsResult(s: Session, lines: seq<string>, statements: seq<seq<Token>>, fuel: nat, render: Value -> string)
    requires TokenizeLines(TokenMap, lines) == Ok(statements)
    requires Parsing.ProgramSpec(Parsing.ResetSpec(s.parser, []), statements).Done?
    ensures var p := Parsing.ProgramSpec(Parsing.ResetSpec(s.parser, []), statements).state;
      var final := Run(s.vm.(nextOp := 0), p.instructions, fuel, render);
      var r := ProgRun(s, lines, fuel, render);
      && (final.status == Halted && |final.vm.stack| > 0 ==> r.session.vm.stack + [r.result] == final.vm.stack)
      && (final.status != Halted ==> r.result == Null && r.session.vm == final.vm)
  {
    var p := Parsing.ProgramSpec(Parsing.ResetSpec(s.parser, []), statements).state;
    var final := Run(s.vm.(nextOp := 0), p.instructions, fuel, render);
    assert ProgRun(s, lines, fuel, render) == ProgAnswer(final, p);
    AnswerPops(final, p);
  }

  /** Whatever the run ended with, the popped answer and the stack left behind make up its final stack. */
  lemma AnswerPops(final: RunResult, p: Parsing.PState)
    ensures var r := ProgAnswer(final, p);
      && (final.status == Halted && |final.vm.stack| > 0 ==> r.session.vm.stack + [r.result] == final.vm.stack)
      && (final.status != Halted ==> r.result == Null && r.session.vm == final.vm)
  {
    if final.status == Halted && |final.vm.stack| > 0 {
      assert Pop(final.vm).stack + [Top(final.vm)] == final.vm.stack;
    }
  }

  /** `reset_state` empties the variables, the call stack and the program, and keeps the stack and the output. */
  lemma ResetKeepsStack(s: Session)
    ensures ResetRun(s).vm == s.vm.(vars := map[], returnAddrs := [], nextOp := 0)
    ensures ResetRun(s).instructions == [] && ResetRun(s).parser.instructions == []
    ensures ParsingProps.JumpOperands(ResetRun(s).parser.instructions)
  {
    ParsingProps.ResetSatisfiesInvariant(s.parser, []);
  }
}
