/**
 * The bytecode interpreter: a value stack, a variable table, a call stack of return
 * addresses and the index of the next instruction, driven by the parser's output.
 *
 * Each instruction group is specified as a function over `VM`, a record of the
 * interpreter's run-time fields, giving the state reached whether the instruction
 * completes or throws. The `Interpreter` class performs them in place and is proved
 * to agree.
 */
module Interp {
  import opened Outcomes
  import opened Values
  import opened Decimal
  import opened Instructions
  import opened Lexer
  import Parsing
  import opened Operations

  /** What `print` and `println` wrote: the Value shown, with or without a line end. */
  datatype Event = Printed(v: Value) | PrintedLine(v: Value)

  /** The interpreter's run-time fields; `input` holds the lines standard input has left. */
  datatype VM = VM(
    stack: seq<Value>,
    vars: map<string, Value>,
    returnAddrs: seq<nat>,
    nextOp: nat,
    output: seq<Event>,
    input: seq<string>)

  /** `size_t` holds residues modulo 2^64. */
  const SizeRange: nat := 0x1_0000_0000_0000_0000

  /** Conversion of an `int` expression to `size_t`. */
  function SizeT(n: int): (r: nat)
    ensures r < SizeRange
    ensures 0 <= n < SizeRange ==> r == n
  {
    n % SizeRange
  }

  function Push(m: VM, v: Value): VM
  {
    m.(stack := m.stack + [v])
  }

  function Top(m: VM): Value
    requires |m.stack| > 0
  {
    m.stack[|m.stack| - 1]
  }

  function Pop(m: VM): VM
    requires |m.stack| > 0
  {
    m.(stack := m.stack[..|m.stack| - 1])
  }

  /** `std::getline` from standard input: the next line, or "" once input is exhausted. */
  function NextLine(input: seq<string>): (string, seq<string>)
  {
    if |input| == 0 then ("", []) else (input[0], input[1..])
  }

  /** `std::get<int>(inst.arg.value().get_value())`: throws when the operand is absent or holds no `int`. */
  function ArgInt(inst: Instruction): Result<Int32>
  {
    match inst.arg
    case None => Err
    case Some(v) => GetInt(v)
  }

  /** `std::get<std::string>(inst.arg.value().get_value())`. */
  function ArgString(inst: Instruction): Result<string>
  {
    match inst.arg
    case None => Err
    case Some(v) => GetString(v)
  }

  // ------------------------------------------------------------ instruction groups

  /** A binary group: at least two values, the right operand popped first. */
  function Binary(m: VM, f: (Value, Value) -> Result<Value>): Outcome<VM>
  {
    if |m.stack| < 2 then Failed(m)
    else
      var r := Top(m);
      var m1 := Pop(m);
      var l := Top(m1);
      var m2 := Pop(m1);
      match f(l, r)
      case Err => Failed(m2)
      case Ok(v) => Done(Push(m2, v))
  }

  /** `_arith_op`. */
  function ExecArith(m: VM, op: Opcode): Outcome<VM>
    requires IsArith(op)
  {
    Binary(m, (l, r) => Arith(op, l, r))
  }

  /** `_logic_op`. */
  function ExecLogic(m: VM, op: Opcode): Outcome<VM>
    requires IsLogic(op)
  {
    Binary(m, (l, r) => Logic(op, l, r))
  }

  /** `_comp_op`. */
  function ExecCompare(m: VM, op: Opcode): Outcome<VM>
    requires IsComparison(op)
  {
    Binary(m, (l, r) => Compare(op, l, r))
  }

  /** `_not_op`. */
  function ExecNot(m: VM): Outcome<VM>
  {
    if |m.stack| < 1 then Failed(m)
    else
      var m1 := Pop(m);
      match Not(Top(m))
      case Err => Failed(m1)
      case Ok(v) => Done(Push(m1, v))
  }

  /**
   * `_jump_op`. A jump stores its target minus one, and the loop's increment lands on
   * the target; CALL saves its own index first, and RET on an empty call stack restarts
   * at index 0 (so execution resumes at index 1).
   */
  function ExecJump(m: VM, inst: Instruction): Outcome<VM>
    requires Parsing.IsJump(inst.opCode) || inst.opCode == InstRet
  {
    var op := inst.opCode;
    if op == InstJump || op == InstCall then
      var m1 := if op == InstCall then m.(returnAddrs := m.returnAddrs + [m.nextOp]) else m;
      match ArgInt(inst)
      case Err => Failed(m1)
      case Ok(n) => Done(m1.(nextOp := SizeT(n - 1)))
    else if op == InstRet then
      if |m.returnAddrs| == 0 then Done(m.(nextOp := 0))
      else Done(m.(nextOp := m.returnAddrs[|m.returnAddrs| - 1], returnAddrs := m.returnAddrs[..|m.returnAddrs| - 1]))
    else if |m.stack| == 0 then Failed(m)
    else
      var m1 := Pop(m);
      match AsInt(Top(m))
      case Err => Failed(m1)
      case Ok(c) =>
        if c == 0 then Done(m1)
        else
          match ArgInt(inst)
          case Err => Failed(m1)
          case Ok(n) => Done(m1.(nextOp := SizeT(n - 1)))
  }

  /** `_var_op`. */
  function ExecVar(m: VM, inst: Instruction): Outcome<VM>
    requires inst.opCode == InstSet || inst.opCode == InstGet
  {
    if inst.opCode == InstSet then
      if |m.stack| == 0 then Failed(m)
      else
        var m1 := Pop(m);
        match ArgString(inst)
        case Err => Failed(m1)
        case Ok(name) => Done(m1.(vars := m1.vars[name := Top(m)]))
    else
      match ArgString(inst)
      case Err => Failed(m)
      case Ok(name) => if name !in m.vars then Failed(m) else Done(Push(m, m.vars[name]))
  }

  predicate IsStackOp(op: Opcode)
  {
    op == InstPop || op == InstDup || op == InstPush || op == InstSize
  }

  predicate IsIo(op: Opcode)
  {
    op == InstPrint || op == InstPrintln || op == InstRead || op == InstReadInt
  }

  /** `_io_op`: printing shows the top value and leaves it on the stack. */
  function ExecIo(m: VM, op: Opcode): Outcome<VM>
    requires IsIo(op)
  {
    if op == InstPrint || op == InstPrintln then
      if |m.stack| == 0 then Failed(m)
      else Done(m.(output := m.output + [if op == InstPrint then Printed(Top(m)) else PrintedLine(Top(m))]))
    else
      var (line, rest) := NextLine(m.input);
      var m1 := m.(input := rest);
      if op == InstRead then Done(Push(m1, Str(line)))
      else
        match StoI(line)
        case Err => Failed(m1)
        case Ok(n) => Done(Push(m1, Int(n)))
  }

  /** `_arr_op`: `at` pops the collection, then the index. */
  function ExecArr(m: VM, op: Opcode): Outcome<VM>
    requires op == InstAt || op == InstLen
  {
    if op == InstAt then
      if |m.stack| < 2 then Failed(m)
      else
        var coll := Top(m);
        var m1 := Pop(m);
        var index := Top(m1);
        var m2 := Pop(m1);
        match At(coll, index)
        case Err => Failed(m2)
        case Ok(v) => Done(Push(m2, v))
    else
      if |m.stack| < 1 then Failed(m)
      else
        var m1 := Pop(m);
        match Len(Top(m))
        case Err => Failed(m1)
        case Ok(v) => Done(Push(m1, v))
  }

  /** `_type_op`: `conv` pops the target type, then the value. */
  function ExecType(m: VM, op: Opcode, render: Value -> string): Outcome<VM>
    requires op == InstType || op == InstConvert
  {
    if op == InstType then
      if |m.stack| == 0 then Failed(m)
      else Done(Push(Pop(m), TypeTag(Top(m))))
    else
      if |m.stack| < 2 then Failed(m)
      else
        var target := Top(m);
        var m1 := Pop(m);
        var v := Top(m1);
        var m2 := Pop(m1);
        match Convert(v, target, render)
        case Err => Failed(m2)
        case Ok(w) => Done(Push(m2, w))
  }

  /** The stack instructions the switch handles itself. */
  function ExecStack(m: VM, inst: Instruction): Outcome<VM>
    requires IsStackOp(inst.opCode)
  {
    var op := inst.opCode;
    if op == InstPop then
      if |m.stack| == 0 then Failed(m) else Done(Pop(m))
    else if op == InstDup then
      if |m.stack| == 0 then Failed(m) else Done(Push(m, Top(m)))
    else if op == InstPush then
      if inst.arg.None? then Failed(m) else Done(Push(m, inst.arg.value))
    else Done(Push(m, Int(Wrap32(|m.stack|))))
  }

  /**
   * The switch of `_run_bytecode`. NULL, CLEAR, PEEK and SWAP have no case and do
   * nothing.
   */
  function Exec(m: VM, inst: Instruction, render: Value -> string): Outcome<VM>
  {
    match inst.opCode
    case InstPop | InstDup | InstPush | InstSize => ExecStack(m, inst)
    case InstAdd | InstSub | InstMul | InstDiv | InstMod => ExecArith(m, inst.opCode)
    case InstAnd | InstOr | InstXor => ExecLogic(m, inst.opCode)
    case InstEq | InstNeq | InstLess | InstGreater | InstLessEq | InstGreaterEq => ExecCompare(m, inst.opCode)
    case InstNot => ExecNot(m)
    case InstJump | InstJumpIf | InstCall | InstRet => ExecJump(m, inst)
    case InstGet | InstSet => ExecVar(m, inst)
    case InstPrint | InstPrintln | InstRead | InstReadInt => ExecIo(m, inst.opCode)
    case InstAt | InstLen => ExecArr(m, inst.opCode)
    case InstType | InstConvert => ExecType(m, inst.opCode, render)
    case InstNull | InstClear | InstPeek | InstSwap => Done(m)
  }

  /** One turn of the loop: the instruction at `_next_op`, then the increment. */
  function Step(m: VM, prog: seq<Instruction>, render: Value -> string): Outcome<VM>
    requires m.nextOp < |prog|
  {
    match Exec(m, prog[m.nextOp], render)
    case Failed(m1) => Failed(m1)
    case Done(m1) => Done(m1.(nextOp := SizeT(m1.nextOp + 1)))
  }

  /** A step is the instruction's group function, then the increment when it completed. */
  lemma StepBy(m: VM, prog: seq<Instruction>, render: Value -> string, o: Outcome<VM>)
    requires m.nextOp < |prog| && Exec(m, prog[m.nextOp], render) == o
    ensures Step(m, prog, render) == if o.Failed? then o else Done(o.state.(nextOp := SizeT(o.state.nextOp + 1)))
  {
  }

  datatype Status = Halted | Faulted | OutOfFuel

  datatype RunResult = RunResult(status: Status, vm: VM)

  /**
   * `_run_bytecode`, for at most `fuel` instructions: it halts when `_next_op` leaves the
   * program, and stops at the first instruction that throws.
   */
  function Run(m: VM, prog: seq<Instruction>, fuel: nat, render: Value -> string): (r: RunResult)
    ensures r.status == Halted ==> r.vm.nextOp >= |prog|
    decreases fuel
  {
    if m.nextOp >= |prog| then RunResult(Halted, m)
    else if fuel == 0 then RunResult(OutOfFuel, m)
    else
      match Step(m, prog, render)
      case Failed(m1) => RunResult(Faulted, m1)
      case Done(m1) => Run(m1, prog, fuel - 1, render)
  }

  /** A run with fuel left at an instruction: that instruction's step, then the rest of the run. */
  lemma RunStep(m: VM, m1: VM, ok: bool, prog: seq<Instruction>, fuel: nat, render: Value -> string)
    requires m.nextOp < |prog| && fuel > 0 && Step(m, prog, render) == Report(ok, m1)
    ensures Run(m, prog, fuel, render) == if ok then Run(m1, prog, fuel - 1, render) else RunResult(Faulted, m1)
  {
  }

  /** A run stops at once when the program is left (a halt) or no fuel is left. */
  lemma RunStops(m: VM, prog: seq<Instruction>, fuel: nat, render: Value -> string)
    requires m.nextOp >= |prog| || fuel == 0
    ensures Run(m, prog, fuel, render) == RunResult(if m.nextOp >= |prog| then Halted else OutOfFuel, m)
  {
  }

  // ------------------------------------------------------------------ sessions

  /** Everything `run_expr` and `run_prog` touch: the run-time fields, the program and the parser. */
  datatype Session = Session(vm: VM, instructions: seq<Instruction>, parser: Parsing.PState)

  /** What `run_expr` and `run_prog` return, with the state they leave behind. */
  datatype Reply = Reply(status: Status, session: Session, result: Value)

  /**
   * `run_expr`: tokenize, parse with a cleared instruction list, run, and answer the
   * top of the stack without popping it (or the null Value on an empty stack).
   */
  function ExprRun(s: Session, expr: string, fuel: nat, render: Value -> string): Reply
  {
    var vm0 := s.vm.(nextOp := 0);
    match Tokenize(TokenMap, expr)
    case Err => Reply(Faulted, s.(vm := vm0), Null)
    case Ok(ts) =>
      match Parsing.ExprSpec(s.parser.(tokens := ts), true)
      case Failed(p1) => Reply(Faulted, Session(vm0, s.instructions, p1), Null)
      case Done(p1) =>
        var r := Run(vm0, p1.instructions, fuel, render);
        var result := if r.status == Halted && |r.vm.stack| > 0 then Top(r.vm) else Null;
        Reply(r.status, Session(r.vm, p1.instructions, p1), result)
  }

  /**
   * `run_prog`: tokenize every line, reset the parser, parse the program, run it, and
   * answer the top of the stack, POPPING it (or the null Value on an empty stack).
   */
  function ProgRun(s: Session, lines: seq<string>, fuel: nat, render: Value -> string): Reply
  {
    var vm0 := s.vm.(nextOp := 0);
    match TokenizeLines(TokenMap, lines)
    case Err => Reply(Faulted, s.(vm := vm0), Null)
    case Ok(statements) =>
      match Parsing.ProgramSpec(Parsing.ResetSpec(s.parser, []), statements)
      case Failed(p1) => Reply(Faulted, Session(vm0, s.instructions, p1), Null)
      case Done(p1) =>
        ProgAnswer(Run(vm0, p1.instructions, fuel, render), p1)
  }

  /** How `run_prog` ends once its program has run: a halted run's top is popped and answered. */
  function ProgAnswer(r: RunResult, p1: Parsing.PState): Reply
  {
    if r.status == Halted && |r.vm.stack| > 0 then
      Reply(Halted, Session(Pop(r.vm), p1.instructions, p1), Top(r.vm))
    else Reply(r.status, Session(r.vm, p1.instructions, p1), Null)
  }

  /** `reset_state`: the stack and the output are kept. */
  function ResetRun(s: Session): Session
  {
    Session(s.vm.(vars := map[], returnAddrs := [], nextOp := 0), [], Parsing.ResetSpec(s.parser, []))
  }

  class Interpreter {
    var stack: seq<Value>
    var instructions: seq<Instruction>
    var vars: map<string, Value>
    const parser: Parsing.Parser
    var lineNo: nat
    var nextOp: nat
    var returnAddrs: seq<nat>
    var output: seq<Event>
    var input: seq<string>
    /** `Value::to_string`, used by `conv` to a string. */
    const render: Value -> string

    function Snapshot(): VM
      reads this
    {
      VM(stack, vars, returnAddrs, nextOp, output, input)
    }

    function State(): Session
      reads this, parser
    {
      Session(Snapshot(), instructions, parser.Snapshot())
    }

    constructor (render: Value -> string, input: seq<string>)
      ensures State() == Session(VM([], map[], [], 0, [], input), [], Parsing.PState([], [], [], [], map[], 0, 0))
      ensures this.render == render && lineNo == 0
      ensures fresh(parser)
    {
      stack := [];
      instructions := [];
      vars := map[];
      parser := new Parsing.Parser();
      lineNo := 0;
      nextOp := 0;
      returnAddrs := [];
      output := [];
      this.render := render;
      this.input := input;
    }

    // -------------------------------------------------------------- stack access

    /** `stack_push`. */
    method StackPush(v: Value)
      modifies this
      ensures Snapshot() == Push(old(Snapshot()), v)
      ensures instructions == old(instructions) && lineNo == old(lineNo)
    {
      stack := stack + [v];
    }

    /** `stack_dup`. */
    method StackDup() returns (ok: bool)
      modifies this
      ensures ok <==> |old(stack)| > 0
      ensures ok ==> Snapshot() == Push(old(Snapshot()), Top(old(Snapshot())))
      ensures !ok ==> Snapshot() == old(Snapshot())
      ensures instructions == old(instructions) && lineNo == old(lineNo)
    {
      if |stack| == 0 {
        return false;
      }
      var v := stack[|stack| - 1];
      stack := stack + [v];
      return true;
    }

    /** `stack_top`: the top value, or a fault on an empty stack. */
    method StackTop() returns (ok: bool, v: Value)
      ensures ok <==> |stack| > 0
      ensures ok ==> v == Top(Snapshot())
    {
      if |stack| == 0 {
        return false, Null;
      }
      return true, stack[|stack| - 1];
    }

    /** `stack_pop`. */
    method StackPop() returns (ok: bool, v: Value)
      modifies this
      ensures ok <==> |old(stack)| > 0
      ensures ok ==> v == Top(old(Snapshot())) && Snapshot() == Pop(old(Snapshot()))
      ensures !ok ==> Snapshot() == old(Snapshot())
      ensures instructions == old(instructions) && lineNo == old(lineNo)
    {
      if |stack| == 0 {
        return false, Null;
      }
      v := stack[|stack| - 1];
      stack := stack[..|stack| - 1];
      return true, v;
    }

    /** `_pop_return`: the last saved address, or 0 when there is none. */
    method PopReturn() returns (addr: nat)
      modifies this
      ensures |old(returnAddrs)| == 0 ==> addr == 0 && Snapshot() == old(Snapshot())
      ensures |old(returnAddrs)| > 0 ==>
        addr == old(returnAddrs)[|old(returnAddrs)| - 1] &&
        Snapshot() == old(Snapshot()).(returnAddrs := old(returnAddrs)[..|old(returnAddrs)| - 1])
      ensures instructions == old(instructions) && lineNo == old(lineNo)
    {
      if |returnAddrs| == 0 {
        return 0;
      }
      addr := returnAddrs[|returnAddrs| - 1];
      returnAddrs := returnAddrs[..|returnAddrs| - 1];
    }

    /** `_push_return`. */
    method PushReturn(addr: nat)
      modifies this
      ensures Snapshot() == old(Snapshot()).(returnAddrs := old(returnAddrs) + [addr])
      ensures instructions == old(instructions) && lineNo == old(lineNo)
    {
      returnAddrs := returnAddrs + [addr];
    }

    // -------------------------------------------------------- instruction groups

    /** The common shape of the binary groups: pop right, pop left, compute, push. */
    method BinaryOp(f: (Value, Value) -> Result<Value>) returns (ok: bool)
      modifies this
      ensures Report(ok, Snapshot()) == Binary(old(Snapshot()), f)
      ensures instructions == old(instructions) && lineNo == old(lineNo)
    {
      if |stack| < 2 {
        return false;
      }
      var _, right := StackPop();
      var _, left := StackPop();
      var result := f(left, right);
      if result.Err? {
        return false;
      }
      StackPush(result.value);
      return true;
    }

    /** `_arith_op`. */
    method ArithOp(op: Opcode) returns (ok: bool)
      requires IsArith(op)
      modifies this
      ensures Report(ok, Snapshot()) == ExecArith(old(Snapshot()), op)
      ensures instructions == old(instructions) && lineNo == old(lineNo)
    {
      ok := BinaryOp((l, r) => Arith(op, l, r));
    }

    /** `_logic_op`. */
    method LogicOp(op: Opcode) returns (ok: bool)
      requires IsLogic(op)
      modifies this
      ensures Report(ok, Snapshot()) == ExecLogic(old(Snapshot()), op)
      ensures instructions == old(instructions) && lineNo == old(lineNo)
    {
      ok := BinaryOp((l, r) => Logic(op, l, r));
    }

    /** `_comp_op`. */
    method CompOp(op: Opcode) returns (ok: bool)
      requires IsComparison(op)
      modifies this
      ensures Report(ok, Snapshot()) == ExecCompare(old(Snapshot()), op)
      ensures instructions == old(instructions) && lineNo == old(lineNo)
    {
      ok := BinaryOp((l, r) => Compare(op, l, r));
    }

    /** `_not_op`. */
    method NotOp() returns (ok: bool)
      modifies this
      ensures Report(ok, Snapshot()) == ExecNot(old(Snapshot()))
      ensures instructions == old(instructions) && lineNo == old(lineNo)
    {
      if |stack| < 1 {
        return false;
      }
      var _, v := StackPop();
      var result := Not(v);
      if result.Err? {
        return false;
      }
      StackPush(result.value);
      return true;
    }

    /** `_jump_op`. */
    method JumpOp(inst: Instruction) returns (ok: bool)
      requires Parsing.IsJump(inst.opCode) || inst.opCode == InstRet
      modifies this
      ensures Report(ok, Snapshot()) == ExecJump(old(Snapshot()), inst)
      ensures instructions == old(instructions) && lineNo == old(lineNo)
    {
      var op := inst.opCode;
      if op == InstJump || op == InstCall {
        ok := JumpTo(inst);
      } else if op == InstRet {
        nextOp := PopReturn();
        ok := true;
      } else {
        ok := JumpIf(inst);
      }
    }

    /** The JUMP and CALL cases of `_jump_op`. */
    method JumpTo(inst: Instruction) returns (ok: bool)
      requires inst.opCode == InstJump || inst.opCode == InstCall
      modifies this
      ensures Report(ok, Snapshot()) == ExecJump(old(Snapshot()), inst)
      ensures instructions == old(instructions) && lineNo == old(lineNo)
    {
      if inst.opCode == InstCall {
        PushReturn(nextOp);
      }
      var target := ArgInt(inst);
      if target.Err? {
        return false;
      }
      var n: int := target.value;
      nextOp := SizeT(n - 1);
      return true;
    }

    /** The JUMPIF case of `_jump_op`. */
    method JumpIf(inst: Instruction) returns (ok: bool)
      requires inst.opCode == InstJumpIf
      modifies this
      ensures Report(ok, Snapshot()) == ExecJump(old(Snapshot()), inst)
      ensures instructions == old(instructions) && lineNo == old(lineNo)
    {
      if |stack| == 0 {
        return false;
      }
      var _, condition := StackPop();
      var c := AsInt(condition);
      if c.Err? {
        return false;
      }
      if c.value != 0 {
        var target := ArgInt(inst);
        if target.Err? {
          return false;
        }
        var n: int := target.value;
        nextOp := SizeT(n - 1);
      }
      return true;
    }

    /** `_var_op`. */
    method VarOp(inst: Instruction) returns (ok: bool)
      requires inst.opCode == InstSet || inst.opCode == InstGet
      modifies this
      ensures Report(ok, Snapshot()) == ExecVar(old(Snapshot()), inst)
      ensures instructions == old(instructions) && lineNo == old(lineNo)
    {
      if inst.opCode == InstSet {
        if |stack| == 0 {
          return false;
        }
        var _, v := StackPop();
        var name := ArgString(inst);
        if name.Err? {
          return false;
        }
        vars := vars[name.value := v];
        return true;
      } else {
        var name := ArgString(inst);
        if name.Err? || name.value !in vars {
          return false;
        }
        StackPush(vars[name.value]);
        return true;
      }
    }

    /** `_io_op`: standard input is the `input` field, and what is printed is appended to `output`. */
    method IoOp(op: Opcode) returns (ok: bool)
      requires IsIo(op)
      modifies this
      ensures Report(ok, Snapshot()) == ExecIo(old(Snapshot()), op)
      ensures instructions == old(instructions) && lineNo == old(lineNo)
    {
      if op == InstPrint || op == InstPrintln {
        var nonEmpty, v := StackTop();
        if !nonEmpty {
          return false;
        }
        output := output + [if op == InstPrint then Printed(v) else PrintedLine(v)];
        return true;
      }
      var line := "";
      if |input| > 0 {
        line := input[0];
        input := input[1..];
      }
      if op == InstRead {
        StackPush(Str(line));
        return true;
      }
      var n := StoI(line);
      if n.Err? {
        return false;
      }
      StackPush(Int(n.value));
      return true;
    }

    /** `_arr_op`. */
    method ArrOp(op: Opcode) returns (ok: bool)
      requires op == InstAt || op == InstLen
      modifies this
      ensures Report(ok, Snapshot()) == ExecArr(old(Snapshot()), op)
      ensures instructions == old(instructions) && lineNo == old(lineNo)
    {
      if op == InstAt {
        if |stack| < 2 {
          return false;
        }
        var _, coll := StackPop();
        var _, index := StackPop();
        var result := At(coll, index);
        if result.Err? {
          return false;
        }
        StackPush(result.value);
        return true;
      } else {
        if |stack| < 1 {
          return false;
        }
        var _, coll := StackPop();
        var result := Len(coll);
        if result.Err? {
          return false;
        }
        StackPush(result.value);
        return true;
      }
    }

    /** `_type_op`. */
    method TypeOp(op: Opcode) returns (ok: bool)
      requires op == InstType || op == InstConvert
      modifies this
      ensures Report(ok, Snapshot()) == ExecType(old(Snapshot()), op, render)
      ensures instructions == old(instructions) && lineNo == old(lineNo)
    {
      if op == InstType {
        if |stack| == 0 {
          return false;
        }
        var _, v := StackPop();
        StackPush(TypeTag(v));
        return true;
      } else {
        if |stack| < 2 {
          return false;
        }
        var _, target := StackPop();
        var _, v := StackPop();
        var result := Convert(v, target, render);
        if result.Err? {
          return false;
        }
        StackPush(result.value);
        return true;
      }
    }

    /** The stack cases of the switch. */
    method StackOp(inst: Instruction) returns (ok: bool)
      requires IsStackOp(inst.opCode)
      modifies this
      ensures Report(ok, Snapshot()) == ExecStack(old(Snapshot()), inst)
      ensures instructions == old(instructions) && lineNo == old(lineNo)
    {
      var op := inst.opCode;
      if op == InstPop {
        var popped;
        ok, popped := StackPop();
      } else if op == InstDup {
        ok := StackDup();
      } else if op == InstPush {
        if inst.arg.None? {
          return false;
        }
        StackPush(inst.arg.value);
        ok := true;
      } else {
        StackPush(Int(Wrap32(|stack|)));
        ok := true;
      }
    }

    /** The switch of `_run_bytecode`. */
    method Execute(inst: Instruction) returns (ok: bool)
      modifies this
      ensures Report(ok, Snapshot()) == Exec(old(Snapshot()), inst, render)
      ensures instructions == old(instructions) && lineNo == old(lineNo)
    {
      match inst.opCode
      case InstPop | InstDup | InstPush | InstSize =>
        ok := StackOp(inst);
      case InstAdd | InstSub | InstMul | InstDiv | InstMod =>
        ok := ArithOp(inst.opCode);
      case InstAnd | InstOr | InstXor =>
        ok := LogicOp(inst.opCode);
      case InstEq | InstNeq | InstLess | InstGreater | InstLessEq | InstGreaterEq =>
        ok := CompOp(inst.opCode);
      case InstNot =>
        ok := NotOp();
      case InstJump | InstJumpIf | InstCall | InstRet =>
        ok := JumpOp(inst);
      case InstGet | InstSet =>
        ok := VarOp(inst);
      case InstPrint | InstPrintln | InstRead | InstReadInt =>
        ok := IoOp(inst.opCode);
      case InstAt | InstLen =>
        ok := ArrOp(inst.opCode);
      case InstType | InstConvert =>
        ok := TypeOp(inst.opCode);
      case InstNull | InstClear | InstPeek | InstSwap =>
        ok := true;
    }

    /** One turn of the loop of `_run_bytecode`. */
    method StepOnce() returns (ok: bool)
      requires nextOp < |instructions|
      modifies this
      ensures Report(ok, Snapshot()) == Step(old(Snapshot()), old(instructions), render)
      ensures instructions == old(instructions) && lineNo == old(lineNo)
    {
      ghost var before := Snapshot();
      ok := Execute(instructions[nextOp]);
      StepBy(before, instructions, render, Report(ok, Snapshot()));
      if ok {
        nextOp := SizeT(nextOp + 1);
      }
    }

    /** One pass of `_run_bytecode`'s loop: the rest of the run is the run from the next state. */
    method Advance(left: nat) returns (ok: bool)
      requires nextOp < |instructions| && left > 0
      modifies this
      ensures Run(old(Snapshot()), instructions, left, render) ==
        if ok then Run(Snapshot(), instructions, left - 1, render) else RunResult(Faulted, Snapshot())
      ensures instructions == old(instructions) && lineNo == old(lineNo)
    {
      ghost var before := Snapshot();
      ok := StepOnce();
      RunStep(before, Snapshot(), ok, instructions, left, render);
    }

    /** `_run_bytecode`, stopping after `fuel` instructions. */
    method RunBytecode(fuel: nat) returns (status: Status)
      modifies this
      ensures RunResult(status, Snapshot()) == Run(old(Snapshot()), instructions, fuel, render)
      ensures instructions == old(instructions) && lineNo == old(lineNo)
    {
      var left := fuel;
      while nextOp < |instructions| && left > 0
        invariant Run(old(Snapshot()), instructions, fuel, render) == Run(Snapshot(), instructions, left, render)
        invariant instructions == old(instructions) && lineNo == old(lineNo)
        decreases left
      {
        var ok := Advance(left);
        if !ok {
          return Faulted;
        }
        left := left - 1;
      }
      RunStops(Snapshot(), instructions, left, render);
      status := if nextOp >= |instructions| then Halted else OutOfFuel;
    }

    // ------------------------------------------------------------- entry points

    /** `run_expr`. */
    method RunExpr(expr: string, fuel: nat) returns (status: Status, result: Value)
      modifies this, parser
      ensures Reply(status, State(), result) == ExprRun(old(State()), expr, fuel, render)
      ensures lineNo == old(lineNo)
    {
      nextOp := 0;
      var tokens := TokenizeExpr(TokenMap, expr);
      if tokens.Err? {
        return Faulted, Null;
      }
      parser.SetTokens(tokens.value);
      var ok, out := parser.ParseExpr(true);
      if !ok {
        return Faulted, Null;
      }
      instructions := out;
      status := RunBytecode(fuel);
      result := Null;
      if status == Halted && |stack| > 0 {
        var _, top := StackTop();
        result := top;
      }
    }

    /** `run_prog`, over the program's lines. */
    method RunProg(lines: seq<string>, fuel: nat) returns (status: Status, result: Value)
      modifies this, parser
      ensures Reply(status, State(), result) == ProgRun(old(State()), lines, fuel, render)
      ensures lineNo == old(lineNo)
    {
      nextOp := 0;
      var statements := TokenizeProgram(TokenMap, lines);
      if statements.Err? {
        return Faulted, Null;
      }
      parser.Reset();
      var ok, out := parser.ParseProgram(statements.value);
      if !ok {
        return Faulted, Null;
      }
      instructions := out;
      status := RunBytecode(fuel);
      result := Null;
      if status == Halted && |stack| > 0 {
        var _, top := StackPop();
        result := top;
      }
    }

    /** `reset_state`. */
    method ResetState()
      modifies this, parser
      ensures State() == ResetRun(old(State())) && lineNo == 0
    {
      returnAddrs := [];
      lineNo := 0;
      nextOp := 0;
      parser.Reset();
      instructions := [];
      vars := map[];
    }
  }
}
