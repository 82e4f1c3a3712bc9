/**
 * The single-pass compiler. Each statement's tokens are consumed back to front, so an
 * operator's operands are emitted before it; words wait on a word stack for the keyword
 * that uses them. A whole-program pass then replaces symbolic jump targets by indices.
 *
 * The transitions are specified as functions over `PState`, a record of the parser's
 * fields; the `Parser` class performs them in place and is proved to agree.
 */
module Parsing {
  import opened Outcomes
  import opened Values
  import opened Decimal
  import opened Instructions
  import opened Lexer

  /** `inst_map`: the opcode of each instruction keyword, in table order; `None` where `at` throws. */
  function InstLookup(w: string): Option<Opcode>
  {
    match w
    case "push" => Some(InstPush)
    case "->" => Some(InstPush)
    case "pop" => Some(InstPop)
    case "dup" => Some(InstDup)
    case "size" => Some(InstSize)
    case "add" => Some(InstAdd)
    case "+" => Some(InstAdd)
    case "sub" => Some(InstSub)
    case "-" => Some(InstSub)
    case "mul" => Some(InstMul)
    case "*" => Some(InstMul)
    case "div" => Some(InstDiv)
    case "/" => Some(InstDiv)
    case "mod" => Some(InstMod)
    case "%" => Some(InstMod)
    case "and" => Some(InstAnd)
    case "&" => Some(InstAnd)
    case "or" => Some(InstOr)
    case "|" => Some(InstOr)
    case "xor" => Some(InstXor)
    case "^" => Some(InstXor)
    case "not" => Some(InstNot)
    case "!" => Some(InstNot)
    case "eq" => Some(InstEq)
    case "==" => Some(InstEq)
    case "neq" => Some(InstNeq)
    case "!=" => Some(InstNeq)
    case "lt" => Some(InstLess)
    case "<" => Some(InstLess)
    case "gt" => Some(InstGreater)
    case ">" => Some(InstGreater)
    case "lte" => Some(InstLessEq)
    case "<=" => Some(InstLessEq)
    case "gte" => Some(InstGreaterEq)
    case ">=" => Some(InstGreaterEq)
    case "j" => Some(InstJump)
    case "jif" => Some(InstJumpIf)
    case "j==" => Some(InstJumpIf)
    case "j!=" => Some(InstJumpIf)
    case "j<" => Some(InstJumpIf)
    case "j>" => Some(InstJumpIf)
    case "j<=" => Some(InstJumpIf)
    case "j>=" => Some(InstJumpIf)
    case "call" => Some(InstCall)
    case "ret" => Some(InstRet)
    case "set" => Some(InstSet)
    case "<-" => Some(InstSet)
    case "get" => Some(InstGet)
    case "print" => Some(InstPrint)
    case "println" => Some(InstPrintln)
    case "print_p" => Some(InstPrint)
    case "println_p" => Some(InstPrintln)
    case "read" => Some(InstRead)
    case "readint" => Some(InstReadInt)
    case "at" => Some(InstAt)
    case "len" => Some(InstLen)
    case _ => None
  }

  /** The parser's fields. */
  datatype PState = PState(
    tokens: seq<Token>,
    instructions: seq<Instruction>,
    wordStack: seq<string>,
    vars: seq<string>,
    labels: map<string, nat>,
    instNo: nat,
    lineNo: nat)

  predicate IsLiteral(k: TokenKind)
  {
    k == BoolT || k == IntT || k == CharT || k == StrT
  }

  predicate IsJump(op: Opcode)
  {
    op == InstJump || op == InstJumpIf || op == InstCall
  }

  /** The Value a literal token denotes; an integer literal outside `int` throws in `std::stoi`. */
  function LiteralValue(t: Token): (r: Result<Value>)
    requires IsLiteral(t.kind)
    ensures t.kind == BoolT ==> r == Ok(Bool(t.text == "TRUE"))
    ensures t.kind == IntT ==> (r.Ok? <==> StoI(t.text).Ok?) && (r.Ok? ==> r.value == Int(StoI(t.text).value))
    ensures t.kind == StrT ==> r == Ok(Str(t.text))
    ensures t.kind == CharT && |t.text| > 0 ==> r == Ok(Char(ByteOf(t.text[0])))
  {
    match t.kind
    case BoolT => Ok(Bool(t.text == "TRUE"))
    case IntT =>
      (match StoI(t.text)
       case Ok(n) => Ok(Int(n))
       case Err => Err)
    // `std::string::operator[]` at the length yields the terminating NUL.
    case CharT => Ok(Char(if |t.text| > 0 then ByteOf(t.text[0]) else 0))
    case StrT => Ok(Str(t.text))
  }

  /** Appends one instruction that counts toward `_inst_no`. */
  function Append(s: PState, inst: Instruction): PState
  {
    s.(instructions := s.instructions + [inst], instNo := s.instNo + 1)
  }

  /** `parse_literal`. */
  function LiteralStep(s: PState, t: Token): (r: Outcome<PState>)
    requires IsLiteral(t.kind)
    ensures r.state.tokens == s.tokens
  {
    match LiteralValue(t)
    case Ok(v) => Done(Append(s, WithArg(InstPush, v)))
    case Err => Failed(s)
  }

  /**
   * Whether the token before the current one (the last one left) is `a` or `b`. The source
   * writes `!empty && back == a || back == b`, which reads `back()` of an empty vector
   * when the word opens its statement; that case is taken as "no".
   */
  predicate NextIs(tokens: seq<Token>, a: string, b: string)
  {
    |tokens| > 0 && (tokens[|tokens| - 1].text == a || tokens[|tokens| - 1].text == b)
  }

  /**
   * The same test as C++ groups it, `(!empty && back == a) || back == b`: the right operand
   * calls `back()` whenever the left one fails, on an empty vector too. `None` stands for
   * that call, which is undefined behaviour.
   */
  function NextIsAsWritten(tokens: seq<Token>, a: string, b: string): Option<bool>
  {
    if |tokens| > 0 && tokens[|tokens| - 1].text == a then Some(true)
    else if |tokens| == 0 then None
    else Some(tokens[|tokens| - 1].text == b)
  }

  /** `parse_word`. */
  function WordStep(s: PState, t: Token): (r: Outcome<PState>)
    ensures r.state.tokens == s.tokens
  {
    if NextIs(s.tokens, "set", "<-") then
      Done(s.(wordStack := s.wordStack + [t.text]))
    else if NextIs(s.tokens, "get", "->") then
      if t.text !in s.vars then Failed(s)
      else Done(s.(wordStack := s.wordStack + [t.text]))
    else
      var s1 := if t.text in s.vars then Append(s, WithArg(InstGet, Name(t.text))) else s;
      Done(s1.(wordStack := s1.wordStack + [t.text]))
  }

  /** The word stack with its top removed. */
  function Pop(s: PState): PState
    requires |s.wordStack| > 0
  {
    s.(wordStack := s.wordStack[..|s.wordStack| - 1])
  }

  function Top(s: PState): string
    requires |s.wordStack| > 0
  {
    s.wordStack[|s.wordStack| - 1]
  }

  /** `std::string::ends_with`. */
  predicate EndsWith(text: string, suffix: string)
  {
    |suffix| <= |text| && text[|text| - |suffix|..] == suffix
  }

  /**
   * The jump, conditional jump and call keywords: the operand is the label popped off
   * the word stack. The test whether the target is already known looks up the KEYWORD
   * text in the label table; when that succeeds the label itself is read with `[]`,
   * which inserts it with index 0 if it was missing. A compound `j<op>` first emits the
   * comparison named by its suffix, which does not count toward `_inst_no`.
   */
  function JumpStep(s: PState, t: Token, op: Opcode): (r: Outcome<PState>)
    requires IsJump(op)
    ensures r.state.tokens == s.tokens
  {
    if |s.wordStack| == 0 then Failed(s)
    else
      var target := Top(s);
      var s1 := Pop(s);
      var known := t.text in s.labels;
      var labels := if known && target !in s.labels then s.labels[target := 0] else s.labels;
      var arg := if known then Int(Wrap32(labels[target])) else Str(target);
      var s2 := s1.(labels := labels);
      if op == InstJumpIf && t.text != "jif" then
        if |t.text| == 0 || InstLookup(t.text[1..]).None? then Failed(s2)
        else Done(Append(s2.(instructions := s2.instructions + [Plain(InstLookup(t.text[1..]).value)]), WithArg(op, arg)))
      else Done(Append(s2, WithArg(op, arg)))
  }

  /** The print case: `print_p` and `println_p` also pop what they printed. */
  function PrintStep(s: PState, t: Token, op: Opcode): PState
  {
    var s1 := Append(s, Plain(op));
    if EndsWith(t.text, "_p") then Append(s1, Plain(InstPop)) else s1
  }

  /** `parse_inst`; a keyword missing from `inst_map` (clear, conv, type) throws in `at`. */
  function InstStep(s: PState, t: Token): (r: Outcome<PState>)
    ensures r.state.tokens == s.tokens
  {
    match InstLookup(t.text)
    case None => Failed(s)
    case Some(op) => OpStep(s, t, op)
  }

  /**
   * The explicit `get` keyword: pops the name, then checks that the KEYWORD text, not
   * the name, is a declared variable.
   */
  function GetStep(s: PState, t: Token): (r: Outcome<PState>)
    ensures r.state.tokens == s.tokens
  {
    if |s.wordStack| == 0 then Failed(s)
    else if t.text !in s.vars then Failed(Pop(s))
    else Done(Append(Pop(s), WithArg(InstGet, Name(Top(s)))))
  }

  /**
   * The `set` keyword: pops the name and emits the store; the name is declared unless a
   * variable named like the KEYWORD text already is.
   */
  function SetStep(s: PState, t: Token): (r: Outcome<PState>)
    ensures r.state.tokens == s.tokens
  {
    if |s.wordStack| == 0 then Failed(s)
    else
      var s1 := Append(Pop(s), WithArg(InstSet, Name(Top(s))));
      Done(if t.text !in s.vars then s1.(vars := s.vars + [Top(s)]) else s1)
  }

  /** The switch of `parse_inst` on the keyword's opcode. */
  function OpStep(s: PState, t: Token, op: Opcode): (r: Outcome<PState>)
    ensures r.state.tokens == s.tokens
  {
    if op == InstPush then Done(s)
    else if op == InstGet then GetStep(s, t)
    else if op == InstSet then SetStep(s, t)
    else if IsJump(op) then JumpStep(s, t, op)
    else if op == InstPrint || op == InstPrintln then Done(PrintStep(s, t, op))
    else Done(Append(s, Plain(op)))
  }

  /** `parse_label`: records the current instruction count; a second declaration throws. */
  function LabelStep(s: PState, t: Token): (r: Outcome<PState>)
    ensures r.state.tokens == s.tokens
  {
    if t.text in s.labels then Failed(s)
    else Done(s.(labels := s.labels[t.text := s.instNo]))
  }

  /** The switch of `parse_expr`: float, type and null tokens are dropped. */
  function TokenStep(s: PState, t: Token): (r: Outcome<PState>)
    ensures r.state.tokens == s.tokens
  {
    match t.kind
    case BoolT => LiteralStep(s, t)
    case IntT => LiteralStep(s, t)
    case CharT => LiteralStep(s, t)
    case StrT => LiteralStep(s, t)
    case WordT => WordStep(s, t)
    case InstT => InstStep(s, t)
    case LabelT => LabelStep(s, t)
    case _ => Done(s)
  }

  /** The token loop of `parse_expr`: takes the last token off, then handles it. */
  function Consume(s: PState): (r: Outcome<PState>)
    ensures r.Done? ==> r.state.tokens == []
    decreases |s.tokens|
  {
    if |s.tokens| == 0 then Done(s)
    else
      var t := s.tokens[|s.tokens| - 1];
      var s1 := s.(tokens := s.tokens[..|s.tokens| - 1]);
      match TokenStep(s1, t)
      case Failed(s2) => Failed(s2)
      case Done(s2) => Consume(s2)
  }

  /** `parse_expr(clear)`. */
  function ExprSpec(s: PState, clear: bool): Outcome<PState>
  {
    Consume(s.(instructions := if clear then [] else s.instructions, lineNo := s.lineNo + 1))
  }

  /** The statement loop of `parse_program`; each statement is parsed without clearing. */
  function Statements(s: PState, statements: seq<seq<Token>>): Outcome<PState>
    decreases |statements|
  {
    if |statements| == 0 then Done(s)
    else
      match ExprSpec(s.(tokens := statements[0]), false)
      case Failed(s1) => Failed(s1)
      case Done(s1) => Statements(s1, statements[1..])
  }

  /** One turn of the backpatch loop: a jump with a string operand gets the label's index. */
  function PatchOne(inst: Instruction, labels: map<string, nat>): Result<Instruction>
  {
    if !IsJump(inst.opCode) then Ok(inst)
    else if inst.arg.None? then Err
    else if !inst.arg.value.Str? then Ok(inst)
    else if inst.arg.value.s !in labels then Err
    else Ok(SetArg(inst, Int(Wrap32(labels[inst.arg.value.s]))))
  }

  /** The backpatch loop from index `i`; a fault keeps the instructions patched so far. */
  function Backpatch(instrs: seq<Instruction>, labels: map<string, nat>, i: nat): (r: Outcome<seq<Instruction>>)
    requires i <= |instrs|
    ensures |r.state| == |instrs|
    decreases |instrs| - i
  {
    if i == |instrs| then Done(instrs)
    else
      match PatchOne(instrs[i], labels)
      case Err => Failed(instrs)
      case Ok(p) => Backpatch(instrs[i := p], labels, i + 1)
  }

  /** `parse_program`. */
  function ProgramSpec(s: PState, statements: seq<seq<Token>>): Outcome<PState>
  {
    match Statements(s, statements)
    case Failed(s1) => Failed(s1)
    case Done(s1) =>
      match Backpatch(s1.instructions, s1.labels, 0)
      case Failed(patched) => Failed(s1.(instructions := patched))
      case Done(patched) => Done(s1.(instructions := patched))
  }

  /** `reset`: everything but the label table goes back to its initial value. */
  function ResetSpec(s: PState, tokens: seq<Token>): PState
  {
    PState(tokens, [], [], [], s.labels, 0, 0)
  }

  class Parser {
    var tokens: seq<Token>
    var instructions: seq<Instruction>
    var wordStack: seq<string>
    var vars: seq<string>
    var labels: map<string, nat>
    var instNo: nat
    var lineNo: nat

    function Snapshot(): PState
      reads this
    {
      PState(tokens, instructions, wordStack, vars, labels, instNo, lineNo)
    }

    /** `Parser()`. */
    constructor ()
      ensures Snapshot() == PState([], [], [], [], map[], 0, 0)
    {
      tokens := [];
      instructions := [];
      wordStack := [];
      vars := [];
      labels := map[];
      instNo := 0;
      lineNo := 0;
    }

    /** `Parser(tokens)`. */
    constructor WithTokens(ts: seq<Token>)
      ensures Snapshot() == PState(ts, [], [], [], map[], 0, 0)
    {
      tokens := ts;
      instructions := [];
      wordStack := [];
      vars := [];
      labels := map[];
      instNo := 0;
      lineNo := 0;
    }

    method ParseLiteral(token: Token) returns (ok: bool)
      requires IsLiteral(token.kind)
      modifies this
      ensures Report(ok, Snapshot()) == LiteralStep(old(Snapshot()), token)
    {
      var val: Value;
      match token.kind {
        case BoolT =>
          var boolVal := token.text == "TRUE";
          val := Bool(boolVal);
        case IntT =>
          var intVal := StoI(token.text);
          if intVal.Err? {
            return false;
          }
          val := Int(intVal.value);
        case CharT =>
          val := Char(if |token.text| > 0 then ByteOf(token.text[0]) else 0);
        case StrT =>
          val := Str(token.text);
      }
      instructions := instructions + [WithArg(InstPush, val)];
      instNo := instNo + 1;
      return true;
    }

    method ParseWord(token: Token) returns (ok: bool)
      modifies this
      ensures Report(ok, Snapshot()) == WordStep(old(Snapshot()), token)
    {
      if NextIs(tokens, "set", "<-") {
        wordStack := wordStack + [token.text];
      } else if NextIs(tokens, "get", "->") {
        if token.text !in vars {
          return false;
        }
        wordStack := wordStack + [token.text];
      } else {
        if token.text in vars {
          var nameVal := Name(token.text);
          instructions := instructions + [WithArg(InstGet, nameVal)];
          instNo := instNo + 1;
        }
        wordStack := wordStack + [token.text];
      }
      return true;
    }

    method ParseInst(token: Token) returns (ok: bool)
      modifies this
      ensures Report(ok, Snapshot()) == InstStep(old(Snapshot()), token)
    {
      var opCode := InstLookup(token.text);
      if opCode.None? {
        return false;
      }
      ok := ParseOp(token, opCode.value);
    }

    /** The body of `parse_inst` once the opcode is known. */
    method ParseOp(token: Token, opCode: Opcode) returns (ok: bool)
      modifies this
      ensures Report(ok, Snapshot()) == OpStep(old(Snapshot()), token, opCode)
    {
      if opCode == InstPush {
        // explicit push is sugar: literals are pushed already
      } else if opCode == InstGet {
        ok := ParseGet(token);
        return;
      } else if opCode == InstSet {
        ok := ParseSet(token);
        return;
      } else if opCode == InstJump || opCode == InstJumpIf || opCode == InstCall {
        ok := ParseJump(token, opCode);
        return;
      } else if opCode == InstPrint || opCode == InstPrintln {
        ParsePrint(token, opCode);
      } else {
        instructions := instructions + [Plain(opCode)];
        instNo := instNo + 1;
      }
      return true;
    }

    /** The get case of `parse_inst`. */
    method ParseGet(token: Token) returns (ok: bool)
      modifies this
      ensures Report(ok, Snapshot()) == GetStep(old(Snapshot()), token)
    {
      if |wordStack| == 0 {
        return false;
      }
      var varName := wordStack[|wordStack| - 1];
      wordStack := wordStack[..|wordStack| - 1];
      if token.text !in vars {
        return false;
      }
      instructions := instructions + [WithArg(InstGet, Name(varName))];
      instNo := instNo + 1;
      return true;
    }

    /** The set case of `parse_inst`. */
    method ParseSet(token: Token) returns (ok: bool)
      modifies this
      ensures Report(ok, Snapshot()) == SetStep(old(Snapshot()), token)
    {
      if |wordStack| == 0 {
        return false;
      }
      var varName := wordStack[|wordStack| - 1];
      wordStack := wordStack[..|wordStack| - 1];
      instructions := instructions + [WithArg(InstSet, Name(varName))];
      instNo := instNo + 1;
      if token.text !in vars {
        vars := vars + [varName];
      }
      return true;
    }

    /** The jump, conditional jump and call case of `parse_inst`. */
    method ParseJump(token: Token, opCode: Opcode) returns (ok: bool)
      requires IsJump(opCode)
      modifies this
      ensures Report(ok, Snapshot()) == JumpStep(old(Snapshot()), token, opCode)
    {
      if |wordStack| == 0 {
        return false;
      }
      var labelName := wordStack[|wordStack| - 1];
      wordStack := wordStack[..|wordStack| - 1];
      var argVal: Value;
      if token.text in labels {
        if labelName !in labels {
          labels := labels[labelName := 0];
        }
        argVal := Int(Wrap32(labels[labelName]));
      } else {
        argVal := Str(labelName);
      }
      if opCode == InstJumpIf && token.text != "jif" {
        if |token.text| == 0 {
          return false;
        }
        var condition := InstLookup(token.text[1..]);
        if condition.None? {
          return false;
        }
        instructions := instructions + [Plain(condition.value)];
      }
      instructions := instructions + [WithArg(opCode, argVal)];
      instNo := instNo + 1;
      return true;
    }

    /** The print and println case of `parse_inst`. */
    method ParsePrint(token: Token, opCode: Opcode)
      modifies this
      ensures Snapshot() == PrintStep(old(Snapshot()), token, opCode)
    {
      instructions := instructions + [Plain(opCode)];
      instNo := instNo + 1;
      if EndsWith(token.text, "_p") {
        instructions := instructions + [Plain(InstPop)];
        instNo := instNo + 1;
      }
    }

    method ParseLabel(token: Token) returns (ok: bool)
      modifies this
      ensures Report(ok, Snapshot()) == LabelStep(old(Snapshot()), token)
    {
      if token.text in labels {
        return false;
      }
      labels := labels[token.text := instNo];
      return true;
    }

    /** The switch of `parse_expr`. */
    method ParseToken(token: Token) returns (ok: bool)
      modifies this
      ensures Report(ok, Snapshot()) == TokenStep(old(Snapshot()), token)
    {
      match token.kind {
        case BoolT => ok := ParseLiteral(token);
        case IntT => ok := ParseLiteral(token);
        case CharT => ok := ParseLiteral(token);
        case StrT => ok := ParseLiteral(token);
        case WordT => ok := ParseWord(token);
        case InstT => ok := ParseInst(token);
        case LabelT => ok := ParseLabel(token);
        case _ => ok := true;
      }
    }

    /** `parse_expr(clear)`: the instructions so far, or a fault. */
    method ParseExpr(clear: bool) returns (ok: bool, out: seq<Instruction>)
      modifies this
      ensures Report(ok, Snapshot()) == ExprSpec(old(Snapshot()), clear)
      ensures out == instructions
    {
      if clear {
        instructions := [];
      }
      lineNo := lineNo + 1;
      ghost var start := Snapshot();
      assert ExprSpec(old(Snapshot()), clear) == Consume(start);
      while |tokens| > 0
        invariant Consume(Snapshot()) == Consume(start)
        decreases |tokens|
      {
        ok := ParseLastToken();
        if !ok {
          out := instructions;
          return;
        }
      }
      ok := true;
      out := instructions;
    }

    /** One turn of the token loop: takes the last token off and handles it. */
    method ParseLastToken() returns (ok: bool)
      requires |tokens| > 0
      modifies this
      ensures |tokens| < old(|tokens|)
      ensures ok ==> Consume(old(Snapshot())) == Consume(Snapshot())
      ensures !ok ==> Consume(old(Snapshot())) == Failed(Snapshot())
    {
      var token := tokens[|tokens| - 1];
      tokens := tokens[..|tokens| - 1];
      ok := ParseToken(token);
    }

    /** The backpatch loop of `parse_program`: rewrites jump operands in place. */
    method PatchJumps() returns (ok: bool)
      modifies this
      ensures Report(ok, instructions) == Backpatch(old(instructions), labels, 0)
      ensures Snapshot() == old(Snapshot()).(instructions := instructions)
    {
      var i := 0;
      while i < |instructions|
        invariant 0 <= i <= |instructions| == |old(instructions)|
        invariant Snapshot() == old(Snapshot()).(instructions := instructions)
        invariant Backpatch(old(instructions), labels, 0) == Backpatch(instructions, labels, i)
      {
        var inst := instructions[i];
        if inst.opCode == InstJump || inst.opCode == InstCall || inst.opCode == InstJumpIf {
          if inst.arg.None? {
            return false;
          }
          if inst.arg.value.Str? {
            var labelStr := inst.arg.value.s;
            if labelStr !in labels {
              return false;
            }
            var labelNo := Int(Wrap32(labels[labelStr]));
            instructions := instructions[i := SetArg(inst, labelNo)];
          } else {
            assert instructions[i := inst] == instructions;
          }
        } else {
          assert instructions[i := inst] == instructions;
        }
        i := i + 1;
      }
      return true;
    }

    /** `parse_program`: every statement, then the backpatch pass over all instructions. */
    method ParseProgram(statements: seq<seq<Token>>) returns (ok: bool, out: seq<Instruction>)
      modifies this
      ensures Report(ok, Snapshot()) == ProgramSpec(old(Snapshot()), statements)
      ensures out == instructions
    {
      for k := 0 to |statements|
        invariant Statements(old(Snapshot()), statements) == Statements(Snapshot(), statements[k..])
      {
        assert statements[k..][1..] == statements[k + 1..];
        tokens := statements[k];
        ok, out := ParseExpr(false);
        if !ok {
          return;
        }
      }
      assert statements[|statements|..] == [];
      ok := PatchJumps();
      out := instructions;
    }

    /** `reset()`. */
    method Reset()
      modifies this
      ensures Snapshot() == ResetSpec(old(Snapshot()), [])
    {
      lineNo := 0;
      instNo := 0;
      vars := [];
      wordStack := [];
      instructions := [];
      tokens := [];
    }

    /** `reset(tokens)`. */
    method ResetWith(ts: seq<Token>)
      modifies this
      ensures Snapshot() == ResetSpec(old(Snapshot()), ts)
    {
      lineNo := 0;
      instNo := 0;
      vars := [];
      wordStack := [];
      instructions := [];
      tokens := ts;
    }

    /** `set_tokens`. */
    method SetTokens(ts: seq<Token>)
      modifies this
      ensures Snapshot() == old(Snapshot()).(tokens := ts)
    {
      tokens := ts;
    }
  }
}
