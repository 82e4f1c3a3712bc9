/** What each parser transition does, and what the backpatch pass guarantees. */
module ParsingProps {
  import opened Outcomes
  import opened Values
  import opened Decimal
  import opened Instructions
  import opened Lexer
  import opened Parsing
  import LexerProps

  // ------------------------------------------------------------ keyword lookups

  lemma PushKeywords()
    ensures InstLookup("push") == Some(InstPush) && InstLookup("->") == Some(InstPush)
  {
  }

  lemma StoreKeywords()
    ensures InstLookup("set") == Some(InstSet) && InstLookup("<-") == Some(InstSet)
    ensures InstLookup("get") == Some(InstGet)
  {
  }

  lemma PrintKeywords()
    ensures InstLookup("print") == Some(InstPrint) && InstLookup("print_p") == Some(InstPrint)
  {
  }

  lemma ClearUnmapped() ensures InstLookup("clear") == None {}
  lemma ConvUnmapped() ensures InstLookup("conv") == None {}
  lemma TypeUnmapped() ensures InstLookup("type") == None {}

  /** `clear`, `conv` and `type` are instruction words to the lexer but are missing from `inst_map`. */
  lemma UnmappedKeywords(s: PState, t: Token)
    requires t.text == "clear" || t.text == "conv" || t.text == "type"
    ensures InstStep(s, t) == Failed(s)
  {
    ClearUnmapped();
    ConvUnmapped();
    TypeUnmapped();
  }

  /** The six compound jumps and the comparison each one's suffix names. */
  function CompoundCondition(text: string): Option<Opcode>
  {
    if text == "j==" then Some(InstEq)
    else if text == "j!=" then Some(InstNeq)
    else if text == "j<" then Some(InstLess)
    else if text == "j>" then Some(InstGreater)
    else if text == "j<=" then Some(InstLessEq)
    else if text == "j>=" then Some(InstGreaterEq)
    else None
  }

  lemma ComparisonKeywords()
    ensures InstLookup("==") == Some(InstEq) && InstLookup("!=") == Some(InstNeq)
    ensures InstLookup("<") == Some(InstLess) && InstLookup(">") == Some(InstGreater)
    ensures InstLookup("<=") == Some(InstLessEq) && InstLookup(">=") == Some(InstGreaterEq)
  {
  }

  lemma CompoundJumpKeywords()
    ensures InstLookup("j==") == Some(InstJumpIf) && InstLookup("j!=") == Some(InstJumpIf)
    ensures InstLookup("j<") == Some(InstJumpIf) && InstLookup("j>") == Some(InstJumpIf)
    ensures InstLookup("j<=") == Some(InstJumpIf) && InstLookup("j>=") == Some(InstJumpIf)
  {
  }

  /** Each compound jump keyword is a conditional jump, and its suffix names its comparison. */
  lemma CompoundKeywords(text: string)
    requires CompoundCondition(text).Some?
    ensures InstLookup(text) == Some(InstJumpIf) && text != "jif"
    ensures |text| > 0 && InstLookup(text[1..]) == CompoundCondition(text)
    ensures IsComparison(CompoundCondition(text).value)
  {
    ComparisonKeywords();
    CompoundJumpKeywords();
    if text == "j==" {
      assert text[1..] == "==";
    } else if text == "j!=" {
      assert text[1..] == "!=";
    } else if text == "j<" {
      assert text[1..] == "<";
    } else if text == "j>" {
      assert text[1..] == ">";
    } else if text == "j<=" {
      assert text[1..] == "<=";
    } else {
      assert text[1..] == ">=";
    }
  }

  // ------------------------------------------------------------------ literals

  /** The value tag each literal token kind is pushed with. */
  function LiteralType(k: TokenKind): ValueType
  {
    match k
    case BoolT => TypeBool
    case IntT => TypeInt
    case CharT => TypeChar
    case _ => TypeStr
  }

  /**
   * A literal emits exactly one PUSH, counted in `_inst_no`, whose operand has the
   * literal's own tag; a boolean literal is true exactly when it reads "TRUE".
   */
  lemma LiteralPushes(s: PState, t: Token)
    requires IsLiteral(t.kind) && (t.kind == IntT ==> StoI(t.text).Ok?)
    ensures LiteralStep(s, t).Done?
    ensures var s1 := LiteralStep(s, t).state;
      && |s1.instructions| == |s.instructions| + 1
      && s1.instructions[..|s.instructions|] == s.instructions
      && s1.instNo == s.instNo + 1
      && s1 == s.(instructions := s1.instructions, instNo := s1.instNo)
    ensures var inst := LiteralStep(s, t).state.instructions[|s.instructions|];
      && inst.opCode == InstPush && inst.arg.Some?
      && TypeOf(inst.arg.value) == LiteralType(t.kind)
      && (t.kind == BoolT ==> (inst.arg.value.b <==> t.text == "TRUE"))
  {
    var s1 := LiteralStep(s, t).state;
    assert s1.instructions[..|s.instructions|] == s.instructions;
  }

  /**
   * A numeral the lexer produced is pushed with its decimal value when that fits in an
   * `int`; beyond that `std::stoi` throws.
   */
  lemma IntegerLiteral(s: PState, t: Token)
    requires t.kind == IntT && |t.text| > 0 && AllDigits(t.text)
    ensures DigitsValue(t.text) < 0x8000_0000 ==>
      LiteralStep(s, t) == Done(Append(s, WithArg(InstPush, Int(DigitsValue(t.text)))))
    ensures DigitsValue(t.text) >= 0x8000_0000 ==> LiteralStep(s, t) == Failed(s)
  {
    StoIDigits(t.text);
  }

  // --------------------------------------------------------------------- words

  /** A word before `set`/`<-` is only queued, whether or not it names a declared variable. */
  lemma WordBeforeSet(s: PState, t: Token)
    requires NextIs(s.tokens, "set", "<-")
    ensures WordStep(s, t) == Done(s.(wordStack := s.wordStack + [t.text]))
  {
  }

  /** A word before `get`/`->` must name a declared variable, and is then only queued. */
  lemma WordBeforeGet(s: PState, t: Token)
    requires NextIs(s.tokens, "get", "->") && !NextIs(s.tokens, "set", "<-")
    ensures WordStep(s, t).Failed? <==> t.text !in s.vars
    ensures WordStep(s, t).Done? ==> WordStep(s, t).state == s.(wordStack := s.wordStack + [t.text])
  {
  }

  /**
   * A word with no pending set or get is queued (it may be a label); if it names a
   * declared variable a GET of it is emitted too (an implicit read).
   */
  lemma BareWord(s: PState, t: Token)
    requires !NextIs(s.tokens, "set", "<-") && !NextIs(s.tokens, "get", "->")
    ensures WordStep(s, t).Done?
    ensures var s1 := WordStep(s, t).state;
      && s1.wordStack == s.wordStack + [t.text]
      && (t.text in s.vars ==> s1.instructions == s.instructions + [WithArg(InstGet, Name(t.text))] && s1.instNo == s.instNo + 1)
      && (t.text !in s.vars ==> s1.instructions == s.instructions && s1.instNo == s.instNo)
  {
  }

  // ------------------------------------------------------------------ keywords

  /** The explicit `push` keyword emits nothing: literals are pushed already. */
  lemma PushKeywordEmitsNothing(s: PState, t: Token)
    requires t.text == "push" || t.text == "->"
    ensures InstStep(s, t) == Done(s)
  {
    PushKeywords();
  }

  /**
   * `set` pops one name and emits SET of it; the name is declared (appended, even when it
   * already is) unless a variable literally named like the keyword exists. With no
   * pending name it faults.
   */
  lemma SetKeyword(s: PState, t: Token)
    requires t.text == "set" || t.text == "<-"
    ensures |s.wordStack| == 0 ==> InstStep(s, t) == Failed(s)
    ensures |s.wordStack| > 0 ==> InstStep(s, t).Done?
    ensures |s.wordStack| > 0 ==>
      var name := s.wordStack[|s.wordStack| - 1];
      var s1 := InstStep(s, t).state;
      && s1.wordStack == s.wordStack[..|s.wordStack| - 1]
      && s1.instructions == s.instructions + [WithArg(InstSet, Name(name))]
      && s1.instNo == s.instNo + 1
      && s1.vars == (if t.text in s.vars then s.vars else s.vars + [name])
  {
    StoreKeywords();
  }

  /**
   * The explicit `get` keyword checks its own text against the declared variables, so it
   * succeeds only when a variable named "get" exists, whatever the name it pops.
   */
  lemma ExplicitGet(s: PState, t: Token)
    requires t.text == "get"
    ensures InstStep(s, t).Done? <==> |s.wordStack| > 0 && "get" in s.vars
    ensures InstStep(s, t).Done? ==>
      InstStep(s, t).state.instructions == s.instructions + [WithArg(InstGet, Name(s.wordStack[|s.wordStack| - 1]))]
  {
    StoreKeywords();
  }

  /** A jump, conditional jump or call with no pending label faults. */
  lemma JumpNeedsLabel(s: PState, t: Token, op: Opcode)
    requires IsJump(op) && |s.wordStack| == 0
    ensures JumpStep(s, t, op) == Failed(s)
  {
  }

  /**
   * A compound jump `j<op>` emits the comparison named by its suffix and then JUMPIF with
   * the popped label; only the JUMPIF is counted, so `_inst_no` falls one further behind
   * the number of instructions.
   */
  lemma CompoundJump(s: PState, t: Token)
    requires CompoundCondition(t.text).Some? && |s.wordStack| > 0 && t.text !in s.labels
    ensures InstStep(s, t).Done?
    ensures var s1 := InstStep(s, t).state;
      var cmp := CompoundCondition(t.text).value;
      && IsComparison(cmp)
      && s1.instructions == s.instructions + [Plain(cmp), WithArg(InstJumpIf, Str(s.wordStack[|s.wordStack| - 1]))]
      && s1.instNo == s.instNo + 1
      && s1.wordStack == s.wordStack[..|s.wordStack| - 1]
  {
    CompoundKeywords(t.text);
    var s1 := InstStep(s, t).state;
    assert s.instructions + [Plain(CompoundCondition(t.text).value)] + [WithArg(InstJumpIf, Str(s.wordStack[|s.wordStack| - 1]))]
        == s.instructions + [Plain(CompoundCondition(t.text).value), WithArg(InstJumpIf, Str(s.wordStack[|s.wordStack| - 1]))];
  }

  /** `print_p` prints and then pops; plain `print` only prints. */
  lemma PrintKeywordsEmit(s: PState, p: Token, q: Token)
    requires p.text == "print_p" && q.text == "print"
    ensures InstStep(s, p) == Done(s.(instructions := s.instructions + [Plain(InstPrint), Plain(InstPop)], instNo := s.instNo + 2))
    ensures InstStep(s, q) == Done(s.(instructions := s.instructions + [Plain(InstPrint)], instNo := s.instNo + 1))
  {
    PrintKeywords();
    assert EndsWith(p.text, "_p");
    assert !EndsWith(q.text, "_p");
    assert s.instructions + [Plain(InstPrint)] + [Plain(InstPop)] == s.instructions + [Plain(InstPrint), Plain(InstPop)];
  }

  /** The first group of instruction words: all but `clear` are in the instruction map. */
  lemma InstWordsMapped1(w: string)
    requires w in InstWords1
    ensures InstLookup(w).None? <==> w == "clear" || w == "conv" || w == "type"
  {
  }

  /** The second group of instruction words: all are in the instruction map. */
  lemma InstWordsMapped2(w: string)
    requires w in InstWords2
    ensures InstLookup(w).None? <==> w == "clear" || w == "conv" || w == "type"
  {
  }

  /** The third group of instruction words: all are in the instruction map. */
  lemma InstWordsMapped3(w: string)
    requires w in InstWords3
    ensures InstLookup(w).None? <==> w == "clear" || w == "conv" || w == "type"
  {
  }

  /** The last group of instruction words: all but `conv` and `type` are in the instruction map. */
  lemma InstWordsMapped4(w: string)
    requires w in InstWords4
    ensures InstLookup(w).None? <==> w == "clear" || w == "conv" || w == "type"
  {
  }

  /** A word outside the tokenizer's instruction words is not in the instruction map. */
  lemma UnlistedUnmapped(w: string)
    requires w !in InstWords1 && w !in InstWords2 && w !in InstWords3 && w !in InstWords4
    ensures InstLookup(w).None?
  {
  }

  /** Every key of the instruction map is an instruction word of the tokenizer's table. */
  lemma MappedWordsAreInstWords(w: string)
    requires InstLookup(w).Some?
    ensures w in TokenMap && TokenMap[w] == InstT
  {
    LexerProps.InstKindsOnly(w);
    if w !in InstWords1 && w !in InstWords2 && w !in InstWords3 && w !in InstWords4 {
      UnlistedUnmapped(w);
    }
  }

  /**
   * The tokenizer's instruction words are all in the instruction map except `clear`,
   * `conv` and `type`, which the tokenizer classifies as instructions and the map lacks.
   */
  lemma InstMapMatchesTokenMap(w: string)
    requires w in TokenMap && TokenMap[w] == InstT
    ensures InstLookup(w).None? <==> w == "clear" || w == "conv" || w == "type"
  {
    LexerProps.InstKindsOnly(w);
    if w in InstWords1 {
      InstWordsMapped1(w);
    } else if w in InstWords2 {
      InstWordsMapped2(w);
    } else if w in InstWords3 {
      InstWordsMapped3(w);
    } else {
      InstWordsMapped4(w);
    }
  }

  /** Any keyword outside push, get, set, the jumps and the prints is emitted alone, without operand. */
  lemma PlainKeyword(s: PState, t: Token, op: Opcode)
    requires op != InstPush && op != InstGet && op != InstSet && op != InstPrint && op != InstPrintln && !IsJump(op)
    ensures OpStep(s, t, op) == Done(s.(instructions := s.instructions + [Plain(op)], instNo := s.instNo + 1))
  {
  }

  /** A label maps to the current `_inst_no`; declaring it a second time faults. */
  lemma LabelDeclaration(s: PState, t: Token)
    ensures LabelStep(s, t).Failed? <==> t.text in s.labels
    ensures LabelStep(s, t).Done? ==> LabelStep(s, t).state == s.(labels := s.labels[t.text := s.instNo])
  {
  }

  // ------------------------------------------------------------------ backpatch

  /** The patch of one instruction: only jumps change, and a patched jump no longer has a string operand. */
  lemma PatchOneMeaning(inst: Instruction, labels: map<string, nat>)
    ensures PatchOne(inst, labels).Ok? <==>
      (IsJump(inst.opCode) ==> inst.arg.Some? && (inst.arg.value.Str? ==> inst.arg.value.s in labels))
    ensures PatchOne(inst, labels).Ok? ==>
      var p := PatchOne(inst, labels).value;
      && p.opCode == inst.opCode
      && (!IsJump(inst.opCode) || !inst.arg.value.Str? ==> p == inst)
      && (IsJump(inst.opCode) && inst.arg.value.Str? ==> p.arg == Some(Int(Wrap32(labels[inst.arg.value.s]))))
  {
  }

  /** The backpatch loop from `i` succeeds exactly when every remaining instruction patches, and patches each one. */
  lemma {:induction false} BackpatchFrom(instrs: seq<Instruction>, labels: map<string, nat>, i: nat)
    requires i <= |instrs|
    ensures Backpatch(instrs, labels, i).Done? <==> forall k :: i <= k < |instrs| ==> PatchOne(instrs[k], labels).Ok?
    ensures Backpatch(instrs, labels, i).Done? ==>
      var r := Backpatch(instrs, labels, i).state;
      && r[..i] == instrs[..i]
      && forall k :: i <= k < |instrs| ==> PatchOne(instrs[k], labels) == Ok(r[k])
    decreases |instrs| - i
  {
    if i < |instrs| {
      match PatchOne(instrs[i], labels)
      case Err =>
      case Ok(p) =>
        var next := instrs[i := p];
        BackpatchFrom(next, labels, i + 1);
        assert forall k :: i < k < |instrs| ==> next[k] == instrs[k];
        if Backpatch(instrs, labels, i).Done? {
          var r := Backpatch(next, labels, i + 1).state;
          assert r[..i + 1] == next[..i + 1];
          assert r[..i] == instrs[..i] by {
            assert next[..i] == instrs[..i];
            assert r[..i] == r[..i + 1][..i];
          }
          assert r[i] == p by {
            assert r[..i + 1][i] == next[..i + 1][i];
          }
        }
    }
  }

  /**
   * The backpatch pass: it faults exactly when some jump has no operand or names an
   * undeclared label; otherwise it keeps every opcode and every non-jump instruction,
   * and no jump is left with a string operand.
   */
  lemma BackpatchResolves(instrs: seq<Instruction>, labels: map<string, nat>)
    ensures Backpatch(instrs, labels, 0).Failed? <==>
      exists k :: 0 <= k < |instrs| && IsJump(instrs[k].opCode) &&
        (instrs[k].arg.None? || (instrs[k].arg.value.Str? && instrs[k].arg.value.s !in labels))
    ensures Backpatch(instrs, labels, 0).Done? ==>
      var r := Backpatch(instrs, labels, 0).state;
      && |r| == |instrs|
      && (forall k :: 0 <= k < |r| ==> r[k].opCode == instrs[k].opCode)
      && (forall k :: 0 <= k < |r| && !IsJump(r[k].opCode) ==> r[k] == instrs[k])
      && (forall k :: 0 <= k < |r| && IsJump(r[k].opCode) ==> r[k].arg.Some? && !r[k].arg.value.Str?)
  {
    BackpatchFrom(instrs, labels, 0);
    forall k | 0 <= k < |instrs| {
      PatchOneMeaning(instrs[k], labels);
    }
  }

  // --------------------------------------------------------- program invariant

  /** Every jump the parser emits carries a label index or a label name (or no operand at all). */
  predicate JumpOperands(instrs: seq<Instruction>)
  {
    forall k :: 0 <= k < |instrs| && IsJump(instrs[k].opCode) && instrs[k].arg.Some? ==>
      instrs[k].arg.value.Int? || instrs[k].arg.value.Str?
  }

  lemma JumpOperandsAppend(instrs: seq<Instruction>, more: seq<Instruction>)
    requires JumpOperands(instrs) && JumpOperands(more)
    ensures JumpOperands(instrs + more)
  {
    forall k | 0 <= k < |instrs + more| && IsJump((instrs + more)[k].opCode) && (instrs + more)[k].arg.Some?
      ensures (instrs + more)[k].arg.value.Int? || (instrs + more)[k].arg.value.Str?
    {
      if k >= |instrs| {
        assert (instrs + more)[k] == more[k - |instrs|];
      }
    }
  }

  lemma AppendKeeps(s: PState, inst: Instruction)
    requires JumpOperands(s.instructions)
    requires IsJump(inst.opCode) && inst.arg.Some? ==> inst.arg.value.Int? || inst.arg.value.Str?
    ensures JumpOperands(Append(s, inst).instructions)
  {
    JumpOperandsAppend(s.instructions, [inst]);
  }

  lemma JumpStepKeeps(s: PState, t: Token, op: Opcode)
    requires IsJump(op) && JumpOperands(s.instructions)
    ensures JumpOperands(JumpStep(s, t, op).state.instructions)
  {
    if |s.wordStack| > 0 {
      var target := Top(s);
      var known := t.text in s.labels;
      var labels := if known && target !in s.labels then s.labels[target := 0] else s.labels;
      var arg := if known then Int(Wrap32(labels[target])) else Str(target);
      var s2 := Pop(s).(labels := labels);
      var jump := WithArg(op, arg);
      if op == InstJumpIf && t.text != "jif" {
        if |t.text| > 0 && InstLookup(t.text[1..]).Some? {
          var cmp := Plain(InstLookup(t.text[1..]).value);
          JumpOperandsAppend(s.instructions, [cmp]);
          AppendKeeps(s2.(instructions := s.instructions + [cmp]), jump);
        }
      } else {
        AppendKeeps(s2, jump);
      }
    }
  }

  lemma OpStepKeeps(s: PState, t: Token, op: Opcode)
    requires JumpOperands(s.instructions)
    ensures JumpOperands(OpStep(s, t, op).state.instructions)
  {
    if op == InstGet && |s.wordStack| > 0 {
      AppendKeeps(Pop(s), WithArg(InstGet, Name(Top(s))));
    } else if op == InstSet && |s.wordStack| > 0 {
      AppendKeeps(Pop(s), WithArg(InstSet, Name(Top(s))));
    } else if IsJump(op) {
      JumpStepKeeps(s, t, op);
    } else if op == InstPrint || op == InstPrintln {
      AppendKeeps(s, Plain(op));
      AppendKeeps(Append(s, Plain(op)), Plain(InstPop));
    } else if op != InstPush {
      AppendKeeps(s, Plain(op));
    }
  }

  /** Every parser transition keeps the jump-operand invariant, whether it completes or throws. */
  lemma TokenStepKeeps(s: PState, t: Token)
    requires JumpOperands(s.instructions)
    ensures JumpOperands(TokenStep(s, t).state.instructions)
  {
    match t.kind
    case BoolT => AppendKeeps(s, WithArg(InstPush, Null));
    case IntT => AppendKeeps(s, WithArg(InstPush, Null));
    case CharT => AppendKeeps(s, WithArg(InstPush, Null));
    case StrT => AppendKeeps(s, WithArg(InstPush, Null));
    case WordT =>
      if t.text in s.vars {
        AppendKeeps(s, WithArg(InstGet, Name(t.text)));
      }
    case InstT =>
      if InstLookup(t.text).Some? {
        OpStepKeeps(s, t, InstLookup(t.text).value);
      }
    case _ =>
  }

  lemma {:induction false} ConsumeKeeps(s: PState)
    requires JumpOperands(s.instructions)
    ensures JumpOperands(Consume(s).state.instructions)
    decreases |s.tokens|
  {
    if |s.tokens| > 0 {
      var t := s.tokens[|s.tokens| - 1];
      var s1 := s.(tokens := s.tokens[..|s.tokens| - 1]);
      TokenStepKeeps(s1, t);
      if TokenStep(s1, t).Done? {
        ConsumeKeeps(TokenStep(s1, t).state);
      }
    }
  }

  lemma {:induction false} StatementsKeep(s: PState, statements: seq<seq<Token>>)
    requires JumpOperands(s.instructions)
    ensures JumpOperands(Statements(s, statements).state.instructions)
    decreases |statements|
  {
    if |statements| > 0 {
      var s0 := s.(tokens := statements[0]);
      var e := ExprSpec(s0, false);
      assert JumpOperands(e.state.instructions) by { ConsumeKeeps(s0.(lineNo := s0.lineNo + 1)); }
      if e.Done? {
        assert Statements(s, statements) == Statements(e.state, statements[1..]);
        StatementsKeep(e.state, statements[1..]);
      } else {
        assert Statements(s, statements) == Failed(e.state);
      }
    }
  }

  /**
   * After `parse_program` completes, every JUMP, JUMPIF and CALL carries an Int label
   * index: no target is left symbolic. Every state the parser starts from (a fresh or
   * reset parser has no instructions) satisfies the invariant assumed here.
   */
  lemma ProgramJumpsResolved(s: PState, statements: seq<seq<Token>>)
    requires JumpOperands(s.instructions)
    requires ProgramSpec(s, statements).Done?
    ensures var r := ProgramSpec(s, statements).state.instructions;
      forall k :: 0 <= k < |r| && IsJump(r[k].opCode) ==> r[k].arg.Some? && r[k].arg.value.Int?
  {
    StatementsKeep(s, statements);
    var s1 := Statements(s, statements).state;
    BackpatchResolves(s1.instructions, s1.labels);
    var r := Backpatch(s1.instructions, s1.labels, 0).state;
    forall k | 0 <= k < |r| && IsJump(r[k].opCode)
      ensures r[k].arg.Some? && r[k].arg.value.Int?
    {
      BackpatchFrom(s1.instructions, s1.labels, 0);
      PatchOneMeaning(s1.instructions[k], s1.labels);
    }
  }

  /** A fresh or reset parser satisfies the jump-operand invariant. */
  lemma ResetSatisfiesInvariant(s: PState, tokens: seq<Token>)
    ensures JumpOperands(ResetSpec(s, tokens).instructions)
    ensures ResetSpec(s, tokens).labels == s.labels
  {
  }

  // -------------------------------------------------------------- instruction count

  /** Outside a compound jump, `_inst_no` moves in step with the instructions; it never runs ahead of them. */
  lemma TokenStepLag(s: PState, t: Token)
    requires s.instNo <= |s.instructions|
    ensures TokenStep(s, t).state.instNo <= |TokenStep(s, t).state.instructions|
  {
    if t.kind == InstT && InstLookup(t.text).Some? {
      var op := InstLookup(t.text).value;
      if IsJump(op) && |s.wordStack| > 0 {
        var r := JumpStep(s, t, op);
        assert r.state.instNo <= |r.state.instructions|;
      }
    }
  }

  // ----------------------------------------------------------------- findings

  /**
   * The written look-ahead is defined exactly on a non-empty token vector, and there it
   * agrees with `NextIs`, which answers "no" on an empty one.
   */
  lemma NextIsGuarded(tokens: seq<Token>, a: string, b: string)
    ensures NextIsAsWritten(tokens, a, b).None? <==> |tokens| == 0
    ensures NextIsAsWritten(tokens, a, b).Some? ==> (NextIsAsWritten(tokens, a, b).value <==> NextIs(tokens, a, b))
    ensures |tokens| == 0 ==> !NextIs(tokens, a, b)
  {
  }

  /**
   * A statement made of one word, such as `x`, parses that word with no token left, where
   * the written look-ahead calls `back()` on the empty vector.
   */
  lemma LoneWordStatement(s: PState, t: Token)
    requires t.kind == WordT
    ensures Consume(s.(tokens := [t])) == WordStep(s.(tokens := []), t)
    ensures NextIsAsWritten(s.(tokens := []).tokens, "set", "<-") == None
    ensures NextIsAsWritten(s.(tokens := []).tokens, "get", "->") == None
  {
    var s1 := s.(tokens := [t]);
    assert s1.tokens[..0] == [];
    assert s1.(tokens := s1.tokens[..0]) == s.(tokens := []);
  }
}
