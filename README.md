# EvoLang core in Dafny

EvoLang is a small stack language. A line of source is split into words and turned
into tokens. A single-pass parser turns the tokens into bytecode, patching symbolic jump
targets afterwards. A stack machine then runs the bytecode. This project models the
core of the C++ implementation:

- `Value`, the tagged scalar, and `Instruction`, an opcode with an optional operand
  (`value.dfy`, `instruction.dfy`);
- the tokenizer: `split_str`, `num_type`, `tokenize_expr`, `tokenize_program`
  (`lexer.dfy`, with properties in `lexer_props.dfy`);
- the parser class: literals, words, keywords, labels, expressions, programs, the
  backpatch pass and the resets (`parser.dfy`, `parser_props.dfy`);
- the interpreter class: the stack helpers, every instruction group, the bytecode
  loop, `run_expr`, `run_prog` and `reset_state`. The files are `interpreter.dfy` and
  `interp_props.dfy`. What each group computes from the values it pops is in `ops.dfy`
  and `ops_props.dfy`.
- `std::stoi`, which parses numerals for the parser, `readint` and `conv`, is in
  `stoi.dfy`.

The code changes state in place, and so does the model. `Parsing.Parser` and
`Interp.Interpreter` are classes whose fields mirror the C++ members. Each method is
proved equal to a step function over a record of those fields (`PState`, `VM`). An
exception becomes `Failed(state)`, which carries the state at the moment of the throw:
operands popped before a throw stay popped. The properties are lemmas about those
step functions.

The model follows the code, including where it looks unintended. Examples:
- `reset_state` keeps the value stack;
- `neq` tests equality, as `eq` does;
- `lt` and `gt` both test `a > b`;
- `lte` and `gte` both test `a >= b`;
- `set` checks the keyword's own text, not the name, against the declared variables.

Two defects are listed under "## Findings". The tokenizer keeps its string-literal length
test as written. The parser's look-ahead uses the corrected guard, because the written one
is undefined behaviour on an empty token vector.

## Model

| member | source | states |
|---|---|---|
| Values.TypeOrdinal | inc/value.hpp:6-11 | the four base tags get the ordinals below 4, and only they do |
| Values.BaseTypeOf | src/interpreter.cpp:313 | decoding an ordinal gives the base tag with that ordinal, or none when no base tag has it |
| Values.Read | inc/value.hpp:13-31 | a payload reads back only under the tag the Value carries |
| Values.Make | inc/value.hpp:33-37 | the constructed Value has the requested tag and reads back the payload written |
| Values.SetPayload | inc/value.hpp:39-55 | the tag is kept, the new payload reads back under it, and nothing reads under any other tag |
| Values.TypeOf | inc/value.hpp:30 | `get_type`: the tag a Value carries; `Make` and `SetPayload` state that it is the tag written |
| Values.GetInt | src/interpreter.cpp:72 | an `int` payload can be read exactly from Int and type-tag Values, and is the stored payload |
| Values.GetString | src/interpreter.cpp:205-208 | a string payload can be read exactly from Str, name and null Values, and is the stored payload |
| Values.IsIntegral | src/value.cpp:5-12 | true exactly for the Int, Bool and Char tags |
| Values.AsInt | src/value.cpp:15-19 | defined exactly on integral Values: a Bool gives 0 or 1, an Int itself, a Char its code |
| Values.FromInt | src/value.cpp:22-29 | an integral Value of the requested tag: a Bool is true iff the int is non-zero, a Char is the int modulo 256 |
| Values.AsIntFromInt | src/value.cpp:15-29 | converting an Int made from `n` back gives `n` |
| Values.FromIntAsInt | src/value.cpp:15-29 | rebuilding an integral Value from its integer encoding gives the same Value |
| Values.AsBool | src/interpreter.cpp:327 | defined exactly on integral Values, true iff the encoding is non-zero |
| Values.AsChar | src/interpreter.cpp:324 | defined on integral Values (the encoding modulo 256) and on non-empty strings (the first character) |
| Values.GetIndex | src/interpreter.cpp:268 | defined exactly for a string and an in-range index, giving that character as a Char |
| Values.GetLen | src/interpreter.cpp:283 | defined exactly for a string, giving its length |
| Values.EqualityIsTagSensitive | src/interpreter.cpp:134 | Values with different tags are unequal, even when their payloads agree |
| Instructions.OrdinalPosition | inc/instruction.hpp:7-44 | `static_cast<int>` of an opcode is its position in the declaration order |
| Instructions.OrdinalInjective | inc/instruction.hpp:7-44 | distinct opcodes have distinct ordinals |
| Instructions.ComparisonOrdinals | inc/instruction.hpp:25-30 | the six comparisons occupy ordinals 17 to 22; only `lte` and `gte` lie above `gt` |
| Instructions.DefaultInstruction | inc/instruction.hpp:50 | the default instruction is NULL with no operand |
| Instructions.Plain | src/instruction.cpp:5-7 | the instruction has the given opcode and no operand |
| Instructions.WithArg | src/instruction.cpp:9-12 | the instruction has the given opcode and the given operand |
| Instructions.SetArg | inc/instruction.hpp:53 | the opcode is kept and the operand is replaced |
| Instructions.SetArgOverwrites | inc/instruction.hpp:53 | a second `set_arg` overrides the first; setting the operand an instruction already has changes nothing |
| Decimal.DecimalTextValue | src/interpreter.cpp:317 | the decimal spelling of `n` reads back as `n` |
| Decimal.StoINumeral | src/interpreter.cpp:317 | `std::stoi` of the decimal spelling of any `n` in `int` range gives `n` |
| Decimal.StoINegatedNumeral | src/interpreter.cpp:317 | `std::stoi` of a minus sign and the spelling of `n` gives `-n` within range |
| Decimal.StoIDigits | src/parser.cpp:80-83 | a digit string converts to its value when that fits in `int`, and throws otherwise |
| Decimal.StoINoDigits | src/interpreter.cpp:317 | a text whose first character after the white space and one optional sign is not a digit throws |
| Decimal.StoIPrefix | src/interpreter.cpp:242 | white space, an optional `+` or `-` and a digit run, followed by anything not starting with a digit, read as the signed value of the digits, or throw when that leaves `int`; the text after the digits is ignored |
| Decimal.StoILeadingSpace | src/interpreter.cpp:242 | ` 5` reads as 5 |
| Decimal.StoITrailingText | src/interpreter.cpp:242 | `12abc` reads as 12 |
| Decimal.StoINegativeTrailingText | src/interpreter.cpp:242 | `-7 8` reads as -7 |
| Decimal.StoINoLeadingDigit | src/interpreter.cpp:242 | `x12` and `+ 1` throw |
| Decimal.StoI | src/interpreter.cpp:242 | `std::stoi`: after leading white space, an optional sign and the leading digits, or a throw when there are no digits or the value leaves `int`; `StoIPrefix` gives the result for white space, a sign, digits and any rest, and `StoINoDigits` the throw when no digit follows the sign |
| Operations.TruncDivMod | src/interpreter.cpp:61-92 | C++ `/` and `%`: `a == b*q + r`, the remainder smaller in magnitude than the divisor, and a non-zero remainder takes the dividend's sign |
| Operations.Arith | src/interpreter.cpp:61-92 | succeeds exactly for two Ints whose exact result is defined and fits in `int`, and then pushes that result |
| Operations.Logic | src/interpreter.cpp:95-120 | succeeds exactly for two integral operands with the same tag, and the result keeps the left operand's tag |
| Operations.Compare | src/interpreter.cpp:123-156 | every comparison that succeeds pushes a Bool |
| Operations.Not | src/interpreter.cpp:159-169 | defined exactly on integral Values; gives whether the encoding is non-zero |
| Operations.At | src/interpreter.cpp:256-277 | succeeds exactly for an Int index inside a string; gives that character |
| Operations.Len | src/interpreter.cpp:278-290 | succeeds exactly on a string; gives its length when that fits in `int` |
| Operations.TypeTag | src/interpreter.cpp:299-304 | the type-tag Value decodes back to the operand's base tag |
| Operations.Convert | src/interpreter.cpp:305-343 | a target that is not a type tag throws; a successful conversion to a base type has that tag |
| OperationsProps.EqualityTests | src/interpreter.cpp:131-136 | `eq` and `neq` both push whether the operands are equal |
| OperationsProps.OrderingTests | src/interpreter.cpp:137-155 | on integral operands `lt` and `gt` push `l > r`, and `lte` and `gte` push `l > r` or `l == r`; otherwise all four throw |
| OperationsProps.CompareIntegers | src/interpreter.cpp:123-156 | on two Ints every comparison yields a Bool: equality for `eq` and `neq`, `a > b` for `lt` and `gt`, `a >= b` for `lte` and `gte` |
| OperationsProps.TruncDivBound | src/interpreter.cpp:83-85 | the truncated quotient is never larger in magnitude than the dividend |
| OperationsProps.DivisionIdentity | src/interpreter.cpp:83-88 | `div` and `mod` succeed iff the divisor is non-zero and the pair is not INT_MIN and -1; their results satisfy the division identity |
| OperationsProps.AddCommutes | src/interpreter.cpp:74-76 | `add` gives the same outcome with its operands swapped |
| OperationsProps.SubtractionOrder | src/interpreter.cpp:77-79 | `sub` computes left minus right, and throws unless both operands are Ints |
| OperationsProps.LogicOnBool | src/interpreter.cpp:106-119 | on Bools the bitwise operations give the Bool of the logical operation |
| OperationsProps.LogicOnBools | src/interpreter.cpp:106-119 | `and`, `or` and `xor` on Bools are conjunction, disjunction and inequality |
| OperationsProps.LogicCommutes | src/interpreter.cpp:106-119 | each logical operation gives the same outcome with its operands swapped |
| OperationsProps.XorWithItself | src/interpreter.cpp:106-119 | an integral Value xor itself is the zero of its tag |
| OperationsProps.NotIsTruthiness | src/interpreter.cpp:159-169 | `not` of a Bool is that Bool, `not` of an Int tests it non-zero, and a string throws |
| OperationsProps.ConvertToOwnType | src/interpreter.cpp:299-343 | converting an integral Value to its own `type` gives it back |
| OperationsProps.ConvertRoundTrips | src/interpreter.cpp:313-328 | a Char converts to Int and back, and an Int converts to Bool as the non-zero test |
| OperationsProps.ConvertNumeral | src/interpreter.cpp:316-319 | a numeral string converts to its Int value, and the empty string throws |
| OperationsProps.ConvertUnknownType | src/interpreter.cpp:313-332 | a type code that names no base type pushes the default Value |
| Lexer.Find | src/lexer.cpp:83 | the first position of the delimiter, or the length when it is absent |
| Lexer.Split | src/lexer.cpp:78-95 | every piece is non-empty and free of the delimiter |
| Lexer.SplitStep | src/lexer.cpp:82-93 | one turn of the loop: the piece before the first delimiter, if non-empty, then the split of the rest |
| Lexer.SplitFirst | src/lexer.cpp:78-95 | a word followed by the delimiter is the first piece |
| Lexer.SplitWord | src/lexer.cpp:92-93 | a word without the delimiter splits to itself |
| Lexer.SplitStr | src/lexer.cpp:78-95 | the loop computes `Split`: non-empty, delimiter-free pieces that join back to the text without delimiters |
| Lexer.SplitKeepsText | src/lexer.cpp:78-95 | the pieces, joined, are the text with every delimiter removed |
| Lexer.NotNumeric | src/lexer.cpp:103-116 | a word with a character that is neither digit nor the one radix point is not numeric |
| Lexer.NumKind | src/lexer.cpp:98-118 | INT for a digit string, FLOAT for digits with one radix point not in last place, NULL otherwise; `NumType` is proved to compute it |
| Lexer.NumType | src/lexer.cpp:98-118 | the scan gives the classification: INT for digits, FLOAT for one inner radix point, NULL otherwise |
| Lexer.JoinQuoted | src/lexer.cpp:140-152 | a joined literal starts with the opening word's first character, ends with a quote, and ends at a word of the line; `JoinQuotedJoins` gives the words it joins |
| Lexer.JoinQuotedIntended | src/lexer.cpp:140-152 | the literal loop with the length test replaced by a test for running out of words; a found end is a word of the line |
| Lexer.ScanWord | src/lexer.cpp:125-173 | each emitted token consumes at least one word; `ScanKeyword`, `ScanNumeral`, `ScanQuoted`, `ScanCharQuote` and `ScanPlainWord` give the token for every kind of word |
| Lexer.PrependAssoc | src/lexer.cpp:121-175 | accumulating tokens in two steps is accumulating them at once |
| Lexer.TokenizeFrom | src/lexer.cpp:125-174 | the tokens of the words from `i` on: one per scanned token, none after a comment word, and a throw at the first malformed word; `TokenizeFromWellFormed` states their shape |
| Lexer.Tokenize | src/lexer.cpp:121-175 | the tokens of a line, from its words as `Split` cuts them; `TokenizeExpr` is proved to compute it |
| Lexer.ScanNext | src/lexer.cpp:126-172 | one turn of the loop of `tokenize_expr` emits the token `ScanWord` defines, or throws where it does |
| Lexer.TokenizeExpr | src/lexer.cpp:121-175 | the loop computes `Tokenize`: the tokens of the line, or a throw exactly where `Tokenize` fails |
| Lexer.EachLineStep | src/lexer.cpp:181-189 | the first failing line fails the program; otherwise its tokens are added and the loop goes on |
| Lexer.TokenizeLines | src/lexer.cpp:177-191 | one token list per line, in order, or a throw at the first line that fails; `TokenizeProgram` is proved to compute it |
| Lexer.TokenizeProgram | src/lexer.cpp:177-191 | the loop computes `TokenizeLines`: one token list per line, or a throw at the first bad line |
| LexerProps.TokenMapIsKeywordTable | src/lexer.cpp:9-75 | `Lexer.TokenMap` (`token_map`) is a keyword table: every keyword maps to an INST, BOOL or type kind and contains no digit, quote, colon or `#` |
| LexerProps.KeywordFacts | src/lexer.cpp:9-75 | `TRUE` is a BOOL keyword, and `push` and `print` are INST keywords |
| LexerProps.InstKindsOnly | src/lexer.cpp:9-75 | a word is an INST keyword of `token_map` exactly when it is one of the instruction words |
| LexerProps.NotKeyword | src/lexer.cpp:131-134 | a word holding a digit, a quote, a colon or `#` is never a keyword |
| LexerProps.ScanWellFormed | src/lexer.cpp:131-172 | a token scanned from a word is consistent with its kind: keyword kinds only for keywords, INT only for digit strings, FLOAT only for decimal fractions, CHAR of one character |
| LexerProps.JoinQuotedJoins | src/lexer.cpp:140-152 | when the literal loop succeeds, it stops at the first word that closes the literal, and the joined text is the words up to it joined with single spaces |
| LexerProps.ScanKeyword | src/lexer.cpp:131-134 | any word in the keyword table gives the token of the table's kind, with the word as text, and consumes one word |
| LexerProps.ScanQuoted | src/lexer.cpp:140-153 | a word opening with `"` gives a STR token whose text is the joined words without the outer quotes, ending at the first closing word, or is rejected when the loop throws |
| LexerProps.ScanCharQuote | src/lexer.cpp:154-166 | a word opening with `'` gives a CHAR exactly in the forms `'c'` (one word) and `'` followed by `'` (a space, two words), and is rejected otherwise |
| LexerProps.ScanPlainWord | src/lexer.cpp:167-172 | any other word is a LABEL named by the word without its last character when it ends in `:`, and a WORD of the whole word otherwise |
| LexerProps.ScanNumeral | src/lexer.cpp:136-138 | a numeral that is not a keyword is emitted whole, with the INT or FLOAT kind `num_type` gives it, and consumes one word |
| LexerProps.TokenizeFromWellFormed | src/lexer.cpp:125-174 | every token of a tokenized tail is well formed |
| LexerProps.TokenizeWellFormed | src/lexer.cpp:121-175 | every token of a tokenized line is well formed |
| LexerProps.CommentEndsLine | src/lexer.cpp:128-129 | a word starting with `#` ends the line with nothing more emitted |
| LexerProps.NumericWords | src/lexer.cpp:98-118 | `12` is INT, `1.5` is FLOAT, and `1.`, `1.2.3` and `-5` are not numeric |
| LexerProps.KeywordLine | src/lexer.cpp:131-134 | the line `TRUE` gives one BOOL token |
| LexerProps.NegativeLiteralIsWord | src/lexer.cpp:136-138 | `push -5` gives an INST token and a WORD `-5`, not a number |
| LexerProps.StringLiteralSplit | src/lexer.cpp:78-95 | `print "hi there"` splits into three words |
| LexerProps.StringLiteralLine | src/lexer.cpp:140-152 | `print "hi there"` joins the quoted words into one STR token without the quotes |
| LexerProps.CharLiteralLines | src/lexer.cpp:154-166 | `'a'` is a CHAR token, and `'ab'` is rejected |
| LexerProps.SpaceCharLiteralLine | src/lexer.cpp:159-162 | `' '` (two words) is the CHAR token for a space |
| LexerProps.LabelLine | src/lexer.cpp:167-169 | `loop:` is a LABEL token named `loop` |
| LexerProps.CommentSplit | src/lexer.cpp:78-95 | `push # 'ab'` splits into three words |
| LexerProps.CommentLine | src/lexer.cpp:128-129 | after `#` nothing is tokenized, not even an invalid literal |
| LexerProps.LoneOpeningQuoteRejected | src/lexer.cpp:140-145 | the line `" a"` is rejected, though its words `"` and `a"` form a closed literal: the length test at line 144 throws at the first word |
| LexerProps.QuotedPairSplit | src/lexer.cpp:78-95 | `push "a b"` splits into three words |
| LexerProps.QuotedPairWords | src/lexer.cpp:140-145 | the words `push`, `"a`, `b"` hold a closed literal, and their tokenization throws |
| LexerProps.QuotedPairRejected | src/lexer.cpp:140-145 | the line `push "a b"` is rejected, though its third word closes the literal |
| LexerProps.JoinQuotedIntendedJoins | src/lexer.cpp:140-152 | the intended loop succeeds exactly when a closing word follows, stops at the first one, and joins the words up to it with single spaces |
| LexerProps.LiteralAcceptedWhenClosed | src/lexer.cpp:140-152 | with the intended test, a literal is accepted exactly when some word closes it |
| LexerProps.JoinQuotedIntendedExtends | src/lexer.cpp:140-152 | every literal the written loop accepts, the intended loop accepts with the same text and end |
| LexerProps.QuotedPairIntended | src/lexer.cpp:140-152 | with the intended test, `push "a b"` yields the literal `"a b"` ending at its third word |
| Parsing.LiteralValue | src/parser.cpp:71-93 | a BOOL literal is true iff it reads `TRUE`; an INT literal is its `stoi` value or throws; STR and CHAR literals carry their text and first character |
| Parsing.LiteralStep | src/parser.cpp:71-93 | the pending tokens are not touched |
| Parsing.WordStep | src/parser.cpp:96-119 | the pending tokens are untouched; `WordBeforeSet`, `WordBeforeGet` and `BareWord` state the three cases |
| Parsing.GetStep | src/parser.cpp:130-142 | the pending tokens are untouched; `ExplicitGet` states the branch |
| Parsing.SetStep | src/parser.cpp:143-154 | the pending tokens are untouched; `SetKeyword` states the branch |
| Parsing.JumpStep | src/parser.cpp:155-175 | the pending tokens are untouched; `JumpNeedsLabel` and `CompoundJump` state the branch |
| Parsing.PrintStep | src/parser.cpp:176-185 | PRINT or PRINTLN, then POP for the `_p` forms, each counted; `PrintKeywordsEmit` states it |
| Parsing.InstStep | src/parser.cpp:122-193 | the pending tokens are untouched; an unmapped keyword throws (`UnmappedKeywords`) |
| Parsing.InstLookup | src/parser.cpp:11-68 | `inst_map`, with `None` where `at` throws; `MappedWordsAreInstWords`, `InstMapMatchesTokenMap` and the keyword lemmas state its entries |
| Parsing.OpStep | src/parser.cpp:126-192 | the switch of `parse_inst`; the pending tokens are untouched, and `PushKeywordEmitsNothing`, `ExplicitGet`, `SetKeyword`, `JumpNeedsLabel`, `CompoundJump`, `PrintKeywordsEmit` and `PlainKeyword` state its cases |
| Parsing.LabelStep | src/parser.cpp:195-199 | the pending tokens are untouched; `LabelDeclaration` states the step |
| Parsing.TokenStep | src/parser.cpp:210-226 | the pending tokens are untouched; `TokenStepLag` states that the counter never passes the instructions |
| Parsing.NextIsAsWritten | src/parser.cpp:98-102 | the look-ahead as C++ groups it; `NextIsGuarded` and `LoneWordStatement` state where it is undefined |
| Parsing.Backpatch | src/parser.cpp:241-250 | the patched program has as many instructions as before |
| Parsing.Consume | src/parser.cpp:202-229 | a completed expression leaves no tokens pending |
| Parsing.ExprSpec | src/parser.cpp:202-229 | `parse_expr(clear)`: clear the instructions when asked, count the line, then consume the tokens; `StatementsKeep` states the invariant it keeps |
| Parsing.Statements | src/parser.cpp:233-236 | each statement parsed in turn without clearing, stopping at the first throw |
| Parsing.PatchOne | src/parser.cpp:242-249 | one turn of the backpatch loop; `PatchOneMeaning` states it |
| Parsing.ProgramSpec | src/parser.cpp:232-252 | the statements, then the backpatch; `ProgramJumpsResolved` states that every jump then has an Int target |
| Parsing.ResetSpec | src/parser.cpp:255-272 | everything but the label table back to its initial value; `ResetSatisfiesInvariant` states what it keeps |
| Parsing.Parser.constructor | inc/parser.hpp:22 | a new parser has no tokens, no instructions, no words, no variables, no labels and zero counters |
| Parsing.Parser.WithTokens | inc/parser.hpp:23 | as the default constructor, with the given tokens pending |
| Parsing.Parser.ParseLiteral | src/parser.cpp:71-93 | the parser's new state is the literal step of its old state |
| Parsing.Parser.ParseWord | src/parser.cpp:96-119 | the parser's new state is the word step of its old state |
| Parsing.Parser.ParseInst | src/parser.cpp:122-193 | the parser's new state is the keyword step of its old state |
| Parsing.Parser.ParseOp | src/parser.cpp:126-192 | the switch on the keyword's opcode: `push` emits nothing, and a simple keyword emits its opcode, counted |
| Parsing.Parser.ParseGet | src/parser.cpp:130-142 | the `get` branch, step for step |
| Parsing.Parser.ParseSet | src/parser.cpp:143-154 | the `set` branch, step for step |
| Parsing.Parser.ParseJump | src/parser.cpp:155-175 | the jump branch, including the comparison a compound jump emits |
| Parsing.Parser.ParsePrint | src/parser.cpp:176-185 | the print branch, with the trailing POP of the `_p` forms |
| Parsing.Parser.ParseLabel | src/parser.cpp:195-199 | the label declaration step |
| Parsing.Parser.ParseToken | src/parser.cpp:210-226 | dispatch of one token on its kind |
| Parsing.Parser.ParseLastToken | src/parser.cpp:207-227 | one turn of the expression loop: the back token is consumed, and the rest of the parse is unchanged |
| Parsing.Parser.ParseExpr | src/parser.cpp:202-229 | the new state is `ExprSpec` of the old one: the tokens are consumed from the back, each through its kind's step; the instructions are returned |
| Parsing.Parser.PatchJumps | src/parser.cpp:241-250 | the loop computes `Backpatch`, which resolves every symbolic jump or throws, and touches nothing else |
| Parsing.Parser.ParseProgram | src/parser.cpp:232-252 | the new state is `ProgramSpec` of the old one: each statement parsed in turn, then the backpatch; the instructions are returned |
| Parsing.Parser.Reset | src/parser.cpp:255-262 | everything is cleared except the labels |
| Parsing.Parser.ResetWith | src/parser.cpp:265-272 | as `reset`, with the given tokens pending |
| Parsing.Parser.SetTokens | src/parser.cpp:275-277 | only the pending tokens change |
| ParsingProps.PushKeywords | src/parser.cpp:11-68 | `push` and `->` map to PUSH |
| ParsingProps.StoreKeywords | src/parser.cpp:11-68 | `set` and `<-` map to SET, `get` to GET |
| ParsingProps.PrintKeywords | src/parser.cpp:11-68 | `print` and `print_p` both map to PRINT |
| ParsingProps.UnmappedKeywords | src/parser.cpp:123 | `clear`, `conv` and `type` have no entry in the instruction map, so parsing them throws |
| ParsingProps.MappedWordsAreInstWords | src/parser.cpp:11-68 | every key of the instruction map is an INST keyword of the tokenizer's table |
| ParsingProps.InstMapMatchesTokenMap | src/parser.cpp:11-68 | of the tokenizer's INST keywords, exactly `clear`, `conv` and `type` are missing from the instruction map |
| ParsingProps.ComparisonKeywords | src/parser.cpp:11-68 | each comparison symbol maps to its opcode |
| ParsingProps.CompoundJumpKeywords | src/parser.cpp:11-68 | each `j<op>` maps to JUMPIF |
| ParsingProps.CompoundKeywords | src/parser.cpp:169-172 | a compound jump's text without its first letter names a comparison |
| ParsingProps.LiteralPushes | src/parser.cpp:71-93 | a literal emits one PUSH, counted, with an operand of the literal's tag, and changes nothing else |
| ParsingProps.IntegerLiteral | src/parser.cpp:80-83 | a numeral is pushed with its decimal value when that fits, and throws otherwise |
| ParsingProps.WordBeforeSet | src/parser.cpp:98-100 | a word before `set` or `<-` is only queued, declared or not |
| ParsingProps.WordBeforeGet | src/parser.cpp:102-107 | a word before `get` must be a declared variable and is then only queued |
| ParsingProps.BareWord | src/parser.cpp:109-118 | any other word is queued, and also read with GET when it names a declared variable |
| ParsingProps.PushKeywordEmitsNothing | src/parser.cpp:127-129 | the `push` keyword emits nothing |
| ParsingProps.SetKeyword | src/parser.cpp:143-154 | `set` pops a name and emits SET of it; it declares the name unless the keyword text is a variable; with no name it throws |
| ParsingProps.ExplicitGet | src/parser.cpp:130-142 | `get` succeeds iff a name is queued and a variable named `get` exists; it then emits GET of the name |
| ParsingProps.JumpNeedsLabel | src/parser.cpp:155-160 | a jump with no queued label throws |
| ParsingProps.CompoundJump | src/parser.cpp:161-175 | a compound jump emits its comparison and a JUMPIF to the queued label, and counts only one of them |
| ParsingProps.PrintKeywordsEmit | src/parser.cpp:176-185 | `print_p` emits PRINT then POP, and `print` only PRINT |
| ParsingProps.PlainKeyword | src/parser.cpp:186-190 | any other mapped keyword emits its opcode alone, without operand, and is counted |
| ParsingProps.LabelDeclaration | src/parser.cpp:195-199 | a label maps to the current instruction count; declaring it again throws |
| ParsingProps.PatchOneMeaning | src/parser.cpp:242-248 | only jumps with a label name change, getting the label's index; a missing operand or undeclared label throws |
| ParsingProps.BackpatchFrom | src/parser.cpp:241-250 | the loop from `i` succeeds iff each remaining instruction patches, and patches each one |
| ParsingProps.BackpatchResolves | src/parser.cpp:241-250 | backpatching throws iff some jump lacks an operand or names an undeclared label; otherwise the opcodes and non-jumps are kept and no jump has a string operand |
| ParsingProps.JumpOperandsAppend | src/parser.cpp:155-175 | appending instructions whose jumps carry an Int or a name keeps that invariant |
| ParsingProps.StatementsKeep | src/parser.cpp:233-236 | parsing every statement keeps every jump operand an Int or a name |
| ParsingProps.ProgramJumpsResolved | src/parser.cpp:232-252 | after a completed parse, every JUMP, JUMPIF and CALL carries an Int label index |
| ParsingProps.ResetSatisfiesInvariant | src/parser.cpp:255-272 | a reset parser satisfies the jump invariant and keeps its labels |
| ParsingProps.TokenStepLag | src/parser.cpp:169-174 | the instruction counter never runs ahead of the emitted instructions |
| ParsingProps.NextIsGuarded | src/parser.cpp:98-102 | the look-ahead as written is defined exactly on a non-empty token vector, and there agrees with `NextIs`; `NextIs` answers "no" on an empty one |
| ParsingProps.LoneWordStatement | src/parser.cpp:96-102 | a statement of one word parses that word with no token left, where the look-ahead as written calls `back()` on an empty vector |
| Interp.SizeT | src/interpreter.cpp:180 | a conversion to `size_t` lies below 2^64 and keeps values already in range |
| Interp.NextLine | src/interpreter.cpp:236 | `getline`: `NextLineConsumes` states it |
| Interp.ArgInt | src/interpreter.cpp:180 | `std::get<int>` of the operand; `OperandReads` states it |
| Interp.ArgString | src/interpreter.cpp:205 | `std::get<std::string>` of the operand; `OperandReads` states it |
| Interp.Binary | src/interpreter.cpp:63-67 | the operand check and two pops of a binary group; `BinaryStack` states it |
| Interp.ExecArith | src/interpreter.cpp:61-92 | `_arith_op`; `BinaryStack` and `SubtractStack` state it |
| Interp.ExecLogic | src/interpreter.cpp:95-120 | `_logic_op`; `BinaryStack` and the `Logic` lemmas state it |
| Interp.ExecCompare | src/interpreter.cpp:123-156 | `_comp_op`; `CompareStack` states it |
| Interp.ExecNot | src/interpreter.cpp:159-169 | `_not_op`; `NotIsTruthiness` gives the pushed value |
| Interp.ExecJump | src/interpreter.cpp:172-194 | `_jump_op`; `JumpExec`, `JumpIfExec` and `ReturnExec` state it |
| Interp.ExecVar | src/interpreter.cpp:197-215 | `_var_op`; `SetThenGet` states it |
| Interp.ExecIo | src/interpreter.cpp:218-253 | `_io_op`; `PrintKeepsStack` and `ReadExec` state it |
| Interp.ExecArr | src/interpreter.cpp:256-292 | `_arr_op`, popping the collection first |
| Interp.ExecType | src/interpreter.cpp:295-346 | `_type_op`, popping the target type first |
| Interp.ExecStack | src/interpreter.cpp:355-368 | the stack cases of the switch; `DupAndSize` and `PushStep` state them |
| Interp.Exec | src/interpreter.cpp:354-416 | the switch of `_run_bytecode`; `UnhandledInstructions` states the opcodes it leaves alone |
| Interp.Step | src/interpreter.cpp:353-417 | one instruction, then the `size_t` increment of `_next_op`; `RunContinues` and `RunThrough` chain it |
| Interp.Run | src/interpreter.cpp:350-419 | a halted run has `_next_op` past the end of the program |
| Interp.RunStep | src/interpreter.cpp:352-418 | with fuel left, a run is one step followed by the rest of the run, or a fault |
| Interp.RunStops | src/interpreter.cpp:352 | a run ends at once, halted when `_next_op` is past the end, and out of fuel otherwise when none is left |
| Interp.ExprRun | src/interpreter.cpp:422-431 | `run_expr`; `ExprKeepsResult` states its answer |
| Interp.ProgRun | src/interpreter.cpp:435-444 | `run_prog`; `ProgPopsResult` states its answer |
| Interp.ResetRun | src/interpreter.cpp:447-454 | `reset_state`; `ResetKeepsStack` states what it clears and keeps |
| Interp.Interpreter.constructor | inc/interpreter.hpp:12-20 | a new interpreter has empty stacks, no variables and no program, and starts at instruction 0 |
| Interp.Interpreter.StackPush | src/interpreter.cpp:17-19 | the value is pushed and nothing else changes |
| Interp.Interpreter.StackDup | src/interpreter.cpp:22-27 | succeeds iff the stack is non-empty, then pushes a copy of the top; otherwise nothing changes |
| Interp.Interpreter.StackTop | src/interpreter.cpp:44-48 | succeeds iff the stack is non-empty, giving its top |
| Interp.Interpreter.StackPop | src/interpreter.cpp:51-57 | succeeds iff the stack is non-empty, removing and giving its top |
| Interp.Interpreter.PopReturn | src/interpreter.cpp:31-37 | the last saved address, removed; 0 with nothing saved |
| Interp.Interpreter.PushReturn | src/interpreter.cpp:39-41 | the address is saved and nothing else changes |
| Interp.Interpreter.BinaryOp | src/interpreter.cpp:63-67 | two values are popped, right first, and the result pushed, as `Binary` defines |
| Interp.Interpreter.ArithOp | src/interpreter.cpp:61-92 | the state changes as the arithmetic step function defines, or throws where it does |
| Interp.Interpreter.LogicOp | src/interpreter.cpp:95-120 | the state changes as the logical step function defines, or throws where it does |
| Interp.Interpreter.CompOp | src/interpreter.cpp:123-156 | the state changes as the comparison step function defines, or throws where it does |
| Interp.Interpreter.NotOp | src/interpreter.cpp:159-169 | the state changes as the `not` step function defines, or throws where it does |
| Interp.Interpreter.JumpOp | src/interpreter.cpp:172-194 | the state changes as the jump step function defines, or throws where it does |
| Interp.Interpreter.JumpTo | src/interpreter.cpp:176-181 | the JUMP and CALL cases of the jump step |
| Interp.Interpreter.JumpIf | src/interpreter.cpp:186-192 | the JUMPIF case of the jump step |
| Interp.Interpreter.VarOp | src/interpreter.cpp:197-215 | the state changes as the variable step function defines, or throws where it does |
| Interp.Interpreter.IoOp | src/interpreter.cpp:218-253 | the state, input and output change as the I/O step function defines, or throw where it does |
| Interp.Interpreter.ArrOp | src/interpreter.cpp:256-292 | the state changes as the collection step function defines, or throws where it does |
| Interp.Interpreter.TypeOp | src/interpreter.cpp:295-346 | the state changes as the type step function defines, or throws where it does |
| Interp.Interpreter.StackOp | src/interpreter.cpp:355-368 | the stack cases of the switch |
| Interp.Interpreter.Execute | src/interpreter.cpp:354-416 | the switch: each opcode runs its group, and NULL, CLEAR, PEEK and SWAP do nothing |
| Interp.Interpreter.StepOnce | src/interpreter.cpp:352-418 | one instruction and the increment of `_next_op` |
| Interp.Interpreter.Advance | src/interpreter.cpp:352-418 | the run from the old state is the run from the new state with one unit less fuel, or a fault |
| Interp.Interpreter.RunBytecode | src/interpreter.cpp:350-419 | the loop ends in the state and status of the bounded run |
| Interp.Interpreter.RunExpr | src/interpreter.cpp:422-431 | tokenize, parse, run, and answer the top of the stack, which stays on the stack |
| Interp.Interpreter.RunProg | src/interpreter.cpp:435-444 | tokenize the lines, reset the parser, parse, run, and pop and answer the top |
| Interp.Interpreter.ResetState | src/interpreter.cpp:447-454 | variables, call stack, program and parser are reset; the value stack is kept |
| InterpProps.BinaryStack | src/interpreter.cpp:61-120 | a binary instruction throws on fewer than two values; otherwise it replaces both by the result, or leaves both popped on a throw |
| InterpProps.OperandReads | src/interpreter.cpp:205-208 | reading the operand as an `int` succeeds exactly on an Int or type-tag operand and gives its number; as a string, exactly on a string, name or null operand; an absent operand throws |
| InterpProps.NextLineConsumes | src/interpreter.cpp:236-240 | a read consumes exactly the first remaining line, and gives "" once input runs out |
| InterpProps.SubtractStack | src/interpreter.cpp:77-79 | `sub` with `a` below `b` leaves `a - b` in their place |
| InterpProps.CompareStack | src/interpreter.cpp:123-156 | a comparison of two Ints replaces them by one Bool, using the source's ordinal arithmetic |
| InterpProps.UnhandledInstructions | src/interpreter.cpp:354-416 | NULL, CLEAR, PEEK and SWAP change nothing |
| InterpProps.DupAndSize | src/interpreter.cpp:358-368 | `dup` copies the top, or throws on an empty stack; `size` pushes the depth before the push |
| InterpProps.PushStep | src/interpreter.cpp:361-365 | `push` appends its operand and moves to the next instruction |
| InterpProps.SubtractStep | src/interpreter.cpp:369-375 | `sub` replaces its operands by their difference and moves on |
| InterpProps.SizeTStep | src/interpreter.cpp:180 | storing target minus one and incrementing gives the target, modulo `size_t` |
| InterpProps.JumpExec | src/interpreter.cpp:176-181 | `jump` and `call` store target minus one; `call` saves its own index |
| InterpProps.JumpLands | src/interpreter.cpp:176-181 | after a `jump` to `n`, instruction `n` runs next |
| InterpProps.CallLands | src/interpreter.cpp:176-181 | after a `call` to `n`, instruction `n` runs next and the call's index is saved |
| InterpProps.ReturnExec | src/interpreter.cpp:182-185 | `ret` goes back to the last saved index and drops it, or to 0 with none saved |
| InterpProps.ReturnResumes | src/interpreter.cpp:31-37 | after `ret`, execution resumes just past the saved index, or at index 1 with none saved |
| InterpProps.CallThenReturn | src/interpreter.cpp:176-185 | a `call` to a `ret` comes back to the instruction after the call with the call stack as before |
| InterpProps.JumpIfExec | src/interpreter.cpp:186-192 | `jump_if` pops the condition and stores target minus one when it is non-zero |
| InterpProps.JumpIfTaken | src/interpreter.cpp:186-192 | a non-zero condition sends execution to the target |
| InterpProps.JumpIfFalls | src/interpreter.cpp:186-192 | a zero condition falls through to the next instruction |
| InterpProps.JumpIfThrows | src/interpreter.cpp:187-191 | an empty stack throws; a non-integral condition throws after being popped |
| InterpProps.ResolvedJumpsDoNotThrow | src/interpreter.cpp:176-181 | in a program with Int jump targets, `jump` and `call` never throw |
| InterpProps.ProgramsHaveResolvedJumps | src/interpreter.cpp:435-444 | every program `run_prog` runs has Int jump targets |
| InterpProps.SetThenGet | src/interpreter.cpp:197-215 | `set` pops the top into the variable, and `get` of that name restores the stack; `get` of an unset name throws |
| InterpProps.PrintKeepsStack | src/interpreter.cpp:223-234 | `print` and `println` record the top and leave it on the stack; an empty stack throws |
| InterpProps.ReadExec | src/interpreter.cpp:235-251 | `read` pushes the next line, or "" once input runs out, and `read_int` then throws |
| InterpProps.ReadLines | src/interpreter.cpp:235-251 | as ReadExec, through the interpreter's switch |
| InterpProps.RunContinues | src/interpreter.cpp:350-419 | a completed step is followed by the run from the next state |
| InterpProps.RunIsLoop | src/interpreter.cpp:350-419 | the bounded run is the generic fuel loop over one-instruction steps |
| InterpProps.LoopMoreFuel | src/interpreter.cpp:350-419 | more fuel does not change a loop that halted or faulted |
| InterpProps.RunMoreFuel | src/interpreter.cpp:350-419 | more fuel does not change a run that halted or faulted |
| InterpProps.RunThrough | src/interpreter.cpp:350-419 | with fuel left and a completed step, the run continues from the stepped state |
| InterpProps.SubtractionProgram | src/interpreter.cpp:350-419 | the bytecode of `sub 1 3` halts after three steps with 2 alone on the stack |
| InterpProps.ExprKeepsResult | src/interpreter.cpp:422-431 | `run_expr` answers the top of the final stack without popping it, or the null Value when the run did not halt |
| InterpProps.ProgPopsResult | src/interpreter.cpp:435-444 | the stack `run_prog` leaves plus its answer is the final stack of the run |
| InterpProps.AnswerPops | src/interpreter.cpp:441-443 | popping the answer off a halted run's final stack loses nothing |
| InterpProps.ResetKeepsStack | src/interpreter.cpp:447-454 | `reset_state` clears variables, call stack and program, and keeps the stack and output |

## Left out

- Console I/O. Standard input is the `input` field, a list of lines; printing appends to an `output` list. Formatting and stream buffering are not modelled.
- `Value::to_string`, `operator==`, `operator>`, `as_char`, `as_bool`, `get_index` and `get_len` have no bodies in the files modelled. `Greater`, `AsBool`, `AsChar`, `GetIndex` and `GetLen` are defined to fit their call sites, and `operator==` is Dafny's equality on Values. `to_string` is the parameter `render`.
- Values.AsInt: `src/value.cpp:18` reads `std::get<int>` from a member `_val` that the header does not declare. The model takes the integer that `static_cast<int>` gives each integral Value: a Bool is 0 or 1, an Int is itself, and a Char is its signed code.
- Values.Greater: the model assumes that `operator>` compares the integer encodings (`AsInt`) of two integral Values. The operator has no body in the files modelled, so this is an assumption, not a proved property.
- Values.TypeOrdinal: the type-tag, name and null tags are not in the header's enum. Their ordinals 4, 5 and 6 are an assumption.
- Operations.Convert: for a code naming no base type, the model pushes the null Value; the source pushes a default-constructed Value.
- Operations.Compare: the contract says only that the result is a Bool. What each comparison tests is stated in the EqualityTests, OrderingTests and CompareIntegers lemmas.
- Operations.Convert: the contract gives only the result's tag. The individual conversions are stated in the ConvertRoundTrips, ConvertNumeral, ConvertToOwnType and ConvertUnknownType lemmas.
- Operations.Len: the result is stated only for strings shorter than 2^31. Longer lengths wrap, as the `int` conversion does.
- Undefined behaviour in C++ is a fault in the model: signed overflow in `add`, `sub` and `mul`, division or remainder by zero, and INT_MIN divided by -1.
- Error messages and line numbers are not modelled. Each exception is a single fault that keeps the state reached when it was thrown.
- `_run_bytecode` can loop for ever. `Run` and `RunBytecode` take a fuel bound, and running out of fuel is reported as its own status.
- `src/main.cpp` (the REPL and file runner) is not part of this model.
- `_stack_op`, `_float_op` and `_cond_op` are declared in the header but never defined or called.
- Float tokens: the lexer classifies them, and the parser drops them, since no float Value exists.
- A string literal whose closing quote never comes reads past the end of the word list. The model treats that as a fault.
- The parser reads the back of the token vector to look ahead. On an empty vector that read is undefined behaviour; the model answers "no match" instead (see Findings).
- A Dafny `char` stands for one C++ `char` byte (`ByteOf`, `AsChar`, `GetIndex`, `GetLen`, and the character-literal test in `ScanWord`). Text outside ASCII differs: for UTF-8 text `len "é"` is 2 in C++ and 1 in the model, and the literal `'é'` is rejected by `src/lexer.cpp:157-166` but accepted by the model.
- `src/parser.cpp:235` calls `parse_expr()` with no argument, while the definition at `src/parser.cpp:202` takes `bool clear`. The header declares `parse_expr()` without it, so the call does not match the definition. `Statements` fixes `clear` to false, so each statement keeps the parser's counters, and `ExprSpec` takes `clear` as a parameter.
- `tokenize_program` reads its lines with `std::getline` from a string stream. The model takes the list of lines.
- The keyword table is a parameter of the tokenizer; callers pass the source's table, `TokenMap`.
- `Value`'s constructor and `set_value` update in place. They are modelled as functions returning a new Value (`Make`, `SetPayload`), since Values are copied by value everywhere they are used.
- Stack and `size_t` widths: the stacks are unbounded. `_next_op` is reduced modulo 2^64, and `size` truncates to `int`.

## Findings

| source | as written | input that shows it | evidently intended | confidence | as-written member | corrected member |
|---|---|---|---|---|---|---|
| src/lexer.cpp:144 | the string-literal loop throws "Unterminated string literal" when the joined word's length equals `i + 1`, the index of its current word | the line `push "a b"`: at the word `"a` the length 2 equals `i + 1` = 2, though the next word `b"` closes the literal | throw only when no word is left (`i + 1 == words.size()`), so that a literal closed by a later word is accepted | not executed | LexerProps.QuotedPairRejected | Lexer.JoinQuotedIntended |
| src/parser.cpp:98-102 | the `!empty()` guard covers only the first comparison, because `&&` binds tighter than the logical or; the second comparison calls `back()` on an empty token vector | a statement made of one word, such as `x`: the word is parsed with no token left | the guard covering both comparisons, so that an empty vector matches neither keyword | not executed | ParsingProps.LoneWordStatement | Parsing.NextIs |

The tokenizer keeps the written length test, because the model follows the code.
`JoinQuotedIntended` is the corrected loop: `LiteralAcceptedWhenClosed` proves that it accepts
a literal exactly when some word closes it, `JoinQuotedIntendedExtends` that it accepts all
the written loop accepts, and `QuotedPairIntended` that it reads `push "a b"`. The parser
uses the corrected look-ahead `NextIs`; `NextIsGuarded` proves that it agrees with the
written one wherever that one is defined.
