/**
 * The tokenizer: a line is split at spaces, and each word is classified in a fixed
 * order: comment marker, keyword, number, string literal (which may swallow the words
 * after it), character literal, label declaration, bare word.
 */
module Lexer {
  import opened Outcomes
  import opened Decimal

  /** `TokenType`; the .cpp files also use a float and a type-name kind. */
  datatype TokenKind = IntT | StrT | CharT | BoolT | InstT | WordT | LabelT | NullT | FloatT | TypeT

  datatype Token = Token(kind: TokenKind, text: string)

  /**
   * `token_map`: the words whose kind is fixed, whatever else they look like. The
   * instruction words are kept in four groups, in table order, only so that the
   * verifier can rule a word out of the table group by group.
   */
  const InstWords1: set<string> := {
    "push", "->", "pop", "clear", "dup", "size", "add", "+", "sub", "-", "mul", "*", "div", "/", "mod"}
  const InstWords2: set<string> := {
    "%", "and", "&", "or", "|", "xor", "^", "not", "!", "eq", "==", "neq", "!=", "gt", ">"}
  const InstWords3: set<string> := {
    "lt", "<", "gte", ">=", "lte", "<=", "j", "jif", "j==", "j!=", "j<", "j>", "j<=", "j>=", "call"}
  const InstWords4: set<string> := {
    "ret", "set", "<-", "get", "print", "println", "print_p", "println_p", "read", "readint",
    "at", "len", "conv", "type"}
  const InstWords: set<string> := InstWords1 + InstWords2 + InstWords3 + InstWords4
  const BoolWords: set<string> := {"TRUE", "FALSE"}
  const TypeWords: set<string> := {"int", "bool", "char", "string"}

  const InstKinds: map<string, TokenKind> := map w | w in InstWords :: InstT
  const BoolKinds: map<string, TokenKind> := map w | w in BoolWords :: BoolT
  const TypeKinds: map<string, TokenKind> := map w | w in TypeWords :: TypeT
  const TokenMap: map<string, TokenKind> := InstKinds + BoolKinds + TypeKinds

  // ---------------------------------------------------------------- split_str

  /** `s.find(d)`: the first position of `d`, or `|s|` for `npos`. */
  function Find(s: string, d: char): (k: nat)
    ensures k <= |s|
    ensures k < |s| ==> s[k] == d
    ensures forall j :: 0 <= j < k ==> s[j] != d
  {
    if |s| == 0 || s[0] == d then 0 else 1 + Find(s[1..], d)
  }

  /** The pieces `split_str` returns: the text between delimiters, empty pieces dropped. */
  function Split(s: string, d: char): (r: seq<string>)
    ensures forall k :: 0 <= k < |r| ==> |r[k]| > 0 && d !in r[k]
    decreases |s|
  {
    var k := Find(s, d);
    if k == |s| then (if |s| > 0 then [s] else [])
    else (if k > 0 then [s[..k]] else []) + Split(s[k + 1..], d)
  }

  /** One step of splitting: the piece before the first delimiter, then the split of the rest. */
  lemma SplitStep(s: string, d: char)
    ensures Find(s, d) < |s| ==>
      Split(s, d) == (if Find(s, d) > 0 then [s[..Find(s, d)]] else []) + Split(s[Find(s, d) + 1..], d)
    ensures Find(s, d) == |s| ==> Split(s, d) == (if |s| > 0 then [s] else [])
  {
  }

  lemma FindAbsent(s: string, d: char)
    requires d !in s
    ensures Find(s, d) == |s|
  {
    if |s| > 0 {
      FindAbsent(s[1..], d);
    }
  }

  lemma FindFirst(a: string, d: char, b: string)
    requires d !in a
    ensures Find(a + [d] + b, d) == |a|
  {
    if |a| > 0 {
      assert (a + [d] + b)[1..] == a[1..] + [d] + b;
      FindFirst(a[1..], d, b);
    }
  }

  /** A word without delimiter is one piece. */
  lemma SplitWord(w: string, d: char)
    requires |w| > 0 && d !in w
    ensures Split(w, d) == [w]
  {
    FindAbsent(w, d);
  }

  /** A word, one delimiter, and the rest: the word is the first piece. */
  lemma SplitFirst(w: string, d: char, rest: string)
    requires |w| > 0 && d !in w
    ensures Split(w + [d] + rest, d) == [w] + Split(rest, d)
  {
    var s := w + [d] + rest;
    FindFirst(w, d, rest);
    assert s[..|w|] == w;
    assert s[|w| + 1..] == rest;
  }

  /** `split_str`: cuts the text in front of each delimiter off the remaining string. */
  method SplitStr(str: string, delim: char) returns (out: seq<string>)
    ensures out == Split(str, delim)
  {
    var rest := str;
    out := [];
    assert out + Split(rest, delim) == Split(str, delim);
    while Find(rest, delim) < |rest|
      invariant out + Split(rest, delim) == Split(str, delim)
      decreases |rest|
    {
      var delimPos := Find(rest, delim);
      var piece := rest[..delimPos];
      SplitStep(rest, delim);
      var tail := rest[delimPos + 1..];
      if |piece| > 0 {
        assert out + ([piece] + Split(tail, delim)) == (out + [piece]) + Split(tail, delim);
        out := out + [piece];
      } else {
        assert ([] + Split(tail, delim)) == Split(tail, delim);
      }
      rest := tail;
    }
    SplitStep(rest, delim);
    if |rest| > 0 {
      out := out + [rest];
    } else {
      assert out + [] == out;
    }
  }

  function Concat(ws: seq<string>): string
  {
    if ws == [] then [] else ws[0] + Concat(ws[1..])
  }

  /** The text with every occurrence of `d` taken out. */
  function Without(s: string, d: char): string
  {
    if s == [] then [] else (if s[0] == d then [] else [s[0]]) + Without(s[1..], d)
  }

  lemma {:induction false} WithoutAppend(a: string, b: string, d: char)
    ensures Without(a + b, d) == Without(a, d) + Without(b, d)
  {
    if a == [] {
      assert a + b == b;
    } else {
      assert (a + b)[1..] == a[1..] + b;
      assert (a + b)[0] == a[0];
      WithoutAppend(a[1..], b, d);
    }
  }

  lemma {:induction false} WithoutAbsent(s: string, d: char)
    requires d !in s
    ensures Without(s, d) == s
  {
    if s != [] {
      WithoutAbsent(s[1..], d);
    }
  }

  lemma ConcatCons(w: string, ws: seq<string>)
    ensures Concat([w] + ws) == w + Concat(ws)
  {
    assert ([w] + ws)[1..] == ws;
  }

  /** Taking the delimiters out of "piece, delimiter, rest" leaves the piece and the cleaned rest. */
  lemma WithoutAtDelimiter(piece: string, d: char, rest: string)
    requires d !in piece
    ensures Without(piece + ([d] + rest), d) == piece + Without(rest, d)
  {
    WithoutAppend(piece, [d] + rest, d);
    WithoutAbsent(piece, d);
    assert ([d] + rest)[1..] == rest;
  }

  /** Splitting keeps every non-delimiter character, in order: the pieces spell out the text minus its delimiters. */
  lemma {:induction false} SplitKeepsText(s: string, d: char)
    ensures Concat(Split(s, d)) == Without(s, d)
    decreases |s|
  {
    var k := Find(s, d);
    if k == |s| {
      SplitWholeText(s, d);
    } else {
      SplitKeepsText(s[k + 1..], d);
      SplitPieceText(s, d, k);
    }
  }

  /** Text without a delimiter is its own single piece (or none, when empty). */
  lemma SplitWholeText(s: string, d: char)
    requires Find(s, d) == |s|
    ensures Concat(Split(s, d)) == Without(s, d)
  {
    SplitStep(s, d);
    WithoutAbsent(s, d);
    if |s| > 0 {
      ConcatCons(s, []);
      assert s + [] == s;
    }
  }

  /** The piece before the first delimiter, followed by what the rest spells out. */
  lemma SplitPieceText(s: string, d: char, k: nat)
    requires k == Find(s, d) < |s|
    requires Concat(Split(s[k + 1..], d)) == Without(s[k + 1..], d)
    ensures Concat(Split(s, d)) == Without(s, d)
  {
    SplitStep(s, d);
    var piece := s[..k];
    var rest := s[k + 1..];
    assert s == piece + ([d] + rest);
    WithoutAtDelimiter(piece, d, rest);
    if k > 0 {
      ConcatCons(piece, Split(rest, d));
    } else {
      assert [] + Split(rest, d) == Split(rest, d);
      assert piece + Without(rest, d) == Without(rest, d);
    }
  }

  // ----------------------------------------------------------------- num_type

  predicate AllDigits(s: string)
  {
    forall k :: 0 <= k < |s| ==> IsDigit(s[k])
  }

  /** Exactly one '.', not in last position, and digits everywhere else. */
  predicate IsDecimalFraction(s: string)
  {
    exists p :: 0 <= p < |s| - 1 && s[p] == '.' && forall k :: 0 <= k < |s| && k != p ==> IsDigit(s[k])
  }

  /** What `num_type` answers: INT_T, FLOAT_T or NULL_T (non-numeric). */
  function NumKind(s: string): TokenKind
  {
    if AllDigits(s) then IntT else if IsDecimalFraction(s) then FloatT else NullT
  }

  /** A non-digit at `i` makes the text non-numeric, unless it is the one admissible radix point. */
  lemma NotNumeric(s: string, i: nat, other: int)
    requires i < |s| && !IsDigit(s[i])
    requires s[i] != '.' || i == |s| - 1 || (0 <= other < |s| && other != i && s[other] == '.')
    ensures NumKind(s) == NullT
  {
    forall p | 0 <= p < |s| - 1 && s[p] == '.'
      ensures exists k :: 0 <= k < |s| && k != p && !IsDigit(s[k])
    {
      if p == i {
        assert !IsDigit(s[other]);
      }
    }
  }

  /** `num_type`: one pass over the characters, remembering whether a radix point was seen. */
  method NumType(str: string) returns (kind: TokenKind)
    ensures kind == NumKind(str)
  {
    var radixEncountered := false;
    ghost var radixAt := 0;
    kind := IntT;
    for i := 0 to |str|
      invariant kind == (if radixEncountered then FloatT else IntT)
      invariant !radixEncountered ==> forall j :: 0 <= j < i ==> IsDigit(str[j])
      invariant radixEncountered ==> 0 <= radixAt < i && radixAt < |str| - 1 && str[radixAt] == '.'
      invariant radixEncountered ==> forall j :: 0 <= j < i && j != radixAt ==> IsDigit(str[j])
    {
      var chr := str[i];
      if chr == '.' {
        if !radixEncountered && i + 1 < |str| {
          radixEncountered := true;
          radixAt := i;
          kind := FloatT;
        } else {
          NotNumeric(str, i, if radixEncountered then radixAt else -1);
          return NullT;
        }
      } else if chr < '0' || chr > '9' {
        NotNumeric(str, i, -1);
        return NullT;
      }
    }
    if radixEncountered {
      assert !AllDigits(str) by {
        assert !IsDigit(str[radixAt]);
      }
    }
  }

  // ------------------------------------------------------------- tokenize_expr

  predicate NonEmptyWords(words: seq<string>)
  {
    forall k :: 0 <= k < |words| ==> |words[k]| > 0
  }

  /**
   * The string-literal loop: while the word does not end in a closing quote (a lone '"'
   * does not close itself), the next word is appended after one space. The loop throws
   * "Unterminated string literal" when the joined word's LENGTH equals i + 1 (it tests
   * `word.size()` where the number of words was meant); running out of words, which the
   * source does not test for, is the same fault here.
   */
  function JoinQuoted(words: seq<string>, i: nat, word: string): (r: Result<(string, nat)>)
    requires i < |words| && |word| > 0
    ensures r.Ok? ==> i <= r.value.1 < |words| && |r.value.0| >= 2
    ensures r.Ok? ==> r.value.0[0] == word[0] && r.value.0[|r.value.0| - 1] == '"'
    decreases |words| - i
  {
    if word[|word| - 1] == '"' && |word| != 1 then Ok((word, i))
    else if |word| == i + 1 then Err
    else if i + 1 == |words| then Err
    else JoinQuoted(words, i + 1, word + " " + words[i + 1])
  }

  /**
   * The literal loop as it was evidently meant: it throws only when the words run out
   * before a closing one. The tokenizer above keeps the test as written.
   */
  function JoinQuotedIntended(words: seq<string>, i: nat, word: string): (r: Result<(string, nat)>)
    requires i < |words| && |word| > 0
    ensures r.Ok? ==> i <= r.value.1 < |words|
    decreases |words| - i
  {
    if word[|word| - 1] == '"' && |word| != 1 then Ok((word, i))
    else if i + 1 == |words| then Err
    else JoinQuotedIntended(words, i + 1, word + " " + words[i + 1])
  }

  /** What one turn of the word loop does at word `i`. */
  datatype Scan = EndOfLine | Emit(token: Token, next: nat) | Malformed

  /** `keywords` is the table consulted; the interpreter passes `TokenMap`. */
  function ScanWord(keywords: map<string, TokenKind>, words: seq<string>, i: nat): (r: Scan)
    requires i < |words| && NonEmptyWords(words)
    ensures r.Emit? ==> i < r.next <= |words|
  {
    var word := words[i];
    if word[0] == '#' then EndOfLine
    else if word in keywords then Emit(Token(keywords[word], word), i + 1)
    else if NumKind(word) != NullT then Emit(Token(NumKind(word), word), i + 1)
    else if word[0] == '"' then
      match JoinQuoted(words, i, word)
      case Ok((joined, j)) => Emit(Token(StrT, joined[1..|joined| - 1]), j + 1)
      case Err => Malformed
    else if word[0] == '\'' then
      if |word| == 3 && word[2] == '\'' then Emit(Token(CharT, [word[1]]), i + 1)
      else if |word| == 1 && i + 1 < |words| && words[i + 1] == "'" then Emit(Token(CharT, " "), i + 2)
      else Malformed
    else if word[|word| - 1] == ':' then Emit(Token(LabelT, word[..|word| - 1]), i + 1)
    else Emit(Token(WordT, word), i + 1)
  }

  function Prepend(ts: seq<Token>, r: Result<seq<Token>>): Result<seq<Token>>
  {
    match r
    case Ok(rest) => Ok(ts + rest)
    case Err => Err
  }

  /** The tokens of the words from `i` on. */
  function TokenizeFrom(keywords: map<string, TokenKind>, words: seq<string>, i: nat): Result<seq<Token>>
    requires i <= |words| && NonEmptyWords(words)
    decreases |words| - i
  {
    if i == |words| then Ok([])
    else
      match ScanWord(keywords, words, i)
      case EndOfLine => Ok([])
      case Malformed => Err
      case Emit(t, j) => Prepend([t], TokenizeFrom(keywords, words, j))
  }

  /** The tokens of one line, classified against `keywords` (the interpreter passes `TokenMap`). */
  function Tokenize(keywords: map<string, TokenKind>, line: string): Result<seq<Token>>
  {
    var words := Split(line, ' ');
    assert NonEmptyWords(words) by {
      forall k | 0 <= k < |words| ensures |words[k]| > 0 {
        assert words[k] in words;
      }
    }
    TokenizeFrom(keywords, words, 0)
  }

  lemma PrependAssoc(a: seq<Token>, b: seq<Token>, r: Result<seq<Token>>)
    ensures Prepend(a, Prepend(b, r)) == Prepend(a + b, r)
  {
    if r.Ok? {
      assert a + (b + r.value) == (a + b) + r.value;
    }
  }

  /**
   * One turn of the word loop of `tokenize_expr`: classifies word `i` and returns the
   * token together with the index of the first word after it (a string literal may
   * have consumed several words, a spaced character literal two).
   */
  method ScanNext(keywords: map<string, TokenKind>, words: seq<string>, i: nat) returns (s: Scan)
    requires i < |words| && NonEmptyWords(words)
    ensures s == ScanWord(keywords, words, i)
  {
    var word := words[i];
    if word[0] == '#' {
      return EndOfLine;
    }
    if word in keywords {
      return Emit(Token(keywords[word], word), i + 1);
    }
    var strNum := NumType(word);
    if strNum != NullT {
      return Emit(Token(strNum, word), i + 1);
    }
    if word[0] == '"' {
      var j := i;
      while word[|word| - 1] != '"' || |word| == 1
        invariant i <= j < |words| && |word| > 0
        invariant JoinQuoted(words, i, words[i]) == JoinQuoted(words, j, word)
        decreases |words| - j
      {
        if |word| == j + 1 {
          return Malformed;
        }
        if j + 1 == |words| {
          return Malformed;
        }
        j := j + 1;
        word := word + " " + words[j];
      }
      return Emit(Token(StrT, word[1..|word| - 1]), j + 1);
    }
    if word[0] == '\'' {
      var token := Token(CharT, "");
      var next := i + 1;
      if |word| == 3 && word[2] == '\'' {
        token := token.(text := token.text + [word[1]]);
      } else if |word| == 1 && i + 1 < |words| && words[i + 1] == "'" {
        token := token.(text := " ");
        next := i + 2;
      } else {
        return Malformed;
      }
      return Emit(token, next);
    }
    if word[|word| - 1] == ':' {
      return Emit(Token(LabelT, word[..|word| - 1]), i + 1);
    }
    return Emit(Token(WordT, word), i + 1);
  }

  /** `tokenize_expr`, looking words up in `keywords` where the source reads the global `token_map`. */
  method TokenizeExpr(keywords: map<string, TokenKind>, expr: string) returns (r: Result<seq<Token>>)
    ensures r == Tokenize(keywords, expr)
  {
    var words := SplitStr(expr, ' ');
    assert NonEmptyWords(words) by {
      forall k | 0 <= k < |words| ensures |words[k]| > 0 {
        assert words[k] in words;
      }
    }
    var tokens: seq<Token> := [];
    var i := 0;
    assert Tokenize(keywords, expr) == TokenizeFrom(keywords, words, 0);
    assert Prepend(tokens, TokenizeFrom(keywords, words, 0)) == TokenizeFrom(keywords, words, 0) by {
      var t := TokenizeFrom(keywords, words, 0);
      if t.Ok? {
        assert tokens + t.value == t.value;
      }
    }
    while i < |words|
      invariant 0 <= i <= |words|
      invariant Tokenize(keywords, expr) == Prepend(tokens, TokenizeFrom(keywords, words, i))
      decreases |words| - i
    {
      var scan := ScanNext(keywords, words, i);
      match scan
      case EndOfLine =>
        assert tokens + [] == tokens;
        return Ok(tokens);
      case Malformed =>
        return Err;
      case Emit(token, next) =>
        PrependAssoc(tokens, [token], TokenizeFrom(keywords, words, next));
        tokens := tokens + [token];
        i := next;
    }
    assert tokens + [] == tokens;
    return Ok(tokens);
  }

  // ---------------------------------------------------------- tokenize_program

  /** The tokens of every line, or a fault if any line is malformed. */
  function TokenizeLines(keywords: map<string, TokenKind>, lines: seq<string>): Result<seq<seq<Token>>>
  {
    EachLine((line: string) => Tokenize(keywords, line), lines)
  }

  /** `tokenize` applied to every line in turn, stopping at the first fault. */
  function EachLine(tokenize: string -> Result<seq<Token>>, lines: seq<string>): Result<seq<seq<Token>>>
  {
    if lines == [] then Ok([])
    else
      match tokenize(lines[0])
      case Err => Err
      case Ok(ts) =>
        match EachLine(tokenize, lines[1..])
        case Err => Err
        case Ok(rest) => Ok([ts] + rest)
  }

  function PrependLines(done: seq<seq<Token>>, r: Result<seq<seq<Token>>>): Result<seq<seq<Token>>>
  {
    match r
    case Ok(rest) => Ok(done + rest)
    case Err => Err
  }

  /** One line further: a line that tokenizes joins the lines done, a line that does not ends with a fault. */
  lemma EachLineStep(tokenize: string -> Result<seq<Token>>, lines: seq<string>, k: nat, done: seq<seq<Token>>)
    requires k < |lines|
    requires EachLine(tokenize, lines) == PrependLines(done, EachLine(tokenize, lines[k..]))
    ensures tokenize(lines[k]).Err? ==> EachLine(tokenize, lines) == Err
    ensures tokenize(lines[k]).Ok? ==>
      EachLine(tokenize, lines) == PrependLines(done + [tokenize(lines[k]).value], EachLine(tokenize, lines[k + 1..]))
  {
    assert lines[k..][1..] == lines[k + 1..];
    assert lines[k..][0] == lines[k];
    var tail := EachLine(tokenize, lines[k + 1..]);
    if tokenize(lines[k]).Ok? && tail.Ok? {
      assert done + ([tokenize(lines[k]).value] + tail.value) == (done + [tokenize(lines[k]).value]) + tail.value;
    }
  }

  /** `tokenize_program`, over the lines `getline` would deliver. */
  method TokenizeProgram(keywords: map<string, TokenKind>, lines: seq<string>) returns (r: Result<seq<seq<Token>>>)
    ensures r == TokenizeLines(keywords, lines)
  {
    ghost var tokenize := (line: string) => Tokenize(keywords, line);
    var expressions: seq<seq<Token>> := [];
    var k := 0;
    assert lines[0..] == lines;
    assert PrependLines([], EachLine(tokenize, lines)) == EachLine(tokenize, lines) by {
      var t := EachLine(tokenize, lines);
      if t.Ok? {
        assert [] + t.value == t.value;
      }
    }
    while k < |lines|
      invariant 0 <= k <= |lines|
      invariant EachLine(tokenize, lines) == PrependLines(expressions, EachLine(tokenize, lines[k..]))
    {
      var line := TokenizeExpr(keywords, lines[k]);
      assert line == tokenize(lines[k]);
      EachLineStep(tokenize, lines, k, expressions);
      if line.Err? {
        return Err;
      }
      expressions := expressions + [line.value];
      k := k + 1;
    }
    assert lines[|lines|..] == [];
    assert expressions + [] == expressions;
    return Ok(expressions);
  }
}
