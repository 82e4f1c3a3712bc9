/** What the tokenizer guarantees about the tokens it emits, and how it treats particular lines. */
module LexerProps {
  import opened Outcomes
  import opened Decimal
  import opened Lexer

  // The word-level lemmas take the keyword table as a parameter and assume only the
  // properties of it they use; the line-level lemmas instantiate them with `TokenMap`.

  /** A character no keyword contains: a digit, a quote, a label colon or a comment marker. */
  predicate ForeignChar(c: char)
  {
    IsDigit(c) || c == '"' || c == '\'' || c == ':' || c == '#'
  }

  predicate NoForeignChar(w: string)
  {
    forall k :: 0 <= k < |w| ==> !ForeignChar(w[k])
  }

  /** What the tokenizer relies on in its keyword table: keyword kinds only, and no foreign character. */
  predicate KeywordTable(keywords: map<string, TokenKind>)
  {
    forall w :: w in keywords ==> keywords[w] in {InstT, BoolT, TypeT} && NoForeignChar(w)
  }

  lemma InstWords1Plain() ensures forall w :: w in InstWords1 ==> NoForeignChar(w) {}
  lemma InstWords2Plain() ensures forall w :: w in InstWords2 ==> NoForeignChar(w) {}
  lemma InstWords3Plain() ensures forall w :: w in InstWords3 ==> NoForeignChar(w) {}
  lemma InstWords4Plain() ensures forall w :: w in InstWords4 ==> NoForeignChar(w) {}

  lemma InstWordsPlain()
    ensures forall w :: w in InstWords ==> NoForeignChar(w)
  {
    InstWords1Plain();
    InstWords2Plain();
    InstWords3Plain();
    InstWords4Plain();
  }

  lemma MergePlain(a: map<string, TokenKind>, b: map<string, TokenKind>)
    requires KeywordTable(a) && KeywordTable(b)
    ensures KeywordTable(a + b)
  {
  }

  lemma InstKindsTable()
    ensures KeywordTable(InstKinds)
  {
    InstWordsPlain();
  }

  lemma BoolKindsTable()
    ensures KeywordTable(BoolKinds)
  {
  }

  lemma TypeKindsTable()
    ensures KeywordTable(TypeKinds)
  {
  }

  /** `token_map` holds only instruction, boolean and type words, none with a digit, quote, colon or '#'. */
  lemma TokenMapIsKeywordTable()
    ensures KeywordTable(TokenMap)
  {
    InstKindsTable();
    BoolKindsTable();
    TypeKindsTable();
    MergePlain(InstKinds, BoolKinds);
    MergePlain(InstKinds + BoolKinds, TypeKinds);
  }

  /** The boolean and type words are not instruction words. */
  lemma KindsDisjoint(w: string)
    requires w in BoolWords || w in TypeWords
    ensures w !in InstWords1 && w !in InstWords2 && w !in InstWords3 && w !in InstWords4
  {
  }

  /** A word is an instruction keyword of `token_map` exactly when it is in one of the instruction groups. */
  lemma InstKindsOnly(w: string)
    ensures w in TokenMap && TokenMap[w] == InstT <==>
      w in InstWords1 || w in InstWords2 || w in InstWords3 || w in InstWords4
  {
    if w in BoolWords || w in TypeWords {
      KindsDisjoint(w);
    }
  }

  lemma KeywordFacts()
    ensures "TRUE" in TokenMap && TokenMap["TRUE"] == BoolT
    ensures "push" in TokenMap && TokenMap["push"] == InstT
    ensures "print" in TokenMap && TokenMap["print"] == InstT
  {
    assert "TRUE" in BoolKinds && "TRUE" !in TypeKinds;
    assert "push" in InstWords1 && "push" in InstKinds && "push" !in BoolKinds && "push" !in TypeKinds;
    assert "print" in InstWords4 && "print" in InstKinds && "print" !in BoolKinds && "print" !in TypeKinds;
  }

  /** A word holding a digit, quote, colon or '#' is never a keyword. */
  lemma NotKeyword(keywords: map<string, TokenKind>, w: string, k: nat)
    requires KeywordTable(keywords) && k < |w| && ForeignChar(w[k])
    ensures w !in keywords
  {
    assert !NoForeignChar(w);
  }

  // ------------------------------------------------------------ well-formedness

  /** A token is consistent with its kind: keyword kinds only for keywords, numeric kinds only for numerals. */
  predicate WellFormed(keywords: map<string, TokenKind>, t: Token)
  {
    && (t.kind in {InstT, BoolT, TypeT} ==> t.text in keywords && keywords[t.text] == t.kind)
    && (t.kind == IntT ==> AllDigits(t.text))
    && (t.kind == FloatT ==> IsDecimalFraction(t.text))
    && (t.kind == CharT ==> |t.text| == 1)
  }

  /** Every token one turn of the word loop emits is well formed. */
  lemma ScanWellFormed(keywords: map<string, TokenKind>, words: seq<string>, i: nat)
    requires KeywordTable(keywords) && i < |words| && NonEmptyWords(words)
    ensures ScanWord(keywords, words, i).Emit? ==> WellFormed(keywords, ScanWord(keywords, words, i).token)
  {
  }

  lemma {:induction false} TokenizeFromWellFormed(keywords: map<string, TokenKind>, words: seq<string>, i: nat)
    requires KeywordTable(keywords) && i <= |words| && NonEmptyWords(words)
    requires TokenizeFrom(keywords, words, i).Ok?
    ensures forall k :: 0 <= k < |TokenizeFrom(keywords, words, i).value| ==>
      WellFormed(keywords, TokenizeFrom(keywords, words, i).value[k])
    decreases |words| - i
  {
    if i < |words| {
      var scan := ScanWord(keywords, words, i);
      if scan.Emit? {
        ScanWellFormed(keywords, words, i);
        TokenizeFromWellFormed(keywords, words, scan.next);
      }
    }
  }

  /** Every token of a line that tokenizes is well formed. */
  lemma TokenizeWellFormed(line: string)
    requires Tokenize(TokenMap, line).Ok?
    ensures forall k :: 0 <= k < |Tokenize(TokenMap, line).value| ==> WellFormed(TokenMap, Tokenize(TokenMap, line).value[k])
  {
    var words := Split(line, ' ');
    TokenizeWords(TokenMap, line, words);
    TokenMapIsKeywordTable();
    TokenizeFromWellFormed(TokenMap, words, 0);
  }

  // ------------------------------------------------------------ per-word rules

  /** `ws` with `sep` between consecutive words, built left to right as the literal loop builds it. */
  function Join(ws: seq<string>, sep: string): string
  {
    if |ws| == 0 then "" else if |ws| == 1 then ws[0] else Join(ws[..|ws| - 1], sep) + sep + ws[|ws| - 1]
  }

  /** Word `k` closes the literal opened at word `i`: it ends in '"' and is not the lone opening quote. */
  predicate ClosesAt(words: seq<string>, i: nat, k: nat)
    requires i <= k < |words| && NonEmptyWords(words)
  {
    words[k][|words[k]| - 1] == '"' && (k > i || |words[k]| != 1)
  }

  /**
   * `r` is the literal opened at word `i`: it ends at the first closing word `r.1`, and
   * `r.0` is the words up to it joined with single spaces.
   */
  predicate FirstClose(words: seq<string>, i: nat, r: (string, nat))
    requires NonEmptyWords(words)
  {
    && i <= r.1 < |words| && r.0 == Join(words[i..r.1 + 1], " ")
    && ClosesAt(words, i, r.1) && forall k :: i <= k < r.1 ==> !ClosesAt(words, i, k)
  }

  /** A join ends as its last word does, and is longer than it when anything precedes it. */
  lemma JoinEnds(ws: seq<string>, sep: string)
    requires |ws| > 0 && |ws[|ws| - 1]| > 0 && |sep| > 0
    ensures |Join(ws, sep)| >= |ws[|ws| - 1]|
    ensures |ws| > 1 ==> |Join(ws, sep)| > |ws[|ws| - 1]|
    ensures Join(ws, sep)[|Join(ws, sep)| - 1] == ws[|ws| - 1][|ws[|ws| - 1]| - 1]
  {
  }

  /** The joined word closes the literal exactly when its last word does. */
  lemma JoinClosing(words: seq<string>, i0: nat, i: nat, word: string)
    requires NonEmptyWords(words) && i0 <= i < |words| && word == Join(words[i0..i + 1], " ")
    ensures |word| > 0
    ensures (word[|word| - 1] == '"' && |word| != 1) <==> ClosesAt(words, i0, i)
  {
    var ws := words[i0..i + 1];
    assert ws[|ws| - 1] == words[i];
    JoinEnds(ws, " ");
    assert i == i0 ==> word == words[i];
  }

  /** Appending a space and the next word extends the join by that word. */
  lemma JoinNext(words: seq<string>, i0: nat, i: nat)
    requires i0 <= i && i + 1 < |words|
    ensures Join(words[i0..i + 1], " ") + " " + words[i + 1] == Join(words[i0..i + 2], " ")
  {
    var ws := words[i0..i + 2];
    assert ws[..|ws| - 1] == words[i0..i + 1];
  }

  /** The joined word stays the join of the words read so far, and stops at the first closing word. */
  lemma {:induction false} JoinQuotedJoins(words: seq<string>, i0: nat, i: nat, word: string)
    requires NonEmptyWords(words) && i0 <= i < |words|
    requires word == Join(words[i0..i + 1], " ")
    requires forall k :: i0 <= k < i ==> !ClosesAt(words, i0, k)
    ensures |word| > 0
    ensures JoinQuoted(words, i, word).Ok? ==> FirstClose(words, i0, JoinQuoted(words, i, word).value)
    decreases |words| - i
  {
    JoinClosing(words, i0, i, word);
    if ClosesAt(words, i0, i) {
      assert JoinQuoted(words, i, word) == Ok((word, i));
    } else if |word| == i + 1 || i + 1 == |words| {
      assert JoinQuoted(words, i, word) == Err;
    } else {
      var next := word + " " + words[i + 1];
      JoinNext(words, i0, i);
      assert JoinQuoted(words, i, word) == JoinQuoted(words, i + 1, next);
      JoinQuotedJoins(words, i0, i + 1, next);
    }
  }

  /** A keyword is classified by the table alone, whatever else the word looks like. */
  lemma ScanKeyword(keywords: map<string, TokenKind>, words: seq<string>, i: nat)
    requires KeywordTable(keywords) && i < |words| && NonEmptyWords(words) && words[i] in keywords
    ensures ScanWord(keywords, words, i) == Emit(Token(keywords[words[i]], words[i]), i + 1)
  {
  }

  /**
   * A word opening with '"' starts a string literal. It runs to the first closing word,
   * the words are rejoined with single spaces, and the token's text drops the outer
   * quotes; when the loop throws, the line is rejected.
   */
  lemma ScanQuoted(keywords: map<string, TokenKind>, words: seq<string>, i: nat)
    requires KeywordTable(keywords) && i < |words| && NonEmptyWords(words) && words[i][0] == '"'
    ensures JoinQuoted(words, i, words[i]).Err? ==> ScanWord(keywords, words, i) == Malformed
    ensures JoinQuoted(words, i, words[i]).Ok? ==>
      var (s, j) := JoinQuoted(words, i, words[i]).value;
      && s == Join(words[i..j + 1], " ")
      && ClosesAt(words, i, j) && (forall k :: i <= k < j ==> !ClosesAt(words, i, k))
      && ScanWord(keywords, words, i) == Emit(Token(StrT, s[1..|s| - 1]), j + 1)
  {
    NotKeyword(keywords, words[i], 0);
    NotNumeric(words[i], 0, -1);
    assert words[i..i + 1] == [words[i]];
    JoinQuotedJoins(words, i, i, words[i]);
  }

  /**
   * A word opening with a single quote is a character literal in exactly two forms: 'c'
   * in one word, or a lone quote followed by a lone quote (a quoted space, split in two).
   * Any other such word is rejected.
   */
  lemma ScanCharQuote(keywords: map<string, TokenKind>, words: seq<string>, i: nat)
    requires KeywordTable(keywords) && i < |words| && NonEmptyWords(words) && words[i][0] == '\''
    ensures |words[i]| == 3 && words[i][2] == '\'' ==>
      ScanWord(keywords, words, i) == Emit(Token(CharT, [words[i][1]]), i + 1)
    ensures words[i] == "'" && i + 1 < |words| && words[i + 1] == "'" ==>
      ScanWord(keywords, words, i) == Emit(Token(CharT, " "), i + 2)
    ensures ScanWord(keywords, words, i).Emit? <==>
      (|words[i]| == 3 && words[i][2] == '\'') || (words[i] == "'" && i + 1 < |words| && words[i + 1] == "'")
    ensures !ScanWord(keywords, words, i).Emit? ==> ScanWord(keywords, words, i) == Malformed
  {
    NotKeyword(keywords, words[i], 0);
    NotNumeric(words[i], 0, -1);
    assert |words[i]| == 1 <==> words[i] == "'";
  }

  /** Any other word is a label declaration when it ends in ':', named by the rest, and a bare word otherwise. */
  lemma ScanPlainWord(keywords: map<string, TokenKind>, words: seq<string>, i: nat)
    requires i < |words| && NonEmptyWords(words) && words[i] !in keywords && NumKind(words[i]) == NullT
    requires words[i][0] != '#' && words[i][0] != '"' && words[i][0] != '\''
    ensures words[i][|words[i]| - 1] == ':' ==>
      ScanWord(keywords, words, i) == Emit(Token(LabelT, words[i][..|words[i]| - 1]), i + 1)
    ensures words[i][|words[i]| - 1] != ':' ==> ScanWord(keywords, words, i) == Emit(Token(WordT, words[i]), i + 1)
  {
  }

  /** A numeral that is not a keyword is emitted whole, with the kind its digits give. */
  lemma ScanNumeral(keywords: map<string, TokenKind>, words: seq<string>, i: nat)
    requires i < |words| && NonEmptyWords(words) && words[i] !in keywords && NumKind(words[i]) != NullT
    ensures ScanWord(keywords, words, i) == Emit(Token(NumKind(words[i]), words[i]), i + 1)
  {
    assert words[i][0] != '#';
  }

  /** A word starting with '#' ends the line: nothing after it is looked at, even malformed text. */
  lemma CommentEndsLine(keywords: map<string, TokenKind>, words: seq<string>, i: nat)
    requires i < |words| && NonEmptyWords(words) && words[i][0] == '#'
    ensures TokenizeFrom(keywords, words, i) == Ok([])
  {
  }

  // ------------------------------------------------------------------- numerals

  /** The numeric rules: digits only, or one inner radix point; a sign is not part of a number. */
  lemma NumericWords()
    ensures NumKind("12") == IntT
    ensures NumKind("1.5") == FloatT
    ensures NumKind("1.") == NullT
    ensures NumKind("1.2.3") == NullT
    ensures NumKind("-5") == NullT
  {
    assert !AllDigits("1.5") by {
      assert !IsDigit("1.5"[1]);
    }
    assert IsDecimalFraction("1.5") by {
      var s := "1.5";
      assert 0 <= 1 < |s| - 1 && s[1] == '.';
      assert forall k :: 0 <= k < |s| && k != 1 ==> IsDigit(s[k]);
    }
    NotNumeric("1.", 1, -1);
    NotNumeric("1.2.3", 3, 1);
    NotNumeric("-5", 0, -1);
  }

  // ------------------------------------------------------------ particular lines

  // Each line is a parameter pinned by `requires` rather than a literal, so that the
  // verifier evaluates the tokenizer step by step.

  lemma TokenizeWords(keywords: map<string, TokenKind>, line: string, words: seq<string>)
    requires words == Split(line, ' ')
    ensures NonEmptyWords(words) && Tokenize(keywords, line) == TokenizeFrom(keywords, words, 0)
  {
  }

  lemma EmitStep(keywords: map<string, TokenKind>, words: seq<string>, i: nat, t: Token, j: nat)
    requires i < |words| && NonEmptyWords(words) && ScanWord(keywords, words, i) == Emit(t, j)
    ensures TokenizeFrom(keywords, words, i) == Prepend([t], TokenizeFrom(keywords, words, j))
  {
  }

  /** The last token of a line: the words after it are exhausted. */
  lemma LastToken(keywords: map<string, TokenKind>, words: seq<string>, i: nat, t: Token)
    requires i + 1 == |words| && NonEmptyWords(words) && ScanWord(keywords, words, i) == Emit(t, i + 1)
    ensures TokenizeFrom(keywords, words, i) == Ok([t])
  {
    EmitStep(keywords, words, i, t, i + 1);
    assert [t] + [] == [t];
  }

  lemma KeywordWord(keywords: map<string, TokenKind>, words: seq<string>)
    requires words == ["TRUE"] && "TRUE" in keywords && keywords["TRUE"] == BoolT
    ensures NonEmptyWords(words) && TokenizeFrom(keywords, words, 0) == Ok([Token(BoolT, "TRUE")])
  {
    LastToken(keywords, words, 0, Token(BoolT, "TRUE"));
  }

  /** Keywords win over every other rule: "TRUE" is a boolean literal, not a word. */
  lemma KeywordLine(line: string)
    requires line == "TRUE"
    ensures Tokenize(TokenMap, line) == Ok([Token(BoolT, "TRUE")])
  {
    SplitWord(line, ' ');
    TokenizeWords(TokenMap, line, [line]);
    KeywordFacts();
    KeywordWord(TokenMap, [line]);
  }

  lemma NegativeLiteralTokens(keywords: map<string, TokenKind>, words: seq<string>)
    requires KeywordTable(keywords) && "push" in keywords && keywords["push"] == InstT
    requires words == ["push", "-5"]
    ensures NonEmptyWords(words) && TokenizeFrom(keywords, words, 0) == Ok([Token(InstT, "push"), Token(WordT, "-5")])
  {
    NotKeyword(keywords, "-5", 1);
    NotNumeric("-5", 0, -1);
    EmitStep(keywords, words, 0, Token(InstT, "push"), 1);
    LastToken(keywords, words, 1, Token(WordT, "-5"));
    assert [Token(InstT, "push")] + [Token(WordT, "-5")] == [Token(InstT, "push"), Token(WordT, "-5")];
  }

  /** A leading minus sign does not make a number: "-5" is an ordinary word. */
  lemma NegativeLiteralIsWord(line: string)
    requires line == "push -5"
    ensures Tokenize(TokenMap, line) == Ok([Token(InstT, "push"), Token(WordT, "-5")])
  {
    assert line == "push" + [' '] + "-5";
    SplitFirst("push", ' ', "-5");
    SplitWord("-5", ' ');
    var words := ["push", "-5"];
    assert Split(line, ' ') == ["push"] + ["-5"];
    TokenizeWords(TokenMap, line, words);
    TokenMapIsKeywordTable();
    KeywordFacts();
    NegativeLiteralTokens(TokenMap, words);
  }

  /** The quote-joining loop reassembles "\"hi" and "there\"" into one literal. */
  lemma JoinHiThere(keywords: map<string, TokenKind>, words: seq<string>)
    requires KeywordTable(keywords) && words == ["print", "\"hi", "there\""]
    ensures NonEmptyWords(words) && ScanWord(keywords, words, 1) == Emit(Token(StrT, "hi there"), 3)
  {
    NotKeyword(keywords, "\"hi", 0);
    NotNumeric("\"hi", 0, -1);
    var joined := "\"hi" + " " + "there\"";
    assert JoinQuoted(words, 1, "\"hi") == JoinQuoted(words, 2, joined);
    assert JoinQuoted(words, 2, joined) == Ok((joined, 2));
    assert joined[1..|joined| - 1] == "hi there";
  }

  lemma HiThereTokens(keywords: map<string, TokenKind>, words: seq<string>)
    requires KeywordTable(keywords) && "print" in keywords && keywords["print"] == InstT
    requires words == ["print", "\"hi", "there\""]
    ensures NonEmptyWords(words) && TokenizeFrom(keywords, words, 0) == Ok([Token(InstT, "print"), Token(StrT, "hi there")])
  {
    JoinHiThere(keywords, words);
    EmitStep(keywords, words, 0, Token(InstT, "print"), 1);
    EmitStep(keywords, words, 1, Token(StrT, "hi there"), 3);
    assert TokenizeFrom(keywords, words, 3) == Ok([]);
    var ts := [Token(InstT, "print"), Token(StrT, "hi there")];
    assert [ts[0]] + ([ts[1]] + []) == ts;
  }

  lemma StringLiteralSplit(line: string)
    requires line == "print \"hi there\""
    ensures Split(line, ' ') == ["print", "\"hi", "there\""]
  {
    var rest := "\"hi" + [' '] + "there\"";
    assert line == "print" + [' '] + rest;
    SplitFirst("print", ' ', rest);
    SplitFirst("\"hi", ' ', "there\"");
    SplitWord("there\"", ' ');
  }

  /** A string literal spanning several words is joined back with single spaces, quotes removed. */
  lemma StringLiteralLine(line: string)
    requires line == "print \"hi there\""
    ensures Tokenize(TokenMap, line) == Ok([Token(InstT, "print"), Token(StrT, "hi there")])
  {
    var words := ["print", "\"hi", "there\""];
    StringLiteralSplit(line);
    TokenizeWords(TokenMap, line, words);
    TokenMapIsKeywordTable();
    KeywordFacts();
    HiThereTokens(TokenMap, words);
  }

  lemma CharLiteralWords(keywords: map<string, TokenKind>, a: string, ab: string)
    requires KeywordTable(keywords) && a == "'a'" && ab == "'ab'"
    ensures TokenizeFrom(keywords, [a], 0) == Ok([Token(CharT, "a")])
    ensures TokenizeFrom(keywords, [ab], 0) == Err
  {
    NotKeyword(keywords, a, 0);
    NotNumeric(a, 0, -1);
    LastToken(keywords, [a], 0, Token(CharT, "a"));
    NotKeyword(keywords, ab, 0);
    NotNumeric(ab, 0, -1);
    assert ScanWord(keywords, [ab], 0) == Malformed;
  }

  /** 'c' in one word is a character literal; a longer quoted word is rejected. */
  lemma CharLiteralLines(a: string, ab: string)
    requires a == "'a'" && ab == "'ab'"
    ensures Tokenize(TokenMap, a) == Ok([Token(CharT, "a")])
    ensures Tokenize(TokenMap, ab) == Err
  {
    SplitWord(a, ' ');
    TokenizeWords(TokenMap, a, [a]);
    SplitWord(ab, ' ');
    TokenizeWords(TokenMap, ab, [ab]);
    TokenMapIsKeywordTable();
    CharLiteralWords(TokenMap, a, ab);
  }

  lemma SpaceCharWords(keywords: map<string, TokenKind>, words: seq<string>)
    requires KeywordTable(keywords) && words == ["'", "'"]
    ensures NonEmptyWords(words) && TokenizeFrom(keywords, words, 0) == Ok([Token(CharT, " ")])
  {
    NotKeyword(keywords, "'", 0);
    NotNumeric("'", 0, -1);
    EmitStep(keywords, words, 0, Token(CharT, " "), 2);
    assert [Token(CharT, " ")] + [] == [Token(CharT, " ")];
  }

  /** A quoted space is split into two lone quotes by the word split, and read back as ' '. */
  lemma SpaceCharLiteralLine(line: string)
    requires line == "' '"
    ensures Tokenize(TokenMap, line) == Ok([Token(CharT, " ")])
  {
    assert line == "'" + [' '] + "'";
    SplitFirst("'", ' ', "'");
    SplitWord("'", ' ');
    var words := ["'", "'"];
    TokenizeWords(TokenMap, line, words);
    TokenMapIsKeywordTable();
    SpaceCharWords(TokenMap, words);
  }

  lemma LabelWord(keywords: map<string, TokenKind>, words: seq<string>)
    requires KeywordTable(keywords) && words == ["loop:"]
    ensures NonEmptyWords(words) && TokenizeFrom(keywords, words, 0) == Ok([Token(LabelT, "loop")])
  {
    NotKeyword(keywords, "loop:", 4);
    NotNumeric("loop:", 0, -1);
    LastToken(keywords, words, 0, Token(LabelT, "loop"));
  }

  /** A word ending in ':' declares a label named by the rest of the word. */
  lemma LabelLine(line: string)
    requires line == "loop:"
    ensures Tokenize(TokenMap, line) == Ok([Token(LabelT, "loop")])
  {
    SplitWord(line, ' ');
    TokenizeWords(TokenMap, line, [line]);
    TokenMapIsKeywordTable();
    LabelWord(TokenMap, [line]);
  }

  lemma CommentTokens(keywords: map<string, TokenKind>, words: seq<string>)
    requires "push" in keywords && keywords["push"] == InstT
    requires words == ["push", "#", "'ab'"]
    ensures NonEmptyWords(words) && TokenizeFrom(keywords, words, 0) == Ok([Token(InstT, "push")])
  {
    EmitStep(keywords, words, 0, Token(InstT, "push"), 1);
    CommentEndsLine(keywords, words, 1);
    var ts := [Token(InstT, "push")];
    assert ts + [] == ts;
  }

  lemma CommentSplit(line: string)
    requires line == "push # 'ab'"
    ensures Split(line, ' ') == ["push", "#", "'ab'"]
  {
    assert line == "push" + [' '] + ("#" + [' '] + "'ab'");
    SplitFirst("push", ' ', "#" + [' '] + "'ab'");
    SplitFirst("#", ' ', "'ab'");
    SplitWord("'ab'", ' ');
  }

  /** Text after a comment marker is dropped, however malformed. */
  lemma CommentLine(line: string)
    requires line == "push # 'ab'"
    ensures Tokenize(TokenMap, line) == Ok([Token(InstT, "push")])
  {
    var words := ["push", "#", "'ab'"];
    CommentSplit(line);
    TokenizeWords(TokenMap, line, words);
    KeywordFacts();
    CommentTokens(TokenMap, words);
  }

  lemma LoneQuoteWords(keywords: map<string, TokenKind>, words: seq<string>)
    requires KeywordTable(keywords) && words == ["\"", "a\""]
    ensures NonEmptyWords(words) && TokenizeFrom(keywords, words, 0) == Err
  {
    NotKeyword(keywords, "\"", 0);
    NotNumeric("\"", 0, -1);
    assert JoinQuoted(words, 0, "\"") == Err;
    assert ScanWord(keywords, words, 0) == Malformed;
  }

  /**
   * The unterminated-literal test compares the joined word's length with the word index:
   * a literal whose first word is a lone quote is rejected at the first word even though
   * a closing quote follows.
   */
  lemma LoneOpeningQuoteRejected(line: string)
    requires line == "\" a\""
    ensures Tokenize(TokenMap, line) == Err
  {
    assert line == "\"" + [' '] + "a\"";
    SplitFirst("\"", ' ', "a\"");
    SplitWord("a\"", ' ');
    var words := ["\"", "a\""];
    TokenizeWords(TokenMap, line, words);
    TokenMapIsKeywordTable();
    LoneQuoteWords(TokenMap, words);
  }

  // ----------------------------------------------------------------- findings

  lemma QuotedPairTailSplit(rest: string)
    requires rest == "\"a b\""
    ensures Split(rest, ' ') == ["\"a", "b\""]
  {
    var tail := "b\"";
    assert rest == "\"a" + [' '] + tail;
    SplitWord(tail, ' ');
    SplitFirst("\"a", ' ', tail);
  }

  lemma QuotedPairSplit(line: string)
    requires line == "push \"a b\""
    ensures Split(line, ' ') == ["push", "\"a", "b\""]
  {
    var rest := "\"a b\"";
    assert line == "push" + [' '] + rest;
    QuotedPairTailSplit(rest);
    SplitFirst("push", ' ', rest);
  }

  lemma QuotedPairWords(keywords: map<string, TokenKind>, words: seq<string>)
    requires KeywordTable(keywords) && "push" in keywords && keywords["push"] == InstT
    requires words == ["push", "\"a", "b\""]
    ensures NonEmptyWords(words) && ClosesAt(words, 1, 2)
    ensures TokenizeFrom(keywords, words, 0) == Err
  {
    NotKeyword(keywords, "\"a", 0);
    NotNumeric("\"a", 0, -1);
    assert JoinQuoted(words, 1, "\"a") == Err;
    assert ScanWord(keywords, words, 1) == Malformed;
    EmitStep(keywords, words, 0, Token(InstT, "push"), 1);
  }

  /**
   * The length test of the literal loop compares the joined word's length with the word
   * index, so an ordinary two-word literal whose opening word has two characters is
   * rejected at the second word of the line, though its closing word is there.
   */
  lemma QuotedPairRejected(line: string)
    requires line == "push \"a b\""
    ensures Split(line, ' ') == ["push", "\"a", "b\""]
    ensures NonEmptyWords(Split(line, ' ')) && ClosesAt(Split(line, ' '), 1, 2)
    ensures Tokenize(TokenMap, line) == Err
  {
    QuotedPairSplit(line);
    var words := ["push", "\"a", "b\""];
    TokenizeWords(TokenMap, line, words);
    TokenMapIsKeywordTable();
    KeywordFacts();
    QuotedPairWords(TokenMap, words);
  }

  /** The intended loop accepts exactly when a closing word follows, and stops at the first one. */
  lemma {:induction false} JoinQuotedIntendedJoins(words: seq<string>, i0: nat, i: nat, word: string)
    requires NonEmptyWords(words) && i0 <= i < |words|
    requires word == Join(words[i0..i + 1], " ")
    requires forall k :: i0 <= k < i ==> !ClosesAt(words, i0, k)
    ensures |word| > 0
    ensures JoinQuotedIntended(words, i, word).Ok? <==> exists k :: i <= k < |words| && ClosesAt(words, i0, k)
    ensures JoinQuotedIntended(words, i, word).Ok? ==> FirstClose(words, i0, JoinQuotedIntended(words, i, word).value)
    decreases |words| - i
  {
    JoinClosing(words, i0, i, word);
    if ClosesAt(words, i0, i) {
      assert JoinQuotedIntended(words, i, word) == Ok((word, i));
    } else if i + 1 == |words| {
      assert JoinQuotedIntended(words, i, word) == Err;
    } else {
      var next := word + " " + words[i + 1];
      JoinNext(words, i0, i);
      assert JoinQuotedIntended(words, i, word) == JoinQuotedIntended(words, i + 1, next);
      JoinQuotedIntendedJoins(words, i0, i + 1, next);
      assert (exists k :: i <= k < |words| && ClosesAt(words, i0, k)) ==>
        exists k :: i + 1 <= k < |words| && ClosesAt(words, i0, k);
    }
  }

  /** With the intended test, a literal is accepted exactly when some later word closes it. */
  lemma LiteralAcceptedWhenClosed(words: seq<string>, i: nat)
    requires NonEmptyWords(words) && i < |words| && words[i][0] == '"'
    ensures JoinQuotedIntended(words, i, words[i]).Ok? <==> exists k :: i <= k < |words| && ClosesAt(words, i, k)
    ensures JoinQuotedIntended(words, i, words[i]).Ok? ==> FirstClose(words, i, JoinQuotedIntended(words, i, words[i]).value)
  {
    assert words[i..i + 1] == [words[i]];
    JoinQuotedIntendedJoins(words, i, i, words[i]);
  }

  /** The written test only adds rejections: whatever it accepts, the intended loop accepts alike. */
  lemma {:induction false} JoinQuotedIntendedExtends(words: seq<string>, i: nat, word: string)
    requires i < |words| && |word| > 0 && JoinQuoted(words, i, word).Ok?
    ensures JoinQuotedIntended(words, i, word) == JoinQuoted(words, i, word)
    decreases |words| - i
  {
    if !(word[|word| - 1] == '"' && |word| != 1) {
      JoinQuotedIntendedExtends(words, i + 1, word + " " + words[i + 1]);
    }
  }

  /** The two-word literal the written test rejects is the intended one's "a b". */
  lemma QuotedPairIntended(words: seq<string>)
    requires words == ["push", "\"a", "b\""]
    ensures JoinQuotedIntended(words, 1, words[1]) == Ok(("\"a b\"", 2))
  {
    var joined := "\"a" + " " + "b\"";
    assert JoinQuotedIntended(words, 1, "\"a") == JoinQuotedIntended(words, 2, joined);
    assert joined == "\"a b\"";
  }
}
