/**
 * `std::stoi` with base 10, as the parser (integer literals) and the interpreter
 * (`readint`, conversion of a string to an Int) use it: leading white space is skipped,
 * an optional sign is read, then the longest run of digits. No digit at all throws
 * `std::invalid_argument`; a value outside `int` throws `std::out_of_range`.
 */
module Decimal {
  import opened Outcomes
  import opened Values

  predicate IsDigit(c: char)
  {
    '0' <= c <= '9'
  }

  /** The white space `isspace` accepts in the "C" locale. */
  predicate IsSpace(c: char)
  {
    c == ' ' || c == '\t' || c == '\n' || c == '\U{0B}' || c == '\U{0C}' || c == '\r'
  }

  /** The number of leading characters of `s` that satisfy `IsDigit`. */
  function DigitRun(s: string): (n: nat)
    ensures n <= |s|
    ensures forall k :: 0 <= k < n ==> IsDigit(s[k])
    ensures n < |s| ==> !IsDigit(s[n])
  {
    if |s| == 0 || !IsDigit(s[0]) then 0 else 1 + DigitRun(s[1..])
  }

  /** The value of a string of digits, most significant first. */
  function DigitsValue(s: string): (n: nat)
    requires forall k :: 0 <= k < |s| ==> IsDigit(s[k])
  {
    if |s| == 0 then 0
    else
      var last := s[|s| - 1];
      assert IsDigit(last);
      10 * DigitsValue(s[..|s| - 1]) + (last as int - '0' as int)
  }

  /** The text after leading white space. */
  function SkipSpace(s: string): (t: string)
    ensures |t| <= |s| && t == s[|s| - |t|..]
    ensures |t| > 0 ==> !IsSpace(t[0])
  {
    if |s| > 0 && IsSpace(s[0]) then SkipSpace(s[1..]) else s
  }

  /** The text after leading white space and one optional sign: where `StoI` reads its digits. */
  function Body(s: string): string
  {
    var t := SkipSpace(s);
    if |t| > 0 && (t[0] == '-' || t[0] == '+') then t[1..] else t
  }

  /** `std::stoi(s)`. */
  function StoI(s: string): (r: Result<Int32>)
  {
    var t := SkipSpace(s);
    var negative := |t| > 0 && t[0] == '-';
    var body := if |t| > 0 && (t[0] == '-' || t[0] == '+') then t[1..] else t;
    var n := DigitRun(body);
    if n == 0 then Err
    else
      var magnitude: int := DigitsValue(body[..n]);
      var value: int := if negative then -magnitude else magnitude;
      if -0x8000_0000 <= value < 0x8000_0000 then Ok(value) else Err
  }

  /** The decimal numeral of a natural number, without sign or leading zeros. */
  function DecimalText(n: nat): (s: string)
    ensures |s| > 0 && forall k :: 0 <= k < |s| ==> IsDigit(s[k])
    decreases n
  {
    var last := [('0' as int + n % 10) as char];
    if n < 10 then last else DecimalText(n / 10) + last
  }

  lemma {:induction false} DecimalTextValue(n: nat)
    ensures DigitsValue(DecimalText(n)) == n
    decreases n
  {
    var s := DecimalText(n);
    if n >= 10 {
      DecimalTextValue(n / 10);
      assert s[..|s| - 1] == DecimalText(n / 10);
    }
  }

  /** A digit string is read whole: the digit run covers it all. */
  lemma {:induction false} DigitRunOfDigits(s: string)
    requires forall k :: 0 <= k < |s| ==> IsDigit(s[k])
    ensures DigitRun(s) == |s|
  {
    if |s| > 0 {
      DigitRunOfDigits(s[1..]);
    }
  }

  /** The longest digit run of a digit string is all of it, with its value. */
  lemma DigitsRead(d: string)
    requires |d| > 0 && forall k :: 0 <= k < |d| ==> IsDigit(d[k])
    ensures DigitRun(d) == |d| && d[..DigitRun(d)] == d
  {
    DigitRunOfDigits(d);
  }

  /** A numeral with no sign and no leading white space is read whole. */
  lemma StoINumeral(n: nat)
    requires n < 0x8000_0000
    ensures StoI(DecimalText(n)) == Ok(n)
  {
    var d := DecimalText(n);
    DecimalTextValue(n);
    DigitsRead(d);
    assert !IsSpace(d[0]) && d[0] != '-' && d[0] != '+' by {
      assert IsDigit(d[0]);
    }
    assert SkipSpace(d) == d;
  }

  /** A digit string (leading zeros allowed) reads as its value, or throws `std::out_of_range` past `INT_MAX`. */
  lemma StoIDigits(d: string)
    requires |d| > 0 && forall k :: 0 <= k < |d| ==> IsDigit(d[k])
    ensures StoI(d) == if DigitsValue(d) < 0x8000_0000 then Ok(DigitsValue(d)) else Err
  {
    DigitsRead(d);
    assert !IsSpace(d[0]) && d[0] != '-' && d[0] != '+' by {
      assert IsDigit(d[0]);
    }
    assert SkipSpace(d) == d;
  }

  /** A minus sign before a numeral negates it. */
  lemma StoINegatedNumeral(n: nat)
    requires n <= 0x8000_0000
    ensures StoI("-" + DecimalText(n)) == Ok(-(n as int))
  {
    var d := DecimalText(n);
    var t := "-" + d;
    DecimalTextValue(n);
    DigitsRead(d);
    assert SkipSpace(t) == t;
    assert t[1..] == d;
  }

  /** Text with no digit right after the white space and sign is rejected (`std::invalid_argument`). */
  lemma StoINoDigits(s: string)
    requires |Body(s)| == 0 || !IsDigit(Body(s)[0])
    ensures StoI(s).Err?
  {
  }

  /** Leading white space is skipped up to the first other character. */
  lemma {:induction false} SkipSpaceOver(ws: string, t: string)
    requires forall k :: 0 <= k < |ws| ==> IsSpace(ws[k])
    requires |t| == 0 || !IsSpace(t[0])
    ensures SkipSpace(ws + t) == t
  {
    if |ws| > 0 {
      assert (ws + t)[1..] == ws[1..] + t;
      SkipSpaceOver(ws[1..], t);
    }
  }

  /** The digit run stops at the first character that is not a digit. */
  lemma {:induction false} DigitRunStops(d: string, rest: string)
    requires forall k :: 0 <= k < |d| ==> IsDigit(d[k])
    requires |rest| == 0 || !IsDigit(rest[0])
    ensures DigitRun(d + rest) == |d|
  {
    if |d| > 0 {
      assert (d + rest)[1..] == d[1..] + rest;
      DigitRunStops(d[1..], rest);
    }
  }

  /**
   * The general reading: white space, an optional sign and a run of digits, followed by
   * anything that does not start with a digit, give the signed value of the digits, or
   * throw `std::out_of_range` when that leaves `int`; the text after the digits is ignored.
   */
  lemma StoIPrefix(ws: string, sign: string, d: string, rest: string)
    requires forall k :: 0 <= k < |ws| ==> IsSpace(ws[k])
    requires sign == "" || sign == "+" || sign == "-"
    requires |d| > 0 && forall k :: 0 <= k < |d| ==> IsDigit(d[k])
    requires |rest| == 0 || !IsDigit(rest[0])
    ensures var v: int := if sign == "-" then -(DigitsValue(d) as int) else DigitsValue(d);
      StoI(ws + (sign + (d + rest))) == if -0x8000_0000 <= v < 0x8000_0000 then Ok(v) else Err
  {
    var u := d + rest;
    assert u[0] == d[0] && IsDigit(d[0]);
    var s := ws + (sign + u);
    SignedBody(ws, sign, u);
    DigitRunStops(d, rest);
    assert Body(s)[..DigitRun(Body(s))] == d;
    StoIReads(s, sign + u, d);
  }

  /** `stoi` reads the digit run `d` that follows the white space `t` skips and the sign, negated after a minus. */
  lemma StoIReads(s: string, t: string, d: string)
    requires SkipSpace(s) == t && |t| > 0
    requires var body := if t[0] == '-' || t[0] == '+' then t[1..] else t;
      |d| > 0 && DigitRun(body) == |d| && body[..|d|] == d
    ensures forall k :: 0 <= k < |d| ==> IsDigit(d[k])
    ensures var m: int := DigitsValue(d);
      var v: int := if t[0] == '-' then -m else m;
      StoI(s) == if -0x8000_0000 <= v < 0x8000_0000 then Ok(v) else Err
  {
    var body := if t[0] == '-' || t[0] == '+' then t[1..] else t;
    assert body[..DigitRun(body)] == d;
    var m: int := DigitsValue(d);
    if t[0] == '-' {
      assert StoI(s) == if -0x8000_0000 <= -m then Ok(-m) else Err;
    } else {
      assert StoI(s) == if m < 0x8000_0000 then Ok(m) else Err;
    }
  }

  /** After the white space, the sign decides the sign of the result, and the digits start right after it. */
  lemma SignedBody(ws: string, sign: string, u: string)
    requires forall k :: 0 <= k < |ws| ==> IsSpace(ws[k])
    requires sign == "" || sign == "+" || sign == "-"
    requires |u| > 0 && IsDigit(u[0])
    ensures var t := SkipSpace(ws + (sign + u));
      && t == sign + u && Body(ws + (sign + u)) == u
      && (t[0] == '-' <==> sign == "-")
  {
    var t := sign + u;
    if sign == "" {
      assert t == u;
    } else {
      assert t[0] == sign[0] && t[1..] == u;
    }
    SkipSpaceOver(ws, t);
  }

  /** Leading white space is skipped: ` 5` reads as 5. */
  lemma StoILeadingSpace()
    ensures StoI(" 5") == Ok(5)
  {
    assert "5"[..0] == "";
    assert DigitsValue("5") == 5;
    assert " " + ("" + ("5" + "")) == " 5";
    StoIPrefix(" ", "", "5", "");
  }

  /** Text after the digits is ignored: `12abc` reads as 12. */
  lemma StoITrailingText()
    ensures StoI("12abc") == Ok(12)
  {
    assert "12"[..1] == "1" && "1"[..0] == "";
    assert DigitsValue("12") == 12;
    assert "" + ("" + ("12" + "abc")) == "12abc";
    StoIPrefix("", "", "12", "abc");
  }

  /** A minus sign applies to the digits that follow it, and the rest is ignored: `-7 8` reads as -7. */
  lemma StoINegativeTrailingText()
    ensures StoI("-7 8") == Ok(-7)
  {
    assert "7"[..0] == "";
    assert DigitsValue("7") == 7;
    assert "" + ("-" + ("7" + " 8")) == "-7 8";
    StoIPrefix("", "-", "7", " 8");
  }

  /** A letter before the digits, or a space after the sign, throws: `x12` and `+ 1`. */
  lemma StoINoLeadingDigit()
    ensures StoI("x12").Err? && StoI("+ 1").Err?
  {
    assert SkipSpace("x12") == "x12";
    StoINoDigits("x12");
    assert SkipSpace("+ 1") == "+ 1";
    assert Body("+ 1") == " 1";
    StoINoDigits("+ 1");
  }
}
