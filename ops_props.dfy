/** What the value-level operations compute, stated against plain arithmetic and logic. */
module OperationsProps {
  import opened Outcomes
  import opened Values
  import opened Decimal
  import opened Instructions
  import opened Operations

  // --------------------------------------------------------------- comparisons

  /**
   * `neq` and `eq` compute the same thing: both ordinals minus 14 are non-zero, so both
   * push whether the operands are equal.
   */
  lemma EqualityTests(l: Value, r: Value)
    ensures Compare(InstEq, l, r) == Ok(Bool(l == r))
    ensures Compare(InstNeq, l, r) == Ok(Bool(l == r))
  {
    assert Ordinal(InstEq) - 14 != 0 && Ordinal(InstNeq) - 14 != 0;
  }

  /**
   * The four ordering tests reduce to two: `lt` and `gt` both push `l > r`, and `lte` and
   * `gte` both push `l > r || l == r`. Any non-integral operand throws.
   */
  lemma OrderingTests(l: Value, r: Value)
    ensures IsIntegral(l) && IsIntegral(r) ==>
      && Compare(InstLess, l, r) == Ok(Bool(Greater(l, r)))
      && Compare(InstGreater, l, r) == Ok(Bool(Greater(l, r)))
      && Compare(InstLessEq, l, r) == Ok(Bool(Greater(l, r) || l == r))
      && Compare(InstGreaterEq, l, r) == Ok(Bool(Greater(l, r) || l == r))
    ensures !IsIntegral(l) || !IsIntegral(r) ==>
      && Compare(InstLess, l, r) == Err && Compare(InstGreater, l, r) == Err
      && Compare(InstLessEq, l, r) == Err && Compare(InstGreaterEq, l, r) == Err
  {
    ComparisonOrdinals(InstLess);
    ComparisonOrdinals(InstGreater);
    ComparisonOrdinals(InstLessEq);
    ComparisonOrdinals(InstGreaterEq);
  }

  /** Every comparison of two integers yields a Bool. */
  lemma CompareIntegers(op: Opcode, a: Int32, b: Int32)
    requires IsComparison(op)
    ensures Compare(op, Int(a), Int(b)).Ok?
    ensures Compare(op, Int(a), Int(b)).value.b ==
      (if op == InstEq || op == InstNeq then a == b
       else if op == InstLess || op == InstGreater then a > b
       else a >= b)
  {
    EqualityTests(Int(a), Int(b));
    OrderingTests(Int(a), Int(b));
  }

  // ---------------------------------------------------------------- arithmetic

  lemma ProductAtLeast(y: int, q: int)
    requires y >= 1 && q >= 0
    ensures y * q >= q
  {
  }

  /** The truncated quotient never grows in magnitude, and halves it at least when the divisor is not ±1. */
  lemma TruncDivBound(a: int, b: int)
    requires b != 0
    ensures Abs(TruncDiv(a, b)) <= Abs(a)
    ensures Abs(b) >= 2 ==> 2 * Abs(TruncDiv(a, b)) <= Abs(a)
  {
    var x := Abs(a);
    var y := Abs(b);
    var q := x / y;
    assert x == y * q + x % y && x % y >= 0 && q >= 0;
    ProductAtLeast(y, q);
    if y >= 2 {
      ProductAtLeast(y - 1, q);
      assert y * q == (y - 1) * q + q;
    }
    assert Abs(TruncDiv(a, b)) == q;
  }

  /**
   * Division and remainder succeed together, exactly when the divisor is non-zero and
   * the pair is not INT_MIN and -1; then quotient and remainder recompose the dividend.
   */
  lemma DivisionIdentity(a: Int32, b: Int32)
    ensures Arith(InstDiv, Int(a), Int(b)).Ok? <==> b != 0 && !(a == -0x8000_0000 && b == -1)
    ensures Arith(InstMod, Int(a), Int(b)).Ok? <==> b != 0 && !(a == -0x8000_0000 && b == -1)
    ensures Arith(InstDiv, Int(a), Int(b)).Ok? ==>
      var q := Arith(InstDiv, Int(a), Int(b)).value.i;
      var m := Arith(InstMod, Int(a), Int(b)).value.i;
      a == b * q + m && (m == 0 || (m < 0 <==> a < 0)) && Abs(m) < Abs(b)
  {
    if b != 0 && !(a == -0x8000_0000 && b == -1) {
      TruncDivBound(a, b);
      TruncDivMod(a, b);
      var q := TruncDiv(a, b);
      var m := TruncMod(a, b);
      assert -0x8000_0000 <= q < 0x8000_0000 by {
        if a == -0x8000_0000 && Abs(b) == 1 {
          assert b == 1 && q == a;
        }
      }
      assert -0x8000_0000 <= m < 0x8000_0000;
      assert Exact(InstDiv, a, b) == Some(q);
      assert Exact(InstMod, a, b) == Some(m);
    }
  }

  /** Addition of two Ints is commutative, including in when it overflows. */
  lemma AddCommutes(l: Value, r: Value)
    ensures Arith(InstAdd, l, r) == Arith(InstAdd, r, l)
  {
  }

  /** Subtraction is the left operand minus the right one, and mismatched tags throw. */
  lemma SubtractionOrder(a: Int32, b: Int32, v: Value)
    requires -0x8000_0000 <= a - b < 0x8000_0000 && !v.Int?
    ensures Arith(InstSub, Int(a), Int(b)) == Ok(Int(a - b))
    ensures Arith(InstSub, Int(a), v) == Err && Arith(InstSub, v, Int(b)) == Err
  {
  }

  // --------------------------------------------------------------------- logic

  /** The bit patterns of the Bool encodings 0 and 1, both ways. */
  lemma BoolBits(b: bool)
    ensures Bits(if b then 1 else 0) == if b then 1 else 0
    ensures FromBits(if b then 1 else 0) == if b then 1 else 0
  {
    if b {
      assert Bits(1) == 1;
      assert FromBits(1) == 1;
    } else {
      assert Bits(0) == 0;
      assert FromBits(0) == 0;
    }
  }

  /** One bitwise instruction on two Bools, reduced to the bit patterns 0 and 1. */
  lemma LogicOnBool(op: Opcode, p: bool, q: bool)
    requires IsLogic(op)
    ensures Logic(op, Bool(p), Bool(q)) ==
      Ok(Bool(if op == InstAnd then p && q else if op == InstOr then p || q else p != q))
  {
    var x: bv32 := if p then 1 else 0;
    var y: bv32 := if q then 1 else 0;
    var z := if op == InstAnd then x & y else if op == InstOr then x | y else x ^ y;
    var r := if op == InstAnd then p && q else if op == InstOr then p || q else p != q;
    assert Bits(AsInt(Bool(p)).value) == x by { BoolBits(p); }
    assert Bits(AsInt(Bool(q)).value) == y by { BoolBits(q); }
    assert z == if r then 1 else 0;
    assert FromBits(z) != 0 <==> r by { BoolBits(r); }
  }

  /** On Bools the bitwise instructions are the logical connectives. */
  lemma LogicOnBools(p: bool, q: bool)
    ensures Logic(InstAnd, Bool(p), Bool(q)) == Ok(Bool(p && q))
    ensures Logic(InstOr, Bool(p), Bool(q)) == Ok(Bool(p || q))
    ensures Logic(InstXor, Bool(p), Bool(q)) == Ok(Bool(p != q))
  {
    LogicOnBool(InstAnd, p, q);
    LogicOnBool(InstOr, p, q);
    LogicOnBool(InstXor, p, q);
  }

  /** The bitwise instructions do not depend on operand order (the tags being equal). */
  lemma LogicCommutes(op: Opcode, l: Value, r: Value)
    requires IsLogic(op) && TypeOf(l) == TypeOf(r)
    ensures Logic(op, l, r) == Logic(op, r, l)
  {
    if IsIntegral(r) {
      var x := Bits(AsInt(l).value);
      var y := Bits(AsInt(r).value);
      assert x & y == y & x && x | y == y | x && x ^ y == y ^ x;
    }
  }

  /** `xor` of a value with itself is zero of its tag. */
  lemma XorWithItself(v: Value)
    requires IsIntegral(v)
    ensures Logic(InstXor, v, v) == Ok(FromInt(TypeOf(v), 0))
  {
    var x := Bits(AsInt(v).value);
    assert x ^ x == 0;
    assert FromBits(0) == 0;
  }

  /** `not` does not negate: it pushes whether its operand is non-zero, so `not TRUE` is true. */
  lemma NotIsTruthiness(b: bool, n: Int32)
    ensures Not(Bool(b)) == Ok(Bool(b))
    ensures Not(Int(n)) == Ok(Bool(n != 0))
    ensures Not(Str("")) == Err
  {
  }

  // -------------------------------------------------------- conversions, types

  /** Converting an integral value to its own type (named by `type`) gives it back. */
  lemma ConvertToOwnType(v: Value, render: Value -> string)
    requires IsIntegral(v)
    ensures Convert(v, TypeTag(v), render) == Ok(v)
  {
    if v.Char? {
      assert AsChar(v) == Ok(Wrap8(v.c));
    }
  }

  /** A char converts to INT and back unchanged; an INT converts to BOOL by the non-zero test. */
  lemma ConvertRoundTrips(c: Int8, n: Int32, render: Value -> string)
    ensures Convert(Char(c), ValType(0), render) == Ok(Int(c))
    ensures Convert(Int(c), ValType(2), render) == Ok(Char(c))
    ensures Convert(Int(n), ValType(1), render) == Ok(Bool(n != 0))
    ensures Convert(Bool(n != 0), ValType(0), render) == Ok(Int(if n != 0 then 1 else 0))
  {
  }

  /** A numeral string converts to INT through `std::stoi`; text without digits throws. */
  lemma ConvertNumeral(n: nat, render: Value -> string)
    requires n < 0x8000_0000
    ensures Convert(Str(DecimalText(n)), ValType(0), render) == Ok(Int(n))
    ensures Convert(Str(""), ValType(0), render) == Err
  {
    var t := DecimalText(n);
    assert BaseTypeOf(0) == Some(TypeInt);
    assert Convert(Str(t), ValType(0), render) == Ok(Int(n)) by {
      StoINumeral(n);
      assert TypeOf(Str(t)) == TypeStr;
    }
    assert Convert(Str(""), ValType(0), render) == Err by {
      assert StoI("") == Err;
    }
  }

  /** A type code that names no base type falls through the switch: the default Value is produced. */
  lemma ConvertUnknownType(v: Value, k: Int32, render: Value -> string)
    requires k < 0 || k > 3
    ensures Convert(v, ValType(k), render) == Ok(Null)
  {
  }
}
