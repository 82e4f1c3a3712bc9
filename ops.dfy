/**
 * The value-level work of the interpreter's instruction groups: what each arithmetic,
 * logical, comparison, collection and conversion instruction computes from the Values
 * it pops, or that it throws.
 */
module Operations {
  import opened Outcomes
  import opened Values
  import opened Decimal
  import opened Instructions

  // ---------------------------------------------------------------- arithmetic

  predicate IsArith(op: Opcode)
  {
    op in {InstAdd, InstSub, InstMul, InstDiv, InstMod}
  }

  predicate IsLogic(op: Opcode)
  {
    op in {InstAnd, InstOr, InstXor}
  }

  function Abs(x: int): nat
  {
    if x < 0 then -x else x
  }

  /** C++ `/` on `int`: the quotient truncated toward zero. */
  function TruncDiv(a: int, b: int): int
    requires b != 0
  {
    var q := Abs(a) / Abs(b);
    if (a < 0) != (b < 0) then -q else q
  }

  /** C++ `%` on `int`: what is left after the truncated quotient. */
  function TruncMod(a: int, b: int): int
    requires b != 0
  {
    a - b * TruncDiv(a, b)
  }

  /** The remainder is smaller than the divisor and takes the dividend's sign, as C++ requires. */
  lemma TruncDivMod(a: int, b: int)
    requires b != 0
    ensures a == b * TruncDiv(a, b) + TruncMod(a, b)
    ensures Abs(TruncMod(a, b)) < Abs(b)
    ensures TruncMod(a, b) == 0 || (TruncMod(a, b) < 0 <==> a < 0)
  {
    var x: int := Abs(a);
    var y: int := Abs(b);
    var q := x / y;
    var m := x % y;
    assert x == y * q + m && 0 <= m < y;
    assert TruncMod(a, b) == if a < 0 then -m else m by {
      if a < 0 && b < 0 {
        assert TruncMod(a, b) == a - b * q == -x + y * q == -m;
      } else if a < 0 {
        assert TruncMod(a, b) == a + b * q == -x + y * q == -m;
      } else if b < 0 {
        assert TruncMod(a, b) == a + b * q == x - y * q == m;
      } else {
        assert TruncMod(a, b) == a - b * q == m;
      }
    }
  }

  /**
   * The exact result of `lhs op rhs` on `int` operands. Division and remainder by zero,
   * and of INT_MIN by -1, are undefined in C++ and give `None`.
   */
  function Exact(op: Opcode, lhs: Int32, rhs: Int32): Option<int>
    requires IsArith(op)
  {
    if op == InstAdd then Some(lhs + rhs)
    else if op == InstSub then Some(lhs - rhs)
    else if op == InstMul then Some(lhs * rhs)
    else if rhs == 0 || (lhs == -0x8000_0000 && rhs == -1) then None
    else if op == InstDiv then Some(TruncDiv(lhs, rhs))
    else Some(TruncMod(lhs, rhs))
  }

  /**
   * `_arith_op` on the popped operands: both must carry the same tag, and that tag must
   * be INT. A result outside `int` (signed overflow, undefined in C++) is treated as a fault.
   */
  function Arith(op: Opcode, l: Value, r: Value): (res: Result<Value>)
    requires IsArith(op)
    ensures res.Ok? <==> l.Int? && r.Int? && Exact(op, l.i, r.i).Some? &&
                         -0x8000_0000 <= Exact(op, l.i, r.i).value < 0x8000_0000
    ensures res.Ok? ==> res.value == Int(Exact(op, l.i, r.i).value)
  {
    if TypeOf(r) != TypeOf(l) then Err
    else if TypeOf(r) != TypeInt then Err
    else
      match Exact(op, l.i, r.i)
      case None => Err
      case Some(n) => if -0x8000_0000 <= n < 0x8000_0000 then Ok(Int(n)) else Err
  }

  // --------------------------------------------------------------------- logic

  /** The bit pattern of an `int`. */
  function Bits(n: Int32): bv32
  {
    (if n < 0 then n + 0x1_0000_0000 else n) as bv32
  }

  /** The `int` a bit pattern stands for. */
  function FromBits(b: bv32): Int32
  {
    Wrap32(b as int)
  }

  /** `_logic_op` on the popped operands: same tag, integral; the result keeps the LEFT operand's tag. */
  function Logic(op: Opcode, l: Value, r: Value): (res: Result<Value>)
    requires IsLogic(op)
    ensures res.Ok? <==> TypeOf(l) == TypeOf(r) && IsIntegral(r)
    ensures res.Ok? ==> TypeOf(res.value) == TypeOf(l)
  {
    if TypeOf(r) != TypeOf(l) then Err
    else if !IsIntegral(r) then Err
    else
      var x := Bits(AsInt(l).value);
      var y := Bits(AsInt(r).value);
      var z := if op == InstAnd then x & y else if op == InstOr then x | y else x ^ y;
      Ok(FromInt(TypeOf(l), FromBits(z)))
  }

  // --------------------------------------------------------------- comparisons

  /**
   * `_comp_op` on the popped operands, with the source's ordinal arithmetic kept as
   * written: the expected truth of the test is the ordinal minus an offset, cast to bool.
   */
  function Compare(op: Opcode, l: Value, r: Value): (res: Result<Value>)
    requires IsComparison(op)
    ensures res.Ok? ==> res.value.Bool?
  {
    if op == InstNeq || op == InstEq then
      Ok(Bool((l == r) == (Ordinal(op) - 14 != 0)))
    else if !IsIntegral(l) || !IsIntegral(r) then Err
    else if Ordinal(op) > Ordinal(InstGreater) && l == r then Ok(Bool(true))
    else
      var offset := if Ordinal(op) > Ordinal(InstGreater) then 18 else 16;
      Ok(Bool(Greater(l, r) == (Ordinal(op) - offset != 0)))
  }

  /** `_not_op` on the popped operand: whether its integer encoding is non-zero. */
  function Not(v: Value): (res: Result<Value>)
    ensures res.Ok? <==> IsIntegral(v)
    ensures res.Ok? ==> res.value == Bool(AsInt(v).value != 0)
  {
    match AsInt(v)
    case Err => Err
    case Ok(n) => Ok(Bool(n != 0))
  }

  // --------------------------------------------------------- collections, types

  /** `at` on the popped collection and index: the index must carry the INT tag. */
  function At(coll: Value, index: Value): (res: Result<Value>)
    ensures res.Ok? <==> index.Int? && coll.Str? && 0 <= index.i < |coll.s|
    ensures res.Ok? ==> res.value == Char(ByteOf(coll.s[index.i]))
  {
    if TypeOf(index) != TypeInt then Err
    else GetIndex(coll, AsInt(index).value)
  }

  /** `len` on the popped collection, stored in an `int`. */
  function Len(coll: Value): (res: Result<Value>)
    ensures res.Ok? <==> coll.Str?
    ensures res.Ok? && |coll.s| < 0x8000_0000 ==> res.value == Int(|coll.s|)
  {
    match GetLen(coll)
    case Err => Err
    case Ok(n) => Ok(Int(Wrap32(n)))
  }

  /** `type`: the type-tag Value holding the ordinal of the operand's tag. */
  function TypeTag(v: Value): (res: Value)
    ensures res.ValType? && BaseTypeOf(res.code) == (if TypeOf(v) in BaseTypes then Some(TypeOf(v)) else None)
  {
    ValType(TypeOrdinal(TypeOf(v)))
  }

  /**
   * `conv`: converts `v` to the type named by the type-tag `target`. A string converts
   * to INT through `std::stoi`; `render` stands for `to_string`, whose body is not
   * part of this model. A code naming no base type matches no case of the switch, and
   * the default-constructed Value is pushed.
   */
  function Convert(v: Value, target: Value, render: Value -> string): (res: Result<Value>)
    ensures !target.ValType? ==> res == Err
    ensures res.Ok? && target.ValType? && BaseTypeOf(target.code).Some? ==>
      TypeOf(res.value) == BaseTypeOf(target.code).value
  {
    if TypeOf(target) != TypeValType then Err
    else
      match BaseTypeOf(target.code)
      case None => Ok(Null)
      case Some(t) =>
        if t == TypeInt then
          if TypeOf(v) == TypeStr then
            (match StoI(v.s)
             case Err => Err
             case Ok(n) => Ok(Int(n)))
          else
            (match AsInt(v)
             case Err => Err
             case Ok(n) => Ok(Int(n)))
        else if t == TypeChar then
          (match AsChar(v)
           case Err => Err
           case Ok(c) => Ok(Char(c)))
        else if t == TypeBool then
          (match AsBool(v)
           case Err => Err
           case Ok(b) => Ok(Bool(b)))
        else Ok(Str(render(v)))
  }
}
