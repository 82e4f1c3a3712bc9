/**
 * The runtime scalar of the language: a tag and one payload member selected by it.
 * The C++ class keeps the tag beside an untagged union; here the two are one closed
 * datatype, so a payload can only be read under the tag it was written with.
 */
module Values {
  import opened Outcomes

  /** C++ `int` on the targets the program is built for: 32-bit two's complement. */
  type Int32 = x: int | -0x8000_0000 <= x < 0x8000_0000

  /** C++ `char`: signed, 8 bits. */
  type Int8 = x: int | -0x80 <= x < 0x80

  /** A truncating conversion to `int` (`static_cast<int>` of a wider or unsigned value). */
  function Wrap32(n: int): (r: Int32)
    ensures (n - r) % 0x1_0000_0000 == 0
    ensures -0x8000_0000 <= n < 0x8000_0000 ==> r == n
  {
    (n + 0x8000_0000) % 0x1_0000_0000 - 0x8000_0000
  }

  /** A truncating conversion to `char` (`static_cast<char>`). */
  function Wrap8(n: int): (r: Int8)
    ensures (n - r) % 0x100 == 0
    ensures -0x80 <= n < 0x80 ==> r == n
  {
    (n + 0x80) % 0x100 - 0x80
  }

  /** The C++ `char` holding a character of a `std::string` (each character stands for one byte). */
  function ByteOf(c: char): Int8
  {
    Wrap8(c as int)
  }

  /**
   * The tags. The header declares the first four; the .cpp files also use a type-tag,
   * a variable-name and a null tag.
   */
  datatype ValueType = TypeInt | TypeBool | TypeChar | TypeStr | TypeValType | TypeName | TypeNull

  /**
   * `static_cast<int>` of a tag. The first four follow the header's declaration order;
   * the order of the three tags only the .cpp files use is not shown and is taken to follow.
   */
  function TypeOrdinal(t: ValueType): (k: Int32)
    ensures 0 <= k < 7
    ensures t in BaseTypes <==> k < 4
  {
    match t
    case TypeInt => 0
    case TypeBool => 1
    case TypeChar => 2
    case TypeStr => 3
    case TypeValType => 4
    case TypeName => 5
    case TypeNull => 6
  }

  /** `static_cast<ValueType>(k)` as far as the conversion switch distinguishes it: the four base kinds. */
  function BaseTypeOf(k: int): (r: Option<ValueType>)
    ensures r.Some? ==> r.value in BaseTypes && TypeOrdinal(r.value) == k
    ensures r.None? ==> forall t :: t in BaseTypes ==> TypeOrdinal(t) != k
  {
    if k == 0 then Some(TypeInt)
    else if k == 1 then Some(TypeBool)
    else if k == 2 then Some(TypeChar)
    else if k == 3 then Some(TypeStr)
    else None
  }

  const BaseTypes: set<ValueType> := {TypeInt, TypeBool, TypeChar, TypeStr}

  /** The lookup table of `is_intergral`. */
  const IntegralTypes: set<ValueType> := {TypeInt, TypeChar, TypeBool}

  datatype Value =
    | Int(i: Int32)
    | Bool(b: bool)
    | Char(c: Int8)
    | Str(s: string)
    | ValType(code: Int32)
    | Name(name: string)
    | Null

  /** The union member a payload is written to. */
  datatype Payload = IntP(n: Int32) | BoolP(b: bool) | CharP(c: Int8) | StrP(s: string)

  /** Reads the payload under tag `t`: only the tag the Value carries gives a payload. */
  function Read(v: Value, t: ValueType): (r: Option<Payload>)
    ensures r.Some? <==> t == TypeOf(v)
  {
    match v
    case Int(n) => if t == TypeInt then Some(IntP(n)) else None
    case Bool(b) => if t == TypeBool then Some(BoolP(b)) else None
    case Char(c) => if t == TypeChar then Some(CharP(c)) else None
    case Str(s) => if t == TypeStr then Some(StrP(s)) else None
    case ValType(k) => if t == TypeValType then Some(IntP(k)) else None
    case Name(n) => if t == TypeName then Some(StrP(n)) else None
    case Null => if t == TypeNull then Some(StrP("")) else None
  }

  /** `get_type`: the tag, under which (and only under which) the payload reads back. */
  function TypeOf(v: Value): ValueType
  {
    match v
    case Int(_) => TypeInt
    case Bool(_) => TypeBool
    case Char(_) => TypeChar
    case Str(_) => TypeStr
    case ValType(_) => TypeValType
    case Name(_) => TypeName
    case Null => TypeNull
  }

  /** The payload a tag's member holds: every construction in the source passes that type. */
  predicate Fits(t: ValueType, p: Payload)
  {
    match t
    case TypeInt => p.IntP?
    case TypeBool => p.BoolP?
    case TypeChar => p.CharP?
    case TypeStr => p.StrP?
    case TypeValType => p.IntP?
    case TypeName => p.StrP?
    case TypeNull => p == StrP("")
  }

  /** `Value(type, value)`: sets the tag, then writes the member it selects. */
  function Make(t: ValueType, p: Payload): (v: Value)
    requires Fits(t, p)
    ensures TypeOf(v) == t
    ensures Read(v, t) == Some(p)
  {
    match t
    case TypeInt => Int(p.n)
    case TypeBool => Bool(p.b)
    case TypeChar => Char(p.c)
    case TypeStr => Str(p.s)
    case TypeValType => ValType(p.n)
    case TypeName => Name(p.s)
    case TypeNull => Null
  }

  /** `set_value`: writes the member selected by the current tag and keeps the tag. */
  function SetPayload(v: Value, p: Payload): (w: Value)
    requires Fits(TypeOf(v), p)
    ensures TypeOf(w) == TypeOf(v)
    ensures Read(w, TypeOf(v)) == Some(p)
    ensures forall u :: u != TypeOf(v) ==> Read(w, u) == None
  {
    Make(TypeOf(v), p)
  }

  /** `std::get<int>` on the stored variant: Int and type-tag Values hold an `int`. */
  function GetInt(v: Value): (r: Result<Int32>)
    ensures r.Ok? <==> TypeOf(v) in {TypeInt, TypeValType}
    ensures r.Ok? ==> Read(v, TypeOf(v)) == Some(IntP(r.value))
  {
    match v
    case Int(n) => Ok(n)
    case ValType(k) => Ok(k)
    case _ => Err
  }

  /** `std::get<std::string>` on the stored variant: Str, Name and Null Values hold a string. */
  function GetString(v: Value): (r: Result<string>)
    ensures r.Ok? <==> TypeOf(v) in {TypeStr, TypeName, TypeNull}
    ensures r.Ok? ==> Read(v, TypeOf(v)) == Some(StrP(r.value))
  {
    match v
    case Str(s) => Ok(s)
    case Name(n) => Ok(n)
    case Null => Ok("")
    case _ => Err
  }

  /** `is_intergral`. */
  function IsIntegral(v: Value): (r: bool)
    ensures r <==> TypeOf(v) in IntegralTypes
  {
    match v
    case Int(_) => true
    case Bool(_) => true
    case Char(_) => true
    case _ => false
  }

  /** `as_int`: the integer encoding of an integral Value; any other Value throws. */
  function AsInt(v: Value): (r: Result<Int32>)
    ensures r.Ok? <==> IsIntegral(v)
    ensures r.Ok? && v.Bool? ==> r.value == (if v.b then 1 else 0)
    ensures r.Ok? && v.Int? ==> r.value == v.i
    ensures r.Ok? && v.Char? ==> r.value == v.c
  {
    match v
    case Int(n) => Ok(n)
    case Bool(b) => Ok(if b then 1 else 0)
    case Char(c) => Ok(c)
    case _ => Err
  }

  /**
   * `from_int`: an integral Value of tag `t` built from an `int`. The switch has no case
   * for the other tags and falls off the end, so only integral tags may be asked for.
   */
  function FromInt(t: ValueType, n: Int32): (v: Value)
    requires t in IntegralTypes
    ensures TypeOf(v) == t && IsIntegral(v)
    ensures v.Bool? ==> (v.b <==> n != 0)
    ensures v.Char? ==> (n - v.c) % 0x100 == 0
    ensures v.Int? ==> v.i == n
  {
    match t
    case TypeInt => Int(n)
    case TypeBool => Bool(n != 0)
    case TypeChar => Char(Wrap8(n))
  }

  /** Round trip: an Int made from `n` converts back to `n`. */
  lemma AsIntFromInt(n: Int32)
    ensures AsInt(FromInt(TypeInt, n)) == Ok(n)
  {
  }

  /** Round trip the other way: rebuilding an integral Value from its encoding gives it back. */
  lemma FromIntAsInt(v: Value)
    requires IsIntegral(v)
    ensures FromInt(TypeOf(v), AsInt(v).value) == v
  {
  }

  /**
   * Ordering (`operator>`), only ever applied to two integral Values. Its body is not
   * in the files modelled; it is defined here to compare the integer encodings.
   */
  function Greater(l: Value, r: Value): bool
    requires IsIntegral(l) && IsIntegral(r)
  {
    AsInt(l).value > AsInt(r).value
  }

  /** `as_bool`: the non-zero test on the integer encoding. */
  function AsBool(v: Value): (r: Result<bool>)
    ensures r.Ok? <==> IsIntegral(v)
    ensures r.Ok? ==> (r.value <==> AsInt(v).value != 0)
  {
    match AsInt(v)
    case Ok(n) => Ok(n != 0)
    case Err => Err
  }

  /** `as_char`: a truncated integral encoding, or the first character of a string. */
  function AsChar(v: Value): (r: Result<Int8>)
    ensures r.Ok? <==> IsIntegral(v) || (v.Str? && |v.s| > 0)
    ensures r.Ok? && IsIntegral(v) ==> (AsInt(v).value - r.value) % 0x100 == 0
    ensures r.Ok? && v.Str? ==> r.value == ByteOf(v.s[0])
  {
    match v
    case Str(s) => if |s| > 0 then Ok(ByteOf(s[0])) else Err
    case _ =>
      match AsInt(v)
      case Ok(n) => Ok(Wrap8(n))
      case Err => Err
  }

  /** `get_index`: the character at a position of a string, the only collection. */
  function GetIndex(coll: Value, k: int): (r: Result<Value>)
    ensures r.Ok? <==> coll.Str? && 0 <= k < |coll.s|
    ensures r.Ok? ==> r.value == Char(ByteOf(coll.s[k]))
  {
    match coll
    case Str(s) => if 0 <= k < |s| then Ok(Char(ByteOf(s[k]))) else Err
    case _ => Err
  }

  /** `get_len`: the length of a string, the only collection. */
  function GetLen(coll: Value): (r: Result<nat>)
    ensures r.Ok? <==> coll.Str?
    ensures r.Ok? ==> r.value == |coll.s|
  {
    match coll
    case Str(s) => Ok(|s|)
    case _ => Err
  }

  /** Cross-tag equality is false, not a fault: an Int and a Bool with the same truth value differ. */
  lemma EqualityIsTagSensitive(v: Value, w: Value)
    requires TypeOf(v) != TypeOf(w)
    ensures v != w
  {
  }
}
