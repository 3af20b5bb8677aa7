/**
 * The runtime value of value.h / value.cpp: a type tag and one payload slot
 * (a C union of a char, a bool, an int64, a double and a pointer). A payload
 * is the union member last written. The functions assert their
 * preconditions with the C assert macro; an assertion that fails aborts the
 * program, which is the Aborted outcome here.
 */
module Value {
  import opened Wrappers
  import opened Numbers

  /** NitroType, numbered as in the header. */
  datatype NitroType =
    | NilType | CharType | BoolType | IntType | FloatType
    | ArrayType | StringType | FunctionType

  function TypeOrdinal(t: NitroType): (n: nat)
    ensures n < 8
  {
    match t
    case NilType => 0
    case CharType => 1
    case BoolType => 2
    case IntType => 3
    case FloatType => 4
    case ArrayType => 5
    case StringType => 6
    case FunctionType => 7
  }

  /** The enumerator with a given number. */
  function TypeOfOrdinal(n: nat): Option<NitroType>
  {
    if n == 0 then Some(NilType) else if n == 1 then Some(CharType)
    else if n == 2 then Some(BoolType) else if n == 3 then Some(IntType)
    else if n == 4 then Some(FloatType) else if n == 5 then Some(ArrayType)
    else if n == 6 then Some(StringType) else if n == 7 then Some(FunctionType)
    else None
  }

  /** The numbering is a bijection between the eight tags and 0..7. */
  lemma TypeOrdinalBijective(t: NitroType, n: nat)
    ensures TypeOfOrdinal(TypeOrdinal(t)) == Some(t)
    ensures TypeOfOrdinal(n).Some? <==> n < 8
    ensures TypeOfOrdinal(n).Some? ==> TypeOrdinal(TypeOfOrdinal(n).value) == n
  {
  }

  /** A void* payload: null or some address. */
  datatype Pointer = Null | Address(addr: nat)

  /** The member of the payload union last written. */
  datatype Payload =
    | CharSlot(c: char)
    | BoolSlot(b: bool)
    | IntSlot(i: int64)
    | FloatSlot(f: Float64)
    | RefSlot(r: Pointer)

  datatype NitroValue = NitroValue(tag: NitroType, payload: Payload)

  /** The union member that belongs to each tag holds the payload. */
  predicate WellTagged(v: NitroValue)
  {
    match v.tag
    case CharType => v.payload.CharSlot?
    case BoolType => v.payload.BoolSlot?
    case IntType => v.payload.IntSlot?
    case FloatType => v.payload.FloatSlot?
    case _ => v.payload.RefSlot?
  }

  /** What a function that asserts its precondition gives back. */
  datatype Outcome<T> = Returned(value: T) | Aborted

  // ---------------------------------------------------------------------
  // Constructors

  function NitroValueNil(): (v: NitroValue)
    ensures IsNil(v) && WellTagged(v) && v.payload.r == Null
  {
    NitroValue(NilType, RefSlot(Null))
  }

  function NitroValueChar(c: char): (v: NitroValue)
    ensures IsChar(v) && WellTagged(v) && v.payload.c == c
  {
    NitroValue(CharType, CharSlot(c))
  }

  function NitroValueBool(b: bool): (v: NitroValue)
    ensures IsBool(v) && WellTagged(v) && v.payload.b == b
  {
    NitroValue(BoolType, BoolSlot(b))
  }

  function NitroValueTrue(): (v: NitroValue)
    ensures IsBool(v) && WellTagged(v)
  {
    NitroValueBool(true)
  }

  function NitroValueFalse(): (v: NitroValue)
    ensures IsBool(v) && WellTagged(v)
  {
    NitroValueBool(false)
  }

  function NitroValueInt(i: int64): (v: NitroValue)
    ensures IsInt(v) && WellTagged(v) && v.payload.i == i
  {
    NitroValue(IntType, IntSlot(i))
  }

  function NitroValueFloat(f: Float64): (v: NitroValue)
    ensures IsFloat(v) && WellTagged(v) && v.payload.f == f
  {
    NitroValue(FloatType, FloatSlot(f))
  }

  /** Not implemented: the assertion always fails. */
  function NitroValueArray(contains: NitroType): (o: Outcome<NitroValue>)
    ensures o.Aborted?
  {
    Aborted
  }

  /** Not implemented: the assertion always fails. */
  function NitroValueString(copy: string): (o: Outcome<NitroValue>)
    ensures o.Aborted?
  {
    Aborted
  }

  // ---------------------------------------------------------------------
  // Accessors and predicates

  /** The tag, which is the type the inline predicates of the header test. */
  function NitroValueType(v: NitroValue): (t: NitroType)
    ensures t == NilType <==> IsNil(v)
    ensures t == CharType <==> IsChar(v)
    ensures t == BoolType <==> IsBool(v)
    ensures t == IntType <==> IsInt(v)
    ensures t == FloatType <==> IsFloat(v)
    ensures t == ArrayType <==> IsArray(v)
    ensures t == StringType <==> IsString(v)
  {
    v.tag
  }

  /** The inline predicates of value.h, each comparing the tag with the
      enumerator of the numbered value shown. */
  function IsNil(v: NitroValue): (b: bool)
    ensures b <==> TypeOrdinal(v.tag) == 0
  { v.tag == NilType }

  function IsChar(v: NitroValue): (b: bool)
    ensures b <==> TypeOrdinal(v.tag) == 1
  { v.tag == CharType }

  function IsBool(v: NitroValue): (b: bool)
    ensures b <==> TypeOrdinal(v.tag) == 2
  { v.tag == BoolType }

  function IsInt(v: NitroValue): (b: bool)
    ensures b <==> TypeOrdinal(v.tag) == 3
  { v.tag == IntType }

  function IsFloat(v: NitroValue): (b: bool)
    ensures b <==> TypeOrdinal(v.tag) == 4
  { v.tag == FloatType }

  function IsArray(v: NitroValue): (b: bool)
    ensures b <==> TypeOrdinal(v.tag) == 5
  { v.tag == ArrayType }

  function IsString(v: NitroValue): (b: bool)
    ensures b <==> TypeOrdinal(v.tag) == 6
  { v.tag == StringType }

  /** The char member; aborts on a value that is not a char. */
  function NitroValueAsChar(v: NitroValue): (o: Outcome<char>)
    requires IsChar(v) ==> v.payload.CharSlot?
    ensures o.Returned? <==> IsChar(v)
  {
    if IsChar(v) then Returned(v.payload.c) else Aborted
  }

  // ---------------------------------------------------------------------
  // Properties

  /** How many of the seven type predicates hold. */
  function PredicatesHolding(v: NitroValue): nat
  {
    (if IsNil(v) then 1 else 0) + (if IsChar(v) then 1 else 0)
    + (if IsBool(v) then 1 else 0) + (if IsInt(v) then 1 else 0)
    + (if IsFloat(v) then 1 else 0) + (if IsArray(v) then 1 else 0)
    + (if IsString(v) then 1 else 0)
  }

  /** Exactly one predicate holds for each tag but FUNCTION, which has none. */
  lemma ExactlyOnePredicate(v: NitroValue)
    ensures PredicatesHolding(v) == if v.tag == FunctionType then 0 else 1
  {
  }

  /** NitroValueType reads back the tag each constructor sets. */
  lemma ConstructorTags(c: char, b: bool, i: int64, f: Float64)
    ensures NitroValueType(NitroValueNil()) == NilType
    ensures NitroValueType(NitroValueChar(c)) == CharType
    ensures NitroValueType(NitroValueBool(b)) == BoolType
    ensures NitroValueType(NitroValueInt(i)) == IntType
    ensures NitroValueType(NitroValueFloat(f)) == FloatType
  {
  }

  /** Reading the char back gives what was stored, and distinct chars give
      distinct values. */
  lemma AsCharOfChar(c: char, d: char)
    ensures NitroValueAsChar(NitroValueChar(c)) == Returned(c)
    ensures NitroValueChar(c) == NitroValueChar(d) ==> c == d
  {
  }

  /** The assertion fails on every tag but CHAR, whatever the union holds:
      an Int-tagged value whose payload is a char slot still aborts. */
  lemma AsCharAbortsOffChar(c: char)
    ensures NitroValueAsChar(NitroValue(IntType, CharSlot(c))) == Aborted
  {
  }

  /** True and False are the two Bool values, and they differ. */
  lemma TrueAndFalse(b: bool)
    ensures NitroValueTrue() == NitroValueBool(true)
    ensures NitroValueFalse() == NitroValueBool(false)
    ensures NitroValueTrue() != NitroValueFalse()
    ensures NitroValueBool(b) == NitroValueTrue() || NitroValueBool(b) == NitroValueFalse()
  {
  }

  /** Distinct integers give distinct values. */
  lemma IntInjective(i: int64, j: int64)
    ensures NitroValueInt(i) == NitroValueInt(j) <==> i == j
  {
  }
}
