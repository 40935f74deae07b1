/**
 * Shared vocabulary of the model: Java types as jrgen sees them (through
 * Jackson's JavaType), the runtime values it produces, the exceptions that
 * can escape a generation, and the type builders a workflow holds.
 */
module Types {

  datatype Option<T> = None | Some(value: T)

  /** Java integer widths. */
  const MinInt8: int := -0x80
  const MaxInt8: int := 0x7F
  const MinInt16: int := -0x8000
  const MaxInt16: int := 0x7FFF
  const MinInt32: int := -0x8000_0000
  const MaxInt32: int := 0x7FFF_FFFF
  const MinInt64: int := -0x8000_0000_0000_0000
  const MaxInt64: int := 0x7FFF_FFFF_FFFF_FFFF

  type Int8 = x: int | MinInt8 <= x <= MaxInt8
  type Int16 = x: int | MinInt16 <= x <= MaxInt16
  type Int32 = x: int | MinInt32 <= x <= MaxInt32
  type Int64 = x: int | MinInt64 <= x <= MaxInt64

  datatype PrimKind = IntP | LongP | ShortP | ByteP | CharP | BooleanP | FloatP | DoubleP

  /** Classes the default generator dispatches on by identity, plus Object. */
  datatype ScalarClass =
    | IntegerC | NumberC | BigDecimalC | BigIntegerC | ByteC | CharacterC | ShortC
    | LongC | DoubleC | FloatC | DateC | BooleanC | StringC | ObjectC

  /** Whether a collection class keeps duplicates in insertion order or collapses them. */
  datatype CollShape = ListShape | SetShape

  /**
   * A Java type as the generator sees it. Collection and map types carry
   * their type parameters; their raw class is obtained with Erase.
   */
  datatype TypeId =
    | Prim(kind: PrimKind)
    | Scalar(sc: ScalarClass)
    | Enum(name: string, constants: seq<string>)
    | Array(elem: TypeId)
    | Coll(shape: CollShape, cls: string, elem: TypeId)
    | MapT(cls: string, key: TypeId, value: TypeId)
    | Bean(cls: string)

  /** The boxed class of a primitive. */
  function Wrapper(k: PrimKind): ScalarClass
  {
    match k
    case IntP => IntegerC
    case LongP => LongC
    case ShortP => ShortC
    case ByteP => ByteC
    case CharP => CharacterC
    case BooleanP => BooleanC
    case FloatP => FloatC
    case DoubleP => DoubleC
  }

  /** The raw class of a type: type parameters are dropped, array element classes kept. */
  function Erase(t: TypeId): TypeId
  {
    match t
    case Array(e) => Array(Erase(e))
    case Coll(s, c, _) => Coll(s, c, Scalar(ObjectC))
    case MapT(c, _, _) => MapT(c, Scalar(ObjectC), Scalar(ObjectC))
    case _ => t
  }

  /** A type that is its own raw class. */
  predicate IsRaw(t: TypeId)
  {
    match t
    case Array(e) => IsRaw(e)
    case Coll(_, _, e) => e == Scalar(ObjectC)
    case MapT(_, k, v) => k == Scalar(ObjectC) && v == Scalar(ObjectC)
    case _ => true
  }

  lemma {:induction false} EraseIsRaw(t: TypeId)
    ensures IsRaw(Erase(t))
    ensures IsRaw(t) ==> Erase(t) == t
  {
    match t
    case Array(e) => EraseIsRaw(e);
    case _ =>
  }

  /**
   * Runtime values. Integers of every width are IntV; a date keeps the
   * calendar fields it was set from (month 0-based as in Calendar); Obj is an
   * instance of a bean class with its property values.
   */
  datatype Value =
    | Null
    | IntV(i: int)
    | BoolV(b: bool)
    | CharV(c: char)
    | StrV(s: string)
    | DateV(year: int, month: int, day: int, hour: int, minute: int)
    | EnumV(enumName: string, constant: string)
    | FloatingV(cls: ScalarClass)
    | ArrV(elems: seq<Value>)
    | ListV(lcls: TypeId, elems: seq<Value>)
    | SetV(scls: TypeId, members: set<Value>)
    | MapV(mcls: TypeId, entries: map<Value, Value>)
    | RecV(fields: map<string, Value>)
    | Obj(ocls: TypeId, props: map<string, Value>)

  /** Why an IllegalArgumentException was thrown. */
  datatype Reason =
    | MinGreaterThanMax       // JrgenUtil.validateMaxMin
    | NegativeNumber          // JrgenUtil.validatePositiveNumber and the guarded setters
    | NonPositiveBound        // Random.nextInt(bound) with bound <= 0
    | UnsupportedType         // DefaultGenerator.createValue
    | NullArgument            // JrgenUtil.validateNonNullArgument
    | NotANumber              // NumberFormatException from Integer.valueOf
    | NotConvertible          // Jackson convertValue
    | NullIntoPrimitiveArray  // Array.set of null into a primitive array

  /** Exceptions that escape a generation. */
  datatype Exn =
    | IllegalArgument(reason: Reason)
    | NegativeArraySize
    | NullPointer
    | IndexOutOfBounds
    | StackOverflow
    | NotInitialized

  datatype Result<T> = Ok(value: T) | Err(error: Exn)

  /** Outcome of an operation that returns nothing. */
  datatype Status = Done | Threw(error: Exn)

  /** The builders a workflow may hold; a custom builder is known by its class name. */
  datatype BuilderTag =
    | PrimitiveBuilder
    | EnumBuilder
    | ArrayBuilder
    | CollectionBuilder
    | MapBuilder
    | ConfigurationBasedBuilder
    | ImmutableBuilder
    | CustomBuilder(name: string)

  /** Property names of a description are distinct (a LinkedHashMap's keys). */
  predicate DistinctNames(d: seq<(string, TypeId)>)
  {
    forall i, j :: 0 <= i < j < |d| ==> d[i].0 != d[j].0
  }

  /**
   * What Descriptor.describe returns: the readable-and-writable properties
   * of a class with their types, in declaration order. Empty when the class
   * has none (the source returns null then).
   */
  type Description = d: seq<(string, TypeId)> | DistinctNames(d) witness []

  function Names(d: seq<(string, TypeId)>): set<string>
  {
    set i | 0 <= i < |d| :: d[i].0
  }

  /** The type of property n, if it is described. */
  function Lookup(d: seq<(string, TypeId)>, n: string): (r: Option<TypeId>)
    ensures r.Some? ==> exists i :: 0 <= i < |d| && d[i] == (n, r.value)
    ensures r.None? ==> forall i :: 0 <= i < |d| ==> d[i].0 != n
  {
    if |d| == 0 then None
    else if d[0].0 == n then Some(d[0].1)
    else Lookup(d[1..], n)
  }

  /** The described properties whose names are not in keys, in description order. */
  function Missing(d: seq<(string, TypeId)>, keys: set<string>): (m: seq<(string, TypeId)>)
    ensures |m| <= |d|
  {
    if |d| == 0 then []
    else (if d[0].0 in keys then [] else [d[0]]) + Missing(d[1..], keys)
  }

  /** Missing keeps exactly the properties whose names are not among the keys. */
  lemma {:induction false} MissingExactly(d: seq<(string, TypeId)>, keys: set<string>)
    ensures forall p :: p in Missing(d, keys) ==> p in d && p.0 !in keys
    ensures forall p :: p in d && p.0 !in keys ==> p in Missing(d, keys)
  {
    if |d| > 0 {
      MissingExactly(d[1..], keys);
      assert forall p :: p in d ==> p == d[0] || p in d[1..];
    }
  }
}
