/**
 * The dynamic values that flow through the cache: Go's `interface{}` written as a
 * closed union, pointers as heap cells, and the `Value` box that a Get returns.
 */
module Values {

  /** The ten fixed-width integer kinds; `Int` and `Uint` are taken to be 64 bits wide. */
  datatype IntKind = Int | Int8 | Int16 | Int32 | Int64 | Uint | Uint8 | Uint16 | Uint32 | Uint64

  predicate IsSigned(k: IntKind) {
    k.Int? || k.Int8? || k.Int16? || k.Int32? || k.Int64?
  }

  /** Number of distinct values of the kind (2 to the power of its width). */
  function Modulus(k: IntKind): (m: nat)
    ensures m >= 0x100
  {
    match k
    case Int8 | Uint8 => 0x100
    case Int16 | Uint16 => 0x1_0000
    case Int32 | Uint32 => 0x1_0000_0000
    case Int | Int64 | Uint | Uint64 => 0x1_0000_0000_0000_0000
  }

  function MinOf(k: IntKind): int {
    if IsSigned(k) then -(Modulus(k) / 2) else 0
  }

  function MaxOf(k: IntKind): int {
    MinOf(k) + Modulus(k) - 1
  }

  predicate InRange(k: IntKind, n: int) {
    MinOf(k) <= n <= MaxOf(k)
  }

  /** Two's-complement wrap-around of Go's fixed-width integer arithmetic. */
  function Wrap(k: IntKind, x: int): (r: int)
    ensures InRange(k, r)
    ensures InRange(k, x) ==> r == x
    ensures (x - r) % Modulus(k) == 0
  {
    MinOf(k) + (x - MinOf(k)) % Modulus(k)
  }

  /** Static types a Go pointer may point to. */
  datatype Type = IntType(kind: IntKind) | StringType | FloatType | StructType(name: string) | InterfaceType

  /** The ten integer types for which the Redis backend takes its native path. */
  const IntegerTypes: set<Type> :=
    {IntType(Int), IntType(Int8), IntType(Int16), IntType(Int32), IntType(Int64),
     IntType(Uint), IntType(Uint8), IntType(Uint16), IntType(Uint32), IntType(Uint64)}

  /** IntegerTypes holds exactly the integer types. */
  lemma IntegerTypesExactly(t: Type)
    ensures t in IntegerTypes <==> t.IntType?
  {
    if t.IntType? {
      match t.kind
      case Int | Int8 | Int16 | Int32 | Int64 =>
      case Uint | Uint8 | Uint16 | Uint32 | Uint64 =>
    }
  }

  /** A plain (pointer-free) Go value. `Float` stands for float64, with exact arithmetic. */
  datatype Val =
    | Nil
    | Integer(kind: IntKind, n: int)
    | Str(s: string)
    | Float(f: real)
    | Struct(name: string, fields: seq<Val>)

  function TypeOf(v: Val): Type {
    match v
    case Nil => InterfaceType
    case Integer(k, _) => IntType(k)
    case Str(_) => StringType
    case Float(_) => FloatType
    case Struct(name, _) => StructType(name)
  }

  /** reflect.Value.IsZero: the zero value of its type. */
  predicate IsZero(v: Val) {
    match v
    case Nil => true
    case Integer(_, n) => n == 0
    case Str(s) => s == ""
    case Float(f) => f == 0.0
    case Struct(_, fields) => forall i :: 0 <= i < |fields| ==> IsZero(fields[i])
  }

  /**
   * reflect.Value.IsZero of a value whose static type is `t`: a value of interface type
   * is zero only when it is nil, whatever the value it holds.
   */
  predicate IsZeroAs(t: Type, v: Val) {
    if t == InterfaceType then v == Nil else IsZero(v)
  }

  /** A Go pointer `*T`: T is `elem`, the pointee is `val`. */
  class Cell {
    const elem: Type
    var val: Val

    constructor (elem: Type, val: Val)
      ensures this.elem == elem && this.val == val
    {
      this.elem := elem;
      this.val := val;
    }
  }

  /** How a CacheAble hook's UnmarshalFromCache turns its decoder results into its own result. */
  datatype Verdict = AllDecoded | AnyDecoded | Always(b: bool) {
    function Apply(results: seq<bool>): bool {
      match this
      case AllDecoded => forall i :: 0 <= i < |results| ==> results[i]
      case AnyDecoded => exists i :: 0 <= i < |results| && results[i]
      case Always(b) => b
    }
  }

  /** Go's `interface{}`: a plain value, a pointer, or a value whose type implements CacheAble. */
  datatype Any = V(v: Val) | Ptr(cell: Cell) | Custom(hook: Hook)

  /**
   * A value of a type implementing CacheAble. `natural` is what reflection and the codec see
   * of it, `marshalled` is what MarshalToCache returns, `decodeArgs` are the targets that
   * UnmarshalFromCache hands to its decoder, in order, and `verdict` how it combines the results.
   */
  datatype Hook = Hook(natural: Val, marshalled: Any, decodeArgs: seq<Any>, verdict: Verdict)

  const NilAny: Any := V(Nil)

  /** The read-only box returned by every Get. */
  datatype Value = Value(d: Any) {
    /** Data: boxing the returned datum again gives this very Value. */
    function Data(): (r: Any)
      ensures Value(r) == this
    {
      d
    }
  }

  const EmptyValue: Value := Value(NilAny)

  /** The value reflect.Indirect(reflect.ValueOf(a)) stands for; for a pointer, its pointee. */
  function Indirect(a: Any): Val
    reads if a.Ptr? then {a.cell} else {}
  {
    match a
    case V(v) => v
    case Ptr(c) => c.val
    case Custom(h) => h.natural
  }

  /** The static type of Indirect(a). */
  function StaticType(a: Any): Type {
    match a
    case V(v) => TypeOf(v)
    case Ptr(c) => c.elem
    case Custom(h) => TypeOf(h.natural)
  }

  /** Go assignability of a value of type `t` to a variable of type `target`. */
  predicate AssignableTo(t: Type, target: Type) {
    target == InterfaceType || t == target
  }

  /** The cell a backend Get may write through: the target's pointee, if it is a pointer. */
  function Pointee(a: Any): set<object> {
    if a.Ptr? then {a.cell} else {}
  }

  /** The cells a Manager Get may write through: a CacheAble target's decoder targets too. */
  function Targets(a: Any): set<object> {
    match a
    case Ptr(c) => {c}
    case V(_) => {}
    case Custom(h) => Cells(h.decodeArgs)
  }

  /** The cells of the pointers among `args`. */
  function Cells(args: seq<Any>): set<object> {
    set i | 0 <= i < |args| && args[i].Ptr? :: args[i].cell
  }
}
