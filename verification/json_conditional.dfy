/** The serialisation condition of the JSON writer: a member marked with the
    conditional attribute is written only when its value is not null, not
    the default value of its type and not an empty collection. */
module JsonConditional {

  /** The run-time types of member values: value types (bool, integral and
      enum types, other structs with integral fields) and reference types
      (string, lists and other objects). */
  datatype ClrType = BoolType | IntType | StructType(arity: nat) | StringType | ListType | ObjectType

  /** A boxed member value. */
  datatype Value =
    | Null
    | Bool(b: bool)
    | Int(i: int)
    | Struct(fields: seq<int>)
    | Str(s: string)
    | List(items: seq<Value>)
    | Object

  /** Type.IsValueType */
  predicate IsValueType(t: ClrType)
  {
    t.BoolType? || t.IntType? || t.StructType?
  }

  /** IEnumerable is assignable from the type: strings and lists. */
  predicate IsEnumerable(t: ClrType)
  {
    t.StringType? || t.ListType?
  }

  /** object.GetType() of a value that is not null. */
  function TypeOf(v: Value): ClrType
    requires v != Null
  {
    match v
    case Bool(_) => BoolType
    case Int(_) => IntType
    case Struct(fs) => StructType(|fs|)
    case Str(_) => StringType
    case List(_) => ListType
    case Object => ObjectType
  }

  /** A struct value with all fields zero. */
  function Zeros(n: nat): (r: seq<int>)
    ensures |r| == n && forall i :: 0 <= i < n ==> r[i] == 0
  {
    if n == 0 then [] else Zeros(n - 1) + [0]
  }

  /** GetDefault: the zero-initialised instance of a value type, null for a
      reference type. */
  function GetDefault(t: ClrType): (d: Value)
    ensures IsValueType(t) <==> d != Null
    ensures d != Null ==> TypeOf(d) == t
  {
    match t
    case BoolType => Bool(false)
    case IntType => Int(0)
    case StructType(n) => Struct(Zeros(n))
    case _ => Null
  }

  /** Whether the enumerator of an enumerable value yields no element. */
  predicate IsEmptyEnumerable(v: Value)
  {
    match v
    case Str(s) => s == ""
    case List(items) => items == []
    case _ => false
  }

  /** TestCondition: whether the value is serialised. */
  predicate TestCondition(v: Value)
  {
    if v == Null then false
    else if v == GetDefault(TypeOf(v)) then false
    else if IsEnumerable(TypeOf(v)) && IsEmptyEnumerable(v) then false
    else true
  }

  /** When each kind of value is written, stated case by case. */
  predicate Serialized(v: Value)
  {
    match v
    case Null => false
    case Bool(b) => b
    case Int(i) => i != 0
    case Struct(fs) => exists k :: 0 <= k < |fs| && fs[k] != 0
    case Str(s) => s != ""
    case List(items) => items != []
    case Object => true
  }

  /** TestCondition agrees with the case-by-case rule: null is never
      written, false and zero and an all-zero struct are omitted, a string or
      list is written exactly when it is not empty, any other object always. */
  lemma TestConditionMeaning(v: Value)
    ensures TestCondition(v) <==> Serialized(v)
  {
    match v
    case Struct(fs) =>
      if forall k :: 0 <= k < |fs| ==> fs[k] == 0 {
        assert fs == Zeros(|fs|);
      }
    case _ =>
  }

  /** The default value of a value type is never written. */
  lemma DefaultNotSerialized(t: ClrType)
    requires IsValueType(t)
    ensures !TestCondition(GetDefault(t))
  {
  }
}
