/**
 * JSON-like values as Python's `json`/`yaml` loaders produce them, plus opaque Python objects.
 * Mapping keys are always strings: a YAML mapping with non-string keys is not representable.
 */
module Json {
  import opened Wrappers
  import Dicts
  import Strings

  datatype Value =
    | Null
    | Bool(b: bool)
    | Int(i: int)
    | Float(r: real)
    | Str(s: string)
    | List(items: seq<Value>)
    | Object(fields: Dicts.Dict<Value>)
    | Instance(kind: string)   // a Python object that is not JSON (an LLM client, a strategy)

  /** Python's `bool(v)`. */
  predicate Truthy(v: Value)
  {
    match v
    case Null => false
    case Bool(b) => b
    case Int(i) => i != 0
    case Float(r) => r != 0.0
    case Str(s) => s != []
    case List(items) => items != []
    case Object(fields) => fields != []
    case Instance(_) => true
  }

  /** `isinstance(v, int)`: a Python `bool` is an `int`. */
  predicate IsPyInt(v: Value)
  {
    v.Int? || v.Bool?
  }

  /** `isinstance(v, (int, float))` */
  predicate IsPyNumber(v: Value)
  {
    v.Int? || v.Bool? || v.Float?
  }

  /** The number a Python int, bool or float stands for. */
  function NumberOf(v: Value): real
    requires IsPyNumber(v)
  {
    match v
    case Int(i) => i as real
    case Bool(b) => if b then 1.0 else 0.0
    case Float(r) => r
  }

  /** `v.get(k)` on a dict; `None` for a missing key. */
  function Member(v: Value, k: string): Option<Value>
    requires v.Object?
  {
    Dicts.Get(v.fields, k)
  }

  /** `v.get(k)` where a missing key and an explicit `null` both read as `None`. */
  function MemberOrNull(v: Value, k: string): Value
    requires v.Object?
  {
    Member(v, k).GetOr(Null)
  }

  /** `k in v` on a dict. */
  predicate HasMember(v: Value, k: string)
    requires v.Object?
  {
    k in Dicts.Keys(v.fields)
  }

  /** `isinstance(v, str) and v.strip()` */
  predicate IsNonBlankStr(v: Value)
  {
    v.Str? && !Strings.IsBlank(v.s)
  }

}
