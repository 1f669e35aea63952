/**
 The Python values the plot adapters inspect: the argument handed to
 `could_log`, and keyword arguments such as `normalized`.
 */
module PyValues {

  /** A Python object, as far as its type and truthiness are concerned.
      `Tuple` stands for `tuple` and every subclass of it (a namedtuple, say),
      since `isinstance` accepts those. `Other` stands for every other object
      whose truthiness comes from its own `__bool__`/`__len__` (floats,
      one-element arrays, instances of other classes); it is given. */
  datatype Value =
    | NoneValue
    | Bool(b: bool)
    | Int(i: int)
    | Str(s: string)
    | Tuple(items: seq<Value>)
    | List(items: seq<Value>)
    | Dict(entries: seq<(Value, Value)>)
    | Other(truthy: bool)

  /** `bool(v)` */
  predicate Truthy(v: Value) {
    match v
    case NoneValue => false
    case Bool(b) => b
    case Int(i) => i != 0
    case Str(s) => s != []
    case Tuple(items) => items != []
    case List(items) => items != []
    case Dict(entries) => entries != []
    case Other(t) => t
  }

  /** `kwargs.get(key) or False`, read back as a truth value. */
  predicate GetFlag(kwargs: map<string, Value>, key: string) {
    key in kwargs && Truthy(kwargs[key])
  }
}
