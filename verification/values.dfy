/** The two wrappers used throughout the model. */
module Wrappers {
  datatype Option<+T> = None | Some(value: T)

  datatype Result<+T, +E> = Success(value: T) | Failure(error: E)
}

/**
 * Python values as the scripts handle them: the appointment configuration
 * dictionaries, JSON bodies, request payloads and the arguments that fall
 * back to a default by truthiness.
 */
module Values {
  import opened Wrappers

  datatype Value =
    | Null
    | Bool(b: bool)
    | Int(i: int)
    | Str(s: string)
    | List(items: seq<Value>)
    | Dict(entries: map<string, Value>)

  /** The exceptions the model tells apart. */
  datatype PyError =
    | KeyError(key: Value)
    | TypeError
      // any exception raised by the browser driver (timeout, stale element, ...)
    | DriverError(message: string)

  /** Python's `bool(v)`. */
  predicate Truthy(v: Value) {
    match v
    case Null => false
    case Bool(b) => b
    case Int(i) => i != 0
    case Str(s) => s != ""
    case List(items) => items != []
    case Dict(entries) => entries != map[]
  }

  /** Python's `a or b`: `a` itself when it is truthy, otherwise `b`. */
  function Or(a: Value, b: Value): (r: Value)
    ensures r == a || r == b
    ensures Truthy(r) <==> Truthy(a) || Truthy(b)
    ensures Truthy(a) ==> r == a
  {
    if Truthy(a) then a else b
  }

  /**
   * Python's `v == b` for a bool `b`: a bool compares by value and an int
   * compares with 1 for True and 0 for False; every other value is unequal.
   */
  predicate EqualsBool(v: Value, b: bool)
    ensures EqualsBool(v, b) <==> v == Bool(b) || v == Int(if b then 1 else 0)
  {
    match v
    case Bool(x) => x == b
    case Int(i) => i == (if b then 1 else 0)
    case _ => false
  }

  /** Only lists and dicts are unhashable among these values. */
  predicate Hashable(v: Value) {
    !v.List? && !v.Dict?
  }

  /** `container[key]` for a string key. Only a dict can be indexed by a string. */
  function Subscript(container: Value, key: string): (r: Result<Value, PyError>)
    ensures r.Success? <==> container.Dict? && key in container.entries
    ensures r.Success? ==> r.value == container.entries[key]
    ensures container.Dict? && key !in container.entries ==> r == Failure(KeyError(Str(key)))
    ensures !container.Dict? ==> r == Failure(TypeError)
  {
    match container
    case Dict(entries) =>
      if key in entries then Success(entries[key]) else Failure(KeyError(Str(key)))
    case _ => Failure(TypeError)
  }

  /**
   * `m[key]` on a dict whose keys are strings, looked up with an arbitrary
   * value: an unhashable key raises TypeError, any other key that is not one
   * of the strings raises KeyError.
   */
  function Lookup<T>(m: map<string, T>, key: Value): (r: Result<T, PyError>)
    ensures r.Success? <==> key.Str? && key.s in m
    ensures r.Success? ==> r.value == m[key.s]
    ensures !Hashable(key) ==> r == Failure(TypeError)
    ensures Hashable(key) && r.Failure? ==> r.error == KeyError(key)
  {
    if !Hashable(key) then Failure(TypeError)
    else if key.Str? && key.s in m then Success(m[key.s])
    else Failure(KeyError(key))
  }

  /** `key in m` on a dict whose keys are strings; an unhashable key raises TypeError. */
  function HasKey<T>(m: map<string, T>, key: Value): (r: Result<bool, PyError>)
    ensures r.Failure? <==> !Hashable(key)
    ensures r.Failure? ==> r.error == TypeError
    ensures r.Success? ==> (r.value <==> key.Str? && key.s in m)
  {
    if !Hashable(key) then Failure(TypeError) else Success(key.Str? && key.s in m)
  }
}
