/**
 * How a call ends: with a value or with a Python exception, and the
 * dictionaries and lists the agents pass to one another.
 */
module Outcomes {

  datatype Option<T> = None | Some(value: T) {
    predicate IsFailure() {
      None?
    }

    function PropagateFailure<U>(): Option<U>
      requires None?
    {
      None
    }

    function Extract(): T
      requires Some?
    {
      value
    }
  }

  /**
   * A raised exception. `KeyError` is kept apart because the supervisor
   * catches it separately; every other kind carries its class name and the
   * text `str(e)` gives.
   */
  datatype Exception =
    | KeyError(key: string)
    | Error(kind: string, message: string)

  /** `str(e)`: a `KeyError` prints its key in quotes. */
  function Describe(e: Exception): string {
    match e
    case KeyError(k) => "'" + k + "'"
    case Error(_, m) => m
  }

  /** The end of a call that may raise. */
  datatype Call<T> = Returned(value: T) | Threw(exception: Exception) {
    predicate IsFailure() {
      Threw?
    }

    function PropagateFailure<U>(): Call<U>
      requires Threw?
    {
      Threw(exception)
    }

    function Extract(): T
      requires Returned?
    {
      value
    }
  }

  /** Python's truth value of an optional string (`None` and `""` are false). */
  predicate Truthy(s: Option<string>) {
    s.Some? && s.value != ""
  }

  /**
   * A JSON-like Python value: what `dict`s such as the résumé insights hold.
   * Dictionaries are keyed by strings; their key order is not modelled.
   */
  datatype Value =
    | Null
    | Str(text: string)
    | Num(number: int)
    | Arr(items: seq<Value>)
    | Obj(fields: map<string, Value>)

  function TypeName(v: Value): string {
    match v
    case Null => "NoneType"
    case Str(_) => "str"
    case Num(_) => "int"
    case Arr(_) => "list"
    case Obj(_) => "dict"
  }

  /** `v[key]` with a string key. */
  function Index(v: Value, key: string): (r: Call<Value>)
    ensures r.Returned? <==> v.Obj? && key in v.fields
    ensures r.Returned? ==> r.value == v.fields[key]
    ensures v.Obj? && key !in v.fields ==> r == Threw(KeyError(key))
  {
    match v
    case Obj(m) => if key in m then Returned(m[key]) else Threw(KeyError(key))
    case Arr(_) => Threw(Error("TypeError", "list indices must be integers or slices, not str"))
    case Str(_) => Threw(Error("TypeError", "string indices must be integers, not 'str'"))
    case _ => Threw(Error("TypeError", "'" + TypeName(v) + "' object is not subscriptable"))
  }

  /** `d.get(key, default)` on a dictionary with the given entries. */
  function Lookup(fields: map<string, Value>, key: string, default: Value): Value {
    if key in fields then fields[key] else default
  }

  /** What calling `get` on a value that is not a dictionary raises. */
  function NoGet(v: Value): Exception {
    Error("AttributeError", "'" + TypeName(v) + "' object has no attribute 'get'")
  }

  /** `v.get(key, default)`: only dictionaries have `get`. */
  function Get(v: Value, key: string, default: Value): (r: Call<Value>)
    ensures r.Returned? <==> v.Obj?
    ensures v.Obj? ==> r.value == if key in v.fields then v.fields[key] else default
  {
    match v
    case Obj(m) => Returned(Lookup(m, key, default))
    case _ => Threw(NoGet(v))
  }

  /** A list of strings. */
  function Strs(ss: seq<string>): (v: Value)
    ensures v.Arr? && |v.items| == |ss|
    ensures forall i :: 0 <= i < |ss| ==> v.items[i] == Str(ss[i])
  {
    Arr(seq(|ss|, i requires 0 <= i < |ss| => Str(ss[i])))
  }

  /** `len(v)`, defined for strings, lists and dictionaries. */
  function Len(v: Value): Option<nat> {
    match v
    case Str(t) => Some(|t|)
    case Arr(items) => Some(|items|)
    case Obj(m) => Some(|m.Keys|)
    case _ => None
  }

  /** `", ".join(v)` succeeds: `v` is a string, a dictionary, or a list of strings. */
  predicate Joinable(v: Value) {
    match v
    case Str(_) => true
    case Obj(_) => true
    case Arr(items) => forall i :: 0 <= i < |items| ==> items[i].Str?
    case _ => false
  }
}
