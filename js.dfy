/**
 * The JavaScript values the download handler works on, and the few pieces of
 * JavaScript semantics it relies on: truthiness, `||`, property access with
 * and without optional chaining, indexing with `[0]`, and the way
 * `JSON.stringify` drops properties whose value is `undefined`.
 */
module Js {
  import opened Wrappers

  /**
   * A value as it reaches the handler: what `JSON.parse` produces, plus
   * `undefined` for a property that is not there. Numbers are exact reals:
   * `JSON.parse` never yields NaN, and the infinities it yields for
   * out-of-range literals such as `1e400` are not represented.
   */
  datatype Value =
    | Undefined
    | Null
    | Bool(b: bool)
    | Number(n: real)
    | Str(s: string)
    | Arr(items: seq<Value>)
    | Obj(fields: map<string, Value>)

  /** The exceptions the handler can raise; its catch block turns every one into a 500. */
  datatype Exception =
    | TypeError     // property access on undefined or null, or a call of something that is not a function
    | RangeError    // `toISOString` on an invalid date
    | RequestFailed // the HTTP client rejected: network error or non-2xx status

  predicate Nullish(v: Value) {
    v.Undefined? || v.Null?
  }

  /** JavaScript's ToBoolean: `undefined`, `null`, `false`, `0` and `""` are falsy. */
  predicate Truthy(v: Value) {
    match v
    case Undefined | Null => false
    case Bool(b) => b
    case Number(n) => n != 0.0
    case Str(s) => s != ""
    case Arr(_) | Obj(_) => true
  }

  /** `a || b`: the left operand when it is truthy, the right one otherwise. */
  function Or(a: Value, b: Value): Value {
    if Truthy(a) then a else b
  }

  /**
   * `v?.key` for one of the handler's property names (none of them is an
   * array index, `length` or a member of a built-in prototype): an own
   * property of an object, `undefined` for everything else.
   */
  function Field(v: Value, key: string): Value {
    if v.Obj? && key in v.fields then v.fields[key] else Undefined
  }

  /** `v.key`: like `v?.key`, but throws a TypeError on `undefined` and `null`. */
  function Get(v: Value, key: string): Result<Value, Exception> {
    if Nullish(v) then Failure(TypeError) else Success(Field(v, key))
  }

  /**
   * The value of `v[0]` when `v` is neither undefined nor null: the first
   * element of an array, the first character of a string, the property "0"
   * of an object; undefined when there is none.
   */
  function Index0(v: Value): Value {
    match v
    case Arr(items) => if items == [] then Undefined else items[0]
    case Str(s) => if s == "" then Undefined else Str([s[0]])
    case Obj(m) => if "0" in m then m["0"] else Undefined
    case _ => Undefined
  }

  /** `v[0]`: throws a TypeError on undefined and null. */
  function At0(v: Value): Result<Value, Exception> {
    if Nullish(v) then Failure(TypeError) else Success(Index0(v))
  }

  /** Adds a property to an object as `JSON.stringify` writes it: one whose value is undefined is left out. */
  function Put(m: map<string, Value>, key: string, v: Value): map<string, Value> {
    if v.Undefined? then m else m[key := v]
  }
}
