/** JSON values as the broker's Ruby code sees them after parsing.

    Objects are string-keyed maps (the order of an object's members is not part of
    a value), numbers are reals. Operations that Ruby may reject return a `Ruby`
    result, whose `Raise` case stands for any exception. */
module JsonValues {
  import opened Text

  datatype Option<+T> = None | Some(value: T)

  datatype Json =
    | Null
    | Bool(b: bool)
    | Num(n: real)
    | Str(s: string)
    | Arr(items: seq<Json>)
    | Obj(fields: map<string, Json>)

  type Fields = map<string, Json>

  /** The outcome of a Ruby expression: a value, or an exception. */
  datatype Ruby<+T> = Ok(value: T) | Raise {
    predicate IsFailure() {
      Raise?
    }

    function PropagateFailure<U>(): Ruby<U>
      requires Raise?
    {
      Raise
    }

    function Extract(): T
      requires Ok?
    {
      value
    }
  }

  /** Ruby's truth test: everything except `nil` and `false`. */
  predicate Truthy(j: Json) {
    j != Null && j != Bool(false)
  }

  /** `hash[key]`: a missing key reads as `nil`. */
  function Get(m: Fields, key: string): Json {
    if key in m then m[key] else Null
  }

  /** `value[key]` for an arbitrary value. On a string Ruby answers the substring, or
      `nil` when it does not occur; on `nil`, booleans, numbers and arrays it raises. */
  function Index(j: Json, key: string): Ruby<Json> {
    match j
    case Obj(m) => Ok(Get(m, key))
    case Str(s) => Ok(if Contains(s, key) then Str(key) else Null)
    case _ => Raise
  }

  /** `a.merge!(b)` as a value; not an object on either side means it raised and left `a`. */
  function Overlay(a: Json, b: Json): Json {
    if a.Obj? && b.Obj? then Obj(a.fields + b.fields) else a
  }

  /** Overlays every element of `bs` on `a`, first to last. */
  function OverlayAll(a: Json, bs: seq<Json>): Json {
    if bs == [] then a else Overlay(OverlayAll(a, bs[..|bs| - 1]), bs[|bs| - 1])
  }
}
