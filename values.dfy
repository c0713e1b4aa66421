/**
 * The JavaScript values that reach the argument checks of the simulation's
 * factories, the errors those checks throw, and the wrappers that carry
 * either a result or an error back to the caller.
 */
module Values {

  /** A JavaScript value as the argument checks see it. `Obj` is an object
      (also a Date or a RegExp); each entry of `methods` is a zero-argument
      method of the object together with the value a call of it returns. */
  datatype Value =
    | Undefined
    | Null
    | Bool(b: bool)
    | Num(n: real)
    | Str(s: string)
    | Arr(elems: seq<Value>)
    | Obj(methods: map<string, Value>)
    | Func

  /** The JavaScript error classes the components throw: a `TypeError` names
      the position (1st, 2nd, 3rd) of the argument it rejects. */
  datatype Error =
    | TypeError(arg: nat)
    | RangeError
    | ReferenceError

  datatype Outcome = Pass | Fail(error: Error)

  datatype Result<+T> = Success(value: T) | Failure(error: Error)

  /** `!v` in JavaScript (NaN is not modelled). */
  predicate Falsy(v: Value) {
    v == Undefined || v == Null || v == Bool(false) || v == Num(0.0) || v == Str("")
  }

  /** `typeof v === 'object'` and `v` truthy: arrays are objects too. */
  predicate IsObject(v: Value) {
    v.Obj? || v.Arr?
  }

  /** The zero-argument methods of an object; an array has none that the
      components ask for. */
  function Methods(v: Value): map<string, Value> {
    if v.Obj? then v.methods else map[]
  }

  predicate IsIntegral(x: real) {
    x.Floor as real == x
  }

  /** `isInteger` of the shared utilities: a number without a fractional part. */
  predicate IsInteger(v: Value) {
    v.Num? && IsIntegral(v.n)
  }

  /** `isFloat` of the shared utilities: a number with a fractional part. */
  predicate IsFloat(v: Value) {
    v.Num? && !IsIntegral(v.n)
  }

  function Max(a: real, b: real): real {
    if a >= b then a else b
  }

  function Min(a: real, b: real): real {
    if a <= b then a else b
  }

  /** A number strictly between 0 and 1 is never integral, so the rate check
      `isFloat(r) && 0 < r < 1` accepts every number of that interval. */
  lemma OpenUnitIntervalIsFloat(v: Value)
    requires v.Num? && 0.0 < v.n < 1.0
    ensures IsFloat(v)
  {
    assert v.n.Floor == 0;
  }
}
