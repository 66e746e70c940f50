/** JavaScript value coercions shared by both components.

    The components never fail on bad numeric input: every read of a money
    field goes through `Number(v) || 0` or `parseFloat(v) || 0`, so anything
    that reads as NaN (undefined, null, text that is not a number) becomes 0.
    The model keeps only the outcome of the reading: a finite number, or
    `Invalid`.
 */
module Coercion {

  /** The numeric reading of a JavaScript value. */
  datatype Raw = Num(x: real) | Invalid

  /** `Number(v) || 0`: the number itself, or 0 for anything that is not one. */
  function Coerce(v: Raw): (r: real)
    ensures v.Invalid? ==> r == 0.0
    ensures v.Num? ==> r == v.x
  {
    match v
    case Num(x) => x
    case Invalid => 0.0
  }

  /** The value of an `id` property as the backend hands it out; `Null`
      stands for both `null` and a missing property. */
  datatype Key = Null | NumKey(n: int) | StrKey(s: string)

  /** JavaScript truthiness of an id: `null`, `0` and `""` are falsy. */
  predicate Truthy(k: Key): (b: bool)
    ensures b <==> k != Null && k != NumKey(0) && k != StrKey("")
  {
    match k
    case Null => false
    case NumKey(n) => n != 0
    case StrKey(s) => s != ""
  }
}
