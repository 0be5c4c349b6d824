/** JavaScript values as the webhook handler observes them: optional fields,
    truthiness, the `||` operator and template-literal interpolation. */
module JsValues {

  /** An optional value (a missing object, `null` or `undefined`). */
  datatype Option<+T> = None | Some(value: T)

  /** A scalar JSON field read off a payload: absent, `null`, or a string. */
  datatype Field = Undefined | Null | Str(text: string)

  /** JavaScript truthiness of a field: only a non-empty string is truthy. */
  predicate Truthy(f: Field) {
    f.Str? && f.text != ""
  }

  /** `a || b`: the left operand when it is truthy, otherwise the right one. */
  function Or(a: Field, b: Field): (r: Field)
    ensures Truthy(r) <==> Truthy(a) || Truthy(b)
    ensures r == a || r == b
  {
    if Truthy(a) then a else b
  }

  /** The text a template literal `${f}` produces for the field. */
  function Interpolate(f: Field): string
  {
    match f
    case Undefined => "undefined"
    case Null => "null"
    case Str(t) => t
  }
}
