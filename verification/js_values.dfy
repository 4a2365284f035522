/**
 * The JavaScript values the cloud functions read out of a Firestore record or a
 * callable payload, reduced to what their checks observe: a field is either
 * absent (`undefined` or `null`) or a string.
 */
module JsValues {

  datatype Value = Undefined | Str(s: string)

  /** JavaScript truthiness of a field: absent fields and the empty string are falsy. */
  predicate Truthy(v: Value) {
    v.Str? && v.s != ""
  }

  /** The expression `v || fallback`: the field itself when truthy, the fallback otherwise. */
  function OrElse(v: Value, fallback: string): (r: string)
    ensures Truthy(v) ==> r == v.s
    ensures !Truthy(v) ==> r == fallback
    ensures fallback != "" ==> r != ""
  {
    if Truthy(v) then v.s else fallback
  }
}
