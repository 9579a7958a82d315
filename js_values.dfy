/** JavaScript values as the alert screens see them: optional document fields
    and the truthiness rule that `field || fallback` applies to them. */
module JsValues {

  datatype Option<T> = None | Some(value: T)

  /** A number field is truthy when it is present and not zero. */
  predicate TruthyNumber(v: Option<int>) {
    v.Some? && v.value != 0
  }

  /** A string field is truthy when it is present and not empty. */
  predicate TruthyText(v: Option<string>) {
    v.Some? && v.value != ""
  }

  /** `v || fallback` on a number field: a truthy fallback always gives a truthy result. */
  function NumberOr(v: Option<int>, fallback: int): (r: int)
    ensures fallback != 0 ==> r != 0
    ensures TruthyNumber(v) ==> r == v.value
    ensures !TruthyNumber(v) ==> r == fallback
  {
    if TruthyNumber(v) then v.value else fallback
  }

  /** `v || fallback` on a string field: a non-empty fallback always gives a non-empty result. */
  function TextOr(v: Option<string>, fallback: string): (r: string)
    ensures fallback != "" ==> r != ""
    ensures TruthyText(v) ==> r == v.value
    ensures !TruthyText(v) ==> r == fallback
  {
    if TruthyText(v) then v.value else fallback
  }
}
