/**
 * The form-field wrapper of the webview (`utilities/validation`) and the
 * `Maybe` result of its validators (`utilities/maybe`). The localised
 * messages carried by `missing` and `invalid` are not modelled.
 */
module Validation {
  import opened Wrappers

  /** A form field: never touched, accepted, rejected with the value kept, or required but empty. */
  datatype Validatable<T> = Unset | Valid(value: T) | Invalid(value: T) | Missing

  predicate IsValid<T>(v: Validatable<T>) {
    v.Valid?
  }

  /** A value was entered, whether or not it was accepted. */
  predicate IsValueSet<T>(v: Validatable<T>) {
    v.Valid? || v.Invalid?
  }

  /** The entered value, or null. */
  function ToNullable<T>(v: Validatable<T>): (r: Option<T>)
    ensures r.Some? <==> IsValueSet(v)
    ensures r.Some? ==> r.value == v.value
  {
    match v
    case Valid(x) => Some(x)
    case Invalid(x) => Some(x)
    case _ => None
  }

  datatype Maybe<T> = Nothing | Just(value: T)
}
