/**
 * How the layout reads JavaScript values whose absence matters: optional
 * boolean props and strings returned by the cookie and local-storage APIs.
 */
module JsValues {
  import opened Wrappers

  /**
   * An optional boolean prop read in a boolean context. `undefined` is falsy,
   * and a destructuring default of `false` gives the same reading.
   */
  predicate IsTrue(prop: Option<bool>)
  {
    prop == Some(true)
  }

  /**
   * A `string | undefined` (or `string | null`) read in a boolean context:
   * truthy exactly when present and non-empty.
   */
  predicate IsNonEmpty(s: Option<string>)
  {
    s.Some? && s.value != ""
  }
}
