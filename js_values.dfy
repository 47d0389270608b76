/**
 * JavaScript truthiness of the nullable values the frontend tests with `!x`,
 * `x || y` and `x?.trim()`.
 */
module JsValues {
  import opened Wrappers
  import opened Text

  /** A nullable string is truthy when it is neither null nor the empty string. */
  predicate Truthy(v: Option<string>) {
    v.Some? && v.value != []
  }

  /** A nullable id is truthy when it is neither null nor 0. */
  predicate TruthyId(id: Option<int>) {
    id.Some? && id.value != 0
  }

  /** `s?.trim()` is truthy: the string is there and not only white space. */
  predicate Filled(s: Option<string>) {
    s.Some? && !IsBlank(s.value)
  }

  /** A filled string is truthy; the converse fails for white space only. */
  lemma FilledIsTruthy(s: Option<string>)
    ensures Filled(s) ==> Truthy(s)
    ensures Truthy(s) && !Filled(s) ==> forall i :: 0 <= i < |s.value| ==> IsSpace(s.value[i])
  {
  }
}
