/** The optional value used for JavaScript's `null`/`undefined` and for omitted fields. */
module Wrappers {

  datatype Option<+T> = None | Some(value: T)

  /** The value a spread leaves for one key: the patch's when present, otherwise the stored one. */
  function Override<T>(patched: Option<T>, kept: T): T
  {
    if patched.Some? then patched.value else kept
  }
}
