/** Optional values: the model's stand-in for Go's nil-able pointers (`*string`, `*bool`, `*T`). */
module Wrappers {

  /** `None` is a nil pointer, `Some(v)` a pointer to `v`. */
  datatype Option<+T> = None | Some(value: T)

  /** The documented effect of the provider's `utils.NormalizeNilableString`: nil becomes "". */
  function NormalizeNilableString(s: Option<string>): (r: string)
    ensures s.None? ==> r == ""
    ensures s.Some? ==> r == s.value
  {
    match s
    case None => ""
    case Some(v) => v
  }
}
