/** Optional values and results shared by every module of the model. */
module Outcomes {

  /** A value that may be absent: JavaScript's `null`/`undefined` for a field or a stored key. */
  datatype Option<+T> = None | Some(value: T)

  /** The outcome of a call that may reject: a value, or the error it was rejected with. */
  datatype Result<+T, +E> = Ok(value: T) | Err(error: E)

  /** `opt || null` on an optional string: an empty string counts as absent. */
  function NonEmpty(opt: Option<string>): (r: Option<string>)
    ensures r.Some? <==> opt.Some? && opt.value != ""
    ensures r.Some? ==> r.value == opt.value
  {
    if opt.Some? && opt.value != "" then opt else None
  }

  /** `opt || fallback` on an optional string. */
  function OrElse(opt: Option<string>, fallback: string): (r: string)
    ensures opt.Some? && opt.value != "" ==> r == opt.value
    ensures opt.None? || opt.value == "" ==> r == fallback
  {
    if opt.Some? && opt.value != "" then opt.value else fallback
  }
}
