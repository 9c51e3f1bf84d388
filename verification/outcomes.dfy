/**
 The outcome of a network call, made an explicit input so that every handler of
 the dashboard becomes a pure transition, plus the JavaScript `x || fallback`
 idiom the handlers use to pick a display string.
 */
module Outcomes {

  /** A value that may be missing (`undefined` / `null` in the client). */
  datatype Option<+T> = None | Some(value: T)

  /** What an awaited HTTP call produced.
      `Ok` carries the `response` field of the body when there is one;
      `Err` carries the `error` field of the failed response's body when there is one
      (it is `None` when the request never got a response at all). */
  datatype Outcome = Ok(response: Option<string>) | Err(error: Option<string>)

  /** JavaScript's `v || fallback` on an optional string: a missing value and the
      empty string are both falsy, so both give way to the fallback. */
  function OrElse(v: Option<string>, fallback: string): (r: string)
    ensures r == fallback || (v == Some(r) && r != "")
    ensures v.Some? && v.value != "" ==> r == v.value
    ensures (v.None? || v.value == "") ==> r == fallback
    ensures fallback != "" ==> r != ""
  {
    match v
    case Some(s) => if s != "" then s else fallback
    case None => fallback
  }
}
