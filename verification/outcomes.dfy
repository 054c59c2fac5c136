/** Failure-carrying values shared by the model, and the abstract shape of
    one HTTP round trip as the clients observe it. */
module Outcomes {

  /** A value that may be absent: JavaScript's `null`/`undefined`. */
  datatype Option<+T> = None | Some(value: T)

  /** The result of a check that either yields a value or throws an Error
      carrying a message. */
  datatype Result<+T> = Success(value: T) | Failure(error: string)

  /** What awaiting `fetch(...)` and then `response.json()` leaves the caller with:
      - Ok: the response had `ok` set and its JSON body decoded to `body`;
      - Rejected: `ok` was false; `errorField` is the body's `error` string, if any;
      - Threw: the request or the decoding threw an Error with `message`. */
  datatype Response<+T> = Ok(body: T) | Rejected(errorField: Option<string>) | Threw(message: string)

  /** JavaScript's `a || fallback` where `a` is a string that may be missing:
      an empty string is falsy, just like a missing one. */
  function OrElse(a: Option<string>, fallback: string): (r: string)
    ensures a.Some? && a.value != "" ==> r == a.value
    ensures a.None? || a.value == "" ==> r == fallback
    ensures fallback != "" ==> r != ""
  {
    if a.Some? && a.value != "" then a.value else fallback
  }

  /** How a template literal renders a possibly missing string field: a
      missing field is rendered as the word `undefined`. */
  function TemplateText(a: Option<string>): (r: string)
    ensures a.Some? ==> r == a.value
    ensures a.None? ==> r == "undefined"
  {
    match a
    case Some(s) => s
    case None => "undefined"
  }
}
