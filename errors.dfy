/** What the code throws and catches. */
module Errors {
  import opened Js

  /** A thrown value: a MinimaxRequestError, any other Error instance (a
      TypeError, an HTTP client error, ...), or a value that is not an Error
      at all, known only by its `String()` form. */
  datatype Fault =
    | RequestError(message: string)
    | PlainError(name: string, message: string)
    | NonError(text: string)

  /** The `name` of a MinimaxRequestError. */
  const RequestErrorName := "MinimaxRequestError"

  /** `e instanceof Error` */
  predicate IsError(e: Fault) {
    !e.NonError?
  }

  /** `Error.prototype.toString`: name and message joined by ": ", either
      alone when the other is empty. */
  function ErrorText(name: string, message: string): (r: string)
    ensures name == "" ==> r == message
    ensures name != "" && message == "" ==> r == name
    ensures name != "" && message != "" ==> StartsWith(r, name + ": ") && r[|name| + 2..] == message
  {
    if name == "" then message
    else if message == "" then name
    else name + ": " + message
  }

  /** `String(e)` */
  function Stringify(e: Fault): (r: string)
    ensures e.NonError? ==> r == e.text
    ensures e.RequestError? ==> StartsWith(r, RequestErrorName)
    ensures e.PlainError? && e.name != "" ==> StartsWith(r, e.name)
    ensures IsError(e) && e.message != "" ==> EndsWith(r, e.message)
  {
    match e
    case RequestError(m) => ErrorText(RequestErrorName, m)
    case PlainError(n, m) => ErrorText(n, m)
    case NonError(t) => t
  }
}
