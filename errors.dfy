/** Status values of the inspection tool: success, or an error kind with a message.
    Fallible collaborator calls that also produce a value return a Result. */
module Errors {

  /** The error kinds the tool distinguishes or passes through. */
  datatype Code = NotFound | Corruption | Uninitialized | IOError | IllegalState | RuntimeError

  datatype Status = Ok | Error(code: Code, message: string)

  /** A collaborator call that yields a value, or fails with a kind and a message. */
  datatype Result<T> = Success(value: T) | Failure(code: Code, message: string) {
    /** The status a failed call is reported with. */
    function ErrorStatus(): (s: Status)
      requires Failure?
      ensures s.Error? && s.code == code && s.message == message
    {
      Error(code, message)
    }
  }

  /** Returning `s` with `context` put in front of its message, as the tool does
      whenever it propagates a failure "with context": an error keeps its kind, and
      success is left alone. */
  function Prepend(s: Status, context: string): (r: Status)
    ensures r.Ok? <==> s.Ok?
    ensures r.Error? ==> r.code == s.code && r.message == context + ": " + s.message
  {
    match s
    case Ok => Ok
    case Error(code, message) => Error(code, context + ": " + message)
  }
}
