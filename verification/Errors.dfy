/** API errors as pkg/migrator/errors.go sees them, and its decision whether to retry. */
module Errors {
  import opened Wrappers

  /** The status reasons that the migrator tests for. */
  datatype Reason = NotFound | MethodNotAllowed | Conflict | ServerTimeout | TooManyRequests | OtherReason

  /** One error value: its status reason, the answers of the network-error tests, and what
      its Temporary method says, if it has one. */
  datatype Error = Error(
    reason: Reason,
    probableEOF: bool,
    connectionReset: bool,
    noRoutes: bool,
    connectionRefused: bool,
    temporary: Option<bool>)

  /** A fault of a call on a single object. Only the server itself reports NotFound there. */
  type Fault = e: Error | e.reason != NotFound witness CONFLICT

  const CONFLICT := Error(Conflict, false, false, false, false, None)

  datatype Interpreted = Nil | Retriable(cause: Error) | NotRetriable(cause: Error) | Plain(cause: Error)

  function Interpret(err: Error): Interpreted {
    if err.reason == NotFound then Nil
    else if err.reason == MethodNotAllowed then NotRetriable(err)
    else if err.reason == Conflict then Retriable(err)
    else if err.reason == ServerTimeout then Retriable(err)
    else if err.reason == TooManyRequests then Retriable(err)
    else if err.probableEOF then Retriable(err)
    else if err.connectionReset then Retriable(err)
    else if err.noRoutes then Retriable(err)
    else if err.connectionRefused then Retriable(err)
    else Plain(err)
  }

  /** The result of the Temporary method after Interpret, if the value has that method. */
  function Temporary(i: Interpreted): Option<bool> {
    match i
    case Nil => None
    case Retriable(_) => Some(true)
    case NotRetriable(_) => Some(false)
    case Plain(e) => e.temporary
  }

  /** The decision in closed form: only two kinds of error stop a migration. One is a method
      that the server does not support, the other an error that calls itself permanent and
      belongs to no class that the migrator knows to be transient. */
  function CanRetry(err: Error): (retry: bool)
    ensures !retry <==>
            || err.reason == MethodNotAllowed
            || (err.reason == OtherReason && err.temporary == Some(false) && !NetworkTrouble(err))
  {
    Temporary(Interpret(err)) != Some(false)
  }

  predicate NetworkTrouble(err: Error) {
    err.probableEOF || err.connectionReset || err.noRoutes || err.connectionRefused
  }
}
