/** The exceptions the engine raises, as values. The first six are the
    game's own family (`ZuulException` and its subclasses); the last four
    are Python built-ins that the engine lets escape. */
module Exceptions {

  datatype Exception =
    | RoomAlreadyExists(msg: string)
    | RoomDoesNotExist(msg: string)
    | UnsupportedCommand(msg: string)
    | FailedToExecuteAction(msg: string)
    | CommandCannotBeExecuted
    | ThePlayerWonTheGame
    | KeyError
    | IndexError
    | TypeError
    | SystemExit

  /** `isinstance(e, ZuulException)`; the win signal is one of them. */
  predicate IsZuulException(e: Exception) {
    !(e.KeyError? || e.IndexError? || e.TypeError? || e.SystemExit?)
  }

  /** `str(e)` for the game's own exceptions: the message they were raised
      with, or the empty string for those raised without one. */
  function Message(e: Exception): (r: string)
    requires IsZuulException(e)
    ensures e.CommandCannotBeExecuted? || e.ThePlayerWonTheGame? ==> r == ""
    ensures !(e.CommandCannotBeExecuted? || e.ThePlayerWonTheGame?) ==> r == e.msg
  {
    match e
    case RoomAlreadyExists(m) => m
    case RoomDoesNotExist(m) => m
    case UnsupportedCommand(m) => m
    case FailedToExecuteAction(m) => m
    case CommandCannotBeExecuted => ""
    case ThePlayerWonTheGame => ""
  }

  /** A call either returns a value or raises. */
  datatype Result<T> = Ok(value: T) | Raise(exc: Exception)
}
