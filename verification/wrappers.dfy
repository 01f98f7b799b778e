/** Failure-compatible datatypes shared by every module of the model.

    The source reports errors in three ways, and the model keeps them apart:
    - `cbk([code, reason, detail])` inside an `async.auto` graph: `Coded`;
    - `throw new Error(message)`: `Thrown`;
    - a rejection coming out of a library whose code is not part of this
      model (the LNSocket handshake, the gRPC client, the Telegram API): `Foreign`.
    Codes are sometimes the number 400 and sometimes the string '400', so a
    code is itself a small datatype and errors are matched on their reason.
 */
module Wrappers {

  datatype Option<+T> = None | Some(value: T) {
    predicate IsFailure() {
      None?
    }

    function PropagateFailure<U>(): Option<U>
      requires None?
    {
      None
    }

    function Extract(): T
      requires Some?
    {
      value
    }

    /** The value, or the given error when there is none. */
    function ToResult(error: Failure): (r: Result<T>)
      ensures r.Ok? <==> Some?
    {
      if Some? then Ok(value) else Err(error)
    }
  }

  /** The first element of a JavaScript error tuple: a number or a string. */
  datatype Code = Status(n: int) | StatusText(text: string)

  datatype Failure =
    | Coded(code: Code, reason: string)
    | Thrown(message: string)
    | Foreign(origin: string)
  {
    /** The text an operator sees: the reason of a coded error, else the message. */
    function Reason(): string {
      match this
      case Coded(_, r) => r
      case Thrown(m) => m
      case Foreign(o) => o
    }
  }

  /** `[400, reason]` */
  function BadRequest(reason: string): Failure {
    Coded(Status(400), reason)
  }

  /** `['400', reason]`: the code written as a string in the source. */
  function BadRequestText(reason: string): Failure {
    Coded(StatusText("400"), reason)
  }

  datatype Unit = Unit

  datatype Result<+T> = Ok(value: T) | Err(error: Failure) {
    predicate IsFailure() {
      Err?
    }

    function PropagateFailure<U>(): Result<U>
      requires Err?
    {
      Err(error)
    }

    function Extract(): T
      requires Ok?
    {
      value
    }
  }

  /** Fail with `error` unless `condition` holds; used with `:-`. */
  function Need(condition: bool, error: Failure): Result<Unit> {
    if condition then Ok(Unit) else Err(error)
  }
}
