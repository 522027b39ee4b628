/** The exceptions the modelled code catches, told apart the way its `catch` clauses tell them apart. */
module Exceptions {
  import opened Wrappers
  import Text

  /** A thrown exception. `message` is Kotlin's nullable `Throwable.message`. */
  datatype Exception =
    | HttpException(code: int, statusMessage: string)  // retrofit2.HttpException: a non-2xx response
    | IOException(message: Option<string>)             // java.io.IOException: the network could not be reached
    | OtherException(message: Option<string>)          // any other Exception

  /** `Throwable.message`; for an HTTP error, retrofit's "HTTP <code> <status message>". */
  function Message(e: Exception): (m: Option<string>)
    ensures e.HttpException? ==> m.Some? && |m.value| > 5 && m.value[..5] == "HTTP "
    ensures !e.HttpException? ==> m == e.message
  {
    match e
    case HttpException(code, status) => Some("HTTP " + Text.IntToString(code) + " " + status)
    case IOException(message) => message
    case OtherException(message) => message
  }

  /** A nullable message as Kotlin's string template `"${e.message}"` renders it: `null` prints as "null". */
  function Rendered(message: Option<string>): (s: string)
    ensures message.Some? ==> s == message.value
    ensures message.None? ==> s == "null"
  {
    message.GetOr("null")
  }
}
