/** The error helpers of src/utils/error.ts. Each helper builds an exception
    carrying an HTTP status code and a message taken from the response-message
    table; the model names the six helpers by an `ErrorKind`. */
module Errors {

  import opened Wrappers
  import ResponseMessages

  /** One constructor per helper: `internalServerError`, `badRequest`,
      `unauthorized`, `forbidden`, `notFound`, `conflict`. */
  datatype ErrorKind =
    | InternalServerError
    | BadRequest
    | Unauthorized
    | Forbidden
    | NotFound
    | Conflict

  /** The exception value a helper returns, reduced to the pair every call site
      means: the HTTP status and the message text. */
  datatype CustomException = CustomException(statusCode: int, message: string)

  /** The HTTP status a helper passes (the framework's `HttpStatus` constants). */
  function Status(k: ErrorKind): (code: int)
    ensures 400 <= code < 600
    ensures code < 500 <==> k != InternalServerError
  {
    match k
    case InternalServerError => 500
    case BadRequest => 400
    case Unauthorized => 401
    case Forbidden => 403
    case NotFound => 404
    case Conflict => 409
  }

  /** The `RESPONSE_MESSAGE` key a helper reads its message from. */
  function MessageKey(k: ErrorKind): (key: string)
    ensures key in ResponseMessages.Table
  {
    match k
    case InternalServerError => "INTERNAL_SERVER_ERROR"
    case BadRequest => "BAD_REQUEST"
    case Unauthorized => "UNAUTHORIZED"
    case Forbidden => "FORBIDDEN"
    case NotFound => "NOT_FOUND"
    case Conflict => "DUPLICATED"
  }

  /** The message text of a helper: the table's entry under its key, which is
      always defined. */
  function Message(k: ErrorKind): (text: string)
    ensures ResponseMessages.Lookup(MessageKey(k)) == Some(text)
  {
    ResponseMessages.Table[MessageKey(k)]
  }

  /** Calling the helper of kind `k`. */
  function Raise(k: ErrorKind): (e: CustomException)
    ensures KindOfStatus(e.statusCode) == Some(k)
    ensures ResponseMessages.Lookup(MessageKey(k)) == Some(e.message)
  {
    CustomException(Status(k), Message(k))
  }

  /** Which helper, if any, produces a given status code: the inverse of `Status`. */
  function KindOfStatus(code: int): (k: Option<ErrorKind>)
    ensures k.Some? ==> Status(k.value) == code
  {
    match code
    case 500 => Some(InternalServerError)
    case 400 => Some(BadRequest)
    case 401 => Some(Unauthorized)
    case 403 => Some(Forbidden)
    case 404 => Some(NotFound)
    case 409 => Some(Conflict)
    case _ => None
  }

  /** `KindOfStatus` undoes `Status`: no status code is shared by two helpers. */
  lemma StatusRoundTrip(k: ErrorKind)
    ensures KindOfStatus(Status(k)) == Some(k)
  {
  }

  /** The six helpers yield pairwise distinct status codes. */
  lemma StatusInjective(a: ErrorKind, b: ErrorKind)
    ensures Status(a) == Status(b) <==> a == b
  {
    StatusRoundTrip(a);
    StatusRoundTrip(b);
  }

  /** The whole table: status code and message key of each helper, and the
      message text the `forbidden` helper carries. */
  lemma ErrorTable()
    ensures Raise(InternalServerError) == CustomException(500, "Internal Server Error")
    ensures MessageKey(InternalServerError) == "INTERNAL_SERVER_ERROR"
    ensures Raise(BadRequest) == CustomException(400, "Bad Request")
    ensures MessageKey(BadRequest) == "BAD_REQUEST"
    ensures Raise(Unauthorized) == CustomException(401, "Unauthorized")
    ensures MessageKey(Unauthorized) == "UNAUTHORIZED"
    ensures Raise(Forbidden) == CustomException(403, "Access Denied")
    ensures MessageKey(Forbidden) == "FORBIDDEN"
    ensures Raise(NotFound) == CustomException(404, "Not Found")
    ensures MessageKey(NotFound) == "NOT_FOUND"
    ensures Raise(Conflict) == CustomException(409, "Duplicated")
    ensures MessageKey(Conflict) == "DUPLICATED"
  {
  }
}
