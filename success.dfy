/** `wrapSuccess` of src/utils/success.ts: the standard success envelope
    `{success, statusCode, message, data}` around a handler's result. */
module Success {

  import opened Wrappers
  import ResponseMessages

  /** The envelope object. `None` stands for `undefined`: `data` is
      `undefined` when a caller leaves the argument out, and `message` is
      `undefined` when a caller passes a `RESPONSE_MESSAGE` key the table does
      not hold (the declared type `string` does not prevent that). */
  datatype Envelope<T> = Envelope(success: bool, statusCode: int, message: Option<string>, data: Option<T>)

  /** The three arguments an envelope carries, read back from it. */
  function Unwrap<T>(e: Envelope<T>): (int, Option<string>, Option<T>) {
    (e.statusCode, e.message, e.data)
  }

  /** `wrapSuccess(statusCode, message, data)`: total, and always a success. */
  function WrapSuccess<T>(statusCode: int, message: Option<string>, data: Option<T>): (e: Envelope<T>)
    ensures e.success
    ensures Unwrap(e) == (statusCode, message, data)
  {
    Envelope(true, statusCode, message, data)
  }

  /** `wrapSuccess(statusCode, message)` with the data argument left out. */
  function WrapSuccessNoData<T>(statusCode: int, message: Option<string>): (e: Envelope<T>)
    ensures e.success && e.statusCode == statusCode && e.message == message
    ensures e.data == None
  {
    WrapSuccess(statusCode, message, None)
  }

  /** The account-deletion response (204 with `DELETE_USER_SUCCESS`, no data)
      carries neither a message nor data. */
  lemma DeleteUserEnvelope()
    ensures WrapSuccessNoData<int>(204, ResponseMessages.Lookup("DELETE_USER_SUCCESS"))
         == Envelope(true, 204, None, None)
  {
    ResponseMessages.CallerKeysMissing();
  }

  /** Every envelope whose `success` is true is the wrapping of its own
      contents, so `WrapSuccess` is one-to-one onto the successful envelopes. */
  lemma WrapUnwrap<T>(e: Envelope<T>)
    requires e.success
    ensures WrapSuccess(Unwrap(e).0, Unwrap(e).1, Unwrap(e).2) == e
  {
  }

  /** Two calls give the same envelope exactly when their arguments agree. */
  lemma WrapSuccessInjective<T>(s1: int, m1: Option<string>, d1: Option<T>, s2: int, m2: Option<string>, d2: Option<T>)
    ensures WrapSuccess(s1, m1, d1) == WrapSuccess(s2, m2, d2) <==> (s1, m1, d1) == (s2, m2, d2)
  {
  }
}
