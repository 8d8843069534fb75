# Sign-in validation, error table and success envelope

A model of the small pure core of a backend service for social sign-in
(Kakao and Apple). The service is mostly framework glue around a database
client and outbound HTTP calls. The parts with behaviour that can be stated
on their own are modelled here:

- `validationSignin` (src/utils/validation.ts) decides whether a sign-in
  body is rejected with a bad-request error. It reads four fields, and it
  treats a credential as present when it is a non-empty string, which is how
  JavaScript truthiness works on strings. It is modelled as the function
  `Validation.ValidationSignin` over a `SigninRequest` datatype. The result is
  `Option<CustomException>`: `None` is the `undefined` the code returns when
  every check passes. Because the function takes only those four fields and
  returns a value, it cannot depend on anything else or have side effects.
- The six error helpers (src/utils/error.ts) each build an exception from an
  HTTP status and a message in the `RESPONSE_MESSAGE` table
  (src/common/objects/responseMessages.ts). They are modelled as the datatype
  `Errors.ErrorKind` with the total functions `Status`, `MessageKey`,
  `Message` and `Raise`, and the inverse `KindOfStatus`.
- `wrapSuccess` (src/utils/success.ts) builds the success envelope
  `{success: true, statusCode, message, data}`. It is modelled as
  `Success.WrapSuccess` over the datatype `Success.Envelope`. Both `message`
  and `data` may be `undefined` (`None`). `data` is undefined when a caller
  leaves it out. `message` is undefined when a caller reads a key the
  response-message table does not hold, as the account-deletion and
  preferred-map handlers do.

The endpoint's own description of a bad request, in
src/auth/auth.controller.ts:75-78, names two cases: no social-login token
sent, or Kakao and Apple credentials sent together. For `kakao`, and for any social type other than `apple`, the
code rejects the second case only when all three credentials are present:
`kakao` with a Kakao token and just an identity token, or just a code, passes
(`KakaoAndAppleCredentialsAccepted`). For `apple`, the check at
src/utils/validation.ts:22-24 also rejects a Kakao token sent with just one
of identity token and code (`AppleKakaoWithHalfPairRejected`). The model
follows the code. `Validation.WellFormed` states a stricter design rule:
exactly one kind of credential, the one that matches `socialType`.
`WellFormedAccepted` proves that the code accepts everything that rule
allows. `AcceptsBeyondWellFormed` proves that, for every social type, the
code also accepts a body the rule forbids: `apple` with only a Kakao token,
`kakao` with a Kakao token and an identity token, or any other `socialType`
with one or two credentials.

Files: `wrappers.dfy` (Option), `response_messages.dfy`, `errors.dfy`,
`success.dfy`, `validation.dfy`.

## Model

| member | source | states |
|---|---|---|
| `Validation.ValidationSignin` | src/utils/validation.ts:5-27 | the result is an error exactly when `Rejects` holds (no credential, all three, `kakao` without a Kakao token, or `apple` with exactly one of identity token and code), and the error is always the 400 bad-request exception |
| `Validation.NoCredentialRejected` | src/utils/validation.ts:10-12 | with none of the three credentials present the body is rejected with bad request |
| `Validation.AllCredentialsRejected` | src/utils/validation.ts:14-16 | with all three credentials present the body is rejected, whatever the social type |
| `Validation.KakaoWithoutTokenRejected` | src/utils/validation.ts:18-20 | `kakao` without a Kakao access token is rejected |
| `Validation.AppleHalfPairRejected` | src/utils/validation.ts:22-26 | `apple` with an identity token but no code, or a code but no identity token, is rejected |
| `Validation.OnlyBadRequest` | src/utils/validation.ts:10-26 | if the validator returns the exception of some error kind, that kind is bad request |
| `Validation.EmptyStringIsAbsent` | src/utils/validation.ts:10-23 | an empty-string credential gives the same result as a missing one, for each of the three credentials |
| `Validation.DecisionTable` | src/utils/validation.ts:8-26 | a body is accepted exactly when its credential pattern is in the table for its social type: `kakao` accepts Kakao token alone or with one of identity token and code, `apple` accepts Kakao token alone or identity token with code, any other social type accepts any one or two credentials |
| `Validation.DependsOnlyOnPresence` | src/utils/validation.ts:8 | two bodies with the same social type and the same credentials present get the same result |
| `Validation.WellFormedAccepted` | src/utils/validation.ts:5-27 | every body with exactly the credential that matches its social type (the stricter design rule) is accepted |
| `Validation.KakaoAndAppleCredentialsAccepted` | src/auth/auth.controller.ts:75-78 | a `kakao` body with a Kakao token and an identity token, or a Kakao token and a code, is accepted, although the endpoint describes Kakao and Apple credentials together as a bad request |
| `Validation.AppleKakaoWithHalfPairRejected` | src/utils/validation.ts:22-24 | an `apple` body with a Kakao token and just one of identity token and code is rejected with bad request |
| `Validation.AcceptsBeyondWellFormed` | src/utils/validation.ts:18-26 | for every social type some body that breaks the stricter one-matching-credential rule is still accepted |
| `Errors.Status` | src/utils/error.ts:5-36 | every helper's status is an HTTP error code (4xx or 5xx), and it is 5xx only for the internal-server-error helper |
| `Errors.MessageKey` | src/utils/error.ts:5-36 | every helper's message key is defined in the response-message table |
| `Errors.Message` | src/common/objects/responseMessages.ts:6-11 | a helper's message is the table entry under its key, which is never undefined |
| `Errors.Raise` | src/utils/error.ts:5-36 | the exception a helper builds carries a status from which the helper is recovered, and the message stored under the helper's key |
| `Errors.KindOfStatus` | src/utils/error.ts:5-36 | any error kind recovered from a status code has that status code |
| `Errors.StatusRoundTrip` | src/utils/error.ts:5-36 | recovering the kind from a helper's status gives that helper back |
| `Errors.StatusInjective` | src/utils/error.ts:5-36 | two helpers have the same status code exactly when they are the same helper |
| `Errors.ErrorTable` | src/utils/error.ts:5-36 | internal server error is 500 with key INTERNAL_SERVER_ERROR, bad request 400 with BAD_REQUEST, unauthorized 401 with UNAUTHORIZED, forbidden 403 with FORBIDDEN (text 'Access Denied'), not found 404 with NOT_FOUND, conflict 409 with DUPLICATED, each with its table text |
| `ResponseMessages.CallerKeysMissing` | src/common/objects/responseMessages.ts:1-28 | the keys `DELETE_USER_SUCCESS` and `UPDATE_PREFERRED_MAP_SUCCESS`, which controllers pass to the envelope, have no entry in the table |
| `Success.WrapSuccess` | src/utils/success.ts:1-12 | the envelope always has `success` true and gives back status code, message and data unchanged |
| `Success.WrapSuccessNoData` | src/auth/auth.controller.ts:157-160 | leaving the data argument out gives an envelope whose data is undefined, with the status and message (defined or not) unchanged |
| `Success.DeleteUserEnvelope` | src/auth/auth.controller.ts:157-160 | the account-deletion response is `{success: true, statusCode: 204}` with both message and data undefined |
| `Success.WrapUnwrap` | src/utils/success.ts:6-11 | every envelope with `success` true is the wrapping of its own status, message and data |
| `Success.WrapSuccessInjective` | src/utils/success.ts:1-12 | two calls give the same envelope exactly when their arguments are equal |

## Left out

- The `async` wrapper of `validationSignin`: the function awaits nothing, so the model returns the value the promise resolves to.
- How the sign-in controller uses the validator: src/auth/auth.controller.ts:87 awaits the result and discards it, so the endpoint does not reject these bodies. The model states the function's result only and claims nothing about the endpoint.
- The fields of the exception class: an error is modelled as the (status, message) pair the helpers pass. src/exceptions/custom.exception.ts declares a four-argument constructor `(status, success, message, data)`, and the helpers import their class from an index file that is not part of this model.
- `socialType` values other than `kakao` and `apple`: kept as arbitrary strings, because the validator only tests `=== 'kakao'` and `=== 'apple'`, so every other value, a missing one included, behaves alike.
- Non-string credential values (numbers, objects): only missing or string values are modelled.
- The numeric type of `statusCode` in the envelope: a JavaScript number is modelled as an unbounded integer.
- Everything outside the three files: the OAuth provider clients, the user repository, token issuance and refresh, the map lookups and the framework wiring.
