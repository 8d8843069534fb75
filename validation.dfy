/** `validationSignin` of src/utils/validation.ts: the presence checks on a
    sign-in request body, run as a fixed sequence of early returns. */
module Validation {

  import opened Wrappers
  import opened Errors

  /** The four fields the validator reads from the sign-in body. `socialType`
      is any string (the validator only tests it against `kakao` and `apple`,
      so every other value, a missing one included, behaves alike);
      each credential may be missing. */
  datatype SigninRequest = SigninRequest(
    socialType: string,
    kakaoAccessToken: Option<string>,
    idToken: Option<string>,
    code: Option<string>)

  /** JavaScript truthiness of an optional string field: present and not `""`. */
  predicate Truthy(v: Option<string>) {
    v.Some? && v.value != ""
  }

  /** The rejection condition as one disjunction, independent of the order of
      the checks: no credential at all, all three at once, `kakao` without a
      Kakao token, or `apple` with exactly one of identity token and code. */
  predicate Rejects(r: SigninRequest) {
    var kakao, id, code := Truthy(r.kakaoAccessToken), Truthy(r.idToken), Truthy(r.code);
    || (!kakao && !id && !code)
    || (kakao && id && code)
    || (r.socialType == "kakao" && !kakao)
    || (r.socialType == "apple" && id != code)
  }

  /** `validationSignin(body)`: the `badRequest()` exception, or nothing
      (`undefined`) when the body passes every check. */
  function ValidationSignin(r: SigninRequest): (result: Option<CustomException>)
    ensures result.Some? <==> Rejects(r)
    ensures result.Some? ==> result.value == Raise(BadRequest) && result.value.statusCode == 400
  {
    if !Truthy(r.kakaoAccessToken) && !Truthy(r.idToken) && !Truthy(r.code) then
      Some(Raise(BadRequest))
    else if Truthy(r.kakaoAccessToken) && Truthy(r.idToken) && Truthy(r.code) then
      Some(Raise(BadRequest))
    else if r.socialType == "kakao" && !Truthy(r.kakaoAccessToken) then
      Some(Raise(BadRequest))
    else if r.socialType == "apple" && ((Truthy(r.idToken) && !Truthy(r.code)) || (!Truthy(r.idToken) && Truthy(r.code))) then
      Some(Raise(BadRequest))
    else
      None
  }

  /** No credential present: rejected. */
  lemma NoCredentialRejected(r: SigninRequest)
    requires !Truthy(r.kakaoAccessToken) && !Truthy(r.idToken) && !Truthy(r.code)
    ensures ValidationSignin(r) == Some(Raise(BadRequest))
  {
  }

  /** All three credentials present: rejected, whatever the social type. */
  lemma AllCredentialsRejected(r: SigninRequest)
    requires Truthy(r.kakaoAccessToken) && Truthy(r.idToken) && Truthy(r.code)
    ensures ValidationSignin(r) == Some(Raise(BadRequest))
  {
  }

  /** `kakao` without a Kakao access token: rejected. */
  lemma KakaoWithoutTokenRejected(r: SigninRequest)
    requires r.socialType == "kakao" && !Truthy(r.kakaoAccessToken)
    ensures ValidationSignin(r) == Some(Raise(BadRequest))
  {
  }

  /** `apple` with an identity token but no code, or a code but no identity
      token: rejected. */
  lemma AppleHalfPairRejected(r: SigninRequest)
    requires r.socialType == "apple"
    requires Truthy(r.idToken) != Truthy(r.code)
    ensures ValidationSignin(r) == Some(Raise(BadRequest))
  {
  }

  /** The only error the validator ever returns is the bad-request one. */
  lemma OnlyBadRequest(r: SigninRequest, k: ErrorKind)
    requires ValidationSignin(r) == Some(Raise(k))
    ensures k == BadRequest
  {
    StatusInjective(k, BadRequest);
  }

  /** A present but empty credential is the same to the validator as a
      missing one. */
  lemma EmptyStringIsAbsent(r: SigninRequest)
    ensures ValidationSignin(r.(kakaoAccessToken := Some(""))) == ValidationSignin(r.(kakaoAccessToken := None))
    ensures ValidationSignin(r.(idToken := Some(""))) == ValidationSignin(r.(idToken := None))
    ensures ValidationSignin(r.(code := Some(""))) == ValidationSignin(r.(code := None))
  {
  }

  /** Which credentials are present, as the triple (Kakao token, identity
      token, code). */
  function Presence(r: SigninRequest): (bool, bool, bool) {
    (Truthy(r.kakaoAccessToken), Truthy(r.idToken), Truthy(r.code))
  }

  /** The complete decision table: the credential patterns accepted for each
      social type. */
  function AcceptedPatterns(socialType: string): set<(bool, bool, bool)> {
    if socialType == "kakao" then
      {(true, false, false), (true, true, false), (true, false, true)}
    else if socialType == "apple" then
      {(true, false, false), (false, true, true)}
    else
      {(true, false, false), (false, true, false), (false, false, true),
       (true, true, false), (true, false, true), (false, true, true)}
  }

  /** A request is accepted exactly when its credential pattern is in the
      table for its social type; in particular the result depends on nothing
      but the social type and which credentials are present. */
  lemma DecisionTable(r: SigninRequest)
    ensures ValidationSignin(r) == None <==> Presence(r) in AcceptedPatterns(r.socialType)
  {
  }

  /** Two requests that agree on the social type and on which credentials are
      present get the same answer. */
  lemma DependsOnlyOnPresence(r1: SigninRequest, r2: SigninRequest)
    requires r1.socialType == r2.socialType && Presence(r1) == Presence(r2)
    ensures ValidationSignin(r1) == ValidationSignin(r2)
  {
  }

  /** The endpoint's own description of a bad request names the case of
      Kakao and Apple credentials sent together. For `kakao`, as for any
      social type other than `apple`, the code rejects that case only when
      all three credentials are there: a Kakao token with just an identity
      token, or with just a code, passes. */
  lemma KakaoAndAppleCredentialsAccepted(token: string, idToken: string, code: string)
    requires token != "" && idToken != "" && code != ""
    ensures ValidationSignin(SigninRequest("kakao", Some(token), Some(idToken), None)) == None
    ensures ValidationSignin(SigninRequest("kakao", Some(token), None, Some(code))) == None
  {
  }

  /** For `apple` the identity-token/code check also rejects a Kakao token
      sent with just one of identity token and code. */
  lemma AppleKakaoWithHalfPairRejected(token: string, idToken: string, code: string)
    requires token != "" && idToken != "" && code != ""
    ensures ValidationSignin(SigninRequest("apple", Some(token), Some(idToken), None)) == Some(Raise(BadRequest))
    ensures ValidationSignin(SigninRequest("apple", Some(token), None, Some(code))) == Some(Raise(BadRequest))
  {
  }

  /** A stricter design rule for sign-in bodies: exactly one kind
      of credential, and the one that matches the social type (a Kakao token
      for `kakao`, an identity token with a code for `apple`). */
  predicate WellFormed(r: SigninRequest) {
    var kakao, id, code := Truthy(r.kakaoAccessToken), Truthy(r.idToken), Truthy(r.code);
    || (r.socialType == "kakao" && kakao && !id && !code)
    || (r.socialType == "apple" && !kakao && id && code)
  }

  /** Every request that follows the stricter rule is accepted. */
  lemma WellFormedAccepted(r: SigninRequest)
    requires WellFormed(r)
    ensures ValidationSignin(r) == None
  {
  }

  /** The converse fails for every social type: the code accepts a request
      that breaks the stricter rule (for `apple` one carrying only a Kakao
      token, otherwise one carrying a Kakao token and an identity token but no
      code). */
  lemma AcceptsBeyondWellFormed(socialType: string)
    ensures exists r: SigninRequest :: r.socialType == socialType && !WellFormed(r) && ValidationSignin(r) == None
  {
    var r := if socialType == "apple" then
        SigninRequest(socialType, Some("token"), None, None)
      else
        SigninRequest(socialType, Some("token"), Some("token"), None);
    assert r.socialType == socialType && !WellFormed(r) && ValidationSignin(r) == None;
  }
}
