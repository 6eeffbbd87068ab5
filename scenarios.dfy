/**
 * The integration test's scenarios, stated over the whole request.  The
 * remote OAuth2 resource is the test's stub: two route tokens succeed with
 * "Extracted payload!", one token makes the call fail with a throwable, and
 * every other token is rejected with "Extracted fail payload!".
 */
module Scenarios {
  import opened Wrappers
  import opened Bearer
  import opened Policy

  const PayloadExtractionPath: string := "/payload-extraction"
  const NoPayloadExtractionPath: string := "/no-payload-extraction"
  const CausingErrorToken: string := "causing_error_token"
  const ExtractedPayload: string := "Extracted payload!"
  const ExtractedFailPayload: string := "Extracted fail payload!"
  const ThrowableMessage: string := "Throwable message"

  /** The stub resource's `userInfo`.  A throwable answer carries no payload; it is modelled as empty. */
  function DummyUserInfo(token: string): (r: UserInfoResponse)
    ensures r.success <==> token == PayloadExtractionPath || token == NoPayloadExtractionPath
    ensures r.throwable.Some? <==> token == CausingErrorToken
  {
    if token == PayloadExtractionPath || token == NoPayloadExtractionPath then
      UserInfoResponse(true, ExtractedPayload, None)
    else if token == CausingErrorToken then
      UserInfoResponse(false, [], Some(Throwable(Some(ThrowableMessage))))
    else
      UserInfoResponse(false, ExtractedFailPayload, None)
  }

  /** A request as the gateway hands it to the policy: empty context, no response headers yet. */
  const Start: Exchange := Exchange(map[], [], [], [])

  /** Without a resource every request fails with 401 and the configuration message, and the remote is not called. */
  lemma WithoutResource(authorization: Option<string>, extractPayload: bool)
    ensures Run(Start, false, authorization, extractPayload, DummyUserInfo)
         == Exchange(map[], [], [FailWith(401, "No OpenID Connect authorization server has been configured", None)], [])
  {
  }

  /** No header, a null one, an empty one and "Basic" all fail with the "no authorization header" challenge. */
  lemma WrongHeader(authorization: Option<string>)
    requires authorization in {None, Some(""), Some("Basic")}
    ensures Run(Start, true, authorization, true, DummyUserInfo) == Exchange(
      map[],
      [("WWW-Authenticate", "Bearer realm=gravitee.io - " + "No OAuth authorization header was supplied")],
      [FailWith(401, "No OAuth authorization header was supplied", None)],
      [])
  {
    MissingBearerSchemeFails(Start, authorization);
  }

  /** "Bearer" alone fails with the "no access token" challenge. */
  lemma EmptyBearerToken()
    ensures Run(Start, true, Some("Bearer"), true, DummyUserInfo) == Exchange(
      map[],
      [("WWW-Authenticate", "Bearer realm=gravitee.io - " + "No OAuth access token was supplied")],
      [FailWith(401, "No OAuth access token was supplied", None)],
      [])
  {
    assert StartsWithIgnoreCase("Bearer", BearerType);
    assert "Bearer"[|BearerType|..] == [];
    EmptyTokenFails(Start, "Bearer");
  }

  /** A request whose header yields `token` ends as the stub's answer for `token` decides. */
  lemma ForwardedRun(header: string, token: string, extractPayload: bool)
    requires ExtractToken(Some(header)) == AccessToken(token)
    ensures Run(Start, true, Some(header), extractPayload, DummyUserInfo)
         == AfterUserInfo(Exchange(map[AccessTokenKey := token], [], [], [token]), extractPayload, DummyUserInfo(token))
  {
  }

  /** A token the resource rejects fails with 401, its payload as JSON, and the "invalid access token" challenge. */
  lemma InvalidToken()
    ensures Run(Start, true, Some("Bearer " + "invalid_token"), false, DummyUserInfo) == Exchange(
      map["oauth.access_token" := "invalid_token"],
      [("WWW-Authenticate", "Bearer realm=gravitee.io - " + "Invalid OAuth access token was supplied")],
      [FailWith(401, "Extracted fail payload!", Some("application/json"))],
      ["invalid_token"])
  {
    assert "Bearer " + "invalid_token" == BearerType + " " + "invalid_token";
    ExtractFormattedToken("invalid_token");
    ForwardedRun("Bearer " + "invalid_token", "invalid_token", false);
    var r := DummyUserInfo("invalid_token");
    assert r == UserInfoResponse(false, ExtractedFailPayload, None);
    RejectionFails(Exchange(map[AccessTokenKey := "invalid_token"], [], [], ["invalid_token"]), false, r);
  }

  /** A token that makes the resource throw fails with 503 and a challenge carrying the throwable's message. */
  lemma TokenCausingError()
    ensures Run(Start, true, Some("Bearer " + CausingErrorToken), false, DummyUserInfo) == Exchange(
      map["oauth.access_token" := "causing_error_token"],
      [("WWW-Authenticate",
        "Bearer realm=gravitee.io - " + "Error occurs during OAuth access token validation: " + "Throwable message")],
      [FailWith(503, "Service Unavailable", None)],
      ["causing_error_token"])
  {
    assert "Bearer " + CausingErrorToken == BearerType + " " + CausingErrorToken;
    ExtractFormattedToken(CausingErrorToken);
    ForwardedRun("Bearer " + CausingErrorToken, CausingErrorToken, false);
    var r := DummyUserInfo(CausingErrorToken);
    assert r == UserInfoResponse(false, [], Some(Throwable(Some(ThrowableMessage))));
    TransportErrorFails(Exchange(map[AccessTokenKey := CausingErrorToken], [], [], [CausingErrorToken]), false, r);
  }

  /** On the extracting route a valid token continues the chain with the payload in the context. */
  lemma ValidTokenWithPayloadExtraction()
    ensures Run(Start, true, Some("Bearer " + PayloadExtractionPath), true, DummyUserInfo) == Exchange(
      map["oauth.access_token" := "/payload-extraction", "openid.userinfo.payload" := "Extracted payload!"],
      [],
      [DoNext],
      ["/payload-extraction"])
  {
    assert "Bearer " + PayloadExtractionPath == BearerType + " " + PayloadExtractionPath;
    ExtractFormattedToken(PayloadExtractionPath);
    ForwardedRun("Bearer " + PayloadExtractionPath, PayloadExtractionPath, true);
  }

  /** On the other route a valid token continues the chain and the payload is not stored. */
  lemma ValidTokenWithoutPayloadExtraction()
    ensures Run(Start, true, Some("Bearer " + NoPayloadExtractionPath), false, DummyUserInfo) == Exchange(
      map["oauth.access_token" := "/no-payload-extraction"],
      [],
      [DoNext],
      ["/no-payload-extraction"])
  {
    assert "Bearer " + NoPayloadExtractionPath == BearerType + " " + NoPayloadExtractionPath;
    ExtractFormattedToken(NoPayloadExtractionPath);
    ForwardedRun("Bearer " + NoPayloadExtractionPath, NoPayloadExtractionPath, false);
  }
}
