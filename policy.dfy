/**
 * The UserInfo policy applied to one request.  `onRequest` resolves the
 * OAuth2 resource, checks the `Authorization` header, stores the access token
 * in the execution context and calls the remote `userInfo`; the callback
 * passed to that call turns the remote answer into the request's one
 * terminal decision on the policy chain.
 *
 * What the policy touches is gathered in an `Exchange` value; `AfterRequest`
 * and `AfterUserInfo` say what each step makes of it, and the class
 * `UserInfoPolicy` performs the same steps by updating its fields in place.
 */
module Policy {
  import opened Wrappers
  import opened Bearer

  const NoServerMessage: string := "No OpenID Connect authorization server has been configured"
  const ServiceUnavailableMessage: string := "Service Unavailable"
  const ApplicationJson: string := "application/json"
  const WwwAuthenticate: string := "WWW-Authenticate"
  const AccessTokenKey: string := "oauth.access_token"
  const PayloadKey: string := "openid.userinfo.payload"

  const Unauthorized: int := 401
  const ServiceUnavailable: int := 503

  /** The exception a remote call failed with; its message may be null. */
  datatype Throwable = Throwable(message: Option<string>)

  /** What the OAuth2 resource hands to the callback. */
  datatype UserInfoResponse = UserInfoResponse(success: bool, payload: string, throwable: Option<Throwable>)

  /** One call on the policy chain: `doNext`, or `failWith` of a policy result. */
  datatype ChainCall =
    | DoNext
    | FailWith(status: int, body: string, contentType: Option<string>)

  /**
   * Everything one request's run of the policy can change: the execution
   * context's attributes, the response headers (a multimap, kept in the
   * order values were added), the calls made on the policy chain, and the
   * tokens sent to the remote `userInfo`.
   */
  datatype Exchange = Exchange(
    attributes: map<string, string>,
    responseHeaders: seq<(string, string)>,
    chain: seq<ChainCall>,
    userInfoCalls: seq<string>)

  /** A request as it reaches the policy: nothing decided, nothing sent. */
  predicate Fresh(x: Exchange) {
    x.chain == [] && x.userInfoCalls == []
  }

  /** The remote call was made and its callback has not run yet. */
  predicate AwaitingUserInfo(x: Exchange) {
    x.chain == [] && |x.userInfoCalls| == 1
  }

  /** How `String.format("%s", …)` renders a throwable's message: a null message becomes "null". */
  function MessageText(t: Throwable): (text: string)
    ensures t.message.Some? ==> text == t.message.value
    ensures t.message.None? ==> text == "null"
  {
    match t.message
    case None => "null"
    case Some(m) => m
  }

  function AddChallenge(x: Exchange, message: string): Exchange {
    x.(responseHeaders := x.responseHeaders + [(WwwAuthenticate, Challenge(message))])
  }

  function Decide(x: Exchange, call: ChainCall): Exchange {
    x.(chain := x.chain + [call])
  }

  /**
   * `onRequest`: what the synchronous part of the policy makes of the
   * exchange.  It adds at most one response header.  Either it sends a
   * token to the remote, stores that same token and changes nothing else,
   * or it makes one `failWith` decision, always a 401, and writes no
   * attribute.
   */
  function AfterRequest(x: Exchange, resourcePresent: bool, authorization: Option<string>): (y: Exchange)
    ensures |x.responseHeaders| <= |y.responseHeaders| <= |x.responseHeaders| + 1
    ensures y.responseHeaders[..|x.responseHeaders|] == x.responseHeaders
    ensures y.chain == x.chain ==>
      AccessTokenKey in y.attributes
      && y.attributes == x.attributes[AccessTokenKey := y.attributes[AccessTokenKey]]
      && y.userInfoCalls == x.userInfoCalls + [y.attributes[AccessTokenKey]]
      && y.responseHeaders == x.responseHeaders
    ensures y.chain != x.chain ==>
      |y.chain| == |x.chain| + 1 && y.chain[..|x.chain|] == x.chain
      && y.chain[|x.chain|].FailWith? && y.chain[|x.chain|].status == Unauthorized
      && y.attributes == x.attributes && y.userInfoCalls == x.userInfoCalls
  {
    if !resourcePresent then
      Decide(x, FailWith(Unauthorized, NoServerMessage, None))
    else
      match ExtractToken(authorization)
      case NoAuthorizationHeader =>
        Decide(AddChallenge(x, NoHeaderMessage), FailWith(Unauthorized, NoHeaderMessage, None))
      case NoAccessToken =>
        Decide(AddChallenge(x, NoTokenMessage), FailWith(Unauthorized, NoTokenMessage, None))
      case AccessToken(token) =>
        x.(attributes := x.attributes[AccessTokenKey := token],
           userInfoCalls := x.userInfoCalls + [token])
  }

  /**
   * The `handleResponse` callback: what the remote answer makes of the
   * exchange.  It makes exactly one decision, `doNext` exactly on success,
   * and sends nothing.  It adds one response header on failure and none on
   * success.  The only attribute it may write is the payload, and only on
   * success with `extractPayload`.
   */
  function AfterUserInfo(x: Exchange, extractPayload: bool, r: UserInfoResponse): (y: Exchange)
    ensures |y.chain| == |x.chain| + 1 && y.chain[..|x.chain|] == x.chain
    ensures y.chain[|x.chain|] == DoNext <==> r.success
    ensures y.userInfoCalls == x.userInfoCalls
    ensures |y.responseHeaders| == |x.responseHeaders| + (if r.success then 0 else 1)
    ensures y.responseHeaders[..|x.responseHeaders|] == x.responseHeaders
    ensures forall key :: key != PayloadKey ==> (key in y.attributes <==> key in x.attributes)
    ensures forall key :: key != PayloadKey && key in x.attributes ==> y.attributes[key] == x.attributes[key]
    ensures r.success && extractPayload ==> PayloadKey in y.attributes && y.attributes[PayloadKey] == r.payload
    ensures !(r.success && extractPayload) ==> y.attributes == x.attributes
  {
    if r.success then
      var y := if extractPayload then x.(attributes := x.attributes[PayloadKey := r.payload]) else x;
      Decide(y, DoNext)
    else if r.throwable.None? then
      Decide(AddChallenge(x, InvalidTokenMessage), FailWith(Unauthorized, r.payload, Some(ApplicationJson)))
    else
      Decide(AddChallenge(x, ValidationErrorMessage + MessageText(r.throwable.value)),
             FailWith(ServiceUnavailable, ServiceUnavailableMessage, None))
  }

  /**
   * A whole request: `onRequest`, then, if it called the remote `userInfo`,
   * the callback with the answer `userInfo` gives for that token.
   */
  function Run(x: Exchange, resourcePresent: bool, authorization: Option<string>,
               extractPayload: bool, userInfo: string -> UserInfoResponse): (y: Exchange)
    ensures |y.chain| == |x.chain| + 1 && y.chain[..|x.chain|] == x.chain
    ensures |y.userInfoCalls| <= |x.userInfoCalls| + 1
  {
    var y := AfterRequest(x, resourcePresent, authorization);
    if |y.userInfoCalls| > |x.userInfoCalls| then
      AfterUserInfo(y, extractPayload, userInfo(y.userInfoCalls[|y.userInfoCalls| - 1]))
    else
      y
  }

  // ---------------------------------------------------------------------
  // onRequest
  // ---------------------------------------------------------------------

  /**
   * Without a resource the request fails with 401 and the configuration
   * message, whatever the header says; no challenge is added, no attribute
   * written and no remote call made.
   */
  lemma NoResourceFails(x: Exchange, authorization: Option<string>)
    ensures AfterRequest(x, false, authorization)
      == x.(chain := x.chain + [FailWith(Unauthorized, NoServerMessage, None)])
    ensures forall other :: AfterRequest(x, false, other) == AfterRequest(x, false, authorization)
  {
  }

  /**
   * An absent, null or empty header, or one not starting with "Bearer" in
   * any letter case, fails with 401 and adds the one "no authorization
   * header" challenge; no attribute is written and no remote call made.
   */
  lemma MissingBearerSchemeFails(x: Exchange, authorization: Option<string>)
    requires authorization.None? || authorization.value == []
             || !StartsWithIgnoreCase(authorization.value, BearerType)
    ensures AfterRequest(x, true, authorization) == Exchange(
      x.attributes,
      x.responseHeaders + [(WwwAuthenticate, "Bearer realm=gravitee.io - " + "No OAuth authorization header was supplied")],
      x.chain + [FailWith(Unauthorized, "No OAuth authorization header was supplied", None)],
      x.userInfoCalls)
  {
    ChallengeHeadText();
  }

  /**
   * A header that starts with "Bearer" but holds only trimmable characters
   * after those six, "Bearer" alone included, fails with 401 and adds the
   * one "no access token" challenge; no attribute is written and no remote
   * call made.
   */
  lemma EmptyTokenFails(x: Exchange, header: string)
    requires StartsWithIgnoreCase(header, BearerType)
    requires AllTrimmable(header[|BearerType|..])
    ensures AfterRequest(x, true, Some(header)) == Exchange(
      x.attributes,
      x.responseHeaders + [(WwwAuthenticate, "Bearer realm=gravitee.io - " + "No OAuth access token was supplied")],
      x.chain + [FailWith(Unauthorized, "No OAuth access token was supplied", None)],
      x.userInfoCalls)
  {
    ChallengeHeadText();
  }

  /**
   * Otherwise the token is what is left of the header after its first six
   * characters once trimmed; it is not empty, it is stored under
   * `oauth.access_token`, and it is sent to the remote `userInfo` exactly
   * once.  Nothing is decided and no header is added yet.
   */
  lemma TokenIsForwarded(x: Exchange, header: string)
    requires StartsWithIgnoreCase(header, BearerType)
    requires !AllTrimmable(header[|BearerType|..])
    ensures var token := Trim(header[|BearerType|..]);
      token != []
      && AfterRequest(x, true, Some(header)) == Exchange(
           x.attributes[AccessTokenKey := token], x.responseHeaders, x.chain, x.userInfoCalls + [token])
  {
  }

  /** A client's `Bearer <token>` is forwarded as `<token>` itself. */
  lemma FormattedTokenIsForwarded(x: Exchange, token: string)
    requires token != [] && !IsTrimmable(token[0]) && !IsTrimmable(token[|token| - 1])
    ensures AfterRequest(x, true, Some(BearerType + " " + token)).userInfoCalls == x.userInfoCalls + [token]
    ensures AfterRequest(x, true, Some(BearerType + " " + token)).attributes[AccessTokenKey] == token
  {
    ExtractFormattedToken(token);
  }

  /**
   * The checks run in order: a missing resource wins over a bad header,
   * and the remote is called only when both pass.  A remote call and a
   * decision never both happen in `onRequest`, and one of them always does.
   */
  lemma RequestDecidesOrCalls(x: Exchange, resourcePresent: bool, authorization: Option<string>)
    ensures var y := AfterRequest(x, resourcePresent, authorization);
      (|y.userInfoCalls| == |x.userInfoCalls| + 1 && y.chain == x.chain)
      != (|y.chain| == |x.chain| + 1 && y.userInfoCalls == x.userInfoCalls)
    ensures var y := AfterRequest(x, resourcePresent, authorization);
      |y.userInfoCalls| > |x.userInfoCalls| <==> resourcePresent && ExtractToken(authorization).AccessToken?
  {
  }

  // ---------------------------------------------------------------------
  // The userInfo callback
  // ---------------------------------------------------------------------

  /**
   * A successful answer continues the chain and leaves the response
   * headers alone, even if it also carries a throwable; the payload is
   * stored under `openid.userinfo.payload` only when `extractPayload` is set.
   */
  lemma SuccessContinues(x: Exchange, extractPayload: bool, r: UserInfoResponse)
    requires r.success
    ensures var y := AfterUserInfo(x, extractPayload, r);
      y.chain == x.chain + [DoNext] && y.responseHeaders == x.responseHeaders
      && y.userInfoCalls == x.userInfoCalls
      && y.attributes == if extractPayload then x.attributes[PayloadKey := r.payload] else x.attributes
  {
  }

  /**
   * A rejection without a throwable fails with 401, the remote payload as a
   * JSON body, and one "invalid access token" challenge.
   */
  lemma RejectionFails(x: Exchange, extractPayload: bool, r: UserInfoResponse)
    requires !r.success && r.throwable.None?
    ensures AfterUserInfo(x, extractPayload, r) == Exchange(
      x.attributes,
      x.responseHeaders + [(WwwAuthenticate, "Bearer realm=gravitee.io - " + "Invalid OAuth access token was supplied")],
      x.chain + [FailWith(Unauthorized, r.payload, Some("application/json"))],
      x.userInfoCalls)
  {
    ChallengeHeadText();
  }

  /**
   * A failed remote call fails with 503 and "Service Unavailable", and adds
   * one challenge that ends with the throwable's message.
   */
  lemma TransportErrorFails(x: Exchange, extractPayload: bool, r: UserInfoResponse)
    requires !r.success && r.throwable.Some?
    ensures AfterUserInfo(x, extractPayload, r) == Exchange(
      x.attributes,
      x.responseHeaders + [(WwwAuthenticate,
        "Bearer realm=gravitee.io - " + "Error occurs during OAuth access token validation: " + MessageText(r.throwable.value))],
      x.chain + [FailWith(ServiceUnavailable, "Service Unavailable", None)],
      x.userInfoCalls)
  {
    ChallengeHeadText();
    var cause := MessageText(r.throwable.value);
    assert "Bearer realm=gravitee.io - " + (ValidationErrorMessage + cause)
        == "Bearer realm=gravitee.io - " + ValidationErrorMessage + cause;
  }

  // ---------------------------------------------------------------------
  // A whole request
  // ---------------------------------------------------------------------

  /** A response header the policy may add: a `WWW-Authenticate` challenge. */
  ghost predicate IsChallenge(h: (string, string)) {
    h.0 == WwwAuthenticate && exists m :: h.1 == Challenge(m)
  }

  /**
   * Every request reaches exactly one decision, `doNext` or `failWith`; the
   * remote is called at most once, and then with the token stored in the
   * context.  Every failure except the missing resource adds exactly one
   * challenge and nothing else goes into the response; a continued request
   * adds none.  The only attributes written are the access token and the
   * payload, and the payload only on success with `extractPayload`.
   */
  lemma ExactlyOneDecision(x: Exchange, resourcePresent: bool, authorization: Option<string>,
                           extractPayload: bool, userInfo: string -> UserInfoResponse)
    requires Fresh(x)
    ensures var y := Run(x, resourcePresent, authorization, extractPayload, userInfo);
      |y.chain| == 1 && |y.userInfoCalls| <= 1
      && (y.userInfoCalls != [] ==> y.attributes[AccessTokenKey] == y.userInfoCalls[0])
    ensures var y := Run(x, resourcePresent, authorization, extractPayload, userInfo);
      y.responseHeaders[..|x.responseHeaders|] == x.responseHeaders
      && |y.responseHeaders| == |x.responseHeaders| + (if resourcePresent && y.chain[0].FailWith? then 1 else 0)
      && forall i :: |x.responseHeaders| <= i < |y.responseHeaders| ==> IsChallenge(y.responseHeaders[i])
    ensures var y := Run(x, resourcePresent, authorization, extractPayload, userInfo);
      (forall key :: key in x.attributes && key != AccessTokenKey && key != PayloadKey ==>
         key in y.attributes && y.attributes[key] == x.attributes[key])
      && (forall key :: key in y.attributes && key != AccessTokenKey && key != PayloadKey ==> key in x.attributes)
      && (PayloadKey in x.attributes ==> PayloadKey in y.attributes)
      && (PayloadKey in y.attributes
          && (PayloadKey !in x.attributes || y.attributes[PayloadKey] != x.attributes[PayloadKey])
          ==> extractPayload && y.chain == [DoNext])
      && (AccessTokenKey in x.attributes ==> AccessTokenKey in y.attributes)
      && (AccessTokenKey in y.attributes
          && (AccessTokenKey !in x.attributes || y.attributes[AccessTokenKey] != x.attributes[AccessTokenKey])
          ==> y.userInfoCalls != [])
  {
    var y := AfterRequest(x, resourcePresent, authorization);
    var z := Run(x, resourcePresent, authorization, extractPayload, userInfo);
    if |y.userInfoCalls| > |x.userInfoCalls| {
      var r := userInfo(y.userInfoCalls[0]);
      if !r.success {
        var m := if r.throwable.None? then InvalidTokenMessage else ValidationErrorMessage + MessageText(r.throwable.value);
        assert IsChallenge(z.responseHeaders[|x.responseHeaders|]) by {
          assert z.responseHeaders[|x.responseHeaders|].1 == Challenge(m);
        }
      }
    } else if resourcePresent {
      var m := if ExtractToken(authorization).NoAuthorizationHeader? then NoHeaderMessage else NoTokenMessage;
      assert IsChallenge(z.responseHeaders[|x.responseHeaders|]) by {
        assert z.responseHeaders[|x.responseHeaders|].1 == Challenge(m);
      }
    }
  }

  // ---------------------------------------------------------------------
  // The policy, updating one request's state in place
  // ---------------------------------------------------------------------

  /**
   * The policy as configured (`extractPayload`) together with the state of
   * the one request it is applied to: the execution context's attributes,
   * the response headers, the calls made on the policy chain, and a log of
   * the tokens sent to the remote `userInfo`.
   */
  class UserInfoPolicy {
    const extractPayload: bool
    var attributes: map<string, string>
    var responseHeaders: seq<(string, string)>
    var chain: seq<ChainCall>
    ghost var userInfoCalls: seq<string>

    ghost function State(): Exchange
      reads this
    {
      Exchange(attributes, responseHeaders, chain, userInfoCalls)
    }

    constructor (extractPayload: bool, attributes: map<string, string>, responseHeaders: seq<(string, string)>)
      ensures this.extractPayload == extractPayload
      ensures State() == Exchange(attributes, responseHeaders, [], [])
      ensures Fresh(State())
    {
      this.extractPayload := extractPayload;
      this.attributes := attributes;
      this.responseHeaders := responseHeaders;
      this.chain := [];
      this.userInfoCalls := [];
    }

    method AddChallengeHeader(message: string)
      modifies this`responseHeaders
      ensures responseHeaders == old(responseHeaders) + [(WwwAuthenticate, Challenge(message))]
    {
      responseHeaders := responseHeaders + [(WwwAuthenticate, Challenge(message))];
    }

    method FailWithResult(status: int, body: string, contentType: Option<string>)
      modifies this`chain
      ensures chain == old(chain) + [FailWith(status, body, contentType)]
    {
      chain := chain + [FailWith(status, body, contentType)];
    }

    /**
     * `onRequest`.  `resourcePresent` is whether the configured OAuth2
     * resource was found; `authorization` is the `Authorization` header,
     * `None` when absent or null.  Returns the token sent to the remote
     * `userInfo`, or `None` when the request was decided at once.
     */
    method OnRequest(resourcePresent: bool, authorization: Option<string>) returns (sent: Option<string>)
      requires Fresh(State())
      modifies this
      ensures State() == AfterRequest(old(State()), resourcePresent, authorization)
      ensures sent.Some? ==> AwaitingUserInfo(State()) && userInfoCalls == [sent.value]
      ensures sent.None? ==> |chain| == 1 && userInfoCalls == []
    {
      if !resourcePresent {
        FailWithResult(Unauthorized, NoServerMessage, None);
        return None;
      }

      var header := match authorization case None => [] case Some(h) => h;
      if authorization.None? || header == [] || !StartsWithIgnoreCase(header, BearerType) {
        AddChallengeHeader(NoHeaderMessage);
        FailWithResult(Unauthorized, NoHeaderMessage, None);
        return None;
      }

      var accessToken := Trim(header[|BearerType|..]);
      if accessToken == [] {
        AddChallengeHeader(NoTokenMessage);
        FailWithResult(Unauthorized, NoTokenMessage, None);
        return None;
      }

      attributes := attributes[AccessTokenKey := accessToken];
      userInfoCalls := userInfoCalls + [accessToken];
      sent := Some(accessToken);
    }

    /** The `userInfo` callback, run once with the remote answer. */
    method HandleResponse(r: UserInfoResponse)
      requires AwaitingUserInfo(State())
      modifies this
      ensures State() == AfterUserInfo(old(State()), extractPayload, r)
      ensures |chain| == 1
    {
      if r.success {
        if extractPayload {
          attributes := attributes[PayloadKey := r.payload];
        }
        chain := chain + [DoNext];
      } else if r.throwable.None? {
        AddChallengeHeader(InvalidTokenMessage);
        FailWithResult(Unauthorized, r.payload, Some(ApplicationJson));
      } else {
        AddChallengeHeader(ValidationErrorMessage + MessageText(r.throwable.value));
        FailWithResult(ServiceUnavailable, ServiceUnavailableMessage, None);
      }
    }
  }

  /**
   * The gateway's side: apply the policy to a request and, if it called the
   * remote `userInfo`, deliver that call's answer to the callback once.
   */
  method Serve(policy: UserInfoPolicy, resourcePresent: bool, authorization: Option<string>,
               userInfo: string -> UserInfoResponse)
    requires Fresh(policy.State())
    modifies policy
    ensures policy.State() == Run(old(policy.State()), resourcePresent, authorization, policy.extractPayload, userInfo)
    ensures |policy.chain| == 1
  {
    var sent := policy.OnRequest(resourcePresent, authorization);
    if sent.Some? {
      policy.HandleResponse(userInfo(sent.value));
    }
  }
}
