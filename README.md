# OpenID Connect UserInfo policy — a Dafny model

This project models the authorization decision of the Gravitee gateway policy
`UserInfoPolicy`. For each request the policy does four things in order:

1. It resolves the configured OAuth2 resource. If there is none, the request fails
   with 401 at once.
2. It checks that the `Authorization` header starts with "Bearer", in any letter case.
3. It cuts the first six characters off the header and trims the rest with Java's
   `String.trim`. An empty result fails with 401. Otherwise the token is stored in the
   execution context under `oauth.access_token` and sent to the resource's remote
   `userInfo`.
4. The callback given to `userInfo` turns the remote answer into the request's one
   decision on the policy chain: `doNext`, a 401 carrying the remote payload as JSON,
   or a 503.

Each failure except the missing resource adds one `WWW-Authenticate` challenge of the
form `Bearer realm=gravitee.io - <message>`. The header handling is close to the Bearer
scheme of RFC 6750 (section 2.1 for the request header, section 3 for the challenge),
but the model follows the code where the two differ. No space is needed after "Bearer",
so `Bearerabc` yields the token `abc`. The realm is not quoted, and a ` - <message>`
suffix follows it.

Files:

- `wrappers.dfy` holds `Option`, used for headers that are absent or null.
- `bearer.dfy` holds the pure part: Java's `trim` (`StartIndex`, `EndIndex` and `Trim`
  follow the two index loops of `String.trim`), the case-insensitive prefix test, token
  extraction, and the challenge text.
- `policy.dfy` has two layers. First, `AfterRequest`, `AfterUserInfo` and `Run` say
  what each step does to an `Exchange`. An `Exchange` holds the context attributes, the
  response headers, the calls made on the policy chain and the tokens sent to
  `userInfo`. Second, the class `UserInfoPolicy` performs the same steps by updating
  its fields in place. Its methods are proved to match those functions.
- `scenarios.dfy` holds the integration test's stub resource and one lemma per test
  scenario.

The policy chain is modelled as a log of calls rather than a field set once. So
"exactly one `doNext` or `failWith` per request" is proved (`ExactlyOneDecision`, and
`Serve` for the class), not built in. The asynchronous callback is modelled as a second
method, `HandleResponse`, which may run only while the remote call is outstanding and
nothing has been decided yet.

Resource lookup is an input, `resourcePresent`. The `Authorization` header is an
`Option<string>`, with `None` for an absent or null header. The remote `userInfo` is a
function parameter of `Run` and `Serve`.

## Model

| member | source | states |
|---|---|---|
| Bearer.StartIndex | src/main/java/io/gravitee/policy/openid/userinfo/UserInfoPolicy.java:84 | the first index `trim` keeps: every character before it is at most U+0020, and the one at it is not |
| Bearer.EndIndex | src/main/java/io/gravitee/policy/openid/userinfo/UserInfoPolicy.java:84 | the end `trim` keeps: every character from it on is at most U+0020, and the one before it is not |
| Bearer.Trim | src/main/java/io/gravitee/policy/openid/userinfo/UserInfoPolicy.java:84 | `trim` yields a slice of the input with only trimmable characters around it; the result is empty exactly when the input is all trimmable, and otherwise starts and ends with a kept character |
| Bearer.TrimUnique | src/main/java/io/gravitee/policy/openid/userinfo/UserInfoPolicy.java:84 | `trim` is determined by that description: any slice with only trimmable padding and kept ends is the result |
| Bearer.TrimIdempotent | src/main/java/io/gravitee/policy/openid/userinfo/UserInfoPolicy.java:84 | trimming a trimmed string changes nothing |
| Bearer.TrimPadded | src/main/java/io/gravitee/policy/openid/userinfo/UserInfoPolicy.java:84 | trimming removes any trimmable padding around a trimmed string and nothing else |
| Bearer.ExtractToken | src/main/java/io/gravitee/policy/openid/userinfo/UserInfoPolicy.java:69-91 | the header is refused as missing exactly when it is absent or does not start with "Bearer" in any case; the token is refused as empty exactly when all that follows those six characters is trimmable; otherwise the token is the trimmed rest and is not empty |
| Bearer.ExtractPaddedToken | src/main/java/io/gravitee/policy/openid/userinfo/UserInfoPolicy.java:75-85 | any letter-case spelling of "Bearer", then any trimmable padding (none at all included), then a trimmed token, then padding: the token is read back exactly |
| Bearer.ExtractFormattedToken | src/main/java/io/gravitee/policy/openid/userinfo/UserInfoPolicy.java:84-85 | `Bearer <token>` is read back as `<token>` |
| Bearer.BearerPrefixIgnoresCase | src/main/java/io/gravitee/policy/openid/userinfo/UserInfoPolicy.java:75 | the scheme test passes exactly when the first six characters spell "Bearer" with each letter in either case, so letter case is ignored and nothing else is |
| Bearer.MixedCaseSchemeWithoutSpace | src/main/java/io/gravitee/policy/openid/userinfo/UserInfoPolicy.java:75-84 | `bEaReRabc` yields the token `abc`: any letter case is accepted and no space is needed after the scheme |
| Bearer.Challenge | src/main/java/io/gravitee/policy/openid/userinfo/UserInfoPolicy.java:77-79 | a challenge is a fixed 27-character head (`Bearer realm=gravitee.io - `) followed by its message, which it ends with |
| Bearer.ChallengeDeterminesMessage | src/main/java/io/gravitee/policy/openid/userinfo/UserInfoPolicy.java:77-79 | two messages with the same challenge are equal, so the challenge determines its message |
| Policy.MessageText | src/main/java/io/gravitee/policy/openid/userinfo/UserInfoPolicy.java:129-133 | the throwable's message as `%s` renders it: the message itself, or "null" when it is null |
| Policy.AfterRequest | src/main/java/io/gravitee/policy/openid/userinfo/UserInfoPolicy.java:55-98 | `onRequest` adds at most one response header; either it sends one token, stores that same token and changes nothing else, or it makes one `failWith` decision, always a 401, and writes no attribute |
| Policy.AfterUserInfo | src/main/java/io/gravitee/policy/openid/userinfo/UserInfoPolicy.java:106-138 | the callback makes exactly one decision, `doNext` exactly on success, and sends nothing; it adds one header on failure and none on success; it writes only the payload attribute, and that only on success with `extractPayload` |
| Policy.Run | src/main/java/io/gravitee/policy/openid/userinfo/UserInfoPolicy.java:97 | a request, with the remote answering its one call, always ends with exactly one more chain decision and at most one more remote call |
| Policy.NoResourceFails | src/main/java/io/gravitee/policy/openid/userinfo/UserInfoPolicy.java:58-67 | with no resource, the request fails with 401 and the configuration message, whatever the header; no challenge, no attribute and no remote call |
| Policy.MissingBearerSchemeFails | src/main/java/io/gravitee/policy/openid/userinfo/UserInfoPolicy.java:69-81 | an absent, null or empty header, or one without the Bearer prefix, fails with 401; it adds the one "No OAuth authorization header was supplied" challenge and changes nothing else |
| Policy.EmptyTokenFails | src/main/java/io/gravitee/policy/openid/userinfo/UserInfoPolicy.java:84-91 | a Bearer header with only trimmable characters after the prefix fails with 401; it adds the one "No OAuth access token was supplied" challenge and writes no attribute |
| Policy.TokenIsForwarded | src/main/java/io/gravitee/policy/openid/userinfo/UserInfoPolicy.java:84-97 | otherwise the trimmed rest is non-empty, is stored under `oauth.access_token` and is sent to `userInfo` exactly once; nothing is decided and no header is added |
| Policy.FormattedTokenIsForwarded | src/main/java/io/gravitee/policy/openid/userinfo/UserInfoPolicy.java:84-97 | for `Bearer <token>`, the token sent and stored is `<token>` |
| Policy.RequestDecidesOrCalls | src/main/java/io/gravitee/policy/openid/userinfo/UserInfoPolicy.java:55-98 | `onRequest` either decides or calls the remote, never both and never neither; it calls the remote exactly when the resource exists and a token was extracted |
| Policy.SuccessContinues | src/main/java/io/gravitee/policy/openid/userinfo/UserInfoPolicy.java:107-112 | a successful answer continues the chain and leaves the response headers alone, even when it also carries a throwable; the payload is stored exactly when `extractPayload` is set |
| Policy.RejectionFails | src/main/java/io/gravitee/policy/openid/userinfo/UserInfoPolicy.java:114-123 | a rejection without a throwable fails with 401 and the remote payload as an `application/json` body; it adds one "Invalid OAuth access token was supplied" challenge |
| Policy.TransportErrorFails | src/main/java/io/gravitee/policy/openid/userinfo/UserInfoPolicy.java:124-135 | a rejection with a throwable fails with 503 "Service Unavailable"; it adds one challenge ending with the throwable's message |
| Policy.ExactlyOneDecision | src/main/java/io/gravitee/policy/openid/userinfo/UserInfoPolicy.java:55-139 | every request gets exactly one chain decision and at most one remote call, made with the stored token; every failure except the missing resource adds exactly one challenge; only the token and payload attributes are ever written, and the payload only on success with `extractPayload` |
| Policy.UserInfoPolicy.constructor | src/main/java/io/gravitee/policy/openid/userinfo/UserInfoPolicy.java:50-52 | the policy keeps its `extractPayload` setting and starts a request with nothing decided and nothing sent |
| Policy.UserInfoPolicy.AddChallengeHeader | src/main/java/io/gravitee/policy/openid/userinfo/UserInfoPolicy.java:115-120 | appends one `WWW-Authenticate` challenge for the message to the response headers and changes nothing else; every failure path except the missing resource uses it |
| Policy.UserInfoPolicy.FailWithResult | src/main/java/io/gravitee/policy/openid/userinfo/UserInfoPolicy.java:121-123 | appends one `failWith` of the given status, body and content type to the chain and changes nothing else; every failure path uses it |
| Policy.UserInfoPolicy.OnRequest | src/main/java/io/gravitee/policy/openid/userinfo/UserInfoPolicy.java:55-98 | updates the context, response headers, chain and remote-call log exactly as `AfterRequest` says; returns the token sent, if any, and then leaves the request waiting for the callback |
| Policy.UserInfoPolicy.HandleResponse | src/main/java/io/gravitee/policy/openid/userinfo/UserInfoPolicy.java:100-139 | the callback updates the state exactly as `AfterUserInfo` says, and afterwards exactly one decision has been made |
| Policy.Serve | src/main/java/io/gravitee/policy/openid/userinfo/UserInfoPolicy.java:97 | running `OnRequest` and delivering the remote answer once yields `Run`, with exactly one decision on the chain |
| Scenarios.DummyUserInfo | src/test/java/io/gravitee/policy/openid/userinfo/DummyOauth2Resource.java:41-50 | the stub succeeds exactly for the two route tokens, and answers with a throwable exactly for `causing_error_token` |
| Scenarios.WithoutResource | src/test/java/io/gravitee/policy/openid/userinfo/UserInfoPolicyIntegrationTest.java:75-93 | without a resource: 401 and the configuration message, and no remote call |
| Scenarios.WrongHeader | src/test/java/io/gravitee/policy/openid/userinfo/UserInfoPolicyIntegrationTest.java:95-117 | the test's four headers (none, null, `""` and `Basic`): 401 with the "no authorization header" challenge |
| Scenarios.EmptyBearerToken | src/test/java/io/gravitee/policy/openid/userinfo/UserInfoPolicyIntegrationTest.java:119-141 | `Bearer` alone: 401 with the "no access token" challenge |
| Scenarios.InvalidToken | src/test/java/io/gravitee/policy/openid/userinfo/UserInfoPolicyIntegrationTest.java:143-165 | a rejected token: 401, the fail payload as JSON, and the "invalid access token" challenge |
| Scenarios.TokenCausingError | src/test/java/io/gravitee/policy/openid/userinfo/UserInfoPolicyIntegrationTest.java:167-192 | a token making the resource throw: 503 and a challenge ending with "Throwable message" |
| Scenarios.ValidTokenWithPayloadExtraction | src/test/java/io/gravitee/policy/openid/userinfo/UserInfoPolicyIntegrationTest.java:194-219 | a valid token on the extracting route continues, with "Extracted payload!" in the context |
| Scenarios.ValidTokenWithoutPayloadExtraction | src/test/java/io/gravitee/policy/openid/userinfo/UserInfoPolicyIntegrationTest.java:194-219 | a valid token on the other route continues, and no payload attribute is written |

## Left out

- Template evaluation of the resource name and the `ResourceManager` lookup are foreign
  calls. Their combined result is the input `resourcePresent`.
- The `request.headers() == null` test is dead code: `request.headers()` has already been
  dereferenced on the line before it. Headers are modelled as always present.
- Logging is left out. So are the gateway's `Request`, `Response` and `PolicyChain`
  types: the model has the response-header sequence and the chain-call log instead.
- The asynchronous delivery of the remote answer is modelled as one later call of
  `HandleResponse`, not as concurrency. The execution context it runs on is not modelled.
- "Exactly one decision" (`ExactlyOneDecision`, `Run`, `Serve`) rests on the remote
  resource answering each call exactly once. `Run` takes a total `userInfo` function, and
  `HandleResponse` requires that a call is outstanding and nothing is decided yet. The
  source's callback has no guard of its own against a second answer or a missing one, so
  a resource that answers twice, or never, is outside the model.
- Bearer.EqualsIgnoreCase: this is ASCII case folding, not Java's Unicode case-insensitive
  comparison. The only prefix ever compared is "Bearer", and `BearerPrefixIgnoresCase`
  proves which twelve letter forms the model accepts. For these six letters, Java's
  comparison accepts exactly their ASCII upper- and lower-case forms as well; that Java
  fact is not proved here.
- Java strings are UTF-16 and Dafny strings are sequences of Unicode scalar values. The
  first six characters are checked to be ASCII letters before they are cut off, and
  `trim` only removes characters up to U+0020. So the difference does not show.
- Null payloads are not modelled: a payload is always a string. In the stub, the answer
  that carries a throwable has no payload, and the model uses the empty string.
- A throwable whose message is null is rendered "null" by `String.format`; `MessageText`
  models this.
- The stub resource's `introspect` does nothing and is not used by the policy.
- The configuration class `UserInfoPolicyConfiguration` is not part of this model. Only
  its `extractPayload` flag is used, as a constructor argument.
