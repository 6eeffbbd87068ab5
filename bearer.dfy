/**
 * The pure part of the UserInfo policy: recognising the Bearer scheme in an
 * `Authorization` header, cutting the access token out of it with Java's
 * `String.trim`, and formatting the `WWW-Authenticate` challenge.
 */
module Bearer {
  import opened Wrappers

  /** The scheme name the policy looks for and writes into its challenges. */
  const BearerType: string := "Bearer"

  const NoHeaderMessage: string := "No OAuth authorization header was supplied"
  const NoTokenMessage: string := "No OAuth access token was supplied"
  const InvalidTokenMessage: string := "Invalid OAuth access token was supplied"
  const ValidationErrorMessage: string := "Error occurs during OAuth access token validation: "

  // ---------------------------------------------------------------------
  // Java's String.trim
  // ---------------------------------------------------------------------

  /** `String.trim` removes every character whose code is at most U+0020. */
  predicate IsTrimmable(c: char) {
    c <= ' '
  }

  predicate AllTrimmable(s: string) {
    forall k :: 0 <= k < |s| ==> IsTrimmable(s[k])
  }

  /** The first index at or after `from` whose character `String.trim` keeps, or `|s|`. */
  function StartIndex(s: string, from: nat): (i: nat)
    requires from <= |s|
    ensures from <= i <= |s|
    ensures forall k :: from <= k < i ==> IsTrimmable(s[k])
    ensures i == |s| || !IsTrimmable(s[i])
    decreases |s| - from
  {
    if from < |s| && IsTrimmable(s[from]) then StartIndex(s, from + 1) else from
  }

  /** The end, at most `stop` and at least `lo`, once trailing trimmable characters are dropped. */
  function EndIndex(s: string, lo: nat, stop: nat): (j: nat)
    requires lo <= stop <= |s|
    ensures lo <= j <= stop
    ensures forall k :: j <= k < stop ==> IsTrimmable(s[k])
    ensures j == lo || !IsTrimmable(s[j - 1])
    decreases stop
  {
    if lo < stop && IsTrimmable(s[stop - 1]) then EndIndex(s, lo, stop - 1) else stop
  }

  /**
   * Java's `String.trim`: the part of `s` left once the trimmable characters
   * are removed from both ends.  It is empty exactly when `s` holds only
   * trimmable characters, and otherwise starts and ends with a character
   * that is not trimmable.
   */
  function Trim(s: string): (r: string)
    ensures |r| <= |s|
    ensures r == [] <==> AllTrimmable(s)
    ensures r == [] || (!IsTrimmable(r[0]) && !IsTrimmable(r[|r| - 1]))
    ensures exists i :: 0 <= i <= |s| - |r| && r == s[i..i + |r|]
                        && AllTrimmable(s[..i]) && AllTrimmable(s[i + |r|..])
  {
    var i := StartIndex(s, 0);
    var j := EndIndex(s, i, |s|);
    assert i < j ==> s[i..j][0] == s[i] && s[i..j][j - i - 1] == s[j - 1];
    assert AllTrimmable(s[..i]) by {
      forall k | 0 <= k < i ensures IsTrimmable(s[..i][k]) { assert s[..i][k] == s[k]; }
    }
    assert AllTrimmable(s[j..]) by {
      forall k | 0 <= k < |s| - j ensures IsTrimmable(s[j..][k]) { assert s[j..][k] == s[j + k]; }
    }
    s[i..j]
  }

  /**
   * `Trim` is determined by its description: whenever `s[i..j]` is
   * surrounded by trimmable characters only and neither starts nor ends
   * with one, `Trim(s)` is exactly `s[i..j]`.
   */
  lemma TrimUnique(s: string, i: nat, j: nat)
    requires i <= j <= |s|
    requires AllTrimmable(s[..i]) && AllTrimmable(s[j..])
    requires i == j || (!IsTrimmable(s[i]) && !IsTrimmable(s[j - 1]))
    ensures Trim(s) == s[i..j]
  {
    assert forall k :: 0 <= k < i ==> IsTrimmable(s[k]) by {
      forall k | 0 <= k < i ensures IsTrimmable(s[k]) { assert s[..i][k] == s[k]; }
    }
    assert forall k :: j <= k < |s| ==> IsTrimmable(s[k]) by {
      forall k | j <= k < |s| ensures IsTrimmable(s[k]) { assert s[j..][k - j] == s[k]; }
    }
    var a := StartIndex(s, 0);
    if i == j {
      assert AllTrimmable(s);
    } else {
      assert a == i;
      var b := EndIndex(s, a, |s|);
      assert b == j;
    }
  }

  /** Trimming twice is trimming once. */
  lemma TrimIdempotent(s: string)
    ensures Trim(Trim(s)) == Trim(s)
  {
    var r := Trim(s);
    assert r[..0] == [] && r[|r|..] == [];
    TrimUnique(r, 0, |r|);
    assert r[0..|r|] == r;
  }

  /** Trimming ignores any trimmable padding on either side of an already trimmed string. */
  lemma TrimPadded(w1: string, t: string, w2: string)
    requires AllTrimmable(w1) && AllTrimmable(w2)
    requires t == [] || (!IsTrimmable(t[0]) && !IsTrimmable(t[|t| - 1]))
    ensures Trim(w1 + t + w2) == t
  {
    var s := w1 + t + w2;
    var i, j := |w1|, |w1| + |t|;
    assert s[..i] == w1 && s[j..] == w2 && s[i..j] == t;
    if t != [] {
      assert s[i] == t[0] && s[j - 1] == t[|t| - 1];
    }
    TrimUnique(s, i, j);
  }

  // ---------------------------------------------------------------------
  // Case-insensitive scheme test
  // ---------------------------------------------------------------------

  function ToLowerAscii(c: char): char {
    if 'A' <= c <= 'Z' then (c as int + 32) as char else c
  }

  /**
   * Two characters are equal ignoring case.  The only prefix ever tested is
   * "Bearer", and for its six letters Java's case-insensitive comparison
   * accepts exactly their ASCII upper- and lower-case forms.
   */
  predicate EqualsIgnoreCase(a: char, b: char) {
    ToLowerAscii(a) == ToLowerAscii(b)
  }

  /** `StringUtils.startsWithIgnoreCase(s, prefix)`. */
  predicate StartsWithIgnoreCase(s: string, prefix: string) {
    |s| >= |prefix| && forall k :: 0 <= k < |prefix| ==> EqualsIgnoreCase(s[k], prefix[k])
  }

  /**
   * The scheme test ignores letter case and nothing else: a header passes
   * exactly when its first six characters spell "Bearer" with each letter
   * in either case.
   */
  lemma BearerPrefixIgnoresCase(s: string)
    ensures StartsWithIgnoreCase(s, BearerType) <==>
      |s| >= 6 && s[0] in {'B', 'b'} && s[1] in {'E', 'e'} && s[2] in {'A', 'a'}
      && s[3] in {'R', 'r'} && s[4] in {'E', 'e'} && s[5] in {'R', 'r'}
  {
    if |s| >= 6 {
      assert EqualsIgnoreCase(s[0], BearerType[0]) <==> s[0] in {'B', 'b'};
      assert EqualsIgnoreCase(s[1], BearerType[1]) <==> s[1] in {'E', 'e'};
      assert EqualsIgnoreCase(s[2], BearerType[2]) <==> s[2] in {'A', 'a'};
      assert EqualsIgnoreCase(s[3], BearerType[3]) <==> s[3] in {'R', 'r'};
      assert EqualsIgnoreCase(s[4], BearerType[4]) <==> s[4] in {'E', 'e'};
      assert EqualsIgnoreCase(s[5], BearerType[5]) <==> s[5] in {'R', 'r'};
    }
  }

  // ---------------------------------------------------------------------
  // Token extraction
  // ---------------------------------------------------------------------

  /** What the header checks make of an `Authorization` header. */
  datatype Credential =
    | NoAuthorizationHeader
    | NoAccessToken
    | AccessToken(token: string)

  /**
   * Reads the access token out of the `Authorization` header value (`None`
   * when the header is absent or null).  Any header not starting with
   * "Bearer" in any letter case is refused, the empty one included; after the
   * first six characters, which need not be followed by a space, the rest is
   * trimmed and must not be empty.
   */
  function ExtractToken(authorization: Option<string>): (c: Credential)
    ensures c.NoAuthorizationHeader? <==>
      authorization.None? || !StartsWithIgnoreCase(authorization.value, BearerType)
    ensures c.NoAccessToken? <==>
      authorization.Some? && StartsWithIgnoreCase(authorization.value, BearerType)
      && AllTrimmable(authorization.value[|BearerType|..])
    ensures c.AccessToken? ==>
      c.token != [] && c.token == Trim(authorization.value[|BearerType|..])
  {
    match authorization
    case None => NoAuthorizationHeader
    case Some(header) =>
      if header == [] || !StartsWithIgnoreCase(header, BearerType) then
        NoAuthorizationHeader
      else
        var token := Trim(header[|BearerType|..]);
        if token == [] then NoAccessToken else AccessToken(token)
  }

  /**
   * A header made of any letter-case spelling of "Bearer", any trimmable
   * padding and a token that neither starts nor ends with a trimmable
   * character yields exactly that token.
   */
  lemma ExtractPaddedToken(scheme: string, w1: string, token: string, w2: string)
    requires StartsWithIgnoreCase(scheme, BearerType) && |scheme| == |BearerType|
    requires AllTrimmable(w1) && AllTrimmable(w2)
    requires token != [] && !IsTrimmable(token[0]) && !IsTrimmable(token[|token| - 1])
    ensures ExtractToken(Some(scheme + w1 + token + w2)) == AccessToken(token)
  {
    var header := scheme + w1 + token + w2;
    assert StartsWithIgnoreCase(header, BearerType) by {
      forall k | 0 <= k < |BearerType| ensures EqualsIgnoreCase(header[k], BearerType[k]) {
        assert header[k] == scheme[k];
      }
    }
    assert header[|BearerType|..] == w1 + token + w2;
    TrimPadded(w1, token, w2);
  }

  /** What a client sends, `Bearer <token>`, is read back as the token. */
  lemma ExtractFormattedToken(token: string)
    requires token != [] && !IsTrimmable(token[0]) && !IsTrimmable(token[|token| - 1])
    ensures ExtractToken(Some(BearerType + " " + token)) == AccessToken(token)
  {
    assert StartsWithIgnoreCase(BearerType, BearerType);
    assert BearerType + " " + token == BearerType + " " + token + [];
    ExtractPaddedToken(BearerType, " ", token, []);
  }

  /** Any letter case is accepted, and the token may follow the scheme without a space. */
  lemma MixedCaseSchemeWithoutSpace()
    ensures ExtractToken(Some("bEaReR" + "abc")) == AccessToken("abc")
  {
    BearerPrefixIgnoresCase("bEaReR");
    assert "bEaReR" + [] + "abc" + [] == "bEaReR" + "abc";
    ExtractPaddedToken("bEaReR", [], "abc", []);
  }

  // ---------------------------------------------------------------------
  // The WWW-Authenticate challenge
  // ---------------------------------------------------------------------

  /** `Bearer realm=gravitee.io - <message>`: the realm is not quoted and the message follows it. */
  function Challenge(message: string): (r: string)
    ensures |r| == 27 + |message|
    ensures r[27..] == message
  {
    BearerType + " realm=gravitee.io - " + message
  }

  /** The head is the same for every message, so a challenge determines its message. */
  lemma ChallengeDeterminesMessage(message: string, other: string)
    requires Challenge(other) == Challenge(message)
    ensures other == message
  {
    assert other == Challenge(other)[27..];
  }

  /** The scheme and realm spelled out: the fixed head of every challenge. */
  lemma ChallengeHeadText()
    ensures BearerType + " realm=gravitee.io - " == "Bearer realm=gravitee.io - "
  {
  }
}
