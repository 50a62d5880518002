/**
 * The JWT authentication middleware (JwtAuthenticationMiddleware.cs): it takes
 * a bearer token from the Authorization header in the form of section 2.1 of
 * RFC 6750, has it validated, installs the resulting principal on the request,
 * and always passes the request on.
 */
module Authentication {
  import opened Common

  const BearerPrefix := "Bearer "
  /** SecurityAlgorithms.HmacSha256: the "HS256" of section 3.2 of RFC 7518. */
  const HmacSha256 := "HS256"

  /**
   * Equality ignoring the case of ASCII letters. The comparisons it stands for
   * (OrdinalIgnoreCase, InvariantCultureIgnoreCase) fold all of Unicode; the
   * texts compared against here, "Bearer " and "HS256", are ASCII.
   */
  predicate EqualsIgnoreCase(a: string, b: string) {
    ToLowerAscii(a) == ToLowerAscii(b)
  }

  predicate StartsWithIgnoreCase(s: string, prefix: string) {
    |s| >= |prefix| && EqualsIgnoreCase(s[..|prefix|], prefix)
  }

  /**
   * ExtractTokenFromHeader. `authorization` holds the values of the
   * Authorization header (none when it is absent); the first one is used.
   */
  function ExtractTokenFromHeader(authorization: seq<string>): (token: Option<string>)
    ensures authorization == [] || authorization[0] == "" ==> token == None
    ensures token.Some? ==> StartsWithIgnoreCase(authorization[0], BearerPrefix)
    ensures authorization != [] && StartsWithIgnoreCase(authorization[0], BearerPrefix) ==> token.Some?
    ensures token.Some? ==> token.value == [] || (!IsWhiteSpace(token.value[0]) && !IsWhiteSpace(token.value[|token.value| - 1]))
  {
    if authorization == [] then None
    else
      var header := authorization[0];
      if header == "" then None
      else if StartsWithIgnoreCase(header, BearerPrefix) then Some(Trim(header[|BearerPrefix|..]))
      else None
  }

  /** A token without surrounding white space, sent under any capitalisation of the scheme, comes back unchanged. */
  lemma BearerRoundTrip(scheme: string, token: string)
    requires EqualsIgnoreCase(scheme, BearerPrefix)
    requires token != [] ==> !IsWhiteSpace(token[0]) && !IsWhiteSpace(token[|token| - 1])
    ensures ExtractTokenFromHeader([scheme + token]) == Some(token)
  {
    var header := scheme + token;
    assert |scheme| == |BearerPrefix|;
    assert header[..|BearerPrefix|] == scheme;
    assert header[|BearerPrefix|..] == token;
    TrimKeepsTrimmed(token);
  }

  /** "Bearer" with no space after it is not the bearer form. */
  lemma SchemeWithoutSpaceRefused(token: string)
    requires token == [] || token[0] != ' '
    ensures ExtractTokenFromHeader(["Bearer" + token]) == None
  {
    var header := "Bearer" + token;
    if |header| >= 7 {
      assert header[6] == token[0];
      assert ToLowerAscii(header[..7])[6] == LowerChar(token[0]) != ' ';
      assert ToLowerAscii(BearerPrefix)[6] == ' ';
    }
  }

  /** The claims of an authenticated caller. */
  datatype Principal = Principal(claims: seq<(string, string)>)

  /** The token the handler validated: a JWT with the algorithm of its header, or some other kind. */
  datatype SecurityToken = JwtToken(alg: string) | OtherToken

  /**
   * JwtSecurityTokenHandler.ValidateToken with the configured issuer, audience,
   * lifetime and signing key: a principal and the validated token, or an
   * exception. It is a parameter; its checks are not part of this model.
   */
  type TokenHandler = (string, string) -> Result<(Principal, SecurityToken)>

  /**
   * ValidateToken. A missing secret key throws inside the try and, like any
   * handler failure, yields null; so does a token whose algorithm is not HS256.
   */
  function ValidateToken(token: string, secretKey: Option<string>, handler: TokenHandler): (p: Option<Principal>)
    ensures secretKey.None? ==> p == None
    ensures p.Some? <==>
              && secretKey.Some?
              && handler(token, secretKey.value).Success?
              && handler(token, secretKey.value).value.1.JwtToken?
              && EqualsIgnoreCase(handler(token, secretKey.value).value.1.alg, HmacSha256)
    ensures p.Some? ==> p.value == handler(token, secretKey.value).value.0
  {
    if secretKey.None? then None
    else
      match handler(token, secretKey.value)
      case Failure(_) => None
      case Success((principal, validated)) =>
        if validated.JwtToken? && EqualsIgnoreCase(validated.alg, HmacSha256) then Some(principal) else None
  }

  /** The parts of HttpContext the middleware touches. */
  class HttpContext {
    var authorization: seq<string>
    var user: Principal
    /** How many times the rest of the pipeline has been invoked for this request. */
    var nextCalls: nat

    constructor (authorization: seq<string>, anonymous: Principal)
      ensures this.authorization == authorization && user == anonymous && nextCalls == 0
    {
      this.authorization, user, nextCalls := authorization, anonymous, 0;
    }
  }

  class JwtAuthenticationMiddleware {
    /** The "Jwt:SecretKey" configuration entry. */
    const secretKey: Option<string>
    const handler: TokenHandler

    constructor (secretKey: Option<string>, handler: TokenHandler)
      ensures this.secretKey == secretKey && this.handler == handler
    {
      this.secretKey, this.handler := secretKey, handler;
    }

    /**
     * InvokeAsync: replaces the request's user only when a non-empty token
     * validates, and calls the next delegate exactly once in every case.
     */
    method InvokeAsync(context: HttpContext)
      modifies context
      ensures context.nextCalls == old(context.nextCalls) + 1
      ensures context.authorization == old(context.authorization)
      ensures var token := ExtractTokenFromHeader(old(context.authorization));
              context.user ==
                if token.Some? && token.value != "" && ValidateToken(token.value, secretKey, handler).Some?
                then ValidateToken(token.value, secretKey, handler).value
                else old(context.user)
    {
      var token := ExtractTokenFromHeader(context.authorization);
      if token.Some? && token.value != "" {
        var principal := ValidateToken(token.value, secretKey, handler);
        if principal.Some? {
          context.user := principal.value;
        }
      }
      Next(context);
    }
  }

  /** The next delegate; what the rest of the pipeline does is not part of this model. */
  method Next(context: HttpContext)
    modifies context
    ensures context.nextCalls == old(context.nextCalls) + 1
    ensures context.user == old(context.user) && context.authorization == old(context.authorization)
  {
    context.nextCalls := context.nextCalls + 1;
  }
}
