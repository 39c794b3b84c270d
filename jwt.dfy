/** Token validation and claim accessors of internal/auth/jwt.go.
    Signature and expiry checking (jwt.Parse keyed by AUTH_SECRET) is not
    modelled: every operation receives it as the `parse` parameter, an
    arbitrary function from token text to a parsed token or an error. */
module Jwt {
  import opened Wrappers
  import opened Strings

  /** A claim value as decoded from the token payload. */
  datatype ClaimValue = Str(s: string) | Bool(b: bool) | Other

  type Claims = map<string, ClaimValue>

  /** A parsed token: its claims (None when they are not a jwt.MapClaims)
      and the verifier's validity flag. */
  datatype Token = Token(claims: Option<Claims>, valid: bool)

  /** The verifier: a parsed token, or the parser's error message. */
  type Parser = string -> Result<Token, string>

  /** Errors the accessors return: the parser's own error passed through, or
      ErrInvalidToken ("invalid token") from internal/auth/errors.go. */
  datatype TokenError = ParseError(reason: string) | ErrInvalidToken

  const BearerPrefix := "Bearer "

  /** ParseToken: drop one leading "Bearer " and hand the rest to the
      verifier, returning its result (and its error) unchanged. */
  function ParseToken(token: string, parse: Parser): (r: Result<Token, string>)
    ensures HasPrefix(token, BearerPrefix) ==> r == parse(token[|BearerPrefix|..])
    ensures !HasPrefix(token, BearerPrefix) ==> r == parse(token)
  {
    parse(TrimPrefix(token, BearerPrefix))
  }

  /** ValidateJWT: the token parses and the parsed token is marked valid.
      The source does not go through ParseToken; the contract relates the
      two. */
  function ValidateJWT(token: string, parse: Parser): (ok: bool)
    ensures ok <==> ParseToken(token, parse).Success? && ParseToken(token, parse).value.valid
  {
    match parse(TrimPrefix(token, BearerPrefix))
    case Failure(_) => false
    case Success(t) => t.valid
  }

  /** The parsed token carries `key` as a string claim. */
  predicate HasStringClaim(t: Token, key: string) {
    t.claims.Some? && key in t.claims.value && t.claims.value[key].Str?
  }

  /** What every claim accessor promises for claim `key`: a parse error is
      passed through unchanged; otherwise the result is the string stored
      under `key`, or ErrInvalidToken when the claims are not a map or the
      claim is absent or not a string. */
  ghost predicate AccessorSpec(token: string, parse: Parser, key: string, r: Result<string, TokenError>) {
    var parsed := ParseToken(token, parse);
    && (parsed.Failure? ==> r == Failure(ParseError(parsed.error)))
    && (parsed.Success? && HasStringClaim(parsed.value, key) ==>
          r == Success(parsed.value.claims.value[key].s))
    && (parsed.Success? && !HasStringClaim(parsed.value, key) ==> r == Failure(ErrInvalidToken))
  }

  /** The shared body of the four accessors: parse, check the claims are a
      map, look the key up as a string. */
  function StringClaim(token: string, parse: Parser, key: string): Result<string, TokenError>
  {
    match ParseToken(token, parse)
    case Failure(e) => Failure(ParseError(e))
    case Success(t) =>
      if t.claims.None? then Failure(ErrInvalidToken)
      else if key in t.claims.value && t.claims.value[key].Str? then Success(t.claims.value[key].s)
      else Failure(ErrInvalidToken)
  }

  /** GetIDFromJWT */
  function GetIDFromJWT(token: string, parse: Parser): (r: Result<string, TokenError>)
    ensures AccessorSpec(token, parse, "ID", r)
  {
    StringClaim(token, parse, "ID")
  }

  /** GetSessionIDFromJWT */
  function GetSessionIDFromJWT(token: string, parse: Parser): (r: Result<string, TokenError>)
    ensures AccessorSpec(token, parse, "sessionID", r)
  {
    StringClaim(token, parse, "sessionID")
  }

  /** GetProviderFromJWT */
  function GetProviderFromJWT(token: string, parse: Parser): (r: Result<string, TokenError>)
    ensures AccessorSpec(token, parse, "provider", r)
  {
    StringClaim(token, parse, "provider")
  }

  /** GetProviderIDFromJWT */
  function GetProviderIDFromJWT(token: string, parse: Parser): (r: Result<string, TokenError>)
    ensures AccessorSpec(token, parse, "providerID", r)
  {
    StringClaim(token, parse, "providerID")
  }

  /** A bare token and the same token behind one "Bearer " are treated
      alike by ParseToken and ValidateJWT, as long as the bare token does not
      itself start with "Bearer " (only one prefix is stripped). */
  lemma BearerPrefixOptional(t: string, parse: Parser)
    requires !HasPrefix(t, BearerPrefix)
    ensures ParseToken(BearerPrefix + t, parse) == ParseToken(t, parse)
    ensures ValidateJWT(BearerPrefix + t, parse) == ValidateJWT(t, parse)
  {
    assert HasPrefix(BearerPrefix + t, BearerPrefix);
    assert (BearerPrefix + t)[|BearerPrefix|..] == t;
  }

  /** Only one "Bearer " is removed: a doubled prefix reaches the verifier
      with the second one still in place. */
  lemma StripsOnlyOnce(t: string, parse: Parser)
    ensures ParseToken(BearerPrefix + BearerPrefix + t, parse) == parse(BearerPrefix + t)
  {
    assert HasPrefix(BearerPrefix + BearerPrefix + t, BearerPrefix);
    assert (BearerPrefix + BearerPrefix + t)[|BearerPrefix|..] == BearerPrefix + t;
  }

  /** Whether an accessor succeeds depends only on its own claim: two
      verifiers that parse the token to claims agreeing on `key` give the
      same result, whatever the other claims hold. */
  lemma AccessorsIndependent(token: string, p1: Parser, p2: Parser, key: string, t1: Token, t2: Token)
    requires ParseToken(token, p1) == Success(t1) && ParseToken(token, p2) == Success(t2)
    requires t1.claims.Some? && t2.claims.Some?
    requires (key in t1.claims.value) == (key in t2.claims.value)
    requires key in t1.claims.value ==> t1.claims.value[key] == t2.claims.value[key]
    ensures StringClaim(token, p1, key) == StringClaim(token, p2, key)
  {
  }
}
