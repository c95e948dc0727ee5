/**
  The API-key authentication handler: it extracts a key from a request's
  headers or query string, compares it ordinally with the one configured
  key, and on a match issues a ticket whose principal carries three fixed
  claims. Every call ends in exactly one of NoResult, Success or Fail, and
  nothing is remembered between calls.
 */
module ApiKeyAuthN {
  import opened NetStrings

  // ---------------------------------------------------------------------------
  // Constants and options
  // ---------------------------------------------------------------------------

  /** The name the scheme is registered under. */
  const SchemaName: string := "ApiKey"
  /** The header or query-parameter name the key is usually read from. */
  const KeyName: string := "X-Api-Key"
  /** The reason given when a key was supplied but does not match. */
  const InvalidKeyMessage: string := "Invalid API Key provided."
  /** The claims' issuer when no `ClaimsIssuer` is configured. */
  const DefaultIssuer: string := "ApiKeyValue"
  /** The role every authenticated caller is given. */
  const AdminRole: string := "admin"

  /**
    The scheme's options: the one accepted key, the name looked up in the
    headers and then in the query string, and the optional claims issuer
    inherited from the framework's scheme options.
   */
  datatype ApiKeyAuthNOptions = ApiKeyAuthNOptions(
    apiKeyValue: NullableString,
    keyParameterOrHeaderName: string,
    claimsIssuer: NullableString)

  /** The issuer put on every claim: `ClaimsIssuer ?? "ApiKeyValue"`. */
  function IssuerOf(options: ApiKeyAuthNOptions): string
  {
    match options.claimsIssuer
    case Str(s) => s
    case Null => DefaultIssuer
  }

  // ---------------------------------------------------------------------------
  // The request and the results
  // ---------------------------------------------------------------------------

  /** The parts of the request the handler reads: header and query-string mappings. */
  datatype HttpRequest = HttpRequest(
    headers: map<string, StringValues>,
    query: map<string, StringValues>)

  datatype ClaimType = NameIdentifier | Name | Role

  datatype ClaimValueType = String

  datatype Claim = Claim(claimType: ClaimType, value: string, valueType: ClaimValueType, issuer: string)

  /** An identity: its authentication type and its claims in the order they were added. */
  datatype ClaimsIdentity = ClaimsIdentity(authenticationType: string, claims: seq<Claim>)
  {
    function AddClaim(c: Claim): ClaimsIdentity
    {
      this.(claims := claims + [c])
    }

    function AddClaims(cs: seq<Claim>): ClaimsIdentity
    {
      this.(claims := claims + cs)
    }
  }

  datatype ClaimsPrincipal = ClaimsPrincipal(identities: seq<ClaimsIdentity>)

  datatype AuthenticationTicket = AuthenticationTicket(principal: ClaimsPrincipal, authenticationScheme: string)

  datatype AuthenticateResult =
    | NoResult
    | Success(ticket: AuthenticationTicket)
    | Fail(failureMessage: string)

  // ---------------------------------------------------------------------------
  // The handler
  // ---------------------------------------------------------------------------

  /**
    The key the request supplies. A header of the configured name wins
    outright, whatever its values; only when there is no such header is the
    query string consulted; with neither, the key is the empty string.
    A non-empty key always is the first value of one of the two entries,
    and the first value of the entry that wins always is the key.
   */
  function ParseApiKey(request: HttpRequest, options: ApiKeyAuthNOptions): (key: NullableString)
    ensures !IsNullOrEmpty(key) ==>
      var name := options.keyParameterOrHeaderName;
      if name in request.headers then
        |request.headers[name]| > 0 && request.headers[name][0] == key
      else
        name in request.query && |request.query[name]| > 0 && request.query[name][0] == key
    ensures var name := options.keyParameterOrHeaderName;
      name in request.headers ==>
        if |request.headers[name]| > 0 then key == request.headers[name][0] else key == Null
    ensures var name := options.keyParameterOrHeaderName;
      name !in request.headers && name in request.query ==>
        if |request.query[name]| > 0 then key == request.query[name][0] else key == Null
    ensures var name := options.keyParameterOrHeaderName;
      name !in request.headers && name !in request.query ==> key == Str("")
  {
    var name := options.keyParameterOrHeaderName;
    if name in request.headers then
      FirstOrDefault(request.headers[name])
    else if name in request.query then
      FirstOrDefault(request.query[name])
    else
      Str("")
  }

  /**
    The principal issued on success: one identity of the given scheme whose
    claims are, in order, the name identifier and the name (both `name`) and
    the role "admin", all from `issuer`, followed by the extra claims.
   */
  function BuildPrincipal(schemeName: string, name: string, issuer: string, claims: seq<Claim>): (p: ClaimsPrincipal)
    ensures |p.identities| == 1
    ensures p.identities[0].authenticationType == schemeName
    ensures |p.identities[0].claims| == 3 + |claims|
    ensures p.identities[0].claims[0] == Claim(NameIdentifier, name, String, issuer)
    ensures p.identities[0].claims[1] == Claim(Name, name, String, issuer)
    ensures p.identities[0].claims[2] == Claim(Role, AdminRole, String, issuer)
    ensures p.identities[0].claims[3..] == claims
  {
    var identity := ClaimsIdentity(schemeName, []);
    var identity := identity.AddClaim(Claim(NameIdentifier, name, String, issuer));
    var identity := identity.AddClaim(Claim(Name, name, String, issuer));
    var identity := identity.AddClaim(Claim(Role, AdminRole, String, issuer));
    var identity := identity.AddClaims(claims);
    ClaimsPrincipal([identity])
  }

  /**
    The authentication decision for one request under the handler's scheme
    name: NoResult when no key was supplied, Success when the key equals the
    configured key ordinally, Fail with the fixed reason otherwise.
   */
  function HandleAuthenticate(request: HttpRequest, options: ApiKeyAuthNOptions, schemeName: string): (r: AuthenticateResult)
    ensures r.NoResult? <==> IsNullOrEmpty(ParseApiKey(request, options))
    ensures r.Success? <==>
      !IsNullOrEmpty(ParseApiKey(request, options)) && ParseApiKey(request, options) == options.apiKeyValue
    ensures r.Success? ==>
      r.ticket.authenticationScheme == schemeName &&
      r.ticket.principal == BuildPrincipal(schemeName, options.apiKeyValue.value, IssuerOf(options), [])
    ensures r.Fail? ==> r.failureMessage == InvalidKeyMessage
  {
    var apiKey := ParseApiKey(request, options);
    if IsNullOrEmpty(apiKey) then
      NoResult
    else if CompareOrdinal(apiKey, options.apiKeyValue) == 0 then
      var principal := BuildPrincipal(schemeName, options.apiKeyValue.value, IssuerOf(options), []);
      Success(AuthenticationTicket(principal, schemeName))
    else
      Fail(InvalidKeyMessage)
  }
}
