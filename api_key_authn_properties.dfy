/**
  What the authentication decision promises, stated over all requests and
  options: where the key comes from, which values can influence the
  outcome, when each of the three outcomes occurs, and what a successful
  ticket carries.
 */
module ApiKeyAuthNProperties {
  import opened NetStrings
  import opened ApiKeyAuthN

  /** With the configured name in neither the headers nor the query string, the key is "" and the outcome NoResult. */
  lemma NoKeySuppliedGivesNoResult(request: HttpRequest, options: ApiKeyAuthNOptions, schemeName: string)
    requires options.keyParameterOrHeaderName !in request.headers
    requires options.keyParameterOrHeaderName !in request.query
    ensures ParseApiKey(request, options) == Str("")
    ensures HandleAuthenticate(request, options, schemeName) == NoResult
  {
  }

  /**
    Header precedence: once the header is present, the outcome depends on
    its first value alone. Two requests whose headers agree on that value
    get the same outcome, whatever their query strings and later values.
   */
  lemma HeaderFirstValueDecides(r1: HttpRequest, r2: HttpRequest, options: ApiKeyAuthNOptions, schemeName: string)
    requires options.keyParameterOrHeaderName in r1.headers
    requires options.keyParameterOrHeaderName in r2.headers
    requires FirstOrDefault(r1.headers[options.keyParameterOrHeaderName])
          == FirstOrDefault(r2.headers[options.keyParameterOrHeaderName])
    ensures ParseApiKey(r1, options) == ParseApiKey(r2, options)
    ensures HandleAuthenticate(r1, options, schemeName) == HandleAuthenticate(r2, options, schemeName)
  {
  }

  /**
    A present header whose first value is a non-empty string supplies the
    key, whatever the query string holds: the request succeeds exactly when
    that value is the configured key, and otherwise fails with the fixed reason.
   */
  lemma HeaderValueIsTheKey(request: HttpRequest, options: ApiKeyAuthNOptions, schemeName: string, k: string)
    requires options.keyParameterOrHeaderName in request.headers
    requires |request.headers[options.keyParameterOrHeaderName]| > 0
    requires request.headers[options.keyParameterOrHeaderName][0] == Str(k)
    requires k != ""
    ensures ParseApiKey(request, options) == Str(k)
    ensures HandleAuthenticate(request, options, schemeName).Success? <==> options.apiKeyValue == Str(k)
    ensures options.apiKeyValue != Str(k) ==> HandleAuthenticate(request, options, schemeName) == Fail(InvalidKeyMessage)
  {
  }

  /**
    Without the header, a query parameter whose first value is a non-empty
    string supplies the key: the request succeeds exactly when that value is
    the configured key, and otherwise fails with the fixed reason.
   */
  lemma QueryValueIsTheKey(request: HttpRequest, options: ApiKeyAuthNOptions, schemeName: string, k: string)
    requires options.keyParameterOrHeaderName !in request.headers
    requires options.keyParameterOrHeaderName in request.query
    requires |request.query[options.keyParameterOrHeaderName]| > 0
    requires request.query[options.keyParameterOrHeaderName][0] == Str(k)
    requires k != ""
    ensures ParseApiKey(request, options) == Str(k)
    ensures HandleAuthenticate(request, options, schemeName).Success? <==> options.apiKeyValue == Str(k)
    ensures options.apiKeyValue != Str(k) ==> HandleAuthenticate(request, options, schemeName) == Fail(InvalidKeyMessage)
  {
  }

  /**
    A present header whose first value is missing, null or empty shadows
    the query string: the outcome is NoResult even when the query string
    carries the right key.
   */
  lemma EmptyHeaderShadowsQuery(request: HttpRequest, options: ApiKeyAuthNOptions, schemeName: string)
    requires options.keyParameterOrHeaderName in request.headers
    requires IsNullOrEmpty(FirstOrDefault(request.headers[options.keyParameterOrHeaderName]))
    ensures HandleAuthenticate(request, options, schemeName) == NoResult
  {
  }

  /**
    Without the header, the outcome depends only on the first value of the
    query parameter: later values and unrelated entries never matter.
   */
  lemma QueryFirstValueDecides(r1: HttpRequest, r2: HttpRequest, options: ApiKeyAuthNOptions, schemeName: string)
    requires options.keyParameterOrHeaderName !in r1.headers
    requires options.keyParameterOrHeaderName !in r2.headers
    requires options.keyParameterOrHeaderName in r1.query
    requires options.keyParameterOrHeaderName in r2.query
    requires FirstOrDefault(r1.query[options.keyParameterOrHeaderName])
          == FirstOrDefault(r2.query[options.keyParameterOrHeaderName])
    ensures HandleAuthenticate(r1, options, schemeName) == HandleAuthenticate(r2, options, schemeName)
  {
  }

  /** Appending values after the first one to the header or the query parameter never changes the outcome. */
  lemma LaterValuesIgnored(request: HttpRequest, options: ApiKeyAuthNOptions, schemeName: string,
                           first: NullableString, later: StringValues, inHeader: bool)
    requires var name := options.keyParameterOrHeaderName;
      if inHeader then name in request.headers && request.headers[name] == [first]
      else name !in request.headers && name in request.query && request.query[name] == [first]
    ensures var name := options.keyParameterOrHeaderName;
      var longer := if inHeader then request.(headers := request.headers[name := [first] + later])
                    else request.(query := request.query[name := [first] + later]);
      HandleAuthenticate(longer, options, schemeName) == HandleAuthenticate(request, options, schemeName)
  {
    var name := options.keyParameterOrHeaderName;
    if inHeader {
      HeaderFirstValueDecides(request.(headers := request.headers[name := [first] + later]), request, options, schemeName);
    } else {
      QueryFirstValueDecides(request.(query := request.query[name := [first] + later]), request, options, schemeName);
    }
  }

  /**
    A supplied key equal to the configured one yields Success with a ticket
    for the handler's scheme whose single identity carries exactly three
    claims, in order: NameIdentifier and Name set to the configured key and
    Role "admin", each issued by `ClaimsIssuer`, or "ApiKeyValue" when none
    is configured.
   */
  lemma MatchingKeySucceeds(request: HttpRequest, options: ApiKeyAuthNOptions, schemeName: string)
    requires !IsNullOrEmpty(ParseApiKey(request, options))
    requires ParseApiKey(request, options) == options.apiKeyValue
    ensures var r := HandleAuthenticate(request, options, schemeName);
      var key := options.apiKeyValue.value;
      var issuer := if options.claimsIssuer.Str? then options.claimsIssuer.value else DefaultIssuer;
      r.Success? &&
      r.ticket.authenticationScheme == schemeName &&
      r.ticket.principal.identities == [ClaimsIdentity(schemeName, [
        Claim(NameIdentifier, key, String, issuer),
        Claim(Name, key, String, issuer),
        Claim(Role, "admin", String, issuer)])]
  {
    var key, issuer := options.apiKeyValue.value, IssuerOf(options);
    var p := BuildPrincipal(schemeName, key, issuer, []);
    var id := p.identities[0];
    assert id.claims == [id.claims[0], id.claims[1], id.claims[2]];
    assert id == ClaimsIdentity(id.authenticationType, id.claims);
  }

  /**
    A supplied key that differs from the configured one in any character,
    letter case included, yields Fail with the fixed reason.
   */
  lemma MismatchingKeyFails(request: HttpRequest, options: ApiKeyAuthNOptions, schemeName: string)
    requires !IsNullOrEmpty(ParseApiKey(request, options))
    requires ParseApiKey(request, options) != options.apiKeyValue
    ensures HandleAuthenticate(request, options, schemeName) == Fail("Invalid API Key provided.")
  {
  }

  /** With no key configured (`ApiKeyValue` null) no request succeeds: a supplied key always fails. */
  lemma NullConfiguredKeyNeverSucceeds(request: HttpRequest, options: ApiKeyAuthNOptions, schemeName: string)
    requires options.apiKeyValue.Null?
    ensures !HandleAuthenticate(request, options, schemeName).Success?
    ensures !IsNullOrEmpty(ParseApiKey(request, options)) ==>
      HandleAuthenticate(request, options, schemeName) == Fail(InvalidKeyMessage)
  {
  }

  /**
    Every outcome is one of the three, decided by the supplied key alone:
    the outcome of two requests that supply the same key is the same.
   */
  lemma OutcomeDependsOnlyOnSuppliedKey(r1: HttpRequest, r2: HttpRequest, options: ApiKeyAuthNOptions, schemeName: string)
    requires ParseApiKey(r1, options) == ParseApiKey(r2, options)
    ensures HandleAuthenticate(r1, options, schemeName) == HandleAuthenticate(r2, options, schemeName)
  {
  }
}
