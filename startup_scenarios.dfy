/**
  The handler as the application registers it: scheme "ApiKey", key
  "Hello-World" read from "X-Api-Key", claims issued by "API-Issuer".
 */
module StartupScenarios {
  import opened NetStrings
  import opened ApiKeyAuthN

  /** The registered options. */
  function StartupOptions(): ApiKeyAuthNOptions
  {
    ApiKeyAuthNOptions(Str("Hello-World"), KeyName, Str("API-Issuer"))
  }

  function Request(headers: map<string, StringValues>, query: map<string, StringValues>): HttpRequest {
    HttpRequest(headers, query)
  }

  /** The defaults: scheme "ApiKey", key name "X-Api-Key". */
  lemma Defaults()
    ensures SchemaName == "ApiKey" && KeyName == "X-Api-Key"
  {
  }

  /** The configured key in the header authenticates as an admin issued by "API-Issuer". */
  lemma CorrectHeaderKeySucceeds()
    ensures var r := HandleAuthenticate(Request(map["X-Api-Key" := [Str("Hello-World")]], map[]), StartupOptions(), SchemaName);
      r.Success? && r.ticket.authenticationScheme == "ApiKey" &&
      r.ticket.principal.identities[0].claims == [
        Claim(NameIdentifier, "Hello-World", String, "API-Issuer"),
        Claim(Name, "Hello-World", String, "API-Issuer"),
        Claim(Role, "admin", String, "API-Issuer")]
  {
    var p := BuildPrincipal(SchemaName, "Hello-World", "API-Issuer", []);
    assert p.identities[0].claims == p.identities[0].claims[..3];
  }

  /** A wrong key in the header, including one that differs only in case, fails. */
  lemma WrongHeaderKeyFails()
    ensures HandleAuthenticate(Request(map["X-Api-Key" := [Str("wrong")]], map[]), StartupOptions(), SchemaName)
         == Fail("Invalid API Key provided.")
    ensures HandleAuthenticate(Request(map["X-Api-Key" := [Str("hello-world")]], map[]), StartupOptions(), SchemaName)
         == Fail("Invalid API Key provided.")
  {
  }

  /** The configured key in the query string, with no header, authenticates. */
  lemma CorrectQueryKeySucceeds()
    ensures HandleAuthenticate(Request(map[], map["X-Api-Key" := [Str("Hello-World")]]), StartupOptions(), SchemaName).Success?
  {
  }

  /** No header and no query parameter: NoResult. */
  lemma NoKeyGivesNoResult()
    ensures HandleAuthenticate(Request(map[], map[]), StartupOptions(), SchemaName) == NoResult
  {
  }

  /** An empty header hides a correct query parameter: NoResult. */
  lemma EmptyHeaderHidesQueryKey()
    ensures HandleAuthenticate(Request(map["X-Api-Key" := []], map["X-Api-Key" := [Str("Hello-World")]]),
                               StartupOptions(), SchemaName) == NoResult
  {
  }
}
