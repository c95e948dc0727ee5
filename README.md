# API-key authentication handler, modelled in Dafny

This project models the authentication decision of a small ASP.NET Core web
API that protects its endpoints with a single static API key. The handler
`ApiKeyAuthN` reads a key from the request header named by
`KeyParameterOrHeaderName` or, when there is no such header, from the query
parameter of that name. It compares the key ordinally (case-sensitive) with
the configured `ApiKeyValue` and ends in exactly one of three outcomes:

- **NoResult**: no key was supplied (null or empty);
- **Success**: a ticket for the handler's scheme, whose principal has one
  identity with the claims NameIdentifier, Name and Role "admin";
- **Fail**: the reason "Invalid API Key provided.".

The model is a set of total functions over (request, options, scheme name):

- `net_strings.dfy` (module `NetStrings`) holds the .NET string behaviour the
  handler depends on. C# `null` is an explicit `Null` case. It defines
  `string.IsNullOrEmpty`, `FirstOrDefault` on a multi-valued entry, and
  `string.Compare(…, StringComparison.Ordinal)` as a recursive
  character-by-character comparison. The model proves that this comparison
  returns zero exactly when the two strings are equal, and that it is
  antisymmetric.
- `api_key_authn.dfy` (module `ApiKeyAuthN`) holds the scheme's constants,
  the options record, the request as two maps from a name to a sequence of
  values, the claims, identity, principal, ticket and result records, and
  `ParseApiKey`, `BuildPrincipal` and `HandleAuthenticate`.
  `BuildPrincipal` builds its identity step by step, as the source does, by
  appending claims to a `ClaimsIdentity` value.
- `api_key_authn_properties.dfy` (module `ApiKeyAuthNProperties`) proves
  the handler's promises for all inputs. These cover header precedence,
  first-value-only lookups, the three outcomes and the exact claims of a
  successful ticket.
- `startup_scenarios.dfy` (module `StartupScenarios`) instantiates the
  handler with the options the application registers: key "Hello-World",
  name "X-Api-Key", issuer "API-Issuer", scheme "ApiKey". It checks the
  concrete request scenarios against them.

Determinism and statelessness hold by construction: `HandleAuthenticate` is a
Dafny function of its arguments alone.

Three behaviours of the code are easy to misread, and the model keeps them:

- The code tests only whether the header is *present* (ApiKeyAuthN.cs:55-56).
  A present header with no values, or with a null or empty first value,
  gives NoResult, and the query string is never read, even when it carries
  the right key. `EmptyHeaderShadowsQuery` and
  `StartupScenarios.EmptyHeaderHidesQueryKey` state this.
- A successful identity is a claims identity with three claims, in this
  order: NameIdentifier, Name and Role "admin". Every claim has the value
  type string and the same issuer.
- A null `ApiKeyValue` is not rejected anywhere. Every supplied key then
  fails, because an ordinal comparison with null is never zero.

## Model

| member | source | states |
|---|---|---|
| NetStrings.CompareOrdinalChars | ApiKeyAuthN.cs:43 | ordinal comparison of two strings returns -1, 0 or 1, and 0 exactly when the strings are equal character for character |
| NetStrings.CompareOrdinal | ApiKeyAuthN.cs:43 | `string.Compare(a, b, Ordinal)` with nulls: zero exactly when both are null or both are the same string; a null sorts before any string |
| NetStrings.CompareOrdinalCharsAntisymmetric | ApiKeyAuthN.cs:43 | swapping the operands of an ordinal comparison negates the result |
| NetStrings.CompareOrdinalAntisymmetric | ApiKeyAuthN.cs:43 | antisymmetry also holds when either operand is null |
| NetStrings.CompareOrdinalCaseSensitive | ApiKeyAuthN.cs:43 | "Hello-World" and "hello-world" do not compare equal: the comparison is case-sensitive |
| ApiKeyAuthN.ParseApiKey | ApiKeyAuthN.cs:53-62 | with the header present, the key is its first value, or null when it has none. Without the header but with the query parameter, the key is the parameter's first value, or null. With neither, the key is "". Conversely, a non-empty key always comes from the entry that wins |
| ApiKeyAuthN.BuildPrincipal | ApiKeyAuthN.cs:64-80 | the principal has exactly one identity of the given scheme. Its claims are NameIdentifier = name, Name = name, Role = "admin", all string-valued and from the issuer, followed by the extra claims unchanged |
| ApiKeyAuthN.HandleAuthenticate | ApiKeyAuthN.cs:36-51 | NoResult exactly when the key is null or empty. Success exactly when a non-empty key equals `ApiKeyValue`, with a ticket for the handler's scheme and the principal built from the configured key and issuer. Every Fail carries "Invalid API Key provided." |
| ApiKeyAuthNProperties.NoKeySuppliedGivesNoResult | ApiKeyAuthN.cs:58-61 | with the name in neither the headers nor the query, the key is "" and the outcome NoResult |
| ApiKeyAuthNProperties.HeaderFirstValueDecides | ApiKeyAuthN.cs:55-56 | once the header is present, only its first value matters: two requests that agree on it get the same outcome, whatever their query strings |
| ApiKeyAuthNProperties.HeaderValueIsTheKey | ApiKeyAuthN.cs:43-56 | for every request whose header's first value is a non-empty string k, the key is k whatever the query holds. The request succeeds exactly when `ApiKeyValue` is k, and otherwise fails with "Invalid API Key provided." |
| ApiKeyAuthNProperties.QueryValueIsTheKey | ApiKeyAuthN.cs:43-59 | for every request without the header whose query parameter's first value is a non-empty string k, the key is k. The request succeeds exactly when `ApiKeyValue` is k, and otherwise fails with "Invalid API Key provided." |
| ApiKeyAuthNProperties.EmptyHeaderShadowsQuery | ApiKeyAuthN.cs:55-56 | a present header with no first value, or a null or empty one, gives NoResult whatever the query string holds |
| ApiKeyAuthNProperties.QueryFirstValueDecides | ApiKeyAuthN.cs:58-59 | without the header, only the query parameter's first value matters |
| ApiKeyAuthNProperties.LaterValuesIgnored | ApiKeyAuthN.cs:56-59 | appending further values after the first, in the header or in the query parameter, never changes the outcome |
| ApiKeyAuthNProperties.MatchingKeySucceeds | ApiKeyAuthN.cs:43-47 | a non-empty key equal to `ApiKeyValue` gives Success for the handler's scheme, with exactly the three claims NameIdentifier, Name (both the key) and Role "admin", issued by `ClaimsIssuer` or "ApiKeyValue" |
| ApiKeyAuthNProperties.MismatchingKeyFails | ApiKeyAuthN.cs:43-50 | a non-empty key that differs from `ApiKeyValue` in any character, letter case included, gives Fail("Invalid API Key provided.") |
| ApiKeyAuthNProperties.NullConfiguredKeyNeverSucceeds | ApiKeyAuthN.cs:43 | with `ApiKeyValue` null nothing succeeds, and every supplied key fails |
| ApiKeyAuthNProperties.OutcomeDependsOnlyOnSuppliedKey | ApiKeyAuthN.cs:36-51 | two requests that supply the same key get the same outcome: nothing but the extracted key and the options decides |
| StartupScenarios.Defaults | ApiKeyAuthN.cs:21-22 | the scheme name is "ApiKey" and the default key name "X-Api-Key" |
| StartupScenarios.CorrectHeaderKeySucceeds | ApiKeyAuthN.cs:43-47 | with the registered options, header `X-Api-Key: Hello-World` succeeds with NameIdentifier and Name "Hello-World" and Role "admin", all from "API-Issuer" |
| StartupScenarios.WrongHeaderKeyFails | ApiKeyAuthN.cs:43-50 | with the registered options, header values "wrong" and "hello-world" both fail with "Invalid API Key provided." |
| StartupScenarios.CorrectQueryKeySucceeds | ApiKeyAuthN.cs:58-59 | with the registered options and no header, `?X-Api-Key=Hello-World` succeeds |
| StartupScenarios.NoKeyGivesNoResult | ApiKeyAuthN.cs:40-41 | with the registered options, a request with neither header nor query parameter gives NoResult |
| StartupScenarios.EmptyHeaderHidesQueryKey | ApiKeyAuthN.cs:55-56 | an `X-Api-Key` header with no values hides a correct query parameter, and the outcome is NoResult |

## Left out

- The `Task` wrapping, the constructor's options monitor, logger factory,
  URL encoder and clock (ApiKeyAuthN.cs:27-34). These are framework plumbing.
  The handler's scheme name (`Scheme.Name`) is a parameter.
- Startup.cs: service registration, Swagger/OpenAPI documents, HTTPS
  redirection, routing and middleware ordering. These are wiring around
  libraries that are not part of this model. The registered option values
  appear only in `StartupScenarios`.
- Header and query lookup: the framework's dictionaries match names
  case-insensitively. The model looks names up exactly in Dafny maps.
- ParseApiKey: a null `KeyParameterOrHeaderName`, on which the framework's
  lookup throws, is not modelled. The name is always a string.
- `ClaimsPrincipal`, `ClaimsIdentity`, `Claim`, `AuthenticationTicket` and
  `AuthenticateResult` are plain records. The claim-type and value-type URIs
  of `ClaimTypes` and `ClaimValueTypes` are enumeration cases.
- NetStrings.CompareOrdinalChars: the result is -1, 0 or 1, and characters
  are ordered by their Unicode scalar values. .NET returns some negative,
  zero or positive number and orders UTF-16 code units. The handler uses
  only whether the result is zero, and that part is modelled exactly.
- The handler does not require constant-time comparison, and the model
  does not state anything about timing.
