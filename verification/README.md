# OAuth2Wrapper credential lifecycle, in Dafny

A model of the decision logic of `OAuth2Wrapper`, a Swift wrapper that hands
an application an OAuth2 access token:

- `GetAccessToken` tries, in order, the credential cached in memory, the
  credential stored in the keychain under `KeychainLabel` (only when
  `AddToKeychain` is set), and a fresh authorization. A fresh credential is
  cached in memory and, when the keychain is on, written to it.
- `GetNewAccessToken` always runs a fresh authorization with an OAuthSwift
  client that it builds from the configuration and retains.
- `isExpired` applies the `AllowNullExpires` policy to the library's expiry
  answer.
- `NewOAuth2WrapperConfigFromBundle` reads five client settings from an
  application bundle, keyed by a prefix that defaults to `OAuth2`, and adds
  a placeholder callback URL.

Files:

- `wrappers.dfy`: `Option` and `Result`.
- `errors.dfy`: the wrapper's error enum, and `Error`. `Error` is either
  that enum or an opaque error passed through from a library.
- `config.dfy` (module `Config`): the bundle loader as a pure function over
  a `map<string, string>`. `FirstMissing` is a reference definition of which
  error is reported.
- `oauth2.dfy` (module `OAuth2`): the class `OAuth2Wrapper` has the fields
  `credentials`, `keychain` and `oauth2` (the retained client), and a ghost
  log `calls` of collaborator interactions. Its methods are proved equal to
  the pure functions `AccessToken`, `Store` and `NewAccessToken`, which work
  on a `WrapperState` snapshot.
- `oauth2_properties.dfy` (module `OAuth2Properties`): the lifecycle
  properties, stated over those functions.

The collaborators answer through an `Env` value, one per call:

- the authorization outcome;
- the UUID state string;
- the JSON `encode` and `decode`;
- whether the keychain write succeeds;
- the library's raw `isTokenExpired()` answer for each credential.

`Env` requires one thing of the library: it reports a token expired only
when the token has an expiry date. `isExpired` relies on that when it
force-unwraps the date.

Three behaviours of the code that a reader might not expect, each modelled
as written:

- A credential read back from the keychain is returned without being put
  into the memory cache (`OAuth2Wrapper.swift:56-59`).
- The bundle loader checks only AuthURL, TokenURL, ClientID and Scope, in
  that order (`OAuth2WrapperConfig.swift:40-58`). It never reads a callback
  URL and stores the placeholder `"fixme"` instead (line 66). It never reads
  a keychain label.
- `GetNewAccessToken` caches a fresh credential in memory
  (`OAuth2Wrapper.swift:128`) before `getStore` writes it to the keychain
  (line 84). So after a failed write, the next call is served a credential
  that was never persisted. `UnpersistedCredentialServedAfterWriteFailure`
  proves this.

## Model

| member | source | states |
|---|---|---|
| `OAuth2.IsExpired` | Sources/OAuth2Wrapper/OAuth2Wrapper.swift:139-155 | only ever clears a raw "expired", never sets one; equals the raw answer when AllowNullExpires is off; with the flag on, a raw "expired" stands exactly when the expiry is at least 1.0 s after the epoch |
| `OAuth2Properties.ExpiryPersists` | Sources/OAuth2Wrapper/OAuth2Wrapper.swift:139-155 | when a later call's raw answers only add "expired" verdicts, a credential the policy found expired is still expired in that later call |
| `OAuth2.OAuth2Wrapper.constructor` | Sources/OAuth2Wrapper/OAuth2Wrapper.swift:14-16 | a new wrapper keeps the configuration and has no cached credential and no client; the keychain is as found |
| `OAuth2.OAuth2Wrapper.GetAccessToken` | Sources/OAuth2Wrapper/OAuth2Wrapper.swift:18-100 | its result, new memory, keychain and client, and the calls it makes are exactly those of the fallback chain `AccessToken` |
| `OAuth2.OAuth2Wrapper.GetStore` | Sources/OAuth2Wrapper/OAuth2Wrapper.swift:64-97 | passes an authorization error through; otherwise writes the encoded credential under the label, and either fails with keychainError (nothing changed) or caches the credential and succeeds |
| `OAuth2.OAuth2Wrapper.GetNewAccessToken` | Sources/OAuth2Wrapper/OAuth2Wrapper.swift:102-137 | retains a new client, makes exactly one authorization call, caches the credential on success, and returns the authorization outcome (`NewAccessToken`) |
| `OAuth2Properties.CachedCredentialReturned` | Sources/OAuth2Wrapper/OAuth2Wrapper.swift:24-31 | a cached, unexpired credential is the result, with no calls and no state change |
| `OAuth2Properties.KeychainDisabledMeansFreshAuthorization` | Sources/OAuth2Wrapper/OAuth2Wrapper.swift:36-39 | with AddToKeychain off, and no cache hit, the step is exactly GetNewAccessToken's, and the keychain is neither read nor written |
| `OAuth2Properties.UndecodableStoredCredentialFails` | Sources/OAuth2Wrapper/OAuth2Wrapper.swift:41-54 | stored bytes that fail to decode give the decoder's error; the only call is the keychain read, and the state is unchanged |
| `OAuth2Properties.StoredCredentialReturned` | Sources/OAuth2Wrapper/OAuth2Wrapper.swift:56-59 | a decoded, unexpired stored credential is the result, without authorization; the memory cache (and all state) is left as it was |
| `OAuth2Properties.NewAccessTokenAlwaysAuthorizes` | Sources/OAuth2Wrapper/OAuth2Wrapper.swift:102-135 | whatever the state, exactly one authorization call, with a client whose key, secret, URLs, response type and state-check flag come from the configuration, plus the callback URL, scope and UUID state; the client is retained; the result is the authorization outcome, cached on success |
| `OAuth2Properties.AuthorizesExactlyWhenNeeded` | Sources/OAuth2Wrapper/OAuth2Wrapper.swift:18-100 | GetAccessToken authorizes if and only if neither memory nor keychain gave a usable credential or a decode error; it reads the keychain if and only if memory missed and the keychain is on |
| `OAuth2Properties.FreshCredentialPersisted` | Sources/OAuth2Wrapper/OAuth2Wrapper.swift:84-95 | after a successful fresh authorization and write, the keychain maps the label to the encoded credential, no other key changes, memory holds the credential, and it is the result |
| `OAuth2Properties.KeychainWriteFailureReported` | Sources/OAuth2Wrapper/OAuth2Wrapper.swift:84-89 | a failed write gives keychainError, yet memory already holds the new credential (set at line 128); the keychain is unchanged |
| `OAuth2Properties.AuthorizationFailurePassedThrough` | Sources/OAuth2Wrapper/OAuth2Wrapper.swift:64-69 | an authorization error is the result unchanged; memory and keychain are untouched, and nothing is written |
| `OAuth2Properties.OnlyLabelWritten` | Sources/OAuth2Wrapper/OAuth2Wrapper.swift:84 | no keychain entry other than the configured label ever changes |
| `OAuth2Properties.DurabilityPreserved` | Sources/OAuth2Wrapper/OAuth2Wrapper.swift:84-95 | if the decoder recovers the freshly authorized credential from its encoding, and writes succeed, then a cached credential that the keychain also holds stays so after any call |
| `OAuth2Properties.SuccessIsDurable` | Sources/OAuth2Wrapper/OAuth2Wrapper.swift:41-95 | from such a state, under the same decoder assumption, with the keychain on, every successful result is the credential the keychain holds under the label |
| `OAuth2Properties.UnpersistedCredentialServedAfterWriteFailure` | Sources/OAuth2Wrapper/OAuth2Wrapper.swift:84-89 | whether the keychain held nothing or an expired credential under the label, after a failed write of an unexpired fresh credential the cache is no longer backed by the keychain, and the next call (while the credential is still unexpired) returns it from memory with no calls |
| `OAuth2Properties.SecondCallServedWithoutAuthorization` | Sources/OAuth2Wrapper/OAuth2Wrapper.swift:24-59 | the credential a call returns is returned by the next call without authorization, if time only moves forward and it has not expired meanwhile |
| `Config.EffectivePrefix` | Sources/OAuth2Wrapper/OAuth2WrapperConfig.swift:22-26 | the prefix is never empty: it is `OAuth2` when the given prefix is nil or empty, and otherwise the given prefix |
| `Config.KeyInjective` | Sources/OAuth2Wrapper/OAuth2WrapperConfig.swift:28-32 | the keys (prefix followed by field name) of distinct field names are distinct |
| `Config.NewOAuth2WrapperConfigFromBundle` | Sources/OAuth2Wrapper/OAuth2WrapperConfig.swift:20-70 | success if and only if AuthURL, TokenURL, ClientID and Scope are all present and non-empty; any failure is one of those four missing-field errors; on success those four are the looked-up values, ClientSecret is the looked-up value or `""`, and CallbackURL is `"fixme"` |
| `Config.FirstMissing` | Sources/OAuth2Wrapper/OAuth2WrapperConfig.swift:40-58 | reference definition: None exactly when every listed field is supplied, otherwise the error of a missing field all of whose predecessors are supplied |
| `Config.ReportsFirstMissingField` | Sources/OAuth2Wrapper/OAuth2WrapperConfig.swift:40-58 | the loader fails exactly when `FirstMissing` over AuthURL, TokenURL, ClientID, Scope finds a field, and reports that field's error |
| `Config.SingleMissingFieldReported` | Sources/OAuth2Wrapper/OAuth2WrapperConfig.swift:40-58 | when exactly one required field is missing, its own error is reported |
| `Config.EmptyValueIsAbsent` | Sources/OAuth2Wrapper/OAuth2WrapperConfig.swift:34-58 | removing a key whose value is `""` does not change the result |
| `Config.ClientSecretIsOptional` | Sources/OAuth2Wrapper/OAuth2WrapperConfig.swift:52-54 | whatever is stored as the client secret, success and the error reported are the same, and only the ClientSecret field differs |

## Left out

- The OAuthSwift authorize exchange (redirect, network, token request) is a library call. Its outcome is the `authorization` field of `Env`.
- `UUID().uuidString` is nondeterministic. The state string is an arbitrary input (`Env.state`).
- `KeychainWrapper.standard` is a process-wide store. It is the `keychain` map field, initialised by the constructor. A write either replaces the label's entry or, when `keychainWriteOk` is false, changes nothing. Other processes and other wrappers sharing the store are not modelled.
- `JSONEncoder` and `JSONDecoder` are abstract functions in `Env`. `Credential` keeps only the token, the refresh token and the expiry of `OAuthSwiftCredential`; its other fields are dropped. The decode-after-encode round trip is a library property. It appears only as the `WrittenCredentialRoundTrips` hypothesis, which is assumed for the one credential a call may write, not for every credential.
- The encode-failure path (OAuth2Wrapper.swift:77-84) calls the completion and then force-unwraps nil data, which crashes. Encoding is total in the model.
- `isTokenExpired()` and the clock are left out. The library's raw answer per credential is an input, with the precondition that a raw "expired" credential has an expiry date. Dates are `real` seconds since 1970, not floating point.
- Logging, the completion-callback mechanics and the threads of the redirect handler are left out. Concurrent calls on one wrapper are not modelled: each call is one atomic step.
- `Bundle.object(forInfoDictionaryKey:)` is a `map<string, string>` lookup. A non-string value is treated as absent, which is the effect of the `as? String` cast.
