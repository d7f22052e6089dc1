# Upstream OIDC federation in Rauthy, modelled in Dafny

This project models the federation engine of Rauthy's `auth_provider` entity, in
`rauthy-models/src/entity/auth_provider.rs`. Rauthy is an OpenID Connect provider
that can also send its users on to an upstream provider. The model has five parts:

- **Provider type and scope normalisation** (`ProviderTypes`, `Scope`): the
  closed `AuthProviderType` tag with its string encoding, and `cleanup_scope`.
- **Discovery** (`Discovery`): the pure core of `lookup_config`. It covers
  building the `.well-known/openid-configuration` URL from an issuer, and mapping
  the fetched discovery document to a configuration proposal.
- **Provider registry** (`AuthProviders`): the `auth_providers` table with its
  cache-aside layer, as a class over two maps. Cache coherence is a predicate.
  `create`, `delete`, `find`, `find_all` and `invalidate_cache_all` preserve it.
  `save` and `update` preserve it only when the row exists. Saving an id with no
  row caches a provider the table does not have
  (`AuthProviders.UpdateOfMissingIdIsFoundInCache`).
- **Upstream callback** (`UpstreamCallback`): the short-lived callback records as
  a class over a map. `login_start` builds a record, the authorization-request
  location and the cookie. `login_finish` runs its checks in the fixed order
  state, presence, anti-forgery token, PKCE verifier. It then exchanges the code
  at the token endpoint and hands the ID token to the reconciler.
- **Identity reconciler** (`IdentityReconciler`): `validate_update_user` as a
  class over the `users` and `user_values` tables. It reads the claims, matches
  the local account, applies the account-takeover guard, refreshes or creates
  the user, and merges the profile values.

`Common` holds `Option`, `Result` and the error kinds. `Strings` holds the `str`
operations the code relies on (`split`, `join`, `trim`, prefix and suffix tests)
with their properties.

Foreign code is passed in as function-valued parameters, so nothing is assumed
about it beyond what a lemma names in its `requires`:
- the symmetric cipher (`EncValue`), as the datatype `Cipher`;
- `build_client`, as `Env.buildClient`, of which only success or failure matters;
- base64 and the SHA-256 PKCE hash, as fields of `Env`;
- the HTTP GET of the discovery document (`get`) and the POST to the token
  endpoint (`send`);
- JSON decoding of the ID-token claims (`decode`);
- `Client::find` and `sanitize_login_scopes` (`Clients`);
- the clock (`now`), the random identifiers (`callbackId`, `xsrfToken`, `newId`)
  and the locale mapping (`languageOf`).

The values of the deployment constants `PROVIDER_CALLBACK_URI`,
`COOKIE_UPSTREAM_CALLBACK` and `UPSTREAM_AUTH_CALLBACK_TIMEOUT_SECS` are fields
of `Env`.

Where the code and its prose description disagree, the model follows the code:
- `cleanup_scope` drops empty tokens *before* trimming them. A whitespace-only
  token such as `"\t"` therefore survives as an empty token between two `+`
  (`Scope.CleanupScopeKeepsWhitespaceToken`).
- `login_finish` never deletes the record on its success path (the code ends in
  `todo!()`), nor on a failure after the checks (see Findings).
- The header piece of the ID token can never be missing, because `split` always
  yields a first piece. The "incorrect ID did not contain claims" error is
  therefore unreachable and is not modelled; a token without `.` is "unsigned".

## Model

| member | source | states |
|---|---|---|
| ProviderTypes.AsStr | rauthy-models/src/entity/auth_provider.rs:47-53 | the encoding of a provider type is a non-empty string |
| ProviderTypes.TryFrom | rauthy-models/src/entity/auth_provider.rs:55-70 | parsing succeeds exactly on "oidc", gives back a type that encodes to the input, and otherwise fails with BadRequest "Invalid AuthProviderType" |
| ProviderTypes.FromString | rauthy-models/src/entity/auth_provider.rs:72-77 | the lenient conversion agrees with parsing when it succeeds and falls back to OIDC otherwise |
| ProviderTypes.TryFromAsStr | rauthy-models/src/entity/auth_provider.rs:47-77 | both conversions invert the encoding for every provider type |
| Scope.KeepTrimmed | rauthy-models/src/entity/auth_provider.rs:306 | the filter_map step keeps at most one token per piece, and exactly one per piece when no piece is empty |
| Scope.CleanupScope | rauthy-models/src/entity/auth_provider.rs:302-309 | the normalised scope never contains a space |
| Scope.CleanupScopeIsJoinOfTrimmedWords | rauthy-models/src/entity/auth_provider.rs:302-309 | the normalised scope is the space-separated words of the input, each trimmed, in order, joined with '+' (an independent definition of words) |
| Scope.CleanupScopeIdempotent | rauthy-models/src/entity/auth_provider.rs:302-309 | normalising a normalised scope changes nothing |
| Scope.CleanupScopeKeepsWhitespaceToken | rauthy-models/src/entity/auth_provider.rs:305-306 | because the filter runs before the trim, "a \t b" becomes "a++b" |
| Scope.KeepTrimmedIsTrimAllNonEmpty | rauthy-models/src/entity/auth_provider.rs:306 | the filter_map step is "keep the non-empty pieces, then trim each" |
| Scope.NonEmptySplitIsWords | rauthy-models/src/entity/auth_provider.rs:304-306 | the non-empty pieces of a split on ' ' are exactly the words of the string |
| Discovery.IssuerUrl | rauthy-models/src/entity/auth_provider.rs:388-393 | the issuer URL always has a scheme; an issuer with `http://` or `https://` is kept, any other gets `https://` in front |
| Discovery.IssuerUrlIdempotent | rauthy-models/src/entity/auth_provider.rs:388-393 | normalising an issuer URL twice is the same as once |
| Discovery.ConfigUrl | rauthy-models/src/entity/auth_provider.rs:395-399 | the config URL ends in "/.well-known/openid-configuration"; when the issuer URL ends in '/' what precedes that slash is the issuer URL without it, and otherwise it is the issuer URL itself |
| Discovery.ConfigUrlIgnoresTrailingSlash | rauthy-models/src/entity/auth_provider.rs:395-399 | an issuer with and without a trailing '/' gives the same config URL |
| Discovery.AnyEquals | rauthy-models/src/entity/auth_provider.rs:450-457 | the `any(== value)` test holds iff the value is in the list |
| Discovery.Supported | rauthy-models/src/entity/auth_provider.rs:427-441 | every selected scope is both a proposal scope and advertised |
| Discovery.ProposedScope | rauthy-models/src/entity/auth_provider.rs:432-441 | the `push_str` loop builds the advertised ones of openid, profile, email, each followed by a space, in that order |
| Discovery.SupportedProposalScopes | rauthy-models/src/entity/auth_provider.rs:433-441 | the selection is exactly the three `contains` tests taken in the order openid, profile, email |
| Discovery.SupportedMembership | rauthy-models/src/entity/auth_provider.rs:433-441 | a scope is selected iff it is a proposal scope and advertised |
| Discovery.SupportedIgnoresAdvertisedOrder | rauthy-models/src/entity/auth_provider.rs:427-441 | two documents that advertise the same scopes in any order give the same selection |
| Discovery.ProposedScopeWords | rauthy-models/src/entity/auth_provider.rs:432-441 | the words of the proposed scope string are exactly the selection |
| Discovery.ProposedScopeCleansUp | rauthy-models/src/entity/auth_provider.rs:302-309 | once saved through `cleanup_scope`, the proposal becomes the selected names joined with '+' |
| Discovery.LookupConfig | rauthy-models/src/entity/auth_provider.rs:388-462 | the fetched URL is the config URL. A non-2xx answer is a Connection error, carrying the corrected message from Findings, and an undecodable document is BadRequest with "The provider does not support the mandatory openid-configuration: " followed by the decoder's reason. Otherwise the endpoints are copied, `use_pkce` holds iff "S256" is advertised, `token_auth_method_basic` holds iff "client_secret_post" is not, and the scope is the proposal |
| Discovery.LookupFailureMessageAsWritten | rauthy-models/src/entity/auth_provider.rs:408-411 | as written: the message starts with "HTTP <config url> " and ends with " to <status>: <body>" |
| Discovery.LookupFailureMessage | rauthy-models/src/entity/auth_provider.rs:404-412 | corrected message: it starts with "HTTP <status> " and ends with " to <config url>: <body>" |
| Discovery.LookupFailureMessageAsWrittenMisplacesStatus | rauthy-models/src/entity/auth_provider.rs:408-411 | as written, a 404 for issuer "idp.example" yields a message that does not start with "HTTP 404 Not Found " |
| AuthProviders.SecretEncrypted | rauthy-models/src/entity/auth_provider.rs:465-473 | encryption fails iff a secret is present and the cipher fails; an absent secret stays absent |
| AuthProviders.SecretCleartext | rauthy-models/src/entity/auth_provider.rs:475-483 | decryption fails iff a secret is present and the cipher rejects it; an absent secret stays absent |
| AuthProviders.SecretRoundTrip | rauthy-models/src/entity/auth_provider.rs:465-483 | for a cipher that round-trips, a stored secret reads back as the plaintext it was created from |
| AuthProviders.TryFromIdReq | rauthy-models/src/entity/auth_provider.rs:341-368 | building a provider fails iff the secret cannot be encrypted. On success it keeps the id, normalises the scope, stores the encrypted secret, treats an absent insecure flag as false, sets the type to OIDC and sets no logo. It copies name, issuer, the three endpoints, client id, `use_pkce` and `root_pem` from the request |
| AuthProviders.CacheIdx | rauthy-models/src/entity/auth_provider.rs:298-300 | the cache key of an id is a provider key carrying that id, never the template key |
| AuthProviders.CacheIdxInjective | rauthy-models/src/entity/auth_provider.rs:298-300 | two ids share a cache key iff they are equal |
| AuthProviders.Served | rauthy-models/src/entity/auth_provider.rs:172-199 | on a cache miss `find` serves the row iff there is one; on a hit it serves a provider iff the cached value is a single provider |
| AuthProviders.CoherentServesRow | rauthy-models/src/entity/auth_provider.rs:172-199 | with a coherent cache, what `find` serves is exactly the db row of the id, or nothing when there is no row |
| AuthProviders.ProviderRegistry.InvalidateCacheAll | rauthy-models/src/entity/auth_provider.rs:370-379 | drops exactly the "all" list and the template key and keeps coherence |
| AuthProviders.ProviderRegistry.Create | rauthy-models/src/entity/auth_provider.rs:104-170 | an invalid request or a duplicate id changes nothing; a valid request with a fresh id succeeds, and then the row is inserted, cached under its id, the aggregates are dropped and coherence is kept |
| AuthProviders.ProviderRegistry.Find | rauthy-models/src/entity/auth_provider.rs:172-199 | the answer is exactly what `Served` says, in any state: a cache hit is returned as is, and a miss is served from the table and cached. Under coherence the answer is exactly the table row. NotFound when nothing is cached under the key and no row exists; Internal when the key holds the provider list (the failed downcast, reachable for the id "all") |
| AuthProviders.ProviderRegistry.FindAll | rauthy-models/src/entity/auth_provider.rs:201-229 | a cached list is returned as is, and a cached value of the wrong shape is Internal; a miss, in any state, lists every row of the table exactly once and caches that list; under coherence the result always lists every row |
| AuthProviders.ProviderRegistry.Delete | rauthy-models/src/entity/auth_provider.rs:231-245 | the row, the aggregates and the id's cache entry are gone and coherence is kept |
| AuthProviders.ProviderRegistry.Save | rauthy-models/src/entity/auth_provider.rs:255-294 | the UPDATE changes the row only if it exists; the aggregates are dropped and the id is re-cached; coherence is kept when the row exists |
| AuthProviders.ProviderRegistry.Update | rauthy-models/src/entity/auth_provider.rs:247-253 | rebuilds the provider from the request and saves it; a failed rebuild changes nothing |
| AuthProviders.UpdateOfMissingIdIsFoundInCache | rauthy-models/src/entity/auth_provider.rs:247-294 | an update of an id without a row still makes `find` return that provider from the cache |
| IdentityReconciler.ClaimsSegment | rauthy-models/src/entity/auth_provider.rs:874-886 | a token is rejected as BadRequest "ID token was unsigned" iff it has no '.'; otherwise the segment is the text between the first and the next '.' |
| IdentityReconciler.TokenClaims | rauthy-models/src/entity/auth_provider.rs:874-888 | a token without '.' is BadRequest "ID token was unsigned"; otherwise the claims are the decoding of its claims segment |
| IdentityReconciler.ForbiddenError | rauthy-models/src/entity/auth_provider.rs:918-928 | a login is refused iff the account is not linked to exactly this subject and provider; the wrong-provider message wins over the mismatch message |
| IdentityReconciler.LocalAccountIsNeverTakenOver | rauthy-models/src/entity/auth_provider.rs:918-923 | an account with no federation uid is always refused |
| IdentityReconciler.FailedLogin | rauthy-models/src/entity/auth_provider.rs:930-933 | a refusal records the failure time and adds one to the counter (from 0 if absent); nothing else changes |
| IdentityReconciler.FailedLoginsCount | rauthy-models/src/entity/auth_provider.rs:930-933 | after n refusals the counter has risen by exactly n, the last time is recorded and every other field is unchanged |
| IdentityReconciler.UpstreamLogin | rauthy-models/src/entity/auth_provider.rs:942-965 | an accepted login sets the email from the token; each name follows its claim only when present; the login time is recorded, both failure counters are cleared, and nothing else changes |
| IdentityReconciler.UpstreamLoginKeepsLink | rauthy-models/src/entity/auth_provider.rs:942-965 | an accepted login leaves the account linked, so it passes the guard again |
| IdentityReconciler.OldEmail | rauthy-models/src/entity/auth_provider.rs:942-946 | the old email is recorded iff the token's email differs, and it is the previous address |
| IdentityReconciler.LanguageOf | rauthy-models/src/entity/auth_provider.rs:980-983 | the language is the mapped locale when the token has one, otherwise the default |
| IdentityReconciler.NewFederatedUser | rauthy-models/src/entity/auth_provider.rs:970-987 | a new account is linked to this provider and subject and enabled. `email_verified` defaults to false, names default to "N/A", the language comes from the locale or the default, it is logged in now and has no failures |
| IdentityReconciler.NewFederatedUserLogsInAgain | rauthy-models/src/entity/auth_provider.rs:918-987 | a new account passes the guard for a later login iff that login names the same subject and provider |
| IdentityReconciler.MergedValues | rauthy-models/src/entity/auth_provider.rs:1011-1030 | birthdate and phone are overwritten exactly when the token gives them. Street, zip and country are overwritten exactly when the token has an address that gives them. City is never written, and without profile claims nothing changes |
| IdentityReconciler.StoredValues | rauthy-models/src/entity/auth_provider.rs:993-1010 | the merge starts from the stored values of the user, or from all-absent values when there are none |
| IdentityReconciler.MergedValuesIdempotent | rauthy-models/src/entity/auth_provider.rs:991-1030 | merging the same claims twice equals merging once |
| IdentityReconciler.UserStore.FindByEmail | rauthy-models/src/entity/auth_provider.rs:903-904 | finds a stored user with that email iff one exists |
| IdentityReconciler.UserStore.FindByFederationUid | rauthy-models/src/entity/auth_provider.rs:905-910 | finds a stored user linked to that subject iff one exists |
| IdentityReconciler.UserStore.SaveUser | rauthy-models/src/entity/auth_provider.rs:934 | overwrites the user's row and nothing else, keeping emails unique |
| IdentityReconciler.UserStore.CreateFederated | rauthy-models/src/entity/auth_provider.rs:988 | inserts the new row and nothing else, keeping emails unique |
| IdentityReconciler.UserStore.UpsertValues | rauthy-models/src/entity/auth_provider.rs:1032 | writes the profile values of one user and nothing else |
| IdentityReconciler.UserStore.LoginExisting | rauthy-models/src/entity/auth_provider.rs:914-968 | the field-by-field updates equal the guard's outcome. A refused login saves only the failure bump and returns Forbidden with the guard's message; an accepted one saves the refreshed user and merges the values. Its `oldEmail` output stands for the `old_email` argument the source passes to `User::save` (not a return value of the source) |
| IdentityReconciler.UserStore.CreateNew | rauthy-models/src/entity/auth_provider.rs:969-989 | inserts the new federated user under the fresh id, then merges the values |
| IdentityReconciler.UserStore.MergeValues | rauthy-models/src/entity/auth_provider.rs:991-1033 | the per-field updates give the merged values, and they are upserted iff the token carries a birthdate, a phone or an address |
| IdentityReconciler.UserStore.Reconcile | rauthy-models/src/entity/auth_provider.rs:899-989 | the account is matched by email first, else by federation uid, then logged in or created |
| IdentityReconciler.UserStore.ValidateUpdateUser | rauthy-models/src/entity/auth_provider.rs:869-1036 | an unsigned or undecodable token, or one without email, is rejected before any lookup or write (an unsigned one as BadRequest "ID token was unsigned"); otherwise the result and both tables are those of matching and reconciling |
| UpstreamCallback.CookieValue | rauthy-models/src/entity/auth_provider.rs:617-618 | the cookie value is the base64 of the encrypted id, and fails iff encryption fails |
| UpstreamCallback.CookieCallbackId | rauthy-models/src/entity/auth_provider.rs:646-648 | reading the cookie succeeds iff base64 decoding and decryption both succeed |
| UpstreamCallback.CookieRoundTrip | rauthy-models/src/entity/auth_provider.rs:617-648 | for a cipher and base64 that round-trip, the cookie handed out reads back as the callback id |
| UpstreamCallback.AuthorizationLocation | rauthy-models/src/entity/auth_provider.rs:600-615 | the location built by `format!` and `write!` is the authorization endpoint with the query client_id, redirect_uri, response_type=code, scope, state and, only with PKCE, code_challenge and code_challenge_method=S256 |
| UpstreamCallback.AuthorizationUrlSpelledOut | rauthy-models/src/entity/auth_provider.rs:600-615 | rendering the parameter list gives exactly the `format!` text, plus the PKCE suffix when PKCE is used |
| UpstreamCallback.LocationEndsWithChallengeIffPkce | rauthy-models/src/entity/auth_provider.rs:600-615 | for a 32-character alphanumeric callback id, the location ends with "&code_challenge=<challenge>&code_challenge_method=S256" iff the provider uses PKCE |
| UpstreamCallback.NewCallback | rauthy-models/src/entity/auth_provider.rs:574-598 | the stored record takes the two random values, the client's id, force-MFA flag and sanitised scopes, the request's redirect URI, state, nonce, code challenge and PKCE challenge, and the provider's id, issuer, token endpoint, client id, encrypted secret, insecure flag, PKCE flag and root certificate |
| UpstreamCallback.CheckCallback | rauthy-models/src/entity/auth_provider.rs:650-684 | the checks pass iff state equals the cookie id, the record exists, the xsrf token matches and the verifier hashes to the challenge. The first failing check decides the error: BadRequest, NotFound, Unauthorized, then Unauthorized, with their messages |
| UpstreamCallback.StartedLoginPassesChecks | rauthy-models/src/entity/auth_provider.rs:564-684 | a callback that returns the stored id as state, the xsrf token handed out and a verifier matching the challenge gets back the very record that was stored |
| UpstreamCallback.FailedCheckIsNotReplayable | rauthy-models/src/entity/auth_provider.rs:650-684 | after a state, xsrf or PKCE failure has deleted the record, the same callback fails again |
| UpstreamCallback.TokenRequestFor | rauthy-models/src/entity/auth_provider.rs:687-702 | the token request goes to the stored endpoint with the stored client id and secret, both as Basic credentials and in the form; the verifier is sent iff PKCE is used; the grant type is authorization_code and the redirect URI is the callback URI |
| UpstreamCallback.TokenFailureMessage | rauthy-models/src/entity/auth_provider.rs:706-717 | the diagnostic names status, endpoint and client id, then the body or "without any body" |
| UpstreamCallback.IdTokenOf | rauthy-models/src/entity/auth_provider.rs:706-747 | an ID token is obtained iff the answer is 2xx, decodes and carries one; every other outcome is Internal with the source's message |
| UpstreamCallback.ExchangeToken | rauthy-models/src/entity/auth_provider.rs:686-747 | the steps run in the source's order, and the first failure is the result: building the client, then decrypting the secret, then the POST. Otherwise the request above is sent and its answer read as an ID token |
| UpstreamCallback.CallbackStore.Delete | rauthy-models/src/entity/auth_provider.rs:517-528 | removes exactly that record |
| UpstreamCallback.CallbackStore.Find | rauthy-models/src/entity/auth_provider.rs:530-546 | returns the stored record iff there is one, and otherwise NotFound "Callback Code not found - timeout reached?" |
| UpstreamCallback.CallbackStore.Save | rauthy-models/src/entity/auth_provider.rs:548-559 | stores the record under its own id |
| UpstreamCallback.CallbackStore.LoginStart | rauthy-models/src/entity/auth_provider.rs:564-636 | in any registry state it succeeds iff `find` serves a provider and the client, its scopes and the cookie encryption all succeed. A failure returns the first failing step's own error, in the order provider, client, scopes, cookie (NotFound or Internal from `find`). With a coherent registry the provider is the db row. The provider cache changes only as `find` changes it: a miss with a table row caches that row, and otherwise it is unchanged. On failure nothing is stored. On success the record is stored under the callback id, and the location, the cookie (secure, http-only, Lax, max-age, path /auth), the xsrf token and the allowed origins are returned |
| UpstreamCallback.CallbackStore.ValidateCallback | rauthy-models/src/entity/auth_provider.rs:650-684 | the check sequence returns the specified outcome, and deletes the record exactly on a state, xsrf or PKCE failure |
| UpstreamCallback.CallbackStore.LoginFinishAsWritten | rauthy-models/src/entity/auth_provider.rs:640-748 | as written: an unreadable cookie changes nothing, a failed check deletes as above, the token exchange runs only after all checks pass, the reconciler's outcome is returned, and a later failure leaves the record stored |
| UpstreamCallback.LateFailureLeavesCallbackReplayable | rauthy-models/src/entity/auth_provider.rs:686-720 | as written, after a 500 from the token endpoint the same cookie and payload pass every check again |
| UpstreamCallback.CallbackStore.LoginFinish | rauthy-models/src/entity/auth_provider.rs:639-748 | corrected: as above, but once the cookie has been read, any error leaves no record behind |

## Left out

- `build_client` and the reqwest HTTP/TLS round trips: the discovery GET and the token POST are the function parameters `get` and `send`, and building the client for the token POST is `Env.buildClient`. Timeouts, TLS versions and root certificates are not modelled.
- Discovery.LookupConfig: omits the `build_client` call at line 386 that comes before any URL is built. On a non-2xx answer it returns the corrected `LookupFailureMessage`, not the as-written text of lines 408-411 (see Findings; `LookupFailureMessageAsWritten` models that text).
- UpstreamCallback.CallbackStore.LoginStart: the panic at line 634 is not modelled. `HeaderValue::from_str(..).expect(..)` panics after the record is saved (line 629) when the location holds a control character, such as a newline inside a provider's scope token, which `cleanup_scope` keeps. There the model returns Ok with that location.
- `EncValue`, base64, SHA-256 and UTF-8 lossy decoding: foreign crypto and encoding, passed in as functions. Round-trip facts are hypotheses of the lemmas that need them (`RoundTrips`, `Base64RoundTrips`).
- Decrypting the stored secret: the source does it twice, for the Basic credentials and for the form. The model does it once, which is the same for a deterministic cipher.
- JSON (serde) decoding of the discovery document, the token set and the ID-token claims: modelled as already-decoded values (`Document`, `TokenBody`, `decode`).
- sqlx, the redhac cache replication and `AckLevel`: replaced by plain maps. A database error other than a duplicate id or a missing row is not modelled.
- The lookup by email in `validate_update_user` treats every error as "not found" and falls back to the federation uid. The model produces no other lookup error.
- The email uniqueness of the `users` table is taken as a table constraint (`UserStore.Valid`).
- The session upgrade and forced MFA at the end of `login_finish` are `todo!()`. The model returns the reconciled user instead.
- `AuthProviderTemplate::get_all_json_template`: JSON rendering glue. Only its cache key appears, as `TemplateIdx`.
- Concurrent logins on the same callback id, and the expiry of cache entries: concurrency and time-to-live are out of scope. An expired record is the same as an absent one.
- The error kinds and messages of an unreadable cookie (`CookieCallbackId`) are model choices, because the messages come from foreign code.
- `IdentityReconciler.UserStore.ValidateUpdateUser`: the i64 failure counter and the i32 postal code are unbounded integers, so counter overflow is not modelled. User fields not touched by an upstream login (roles, password, passkeys and so on) are left out of `User`.
- `rauthy-handlers/src/fed_cm.rs`: request and response glue, not part of this model. `rauthy-models/src/entity/mod.rs` holds only module declarations.

## Findings

| source | as written | input that shows it | evidently intended | confidence | as-written member | corrected member |
|---|---|---|---|---|---|---|
| rauthy-models/src/entity/auth_provider.rs:408-411 | the `format!` arguments are (config_url, status, body) but the text reads "HTTP {status} ... to {url}: {body}" | issuer "idp.example", answer 404: the message starts "HTTP https://idp.example/..." and says "to 404 Not Found" (`Discovery.LookupFailureMessageAsWrittenMisplacesStatus`) | status after "HTTP", URL after "to" | high, not executed | Discovery.LookupFailureMessageAsWritten | Discovery.LookupFailureMessage |
| rauthy-models/src/entity/auth_provider.rs:639-748 | the doc comment promises that any error deletes the callback record, but only the state, xsrf and PKCE failures do | a callback that passes every check while the token endpoint answers 500: the record stays, and the same cookie and payload pass the checks again (`UpstreamCallback.LateFailureLeavesCallbackReplayable`) | delete the record on every error once the cookie id is known | medium, not executed | UpstreamCallback.CallbackStore.LoginFinishAsWritten | UpstreamCallback.CallbackStore.LoginFinish |
