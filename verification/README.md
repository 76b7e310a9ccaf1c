# OAuth2 credential lifecycle and key introspection — a Dafny model

This project models the part of the Openverse catalog API that hands out
machine credentials and reports on their rate limits:

- **Registration** (`Register.post`): validate the request, save the
  registration record, create an unverified `ThrottledApplication` holding a
  freshly generated client secret, create one `OAuth2Verification` record with
  a random code, try to e-mail the verification link, and return the
  credentials with status 201.
- **E-mail verification** (`VerifyEmail.get`): look the code up, mark the
  associated application verified, delete the code, answer 200; an unknown
  code answers 500.
- **Key info** (`CheckRates.get`): from the bearer token's client id and rate
  limit model, build the throttle cache keys `throttle_{scope}_{client_id}` for
  the burst and sustained windows and report how many requests each window
  holds.
- **Throttle settings** (`settings.py`): the per-scope rate table, the
  configurable anonymous rates, the `DISABLE_GLOBAL_THROTTLING` override and the
  access-token lifetime.

The database is an immutable `Credentials.Store` (applications by primary key,
verification records by code, saved registration records, and the primary-key
sequence); every view is a pure function from a store to an outcome and the
next store. The throttle cache is a read-only map passed to `KeyInfo.CheckRates`,
which returns no cache and instead reports the keys it read.
Values produced by code outside this model are parameters: the serializer's
verdict (`Validation`), the generated client id and secret, the random
verification code, the result of sending the e-mail (`MailOutcome`), the
token lookup `get_token_info` (`tokenInfo`), and the environment read through
`config(...)` (`Settings.Environment`).

Files: `optional.dfy` (Option), `http.dfy` (responses and outcomes),
`settings.dfy`, `credentials.dfy`, `key_info.dfy`, `lifecycle.dfy` (lemmas
over several requests).

An unknown or already used verification code answers 500, not a
client-error status; verification is four separate queries (the code lookup,
the application lookup, the update and the delete) with no lock, so no
atomicity is claimed; a missing or empty usage window is reported as `null`,
not 0; and the exempt model reads one cache key, under scope
`exempt_oauth2_client_credentials_burst`, for both windows.

Two behaviours of the code are modelled as written. Only `smtplib.SMTPException`
is caught around `send_mail`; any other exception escapes the view after the
application and its code were saved (no request transaction is configured), so
the caller never receives the secret (`Lifecycle.MailerCrashKeepsRecords`). And
a verification record whose application row is missing makes the related-object
lookup raise; under the store invariant `Credentials.Valid` this cannot happen.

## Model

| member | source | states |
|---|---|---|
| Credentials.NewApplication | api/catalog/api/views/oauth2_views.py:59-68 | a new application is unverified, confidential, client-credentials, does not skip authorization, and holds the given name, id and secret |
| Credentials.Register | api/catalog/api/views/oauth2_views.py:50-107 | invalid input answers 400 with the serializer errors and leaves the store unchanged; valid input adds exactly the new pk with an unverified application holding the secret, keeps every other application, adds the code pointing at the new pk and keeps every other code, appends the registration record, and answers 201 with the stored secret unless the mailer raised a non-SMTP exception (which escapes); the store invariant is preserved |
| Credentials.VerifyEmail | api/catalog/api/views/oauth2_views.py:115-135 | an unknown code answers 500 "Invalid verification code" and changes nothing; a known code answers 200, sets `verified` on exactly the associated application, changes no other application and deletes exactly that code; the store invariant is preserved and then no exception escapes |
| Lifecycle.VerifyTwice | api/catalog/api/views/oauth2_views.py:116-135 | verifying the same code twice answers 200 then 500, and the second call changes nothing |
| Lifecycle.RegisterAddsOne | api/catalog/api/views/oauth2_views.py:59-75 | with a fresh code, a valid registration grows the applications and the verification records by exactly one each, under a pk not used before, and exactly one record points at the new application |
| Lifecycle.VerifiedIsPermanent | api/catalog/api/views/oauth2_views.py:50-135 | neither registration nor verification un-verifies an application |
| Lifecycle.RegisterThenVerify | api/catalog/api/views/oauth2_views.py:59-127 | following the link of a new registration verifies exactly the new application, whose secret is the one returned, restores the previous verification records, and a second use of the link fails |
| Lifecycle.Scenario | api/catalog/api/views/oauth2_views.py:50-135 | register "Acme", verify with a wrong code (500), the right code (200), the right code again (500) |
| Lifecycle.MailerCrashKeepsRecords | api/catalog/api/views/oauth2_views.py:68-97 | when the mailer raises a non-SMTP exception no response carries the secret, yet the unverified application and its code stay stored |
| Lifecycle.Run | api/catalog/api/views/oauth2_views.py:50-135 | over any sequence of registration and verification requests the store invariant holds, no application disappears, no verified application becomes unverified, and registration records are only appended |
| Lifecycle.DeadCodeStaysDead | api/catalog/api/views/oauth2_views.py:116-135 | a code that is not live stays absent, and verifying it answers 500, after any sequence of requests that does not issue it again |
| Lifecycle.UsedCodeNeverVerifiesAgain | api/catalog/api/views/oauth2_views.py:116-135 | after a code has been used, verifying it again after any such sequence of requests answers 500 |
| KeyInfo.ParseTier | api/catalog/api/views/oauth2_views.py:186-209 | exactly the three names `standard`, `enhanced`, `exempt` are recognised rate-limit models, each to the tier of that name |
| KeyInfo.TierName | api/catalog/api/views/oauth2_views.py:188-203 | each tier has its own name: `standard`, `enhanced` or `exempt` |
| KeyInfo.ParseTierName | api/catalog/api/views/oauth2_views.py:188-203 | recognising a tier's name gives back that tier |
| KeyInfo.ThrottleKey | api/catalog/api/views/oauth2_views.py:187 | a key is `throttle_`, then the scope, then `_`, then the client id |
| KeyInfo.BurstScope | api/catalog/api/views/oauth2_views.py:188-206 | the burst scope is the settings table's standard or enhanced burst scope for those tiers, and `exempt_oauth2_client_credentials_burst`, a scope outside the table, exactly for the exempt tier |
| KeyInfo.SustainedScope | api/catalog/api/views/oauth2_views.py:188-206 | the sustained scope is the settings table's standard or enhanced sustained scope for those tiers, and for the exempt tier exactly the exempt burst scope |
| KeyInfo.ScopeOfKey | api/catalog/api/views/oauth2_views.py:187 | a scope read back from a key rebuilds that key for the client |
| KeyInfo.ScopeOfThrottleKey | api/catalog/api/views/oauth2_views.py:187-206 | the scope is recovered from any key `throttle_{scope}_{client_id}` built for that client |
| KeyInfo.ScopeOfKeyComplete | api/catalog/api/views/oauth2_views.py:187-206 | a key yields no scope for a client exactly when no scope builds it for that client |
| KeyInfo.ThrottleKeyInjective | api/catalog/api/views/oauth2_views.py:187-206 | for one client, different scopes give different cache keys |
| KeyInfo.TierScopes | api/catalog/api/views/oauth2_views.py:188-206 | burst and sustained keys coincide exactly for `exempt`; the standard and enhanced scopes are rated scopes of the settings table, the exempt key scope is not the table's exempt scope |
| KeyInfo.TierKeysDistinct | api/catalog/api/views/oauth2_views.py:188-206 | two different tiers never share a burst key or a sustained key for the same client |
| KeyInfo.RequestCount | api/catalog/api/views/oauth2_views.py:211-216 | a count is present exactly when the key holds a non-empty list, and then equals its length |
| KeyInfo.CheckRates | api/catalog/api/views/oauth2_views.py:176-226 | 403 "Forbidden" with no cache read when the token or its client id is missing; 500 "Unknown API key rate limit type" with no cache read for an unrecognised model; otherwise 200 after reading the sustained then the burst key, reporting each window's list length or null when absent or empty, echoing the model and the verified flag |
| KeyInfo.ExemptCountsAgree | api/catalog/api/views/oauth2_views.py:203-216 | for the exempt model the minute and day counts are equal |
| KeyInfo.NoTrafficReportsNull | api/catalog/api/views/oauth2_views.py:211-216 | with an empty cache both counts are null, not zero |
| Settings.AccessTokenExpireSeconds | api/catalog/settings.py:123-125 | the access-token lifetime is 3600 × 12 = 43200 seconds unless configured |
| Settings.AnonBurstRate | api/catalog/settings.py:130 | the anonymous burst rate is 5 per hour unless configured |
| Settings.AnonSustainedRate | api/catalog/settings.py:131 | the anonymous sustained rate is 100 per day unless configured |
| Settings.DefaultThrottleRates | api/catalog/settings.py:152-161 | the rate table has exactly the seven scopes: the anonymous rates as configured, standard 100/min and 10000/day, enhanced 200/min and 20000/day, exempt None |
| Settings.GlobalThrottlingDisabled | api/catalog/settings.py:165 | global throttling is disabled when the variable is unset, and otherwise exactly when it is configured true |
| Settings.NullRates | api/catalog/settings.py:168-170 | the rate update keeps the set of scopes and sets every rate to None |
| Settings.DisableThrottling | api/catalog/settings.py:165-171 | on settings that still hold the throttle-class list (deleting a missing key raises), the override keeps the set of scopes, sets every rate to None and removes the class list |
| Settings.RestFrameworkSettings | api/catalog/settings.py:133-171 | with throttling disabled every rate is None and no class applies; otherwise the seven classes apply, standard is 100/min and 10000/day, enhanced 200/min and 20000/day, exempt None, anonymous rates as configured |
| Settings.EnhancedDoublesStandard | api/catalog/settings.py:155-158 | in the rate table, and in the rates in force whenever throttling is enabled, each enhanced rate is twice the standard rate over the same period |
| Settings.DefaultsDisableThrottling | api/catalog/settings.py:165-171 | with no configuration, global throttling is disabled: no class applies and no scope is rated |
| Settings.ExemptNeverLimited | api/catalog/settings.py:159-160 | the exempt scope is unlimited in every configuration |
| Settings.NullRatesIdempotent | api/catalog/settings.py:168-170 | applying the rate update twice equals applying it once |

## Left out

- The sliding-window throttle classes (`catalog.api.utils.throttle`, including `TenPerDay` and `OnePerSecond`) are not part of this model; only the cache keys and rate table they consume are.
- `TokenView` only delegates to the OAuth2 toolkit's token endpoint and is not modelled.
- Serializer validation, `get_token_info`, client-id and secret generation and `secrets.token_urlsafe` are foreign code: their results are parameters. `OAuth2KeyInfoSerializer` is taken to pass its four fields through unchanged.
- E-mail transport, link building, message text, and the error log written on an SMTP failure: sending is one step with three possible results and no effect on the store.
- Concurrency: verification is four separate queries (the code lookup, the application lookup, the update and the delete) with no lock, and no atomicity is modelled or claimed.
- Parsing of rate strings such as "100/min" belongs to the REST framework: rates are literal `Rate` values.
- Casting of environment values (`cast=int`, `cast=bool`) and its failures: the environment is given already typed.
- The rest of `settings.py` (hosts, middleware, databases, caches, Sentry, e-mail backend, proxy headers, the OAuth2 `SCOPES` table) and `frontend/test/playwright/playwright.config.ts`, which holds test-runner configuration only.
- Credentials.Register: the verification code is a map key, so two equal random codes would replace the older record rather than sit in two rows; the lemmas about registration assume a fresh code. Uniqueness of client ids is not modelled.
- Lifecycle.DeadCodeStaysDead: holds only while no later registration draws the same random code, which the code's 64 bytes of randomness make improbable but not impossible.
- Failures of the cache and the database are not modelled: `cache.get` raising (an unreachable Redis, oauth2_views.py lines 211 and 215), `get_token_info` raising (line 181), and the ORM saves, lookups, updates and deletes raising (lines 55, 68, 75 and 117-120). `KeyInfo.CheckRates` therefore has no escaping-exception outcome, and `Credentials.Register` and `Credentials.VerifyEmail` raise only where described above.
- How an exception escaping a view becomes an HTTP response is the framework's exception handler, not part of this model: such outcomes are `Unhandled`.
