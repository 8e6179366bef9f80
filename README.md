# Session, notification and routing logic of the arthub front-end, in Dafny

This project models the logic of a Vue single-page front-end that sits under
its configuration: the auth session store and the token validator, the
notification store, the Russian plural rule used by the i18n set-up, the
router's authentication guard, the HTTP client's bearer/refresh/retry
interceptors, and the error-mapping continuations that calling code attaches
to API calls. Each is a Dafny module:

- `JsValue` (helper): the dynamically typed values the code receives from the
  server (`Json`) and the JavaScript operations it applies to them:
  truthiness, `typeof`, property reads, `Object.keys`, `||` and `join`.
- `Plural`: `customRule`, with JavaScript's truncating `%` written out
  (`JsRem`), and its relation to the CLDR plural rule for Russian integers.
- `Auth`: the store as a class whose field `auth` is the token record or
  `None` (the cleared, `null` state); `AuthTokenImpl.is` as `IsAuthToken`,
  with its three outcomes (accepted, rejected, TypeError on `null`).
- `Notification`: the store as a class over the `messages` list; timers are
  recorded as pending `Expiry` events and fired by `Expire`.
- `Router`: the route table and the `beforeEach` decision as a function of the
  matched records and the session state.
- `Http`: the two request interceptors, `refresh()`, and the response-error
  interceptor. What the network answered is an input (`PostReply` for the
  refresh POST, `Settled<Response>` for the re-sent request); the requests the
  interceptors issue themselves are returned as a list of `Call`s.
- `Api`: `catchFieldErrors` (a loop over `Object.keys(data.errors)`, reporting
  the `setErrors` calls it makes and the value written to the optional slot),
  `notifyError` over the notification store, and `suppressError`.

Behaviour that the code has and a quick reading of the flow might not expect,
all modelled as written:

- `refresh()` clears the whole session only when the refresh endpoint answers
  401; any other failure (other status, malformed body, no reply) leaves the
  session as it was.
- When the refresh made by the 401 handler fails, the caller receives the
  refresh's own error (`Error("Failed to refresh")`, `Error("Wrong format")`,
  …), not the original 401.
- Once the session is `null` (after a 401 from the refresh endpoint), a later
  401 makes `clearToken()` throw a TypeError, which replaces the HTTP error.
- `AuthTokenImpl.is(null)` throws a TypeError (`typeof null` is "object"), and
  `notifyError` throws one when the response body is `null` or `undefined`.
- The "teen" test of `customRule` looks at the whole count, so 111–114 take
  the "one"/"few" forms where the CLDR rule for Russian says "many"
  (`CustomRuleMatchesRussianRule`, `CustomRuleDivergesAt111`).
- Retrying is not bounded by the code: a re-sent request that fails with 401
  again goes through the same handler. The model takes the re-sent request's
  outcome as an input and claims nothing about how many retries happen.

## Model

| member | source | states |
|---|---|---|
| `Plural.JsRem` | src/ts/i18n/index.ts:10 | JavaScript `%`: Euclidean remainder for non-negative counts, a non-positive remainder above `-10` for negative ones |
| `Plural.CustomRule` | src/ts/i18n/index.ts:4-19 | the form index lies in 0..3, is 0 exactly for a zero count, and is at most 2 when the message has fewer than three forms |
| `Plural.CustomRuleByLastDigit` | src/ts/i18n/index.ts:9-18 | for a positive count outside 11..19, last digit 1 gives 1 and last digit 2–4 gives 2; otherwise 3, or 2 with fewer than three forms |
| `Plural.NegativeCountTakesLastForm` | src/ts/i18n/index.ts:9-18 | a negative count never selects the "one" or "few" form |
| `Plural.CustomRuleIgnoresOrgRule` | src/ts/i18n/index.ts:4 | the result does not depend on `orgRule` |
| `Plural.CustomRuleMatchesRussianRule` | src/ts/i18n/index.ts:9-18 | with three or more forms the index is the CLDR Russian category's form for every positive count below 100 or whose last two digits are not 11–19 |
| `Plural.CustomRuleDivergesAt111` | src/ts/i18n/index.ts:9-13 | for 111 the rule picks the "one" form where CLDR gives "many" |
| `Auth.IsAuthToken` | src/ts/stores/auth/index.ts:24-32 | accepts exactly an object with string `accessToken`, string `refreshToken` and number `expiresIn`; throws exactly for `null` |
| `Auth.AuthoritiesAreNotChecked` | src/ts/stores/auth/index.ts:30 | bodies whose `authorities` is a string, or missing, are still accepted |
| `Auth.TokenOf` | src/ts/stores/auth/index.ts:59-61 | the record stored for an accepted body holds its two tokens, its expiry and its `authorities` value |
| `Auth.RefreshOnlySession` | src/ts/stores/auth/index.ts:43-49 | a record with a null access token and a non-empty refresh token is logged in but not authenticated |
| `Auth.AuthStore.constructor` | src/ts/stores/auth/index.ts:36-41 | the initial record has null tokens, null expiry and empty authorities, so neither status holds |
| `Auth.AuthStore.IsLogged` | src/ts/stores/auth/index.ts:43-45 | holds exactly when the record is non-null and its refresh token is a non-empty string |
| `Auth.AuthStore.IsAuthenticated` | src/ts/stores/auth/index.ts:47-49 | holds exactly when the record is non-null and its access token is a non-empty string |
| `Auth.AuthStore.ClearAuth` | src/ts/stores/auth/index.ts:51-53 | the record becomes null; both statuses are false and the access-token getter yields nothing |
| `Auth.AuthStore.ClearToken` | src/ts/stores/auth/index.ts:55-57 | requires a non-null record; nulls only the access token, so the session is no longer authenticated and stays logged in exactly when it was |
| `Auth.AuthStore.SetAuth` | src/ts/stores/auth/index.ts:59-61 | the record becomes the given token; both getters return its tokens |
| `Auth.AuthStore.GetRefreshToken` | src/ts/stores/auth/index.ts:63-65 | requires a non-null record; the token is a non-empty string exactly when the session is logged in |
| `Auth.AuthStore.GetAccessToken` | src/ts/stores/auth/index.ts:67-69 | null-safe; the token is a non-empty string exactly when the session is authenticated, and absent after a clear |
| `Auth.AuthStore.GetAuthorities` | src/ts/stores/auth/index.ts:71-73 | requires a non-null record; returns the stored authorities |
| `Notification.Without` | src/ts/stores/notification/index.ts:36-38 | keeps exactly the entries whose id differs and never grows the list |
| `Notification.WithoutAppend` | src/ts/stores/notification/index.ts:37 | filtering distributes over concatenation, so surviving entries keep their order |
| `Notification.WithoutAbsent` | src/ts/stores/notification/index.ts:37 | removing an id that no entry carries leaves the list unchanged |
| `Notification.WithoutIdempotent` | src/ts/stores/notification/index.ts:37 | removing the same id twice equals removing it once |
| `Notification.WithoutCommutes` | src/ts/stores/notification/index.ts:37 | removals of two ids commute |
| `Notification.AddThenRemove` | src/ts/stores/notification/index.ts:16-38 | appending a message with a fresh id and removing that id restores the list |
| `Notification.ScheduledBy` | src/ts/stores/notification/index.ts:20-33 | one removal, of this id after that timeout, is scheduled exactly when the timeout (5000 when omitted) is positive |
| `Notification.NotificationStore.constructor` | src/ts/stores/notification/index.ts:14 | the store starts with no messages and nothing scheduled |
| `Notification.NotificationStore.Add` | src/ts/stores/notification/index.ts:16-34 | appends exactly one message with the fresh id, text, title and type ("info" when omitted), keeps earlier entries, and schedules its removal only for a positive timeout |
| `Notification.NotificationStore.Remove` | src/ts/stores/notification/index.ts:36-38 | the list becomes the old list without the entries of that id |
| `Notification.NotificationStore.Expire` | src/ts/stores/notification/index.ts:30-32 | a scheduled removal fires: it leaves the pending list and removes its id's entries |
| `Notification.NotificationStore.Info` | src/ts/stores/notification/index.ts:40-42 | `add` with the type fixed to info |
| `Notification.NotificationStore.Error` | src/ts/stores/notification/index.ts:44-46 | `add` with the type fixed to error |
| `Notification.NotificationStore.Success` | src/ts/stores/notification/index.ts:48-50 | `add` with the type fixed to success |
| `Notification.NotificationStore.Warning` | src/ts/stores/notification/index.ts:52-54 | `add` with the type fixed to warning |
| `Router.SomeRequiresAuth` | src/ts/router/index.ts:34 | true exactly when some matched record has a truthy `meta.authRequired` |
| `Router.BeforeEach` | src/ts/router/index.ts:33-43 | redirects, to `login` with `redirect` set to the full path, exactly when some matched record requires auth and the session is not authenticated; otherwise proceeds |
| `Router.RouteTableFlags` | src/ts/router/index.ts:5-25 | `/login` carries no `authRequired` flag; both catch-all records do |
| `Router.LoginAlwaysReachable` | src/ts/router/index.ts:40-42 | navigating to the login record proceeds whatever the session holds |
| `Router.RefreshOnlySessionIsRedirected` | src/ts/router/index.ts:35-36 | a session holding only a refresh token is logged in and still redirected from a guarded route |
| `Router.AuthenticatedAlwaysProceeds` | src/ts/router/index.ts:37-38 | an authenticated session is never redirected |
| `Http.WithLocaleHeaders` | src/ts/axios/index.ts:16-20 | sets `Accept-Language` and `X-TimeZone` (both clients, also lines 30-34) and keeps every other header and the URL |
| `Http.WithBearer` | src/ts/axios/index.ts:38 | sets `Authorization` to "Bearer " followed by the token and keeps everything else |
| `Http.RefreshResult` | src/ts/axios/index.ts:64-80 | `refresh()` succeeds exactly on a 200 with an accepted body, returning that body; a non-200 rejects with "Failed to refresh", a malformed body with "Wrong format", a failed POST with its own error |
| `Http.AuthAfterRefresh` | src/ts/axios/index.ts:69-78 | the session becomes the new token on success, null after a 401 from the endpoint, and is unchanged after any other failure |
| `Http.RefreshSuccessAuthenticates` | src/ts/axios/index.ts:75-79 | after a successful refresh the session is authenticated (logged in) exactly when the returned access (refresh) token is non-empty |
| `Http.RefreshFailureKeepsSession` | src/ts/axios/index.ts:69-77 | a failed refresh leaves the session as it was, unless the endpoint answered 401, which ends it |
| `Http.Refresh` | src/ts/axios/index.ts:64-80 | posts the stored refresh token once; settles as `RefreshResult` and leaves the store as `AuthAfterRefresh` |
| `Http.BearerStepFor` | src/ts/axios/index.ts:37-42 | attaches the current token exactly when authenticated, refreshes first exactly when only logged in, and otherwise sets nothing |
| `Http.RetryCarriesNewToken` | src/ts/axios/index.ts:36-54 | after a successful refresh with a non-empty access token, the interceptor attaches that new token to the re-sent request |
| `Http.AttachBearer` | src/ts/axios/index.ts:36-44 | with an access token: "Bearer" header, no refresh, store unchanged; with only a refresh token: one refresh, then the new token, or the refresh's error; with neither: headers and store unchanged |
| `Http.PrepareRequest` | src/ts/axios/index.ts:16-44 | with an access token: goes out with its bearer and the locale headers, session unchanged; with only a refresh token: one refresh, then the new bearer, or the refresh's error, session as `AuthAfterRefresh`; with neither: goes out with only the locale headers added; every request that goes out carries the locale and time-zone headers |
| `Http.WithValidationErrors` | src/ts/axios/index.ts:57-60 | `fieldErrors` is `data.errors` when truthy else `{}`, `objectErrors` is `data.objectErrors` when truthy else `[]`; both are always set and truthy |
| `Http.OnResponseError` | src/ts/axios/index.ts:46-62 | no response: rethrown, no change; 401: access token cleared (TypeError on a null session), then one refresh and one re-send returning its outcome when a refresh token remains, else rethrown; 422: errors lifted, rethrown; other statuses rethrown unchanged |
| `Api.FieldErrorCalls` | src/ts/api/index.ts:19-23 | never more setter calls than keys |
| `Api.FieldErrorCallsExactly` | src/ts/api/index.ts:19-23 | a setter is called with a message exactly when its field is a key of `errors`, has a field entry and holds a non-empty array, and the message is that array joined with ", " |
| `Api.FieldErrorCallsOnlyKnownFields` | src/ts/api/index.ts:20 | keys without a field entry cause no setter call |
| `Api.GlobalWrite` | src/ts/api/index.ts:25-27 | the slot is written exactly when a slot was given and a 422 body's `objectErrors` is an array, and what is written is that array joined with ", " |
| `Api.CatchFieldErrors` | src/ts/api/index.ts:14-30 | makes exactly the setter calls `FieldErrorCalls` lists, in key order, and only on a 422 with `errors`; writes the slot as `GlobalWrite` says; always rethrows the original error |
| `Api.NoSetterWithoutFieldErrors` | src/ts/api/index.ts:18 | a non-422 status, or a 422 without `errors`, reaches no setter |
| `Api.TitleOf` | src/ts/api/index.ts:36-38 | a missing or null title gives no title; a string title is kept |
| `Api.NotifyError` | src/ts/api/index.ts:32-43 | adds exactly one error toast showing `detail` under `title` when a response body has a truthy `detail`, none otherwise; throws a TypeError for a null or undefined body; otherwise rethrows the error |
| `Api.SuppressError` | src/ts/api/index.ts:45-48 | settles normally for every error |

## Left out

- Network I/O and axios itself: client creation, the base URL, the default
  `Content-Type`/`Accept` headers and the 5-second timeout. A POST or re-sent
  request is represented only by what it settled to, given as an input;
  whether axios rejects non-2xx statuses before `refresh()` sees them is not
  modelled (`refresh()` is modelled over an arbitrary status as written).
- The current UI locale and the browser time zone are opaque string inputs.
- Timers: `setTimeout` is modelled as a pending `Expiry` event that `Expire`
  fires in any order; elapsed time is not modelled.
- uuid generation: the id is a parameter, required to be one never issued before.
- Concurrency: interleavings of several requests, undeduplicated concurrent
  refreshes, and a re-sent request that fails with 401 again.
- Vue/Pinia reactivity (`ref`, `defineStore`), `createI18n`, the message
  catalogs, the vuetify set-up, the debounce utility and the app bootstrap.
- Route matching itself: the records a navigation matched are an input.
- JavaScript numbers are integers here; `NaN`, fractions and `-0` are not modelled.
- `Object.keys` of an array or a string (their index keys) is taken as empty,
  and properties of primitives and inherited properties (`fields["constructor"]`)
  are not modelled; `fields` is the set of names bound to a truthy entry.
- Object values are lists of properties and are taken to have distinct keys,
  as every JavaScript object does; on a list that repeats a key, `Get` reads
  the first entry (where `JSON.parse` would keep the last) and `Keys` lists the
  key twice.
- The error object is updated in place by the 422 handler; the model returns
  the updated value, so aliasing of that object is not captured. Likewise the
  caller's `global` ref is not updated in place: `CatchFieldErrors` returns the
  value it would write.
- `{...newToken}` copies every own property of the body; the record keeps only
  the four declared fields.
- Api.NotifyError: the toast text is stored as the string form of `detail`
  (and of a non-string `title`), where the code stores the raw value; for the
  string values of a ProblemDetails body the two coincide.
