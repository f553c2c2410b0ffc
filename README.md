# subscription-tracker, modelled in Dafny

This project models the logic of subscription-tracker, a web application for keeping track
of recurring subscriptions. Its Go back-end has three parts:

- a PostgreSQL store of users and subscriptions;
- a Redis cache in front of that store;
- JWT-protected HTTP handlers for accounts and subscriptions.

Its Next.js front-end handles sign-up and sign-in and keeps the session token in
`localStorage`. It also decides when an unauthorised answer logs the user out.

The external systems are modelled as follows:

- **Database.** Each table is a map from id to row, held by the class `Database.DB`. An
  `online` flag stands for "the database answers".
- **Redis.** The Redis server is a map from key to cached list, held by `Redis.RedisClient`.
- **Browser.** The browser's location and `localStorage` are the fields of `Browser.Window`.
- **Abstract parameters.** bcrypt, the HMAC signer and parser, Google's answers, the fetch
  transport and the clock are parameters.

Each core file is one module:

| source | module |
|---|---|
| back-end/internal/database/database.go | `Database` |
| back-end/internal/redis/redis.go | `Redis` |
| back-end/internal/cache/cache.go | `Cache` |
| back-end/internal/utils/jwt.go | `Jwt` |
| back-end/internal/middleware/auth.go | `Middleware` |
| back-end/internal/handlers/auth.go | `AuthHandlers` |
| back-end/internal/handlers/subscription.go | `SubscriptionHandlers` |
| front-end/pages/register.tsx | `Register` |
| front-end/services/middleware/errorHandleMiddleware.ts | `ErrorHandler` |
| front-end/contexts/AuthContext.tsx | `AuthContext` |
| front-end/services/authSlice.ts | `AuthSlice` |

Shared modules:

- `GoText` holds `strconv.Atoi`, the `%d` verb and `strings.Split`.
- `JsText` holds `String.prototype.trim`, `includes` and UTF-16 `length`.
- `HttpModel` holds responses and cookies.
- `CookieJar` is a browser cookie store, following section 5.3 of RFC 6265.
- `Browser` holds the window, `localStorage` and fetch's header-value normalisation.
- `EndToEnd` connects the client's `Authorization` header to the server's check.

Units:

- Prices are integer cents, since the column is `DECIMAL(10,2)`.
- Dates are day numbers, and timestamps are seconds.
- Id parameters outside the `INTEGER` range make a statement fail.

`errorHandleMiddleware.ts` sends each query once: it neither refreshes the token nor retries
after a 401.

## Model

| member | source | states |
|---|---|---|
| `Database.LookupUserById` | back-end/internal/database/database.go:378-405 | A user is found exactly when the database answers, the id is an int4 and the row exists. The result has that row's id, email and name, with an empty password hash and provider. Otherwise the error is Unavailable, an integer out of range, or sql.ErrNoRows, in that order. |
| `Database.UpdateKeepsOtherColumns` | back-end/internal/database/database.go:219-237 | UPDATE leaves id, user_id, is_active and created_at alone and writes the request's name and price. |
| `Database.CreatedViewOfFreshRow` | back-end/internal/database/database.go:349-376 | CreateUser's result swaps created_at and updated_at. On a fresh row both are the same instant, so the swap is invisible there. |
| `Database.Aggregate` | back-end/internal/database/database.go:319-345 | Over a user's active rows the total is the sum of prices and the count is their number. The next payment is absent exactly when there are none, else it is a row with the earliest next billing date. |
| `Database.SumPricesAdd` | back-end/internal/database/database.go:321-325 | Adding one row to a set of rows adds its price to their SUM. |
| `Database.DB.constructor` | back-end/internal/database/database.go:19-87 | Once both tables exist: empty tables, the database answers, the invariant holds. |
| `Database.DB.SelectRows` | back-end/internal/database/database.go:112-139 | The row loop lists each row the WHERE clause keeps exactly once, joined with its owner's email, and nothing else. |
| `Database.DB.GetUserSubscriptions` | back-end/internal/database/database.go:93-140 | Succeeds exactly when the database answers and the id is an int4. It then lists exactly the user's rows, each with the owner's email. |
| `Database.DB.GetSubscriptionByID` | back-end/internal/database/database.go:142-180 | The joined row with that id. A missing id is sql.ErrNoRows. |
| `Database.DB.CreateSubscription` | back-end/internal/database/database.go:182-217 | Succeeds exactly when the owner exists, the price fits DECIMAL(10,2) and the SERIAL is in range. On success it adds one active row with the request's fields at the next id. The cache entry is dropped only on success; the table is unchanged on failure. |
| `Database.DB.UpdateSubscription` | back-end/internal/database/database.go:219-254 | Changes only that row's six columns. A missing row is NoRows. The cache entry is dropped only on success. |
| `Database.DB.DeleteSubscription` | back-end/internal/database/database.go:256-266 | Removes only that row; an absent id is not an error. The cache entry is dropped even when the statement fails. |
| `Database.DB.GetUpcomingSubscriptions` | back-end/internal/database/database.go:268-316 | Lists exactly the active rows due on or before today + 3 days, overdue ones included. |
| `Database.DB.GetUserSubscriptionsStats` | back-end/internal/database/database.go:319-345 | The answer is the aggregate of the user's active rows, as `Database.Aggregate` states it. |
| `Database.DB.CreateUser` | back-end/internal/database/database.go:349-376 | Adds one row at the next SERIAL id with the given fields and returns it without the hash, timestamps swapped. Otherwise nothing changes. |
| `Database.DB.GetUserByID` | back-end/internal/database/database.go:378-405 | The answer is `LookupUserById` over the table. |
| `Database.DB.GetUserByEmail` | back-end/internal/database/database.go:407-442 | Some full row with that email, hash included, exactly when one exists. Otherwise NoRows, or Unavailable when the database does not answer. |
| `Redis.GetEnvSetWins` | back-end/internal/redis/redis.go:96-101 | A set variable wins even when it is empty; the default appears only for an unset one. |
| `Redis.GetEnvAsInt` | back-end/internal/redis/redis.go:103-110 | An unset variable gives the default; a non-integer value gives it too (by its definition over Atoi). |
| `Redis.Wrap64` | back-end/internal/redis/redis.go:77 | Go's int64 product stays in range and is exact for in-range values. |
| `Redis.CacheTTLDefault` | back-end/internal/redis/redis.go:75-78 | An unset or non-integer REDIS_CACHE_TTL gives one hour. |
| `Redis.CacheTTLFromEnv` | back-end/internal/redis/redis.go:75-78 | REDIS_CACHE_TTL holding n gives n seconds. |
| `Redis.SprintfPrefix` | back-end/internal/redis/redis.go:87 | A pattern made of a %-free prefix and %d formats as the prefix followed by the decimal id. |
| `Redis.DefaultUserSubscriptionsKey` | back-end/internal/redis/redis.go:85-88 | With the default pattern the key is "subscriptions:user:" followed by the id. |
| `Redis.DefaultUserKeysDistinct` | back-end/internal/redis/redis.go:85-88 | Distinct users get distinct subscription keys. |
| `Redis.DefaultStatsKeyNeverSubscriptionsKey` | back-end/internal/redis/redis.go:85-93 | No stats key equals a subscriptions key. |
| `Redis.RedisClient.constructor` | back-end/internal/redis/redis.go:20-46 | A connected client with an empty store. |
| `Redis.RedisClient.Set` | back-end/internal/redis/redis.go:48-55 | Stores the value under the key when the server answers, else an error and no change. |
| `Redis.RedisClient.Get` | back-end/internal/redis/redis.go:57-64 | The stored value exactly when the server answers and the key is present. |
| `Redis.RedisClient.Delete` | back-end/internal/redis/redis.go:66-68 | Removes only that key when the server answers. |
| `Redis.RedisClient.Exists` | back-end/internal/redis/redis.go:70-73 | True exactly when the call succeeds with a positive count, that is, the key is present. |
| `Cache.CacheService.constructor` | back-end/internal/cache/cache.go:14-19 | Keeps the client and the global key. |
| `Cache.CacheService.CacheAllSubscriptions` | back-end/internal/cache/cache.go:22-34 | On success only the global entry changes, to the list. |
| `Cache.CacheService.GetCachedSubscriptions` | back-end/internal/cache/cache.go:36-46 | The global list exactly when present. A missing key is an error with no list. |
| `Cache.CacheService.CacheUserSubscriptions` | back-end/internal/cache/cache.go:48-60 | On success only that user's entry changes. |
| `Cache.CacheService.GetCachedUserSubscriptions` | back-end/internal/cache/cache.go:62-72 | That user's list exactly when present. |
| `Cache.CacheService.InvalidateSubscriptionsCache` | back-end/internal/cache/cache.go:75-78 | On an answering server the global entry is gone, every other entry is kept and none is added. |
| `Cache.CacheService.InvalidateUserSubscriptionsCache` | back-end/internal/cache/cache.go:80-83 | Only that user's entry is removed; the global entry and other users' entries stay. |
| `Cache.CacheService.HasSubscriptionsCache` | back-end/internal/cache/cache.go:86-89 | True exactly when the global entry is present. |
| `Cache.CacheService.HasUserSubscriptionsCache` | back-end/internal/cache/cache.go:91-94 | True exactly when that user's entry is present. |
| `Cache.CacheReadInvalidate` | back-end/internal/cache/cache.go:22-89 | Caching then reading gives the same list back. After invalidation the cache is reported absent. |
| `Cache.CacheUserReadBack` | back-end/internal/cache/cache.go:48-72 | Caching a user's list makes it present and reads it back unchanged. |
| `Cache.InvalidateKeepsOtherUsers` | back-end/internal/cache/cache.go:80-83 | With the default pattern, invalidating one user keeps another user's list. |
| `Jwt.ValidateJWT` | back-end/internal/utils/jwt.go:67-83 | Claims come back only for a parsed HMAC token with a good signature, inside its nbf/exp window. A non-HMAC method is always refused. |
| `Jwt.GeneratedClaims` | back-end/internal/utils/jwt.go:31-65 | Both generators sign HS256 claims with the user's id and email, issuer "subscription-tracker" and iat = nbf = now. |
| `Jwt.ValidityWindow` | back-end/internal/utils/jwt.go:31-83 | A signed token validates exactly from its issue time up to, not including, expiry, and yields the claims it was built from. |
| `Jwt.AccessTokenWindow` | back-end/internal/utils/jwt.go:49-65 | Access tokens validate for 300 seconds after issue. |
| `Jwt.RefreshTokenWindow` | back-end/internal/utils/jwt.go:31-47 | Refresh tokens validate for 90 days after issue. |
| `Jwt.RefreshTokenPassesAsAccessToken` | back-end/internal/utils/jwt.go:31-83 | Five minutes after issue the access token fails while the refresh token of the same moment still validates as the same user. |
| `GoText.Atoi` | back-end/internal/handlers/subscription.go:75 | A parse succeeds only on a sign or digit first and yields an int64. |
| `GoText.AtoiItoa` | back-end/internal/redis/redis.go:105 | Atoi reads back what %d printed for every int64. |
| `GoText.ItoaInjective` | back-end/internal/redis/redis.go:87 | Distinct ints print differently. |
| `GoText.JoinSplit` | back-end/internal/middleware/auth.go:22 | Joining the pieces of a split gives the string back. |
| `GoText.SplitJoin` | back-end/internal/middleware/auth.go:22 | Splitting joined separator-free pieces gives the pieces back. |
| `GoText.SplitPiecesHaveNoSeparator` | back-end/internal/middleware/auth.go:22-28 | No piece of a split holds the separator. |
| `Middleware.BearerTokenIff` | back-end/internal/middleware/auth.go:21-28 | The format check yields token t exactly when the header is "Bearer " + t and t has no space. |
| `Middleware.EmptyTokenPassesFormat` | back-end/internal/middleware/auth.go:22-28 | "Bearer " passes the format check with an empty token. |
| `Middleware.SchemeIsCaseSensitive` | back-end/internal/middleware/auth.go:23 | "bearer" is refused whatever follows. |
| `Middleware.AuthMiddleware` | back-end/internal/middleware/auth.go:11-48 | An empty header gets 401 "Authorization header required" and a bad format 401 with the format message. Every other refusal is 401 "Invalid token". The next handler runs only for a validating token of an existing user, and sees that user without hash. |
| `Middleware.ValidTokenPasses` | back-end/internal/middleware/auth.go:30-45 | A well-formed header with a validating token of an existing user always gets through. |
| `AuthHandlers.LogoutLeavesRefreshCookie` | back-end/internal/handlers/auth.go:223-250 | After login then logout within 24 hours, the browser still holds the refresh token. |
| `AuthHandlers.CorrectedLogoutClearsRefreshCookie` | back-end/internal/handlers/auth.go:237-250 | With the logout cookie on path "/", no refresh token survives a logout and other cookies stay. |
| `AuthHandlers.Register` | back-end/internal/handlers/auth.go:15-76 | An undecodable body gets 400 and a taken email 409, neither adding a user. The only change is one row with the request's email, name and hash at the next id. That row is added whenever the email is free, hashing works and the SERIAL is in range. A 201 carries both tokens for it, the refresh token as a "/" cookie, and is the answer whenever both tokens are generated. |
| `AuthHandlers.Login` | back-end/internal/handlers/auth.go:78-123 | An unknown email and a wrong password get the same 401. A 200 carries both tokens for a row whose hash matches; that row is returned hash included. When every row with that email matches the password and both tokens are generated, the answer is 200. |
| `AuthHandlers.AuthGoogle` | back-end/internal/handlers/auth.go:125-212 | Each failed Google step gets its 400. With the database answering, an unknown email adds one "google" row without hash at the next id. It gets 200 with tokens for that row whenever both tokens are generated, and 500 when the SERIAL is exhausted. With the database down the answer is 500. An email of password accounts only gets 400 "Email already in use". An email of Google accounts only gets 200 without change when the tokens are generated. A 200's user is stored, with that email and provider "google". |
| `AuthHandlers.DetailNeverShowsHash` | back-end/internal/handlers/auth.go:214-221 | The user-detail answer behind the middleware never carries a password hash. |
| `AuthHandlers.GenerateAccessToken` | back-end/internal/handlers/auth.go:252-286 | A missing cookie, a failing token or an unknown user gets 401. Exactly the other cases (token generated) get 200 with a new access token, and no cookie is set. |
| `SubscriptionHandlers.GetSubscriptions` | back-end/internal/handlers/subscription.go:14-46 | A present, readable global entry is served with X-Cache: HIT. Otherwise the store's list, or 500 with its error. |
| `SubscriptionHandlers.CreateSubscription` | back-end/internal/handlers/subscription.go:48-70 | 201 with the record exactly when the body decodes and the store succeeds; 400 for the body; 500 with the store's error. |
| `SubscriptionHandlers.GetSubscription` | back-end/internal/handlers/subscription.go:72-90 | A non-integer id gets 400 "Invalid ID" and any failed lookup 404; otherwise 200 with the joined row. |
| `SubscriptionHandlers.UpdateSubscription` | back-end/internal/handlers/subscription.go:92-120 | A bad id gets 400 before the body is looked at, then a bad body gets 400, neither touching store or cache. A success rewrites that row; a store error is 500 with its text. |
| `SubscriptionHandlers.DeleteSubscription` | back-end/internal/handlers/subscription.go:122-139 | A bad id gets 400 without touching store or cache. A success is 204 with that row gone; a failure is 500. |
| `CookieJar.Store` | back-end/internal/handlers/auth.go:223-246 | A received cookie replaces the one with its name and path, or evicts it when already expired; other cookies stay. |
| `JsText.TrimIsCore` | front-end/pages/register.tsx:24-45 | trim() gives the part of the string between two runs of white space, with no white space at its ends. |
| `JsText.TrimEmptyIff` | front-end/pages/register.tsx:24-26 | trim() gives "" exactly for white space only. |
| `JsText.TrimIdempotent` | front-end/pages/register.tsx:24-45 | Trimming twice is trimming once. |
| `JsText.Utf16Length` | front-end/pages/register.tsx:35 | `length` counts between one and two code units per character. |
| `JsText.Includes` | front-end/services/middleware/errorHandleMiddleware.ts:38-41 | includes is true exactly when the pattern occurs at some position. |
| `Register.IndexOf` | front-end/pages/register.tsx:8-9 | The first position of the character, or none when it does not occur. |
| `Register.DomainIff` | front-end/pages/register.tsx:8-9 | Splitting on dots and checking each label decides "one or more labels joined by dots". |
| `Register.EmailRegexTestIff` | front-end/pages/register.tsx:8-9 | The pattern accepts exactly a local part, "@" and dot-separated labels of 1 to 63 letters, digits or hyphens with alphanumeric ends. |
| `Register.SingleLabelDomainAccepted` | front-end/pages/register.tsx:8-9 | "a@localhost" is a valid address. |
| `Register.ValidFormMeaning` | front-end/pages/register.tsx:23-39 | A form passes exactly when the trimmed name is non-empty, the trimmed email fits the grammar, the trimmed passwords match with at least 6 code units, and the terms are accepted. |
| `Register.BlankNameRejected` | front-end/pages/register.tsx:24 | A white-space-only name is the message reported. |
| `Register.BlankEmailRejected` | front-end/pages/register.tsx:26 | With a name, a white-space-only email is reported missing. |
| `Register.MalformedEmailRejected` | front-end/pages/register.tsx:28-29 | With name and email present, an email outside the grammar is reported. |
| `Register.MismatchBeforeLength` | front-end/pages/register.tsx:31-37 | A mismatch is reported before the length check. |
| `Register.TermsCheckedLast` | front-end/pages/register.tsx:39 | An unchecked terms box is reported exactly when every field check passes. |
| `Register.ValidateIgnoresSurroundingSpace` | front-end/pages/register.tsx:24-37 | The checks judge only trimmed values. |
| `Register.RegisterPage.constructor` | front-end/pages/register.tsx:12-19 | Empty fields, no error, not loading. |
| `Register.RegisterPage.Submit` | front-end/pages/register.tsx:41-51 | Clears the error, calls signUp and ends not loading with the error still empty; signUp's outcome is in the final state (its ordering against the loading flag is under Left out). |
| `Register.RegisterPage.HandleSubmit` | front-end/pages/register.tsx:23-52 | A failed check sets only its message. Otherwise signUp gets the trimmed name, email and password and the session follows the server's answer. |
| `ErrorHandler.Network.Fetch` | front-end/services/middleware/errorHandleMiddleware.ts:23-31 | One request sent, answered by the server. |
| `ErrorHandler.ApiClient.constructor` | front-end/services/middleware/errorHandleMiddleware.ts:12 | The router variable starts as null. |
| `ErrorHandler.ApiClient.SetRouter` | front-end/services/middleware/errorHandleMiddleware.ts:14-16 | The router variable holds the given router. |
| `ErrorHandler.ApiClient.BaseQuery` | front-end/services/middleware/errorHandleMiddleware.ts:18-60 | Exactly one request carrying "Bearer " + the stored token ("null" when none), and its result returned. A 401 on a page whose path has "/subscriptions" or "/dashboard" goes to /login and removes the token. Anything else changes neither location nor storage. |
| `ErrorHandler.ProtectedPages` | front-end/services/middleware/errorHandleMiddleware.ts:38-41 | Dashboard and subscription pages log out on 401; login and register do not. |
| `Browser.NormalizeKeeps` | front-end/services/middleware/errorHandleMiddleware.ts:27 | A header value without surrounding white space is sent as set. |
| `Browser.NormalizeDropsTrailingSpace` | front-end/services/middleware/errorHandleMiddleware.ts:27 | Trailing white space is dropped from the sent value. |
| `EndToEnd.StoredTokenReachesServer` | front-end/services/middleware/errorHandleMiddleware.ts:26-27 | A stored non-empty visible-ASCII token (as every compact JWT is) passes the server's format check unchanged. |
| `EndToEnd.EmptyStoredTokenRejected` | back-end/internal/middleware/auth.go:22-26 | A stored "" goes out as "Bearer" and gets the 401 format message. |
| `EndToEnd.MissingTokenSentAsNull` | front-end/services/middleware/errorHandleMiddleware.ts:26-27 | With nothing stored, the server is asked to validate the token "null". |
| `EndToEnd.IssuedTokenRoundTrip` | back-end/internal/middleware/auth.go:15-45 | An access token the server issued, stored and sent back within five minutes, lets the request through as its user. |
| `AuthContext.AuthProvider.constructor` | front-end/contexts/AuthContext.tsx:30-36 | No user and no toasts yet. |
| `AuthContext.AuthProvider.SignUpHandler` | front-end/contexts/AuthContext.tsx:56-77 | On success the user, the stored token and the page change to the answer's user, token and /dashboard. On failure it throws the body's text or "Failed to register." and changes nothing. |
| `AuthContext.AuthProvider.SignInHandler` | front-end/contexts/AuthContext.tsx:87-100 | The same for login, with the one message "Failed to login". |
| `AuthContext.AuthProvider.SignUp` | front-end/contexts/AuthContext.tsx:48-54 | Always resolves. The handler's outcome is applied and shown as one toast. |
| `AuthContext.AuthProvider.SignIn` | front-end/contexts/AuthContext.tsx:79-85 | Always resolves, likewise. |
| `AuthContext.AuthProvider.Logout` | front-end/contexts/AuthContext.tsx:102-105 | No user, and only the token removed from storage. |
| `AuthContext.AuthProvider.OnUserDetail` | front-end/contexts/AuthContext.tsx:44-46 | The user becomes the query's result. |
| `AuthContext.SkipUserDetailIff` | front-end/contexts/AuthContext.tsx:38-42 | The detail query runs exactly when no user is set and, in the browser, a non-empty token is stored. |
| `AuthContext.UseAuth` | front-end/contexts/AuthContext.tsx:117-123 | Outside a provider it throws its message; inside it gives the provider's value. |
| `AuthContext.LogoutIdempotent` | front-end/contexts/AuthContext.tsx:102-105 | Logging out twice is logging out once. |
| `AuthSlice.StartsWithoutToken` | front-end/services/authSlice.ts:5-7 | The first state has token null. |
| `AuthSlice.SetReplacesToken` | front-end/services/authSlice.ts:9-11 | setAuthData leaves the payload's token, whatever the state. |
| `AuthSlice.ClearIdempotent` | front-end/services/authSlice.ts:12-14 | clearAuthData gives the initial state, and clearing again changes nothing. |
| `AuthSlice.SetThenClear` | front-end/services/authSlice.ts:5-14 | setAuthData then clearAuthData is the initial state. |
| `AuthSlice.ForeignKeepsState` | front-end/services/authSlice.ts:3-16 | An action of another slice changes nothing. |
| `AuthSlice.LastToken` | front-end/services/authSlice.ts:9-14 | A token found scanning back was set by some action. |
| `AuthSlice.RunToken` | front-end/services/authSlice.ts:3-16 | After any run of actions the token is the last one set, unless a clear came after it. |

## Left out

- PostgreSQL connection, table creation and `Close` (database.go:19-91): the tables start empty and the database answers.
- Redis connection, ping and `Close`, and key expiry: the TTL is computed but entries never expire.
- JSON encoding and decoding: bodies are values, and a body that does not decode is `None`. The Redis JSON round trip is taken to be exact. An empty result list is `[]` in the model. `GetUpcomingSubscriptions` returns a nil slice for no rows, which encodes as `null`.
- `models.SubscriptionStats` is defined nowhere in the repository. The model takes its total and next-payment fields to accept SQL NULL (`Option`). If they are plain numbers, scanning a user with no active subscriptions fails and the handler answers 500, while the model answers with `None` fields.
- `CreateSubscriptionRequest.NextBillingDate` is a string bound to a DATE column. The model takes it as an already-parsed day number, so a date PostgreSQL cannot parse is not modelled. Such a date makes the INSERT or UPDATE fail, and the handler then answers 500.
- The text of driver errors: only sql.ErrNoRows's text is exact.
- bcrypt, HMAC signing and token parsing are parameters. `Jwt.Sound` states what a correct signer guarantees.
- The Google OAuth exchange and userinfo call are one parameter of four outcomes.
- The clock is an integer parameter; sub-second time is not modelled.
- Floating-point prices: prices are integer cents, and parsing or formatting floats is not modelled.
- Sequence values consumed by a failed INSERT: the SERIAL counter advances only on success.
- The asynchronous cache fill in GetSubscriptions, and the cache worker's goroutines.
- `GetAllSubscriptions`, the one-argument `CreateSubscription` and `GetSubscriptionsCacheKey` are called but defined nowhere. Their outcomes, and the global key, are parameters.
- The `req.Email` field the handler assigns does not exist on the request type, so it is not modelled.
- `Redis.Sprintf`: only %d, %v and %% are modelled for the one int argument. Go's other int verbs (%x %X %o %O %b %c %q %U), flags and widths are rendered as bad verbs, unlike Go. This matters only for key patterns set in the environment; every key property here is proved for the default %d patterns.
- React's asynchronous update order: a state change takes effect at once.
- `Register.RegisterPage.Submit`, `AuthContext.AuthProvider.SignUp` and `AuthContext.AuthProvider.SignIn`: signUp and signIn pass their handler's promise to toast.promise without awaiting or returning it. The model applies the request's outcome before signUp returns. In the program, `await signUp(...)` resolves at once and the loading flag is cleared while the request is still pending. The form is then enabled again, and a second submit sends another request (answered 409 after the first succeeds).
- `ErrorHandler.ApiClient.BaseQuery`: the Headers object's value check is not modelled. A stored token with a character above U+00FF, or with NUL, CR or LF left inside after normalisation, makes headers.set throw in prepareHeaders. Then no request is sent and the 401 branch never runs. Characters U+0080 to U+00FF go out as single bytes, which the server reads as a different string. The model sends one request for every stored string. The app only ever stores the server's compact JWT, which is visible ASCII, and `EndToEnd.StoredTokenReachesServer` is stated for visible-ASCII tokens only.
- The request recording of the register and login mutations: their answers are functions of the request.
- The browser policy that refuses SameSite=None without Secure, and the refusal of Secure cookies over plain HTTP.
- Which routes are registered (main.go): every handler is modelled as if reachable.
- `Redis.GetEnvAsInt`: its ensures names only the unset case. The non-integer case follows from its definition and is used through `Redis.CacheTTLDefault`.
- `JsText.Utf16Length`: its ensures gives only bounds. The exact count is its definition.
- `AuthHandlers.Login`: when several rows share an email, it is not stated which one QueryRow returns, only that it has that email.

## Findings

| source | as written | input that shows it | evidently intended | confidence | as-written member | corrected member |
|---|---|---|---|---|---|---|
| back-end/internal/handlers/auth.go:237-246 | Logout sets the expired `refreshToken` cookie on path "/api/v1/refresh". The refresh token was set on path "/" (auth.go:223-235). Cookies are identified by name and path, so the refresh token stays and is still sent. | Login at time 0, logout at time 10: the jar still holds `refreshToken` on "/" with the token. | Logout expires the refresh token, which needs the cookie on path "/". | not executed | `AuthHandlers.LogoutLeavesRefreshCookie` | `AuthHandlers.CorrectedLogoutClearsRefreshCookie` |
