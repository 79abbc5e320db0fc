# Diabetes tracker: session lifecycle, request gates and client state, in Dafny

This project models the core of a diabetes-tracking web application. The application has an
Express/Prisma API server and a React client. The model covers:

- **Server sessions** (`ServerAuth`, `Tokens`). Register, login, refresh and logout act as a
  state machine over one nullable stored refresh token per user. The access and refresh token
  issuers are modelled, and so is `sanitizeUser`.
- **Verification middleware** (`AuthMiddleware`). `authenticateToken` and `optionalAuth` read
  the Authorization header and the verifier's outcome. They answer the request or attach
  `req.user` and call `next`.
- **Entry routes** (`ServerEntries`). The glucose, food and mood validators, the ownership
  check before delete and patch, and the field-by-field food patch.
- **Anonymous comparison routes** (`ServerAnonymous`). Other users are listed under
  positional labels, and one other user's data is returned with identifying fields removed.
- **Browser token storage** (`TokenService`). The access token lives in session storage and
  the refresh token in local storage.
- **Client silent refresh** (`SessionClient`). The request interceptor attaches the token.
  The response interceptor runs a single-flight refresh with a FIFO queue of waiting requests.
- **Insulin dose arithmetic** (`Insulin`) and **statistics** (`Stats`): counts, average,
  category filter and grouping.
- **Client local login** (`AuthProvider`). `isAuthenticated` and `user` are held over records
  in localStorage.

Each handler whose source changes state step by step is a class method. The method's
`ensures` ties the new state to a pure step function (`RegisterStep`, `OnErrorResponse`,
`Grouped`, ...), and the lemmas about the handlers are stated over those functions.

Library and environment code enters as parameters:

- **JWT signing** is a function from a signing request (claims, secret, expiry) to a token
  string. The clock that stamps `iat` is folded into it.
- **JWT verification** is a function from (token, secret) to `Verified(payload)`, `Expired`,
  `Invalid` or `OtherError`.
- **bcrypt** is a precomputed hash plus a `(plain, hash) -> bool` comparison.
- **`isEmail`** is a boolean. The email is taken as already normalized.
- **`parseFloat`** of the weight field is a function that returns no value for NaN.
- **`parseInt`** of the anonymous index is an optional integer (none for NaN).
- **The database** is a map from id to row.

Numbers are unbounded integers or reals. In the insulin code NaN is an absent value, for which
every comparison is false.

Where the code and its documentation disagree, the model follows the code:

- A refresh never rotates the stored refresh token.
- Every exception inside `/auth/refresh` is answered with 403. This includes an unset
  `JWT_REFRESH_SECRET`, and an unset `JWT_SECRET` when the new access token is signed.
- When no refresh token is stored, the client interceptor leaves `isRefreshing` set and never
  settles the queue.
- Requests released from the queue are retried with their `_retry` flag still false.
- Registration creates the user row before issuing tokens. If a secret is unset, the answer is
  500 but the row stays, with no refresh token.

## Model

| member | source | states |
|---|---|---|
| Tokens.GenerateAccessToken | server.ts:80-95 | fails exactly when JWT_SECRET is unset, with its message; otherwise signs exactly {id, email, name} with JWT_SECRET and expiry JWT_EXPIRES_IN or "15m" |
| Tokens.GenerateRefreshToken | server.ts:100-107 | fails exactly when JWT_REFRESH_SECRET is unset; otherwise signs exactly {id} with that secret and expiry JWT_REFRESH_EXPIRES_IN or "7d" |
| Tokens.IssuersDisjoint | server.ts:80-107 | access and refresh signing requests never coincide, even under one secret |
| ServerAuth.SanitizeHidesExactlySecrets | server.ts:112-115 | two users sanitize alike iff they agree on id, email and name; changing the password or refresh token never changes the sanitized user |
| ServerAuth.SanitizeUser | server.ts:112-115 | the user returned to clients keeps exactly the id, email and name |
| ServerAuth.IssueTokens | server.ts:195-196 | both tokens are issued exactly when both secrets are set; the access token signs {id, email, name} with JWT_SECRET and its expiry, the refresh token {id} with JWT_REFRESH_SECRET and its expiry |
| ServerAuth.RegisterStep | server.ts:119-135 | invalid input is 400 and a taken email 409, with no write; otherwise a new row with the trimmed name and hash; 201 iff both secrets are set, storing the new refresh token and returning the sanitized user with both tokens; 500 otherwise with the row left without a refresh token; other rows untouched |
| ServerAuth.LoginStep | server.ts:226-297 | 400 iff the input is invalid; 401 iff the email is unknown or the password does not match, with no write; for valid, matching credentials, 200 iff both secrets are set and 500 with no write iff one is unset; on 200 the stored refresh token is overwritten with the new one and the sanitized user and both tokens are returned |
| ServerAuth.RefreshResponse | server.ts:304-347 | 401 iff no truthy token; 200 iff the refresh secret is set, the token verifies, the user exists, the stored token equals the presented one and JWT_SECRET is set; every other case 403, with "Invalid refresh token" for an unknown user or a stored token that differs and "Invalid or expired refresh token" for an unset secret or a token the verifier rejects; on 200 a new access token for the stored user |
| ServerAuth.LogoutStep | server.ts:353-370 | the caller's stored refresh token becomes null and nothing else changes; a missing row is 500 |
| ServerAuth.LogoutRevokesRefresh | server.ts:329-333 | after logout, any presented token that verifies as that user is refused with 403 |
| ServerAuth.LoginEnablesRefresh | server.ts:277-288 | the refresh token a successful login returns refreshes, given that the verifier accepts it with that user's id in its payload |
| ServerAuth.LoginHidesWhichCheckFailed | server.ts:255-270 | an unknown email and a wrong password get the identical response |
| ServerAuth.Database.Register | server.ts:149-219 | the handler's reads and writes produce exactly RegisterStep's table and response, keeping the table's indexes consistent |
| ServerAuth.Database.Login | server.ts:226-297 | the handler's reads and writes produce exactly LoginStep's table and response |
| ServerAuth.Database.Refresh | server.ts:304-347 | the handler answers RefreshResponse and writes nothing |
| ServerAuth.Database.Logout | server.ts:353-370 | the handler's write produces exactly LogoutStep's table and response |
| AuthMiddleware.BearerToken | middleware/auth.ts:42-44 | no header gives no token; a token, when there is one, is non-empty and holds no space |
| AuthMiddleware.NoSpaceNoToken | middleware/auth.ts:41-49 | a header without a space yields no token |
| AuthMiddleware.TokenAfterAnyScheme | middleware/auth.ts:42 | the token is the field after the first space whatever the first word is; later fields are ignored |
| AuthMiddleware.TrailingSpaceNoToken | middleware/auth.ts:42-44 | a scheme followed by one trailing space, such as "Bearer ", yields no token |
| AuthMiddleware.DoubleSpaceNoToken | middleware/auth.ts:42-44 | two spaces after the scheme leave an empty field, which counts as no token |
| AuthMiddleware.Authenticate | middleware/auth.ts:35-91 | no token is 401; unset secret 500; proceeds iff the token verifies, with req.user exactly {id, email, iat, exp} of the payload; 403 "Invalid token" iff the verifier calls the token invalid; expired is 401 "Token expired"; other verifier errors 500 |
| AuthMiddleware.SchemeNeverChecked | middleware/auth.ts:42 | any two scheme words give the same decision |
| AuthMiddleware.OptionalUser | middleware/auth.ts:102-134 | req.user is set iff a token is present, the secret is set and verification succeeds |
| AuthMiddleware.OptionalAgreesWithAuthenticate | middleware/auth.ts:58-66 | optionalAuth identifies exactly the callers authenticateToken lets through, with the same identity |
| AuthMiddleware.AuthenticateToken | middleware/auth.ts:35-91 | on success req.user is set and next is called once with no response; on every rejection the status is sent, next is not called and req.user is untouched |
| AuthMiddleware.OptionalAuth | middleware/auth.ts:102-134 | next is called exactly once, no response is sent, req.user is the optional identity |
| ServerEntries.StoredGlucose | server.ts:506 | the stored value is the integer part of the accepted glucose, within [0, 1000] |
| ServerEntries.GlucoseAccepted | server.ts:497-502 | a glucose value is accepted iff it is a number in (0, 1000] |
| ServerEntries.FractionalGlucoseStoredAsZero | server.ts:497-507 | a value in (0, 1) is accepted and stored as 0 |
| ServerEntries.FoodCreateGate | server.ts:608-697 | each check answers its own message once all earlier checks pass, in the handler's order: falsy food or carb; name not a string, blank, or over 200 UTF-16 code units; carb not a number; a truthy weight NaN or outside [0, 10000]; a truthy unit outside the 13 units; a truthy category outside the list; Ok iff every check passes, and then favorite defaults to false and falsy weight, unit and category become null |
| ServerEntries.AstralFoodNameRejected | server.ts:613-622 | a name of 101 characters above U+FFFF is 202 code units long and is rejected |
| ServerEntries.ZeroCarbRejected | server.ts:608-610 | carb 0 is rejected as missing |
| ServerEntries.BlankFoodNameRejected | server.ts:613-622 | a name of white space only is rejected |
| ServerEntries.ApplyPatch | server.ts:742-755 | a patch never changes the entry's id or owner, and the empty patch changes nothing |
| ServerEntries.PatchProperties | server.ts:742-755 | for each field, an undefined one keeps the stored value and a defined one is written, an empty weight or unit being written as null; a patch is idempotent |
| ServerEntries.MoodGate | server.ts:837-925 | accepted iff the trimmed mood is one of the 52 moods, hours lie in [0, 24] and trimmed notes are at most 500 characters; the entry gets exactly the trimmed mood, the hours, and the trimmed notes or null when they trim to nothing |
| ServerEntries.CheckOwnership | server.ts:536-544 | 404 exactly when the entry is missing, 403 exactly when another user owns it, permitted exactly for the owner |
| ServerEntries.OthersEntriesSurviveDelete | server.ts:775-799 | a delete of another user's entry is answered 403 |
| ServerEntries.EntryStore.CreateGlucose | server.ts:489-517 | 400 with no write when rejected; otherwise 201 and a new entry with a fresh id, the stored value and the caller as owner |
| ServerEntries.EntryStore.DeleteGlucose | server.ts:524-560 | 404 or 403 from the ownership check with no write; otherwise the entry is removed and 200 |
| ServerEntries.EntryStore.CreateFood | server.ts:592-705 | 400 with no write when the gate fails; otherwise 201 and a new entry with the gate's fields owned by the caller |
| ServerEntries.EntryStore.PatchFood | server.ts:712-768 | 404 or 403 before any write; otherwise the patched entry is stored and returned |
| ServerEntries.EntryStore.DeleteFood | server.ts:775-805 | 404 or 403 with no write; otherwise the entry is removed and 204 |
| ServerEntries.EntryStore.CreateMood | server.ts:837-933 | 400 with no write when a validator fails; otherwise 201 and a new entry from the sanitized body |
| ServerEntries.EntryStore.DeleteMood | server.ts:940-970 | 404 or 403 with no write; otherwise the entry is removed and 204 |
| ServerAnonymous.Others | server.ts:986-996 | exactly the rows of users other than the caller, each as often as in the database result |
| ServerAnonymous.OthersAppend | server.ts:986-996 | the other users keep the database order |
| ServerAnonymous.Label | server.ts:1006 | "Anonymous User " followed by digits that read back as the one-based position |
| ServerAnonymous.LabelsDistinct | server.ts:1005-1008 | different positions get different labels |
| ServerAnonymous.AnonymousList | server.ts:980-1019 | 404 iff there is no other user; otherwise the count of other users and, at each position i, the item (i, "Anonymous User i+1") |
| ServerAnonymous.Anonymize | server.ts:1074-1103 | the label and index, every glucose entry's id and value and every food entry's id, name, carbs, favorite and category in order, and the totals |
| ServerAnonymous.AnonymousAt | server.ts:1027-1111 | 400 iff the index is NaN, negative or above 10000; 404 iff there is no other user, or the index is past the last; otherwise the other user at that position, anonymized |
| ServerAnonymous.CallerNeverServed | server.ts:1043-1049 | the index route never serves the caller's own data |
| ServerAnonymous.ListAndIndexAgree | server.ts:1005-1075 | each listed position up to 10000 is served under the same label, and none past the list |
| TokenService.SetTokensThenGet | src/services/tokenService.ts:10-27 | after setTokens(a, r) the getters return a and r, hasTokens holds iff one is non-empty, and other keys are untouched |
| TokenService.SetAccessTokenKeepsRefresh | src/services/tokenService.ts:32-34 | setAccessToken stores the token and leaves local storage, hence the refresh token, unchanged |
| TokenService.ClearTokensEmpties | src/services/tokenService.ts:39-49 | after clearTokens both getters return null, hasTokens is false, and other keys are untouched |
| TokenService.EmptyTokensAreAbsent | src/services/tokenService.ts:47-49 | stored empty strings count as no tokens |
| TokenService.Storage.SetTokens | src/services/tokenService.ts:10-13 | writes the access token to session storage and the refresh token to local storage |
| TokenService.Storage.GetAccessToken | src/services/tokenService.ts:18-20 | returns the session-storage access token, null when absent |
| TokenService.Storage.GetRefreshToken | src/services/tokenService.ts:25-27 | returns the local-storage refresh token, null when absent |
| TokenService.Storage.SetAccessToken | src/services/tokenService.ts:32-34 | writes only the session-storage access token |
| TokenService.Storage.ClearTokens | src/services/tokenService.ts:39-42 | removes both tokens, after which hasTokens is false |
| TokenService.Storage.HasTokens | src/services/tokenService.ts:47-49 | true iff at least one token is stored as a non-empty string |
| SessionClient.AttachToken | src/api.tsx:51-62 | the Authorization header becomes "Bearer " + token iff a non-empty access token is stored; otherwise the request is unchanged |
| SessionClient.Initial | src/api.tsx:67-71 | the coordinator starts idle with an empty queue |
| SessionClient.OnErrorResponse | src/api.tsx:87-151 | a non-401 or retried request is rejected with nothing else changed; a 401 during a refresh joins the end of the queue; otherwise it leads: _retry and isRefreshing are set and the stored refresh token is posted, or, with none stored, tokens are cleared, the client redirects and the leader is rejected with isRefreshing left set |
| SessionClient.Settle | src/api.tsx:73-85 | every waiter is settled in queue order, all retried with the bearer token or all rejected |
| SessionClient.OnRefreshSuccess | src/api.tsx:122-139 | the access token is stored, local storage and every other session key are kept, the queue is resolved and emptied, isRefreshing cleared, and the leader retried with the new header |
| SessionClient.OnRefreshFailure | src/api.tsx:140-146 | the queue is rejected and emptied, isRefreshing cleared, both token keys removed with every other storage key kept, the client redirects and the leader is rejected |
| SessionClient.TransitionsKeepCoherent | src/api.tsx:67-146 | waiters exist only during a refresh, and a leader only during a refresh with _retry set, after every transition |
| SessionClient.SingleFlight | src/api.tsx:96-126 | any run of 401s posts at most one refresh, and none when one is already in progress |
| SessionClient.Fresh | src/api.tsx:95 | a request passes the 401 test iff it has not been retried yet |
| SessionClient.FreshAppend | src/api.tsx:95 | the passing requests keep their arrival order |
| SessionClient.StuckAfterMissingRefreshToken | src/api.tsx:112-120 | after the missing-token path, every later 401 waits, no refresh is ever posted, and no waiter is settled |
| SessionClient.StuckSettlesOnlyRetried | src/api.tsx:95-120 | in the stuck state a run of 401s adds only the rejections of already-retried requests, in arrival order; no waiter is settled |
| SessionClient.MissingRefreshTokenSticks | src/api.tsx:112-120 | the missing-token path leaves isRefreshing set, no leader and no tokens |
| SessionClient.BurstThenSuccess | src/api.tsx:96-139 | a burst of 401s then a successful refresh: one refresh post with the stored token, the later requests retried in arrival order with the new header, then the first |
| SessionClient.QueueRun | src/api.tsx:96-100 | during a refresh, 401s only append to the queue |
| SessionClient.Interceptor.OnRequest | src/api.tsx:51-62 | the request interceptor's result is AttachToken of the stored tokens |
| SessionClient.Interceptor.ProcessQueue | src/api.tsx:73-85 | the loop appends Settle of the queue to the settled log and empties the queue |
| SessionClient.Interceptor.OnResponseError | src/api.tsx:87-120 | the interceptor's writes produce exactly OnErrorResponse's state |
| SessionClient.Interceptor.OnRefreshAnswered | src/api.tsx:122-139 | the interceptor's writes produce exactly OnRefreshSuccess's state |
| SessionClient.Interceptor.OnRefreshFailed | src/api.tsx:140-146 | the interceptor's writes produce exactly OnRefreshFailure's state |
| Insulin.CarbDose | src/utils/insulinCalculations.ts:21-26 | 0 for a NaN input or zero ratio; otherwise the dose times the ratio is the carbs; non-negative for non-negative carbs and a positive ratio |
| Insulin.CorrectionDose | src/utils/insulinCalculations.ts:32-54 | 0 for a NaN input or zero factor, and whenever glucose is at or below target; otherwise the dose times the factor is the excess, and it is positive for a positive factor |
| Insulin.TotalInsulinDose | src/utils/insulinCalculations.ts:60-84 | null iff carbs or the ratio is NaN or the ratio is 0; otherwise the carb dose, a correction of 0 when glucose is null, and their sum |
| Insulin.ValidateInsulinSettings | src/utils/insulinCalculations.ts:89-102 | the first failing message among ratio at most 0, factor at most 0, target outside [70, 180]; null iff none fails |
| Insulin.NaNSettingsPass | src/utils/insulinCalculations.ts:89-102 | all-NaN settings pass the check yet give no dose |
| Insulin.ValidSettingsGiveDose | src/utils/insulinCalculations.ts:60-102 | settings that pass the check and hold no NaN give a dose for every carb amount, with non-negative parts for non-negative carbs |
| Insulin.CarbDoseMonotone | src/utils/insulinCalculations.ts:21-26 | more carbs never lower the dose under a positive ratio |
| Stats.SumBounds | src/utils/statsCalculators.ts:11 | the sum of values in [lo, hi] lies between count times lo and count times hi |
| Stats.AverageGlucose | src/utils/statsCalculators.ts:6-13 | "0" iff the list is absent or empty; otherwise the mean, whose product with the count is the sum |
| Stats.AverageWithinRange | src/utils/statsCalculators.ts:11-12 | the mean of readings in [lo, hi] lies in [lo, hi] |
| Stats.CountFavorites | src/utils/statsCalculators.ts:25 | never more than the entries, equal exactly when all are favorites, and 0 exactly when none is |
| Stats.CountFavoritesAppend | src/utils/statsCalculators.ts:25 | the count of a concatenation is the sum of the counts |
| Stats.CalculateUserStats | src/utils/statsCalculators.ts:18-28 | counts are list lengths or 0 for absent lists, favorites are the favorite count of the food list and never exceed food entries, and the average is AverageGlucose's, "0" iff there are no readings |
| Stats.KeepCategory | src/utils/statsCalculators.ts:39-48 | an order-preserving subsequence holding each matching entry with its multiplicity and nothing else |
| Stats.FilterEntriesByCategory | src/utils/statsCalculators.ts:33-49 | "All" returns the input; otherwise exactly the matching entries in order, where "Other" matches a missing or empty category, "Other" or "None" |
| Stats.GroupOfAppend | src/utils/statsCalculators.ts:62 | pushing an entry extends its own group only |
| Stats.GroupOfMembers | src/utils/statsCalculators.ts:57-64 | a group is the order-preserving subsequence of entries with its key |
| Stats.GroupOfNone | src/utils/statsCalculators.ts:59-61 | a key no entry has gets no group entries |
| Stats.KeyOrderSpec | src/utils/statsCalculators.ts:58-61 | the keys created are exactly the entries' keys, each once |
| Stats.GroupedSpec | src/utils/statsCalculators.ts:54-65 | the dictionary's keys are the entries' keys, and each maps to its group in input order |
| Stats.GroupSizesSum | src/utils/statsCalculators.ts:57-64 | the group sizes add up to the number of entries |
| Stats.EntryInExactlyOneGroup | src/utils/statsCalculators.ts:58-62 | every entry is in the group of its key, "Uncategorized" when falsy, and in no other |
| Stats.GroupEntriesByCategory | src/utils/statsCalculators.ts:54-65 | the reduce loop builds the dictionary whose keys are the entries' keys and whose groups are the entries of each key in order |
| AuthProvider.GetUserData | src/components/auth/AuthProvider.tsx:27-33 | the stored record, or "User not found" iff nothing is stored under the email |
| AuthProvider.ValidateCredentials | src/components/auth/AuthProvider.tsx:21-25 | passes iff the stored password equals the given one, otherwise the invalid-credentials error |
| AuthProvider.LoginResult | src/components/auth/AuthProvider.tsx:40-53 | "User not found" when nothing is stored; invalid credentials when the stored password differs; otherwise the user {email, stored name, stored entries or []} |
| AuthProvider.RegisterThenLogin | src/pages/auth/RegistrationForm.tsx:26-33 | a record written by the registration form signs in with its password, with no entries |
| AuthProvider.RegisterThenWrongPassword | src/components/auth/AuthProvider.tsx:21-25 | a registered record refuses every other password |
| AuthProvider.UpdateLocksOut | src/components/auth/AuthProvider.tsx:35-38 | after updateUserData writes a record, no password signs that user in |
| AuthProvider.Provider.Login | src/components/auth/AuthProvider.tsx:40-53 | on success isAuthenticated is set and user is LoginResult's user; on an error it is returned and the state is unchanged |
| AuthProvider.Provider.Logout | src/components/auth/AuthProvider.tsx:55-58 | isAuthenticated false and user null |
| AuthProvider.Provider.UpdateUserData | src/components/auth/AuthProvider.tsx:35-38 | the user is written under its email and becomes the current user; isAuthenticated is untouched |

## Left out

- JWT signing and verification internals, bcrypt hashing, and `isEmail`/`normalizeEmail` are
  library code. They enter as parameters (see above).
- Database failures, and the 500 answers of the catch blocks around them, are not modelled.
  The exception is the cases a missing row or a missing secret causes.
- Timestamps, `orderBy` clauses and the rows' `createdAt` fields are not modelled. The order
  of other users in the anonymous routes is whatever order the database returns.
- The handlers for GET/PATCH/DELETE /users/me (server.ts:379-457) are not part of this model,
  nor are their answers: 404 for a missing user, 400 "Invalid email format" and 409 "Email
  already in use" on update, and 500 on database errors. The list routes (server.ts:466-482,
  569-585, 814-830) are not part of this model either.
- Express wiring, helmet, CORS, body parsing, the rate limiters and `app.listen` are left out.
- Route ids are integers. A non-numeric `:id`, which `parseInt` turns into NaN, is not modelled.
- The anonymous index route's `averageGlucose` and `toFixed(1)` are left out. So is the
  formatting of `calculateAverageGlucose`, whose mean is returned as a real.
- Promise scheduling in the client interceptor is left out. The order in which the leader's
  and the waiters' retries actually run is not modelled; `settled` records the order in which
  each fate is decided. The axios transport and `window.location` navigation are left out;
  navigation is counted in `redirects`.
- The response interceptor's success path and the request interceptor's error path pass their
  value through untouched and are not modelled.
- ServerAuth.LoginStep: the login response's user is built from a row loaded with its glucose
  and food entries (server.ts:247-253), so the real body also carries those two lists. The
  model's session body holds only id, email and name.
- ServerAuth.RegisterStep: express-validator's length checks (name, password, and the mood
  notes in ServerEntries.MoodGate) are taken as counts of characters. The library's own
  treatment of variation selectors is not modelled.
- ServerEntries.GlucoseAccepted: takes the body's glucose as a number. A string, which
  `isNaN` and the comparisons would coerce, is not modelled.
- ServerEntries.StoredGlucose: a value below 1e-6, which `toString` renders in exponent
  notation before `parseInt` reads it, is not modelled.
- ServerEntries.FoodCreateGate: the fields other than food and carb are taken at their
  declared types. A non-string weight or unit, or a non-boolean favorite, is not modelled.
- ServerEntries.MoodGate: `notes` that are present but not a string are not modelled.
- Stats.GroupEntriesByCategory: a category naming an `Object.prototype` member (such as
  "toString") is not modelled. Such an entry would find an inherited value in the accumulator.
- The client `User` record is modelled with its food entries only. Extra fields that
  `updateUserData` serialises, such as glucose entries, are not modelled. JSON round trips
  through localStorage are taken as exact.
- Insulin: infinities and IEEE rounding are not modelled. Numbers are reals and NaN is an
  absent value.
- Integer widths: ids and counts are unbounded.
