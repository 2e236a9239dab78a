# Club portal core, modelled in Dafny

This project models the decision logic of a university club portal. The portal has two halves.

**The Vue frontend.** The model covers:
- the axios response interceptor, which refreshes the session once on a 401 and replays the request;
- the Pinia stores: auth, user profile, clubs, participants, schedules, join requests, categories and groups;
- the router guard and scroll behaviour;
- the image-file validators.

**The Flask backend.** The model covers:
- the JWT payload and the `token_required` guard;
- the login and registration result mapping;
- the finance endpoints' bearer check and transaction validation;
- the dynamic `UPDATE … SET` builders of the activity and club services;
- the activity and club row normalisation;
- `null_parse`;
- the CORS origin list.

How each kind of code is modelled:
- **Stores** are classes. Their lists are `seq` fields, and their actions are methods with `modifies this`.
- **DAO results.** Every DAO call, HTTP call or database call an action awaits is an input. `Result`/`Outcome` carry whether it succeeded, so an action that rethrows returns the error instead.
- **Backend views** are functions from the request (headers, and the result of `request.get_json()` as a `Value`, which need not be an object) and the service results to a `Reply`. A Python exception that Flask turns into a crash is the `Crash` reply.
- **Foreign calls are oracles** passed as function parameters: `jwt.decode`, `json.loads`/`json.dumps`, `float()` (a number, a `ValueError`/`TypeError`, or an `OverflowError`), bcrypt's `checkpw` (an answer or a raise), Python's `str()` of a token claim, password hashing, the service that inserts a transaction, and the transport behind axios.
- **The interceptor** is a fuel-bounded recursive function over a stateful transport `(S, Request) -> (S, Reply)`. Running out of fuel is an outcome of its own, which exposes the refresh loop that never settles.

Shared modules:
- `Wrappers`: Option, Result, Outcome.
- `Values`: JSON/Python values, truthiness, `dict.get`, `isoformat`.
- `PyStr`: `strip`, `lower`, `split`, `join`, `startswith`.
- `JsArray`: `findIndex`, `find`, `filter`, and the find-then-mutate update.
- `SqlText`: counting `%s` placeholders.
- `ApiErrors`: the frontend's `err.response?.data?.message || …` chains.
- `Responses`: the two JSON error-body shapes.

Where the code and its own documentation or intended use disagree, the model follows the code:
- `create_user_db` returns a 2-tuple, but `create_user` reads `user_data[4]`. With that service, registration therefore always raises (`AuthController.EnrollServicePairCrashes`).
- `login_user_db` returns `(str(e), False)` on a database error, and `login_user` then reads column 8 and raises (`AuthController.LoginServiceErrorCrashes`).
- The finance views call `jwts.decode_token`, which the JWT service does not define. With a `Bearer` header they therefore always answer 500 (`FinanceController.MissingDecoderGives500`). The decoder is kept as a parameter so the intended paths are modelled too.
- The router calls `auth.initializeFromToken()`, which the auth store does not define. Its effect is the guard's `authenticatedAfterInit` input.
- `useUserStore.updateProfile` calls `UserDao.updateProfile(payload)`, while the DAO takes `(userId, payload)`. The call's outcome is an input, so the argument mismatch does not show in the model.

## Model

| member | source | states |
|---|---|---|
| Values.Get | backend/controllers/finance_controller.py:91 | `dict.get`: the stored value when the key is present, otherwise None |
| Values.IsoFormat | backend/services/activity_service.py:59 | a falsy cell gives None; a timestamp gives its ISO text; any other truthy cell makes `isoformat` raise |
| Values.Field | backend/controllers/auth_controller.py:9-11 | the member of a JSON object, or None for a value that is not an object |
| Values.KeysPresent | backend/services/activity_service.py:356-359 | the whitelist entries present in the dict, each a key of the dict; empty iff no whitelist key is present |
| Values.KeysPresentMembers | backend/services/activity_service.py:356-359 | a key is selected iff it is both in the whitelist and in the dict |
| Values.KeysPresentStep | backend/services/activity_service.py:356-359 | one more whitelist entry adds itself to the selection exactly when the dict holds it |
| Values.KeysPresentAppend | backend/services/activity_service.py:356-359 | the keys found in two concatenated whitelists are the keys found in each, in order |
| Values.KeysPresentAll | backend/services/activity_service.py:356-359 | when every whitelist key is present, all of them are kept in whitelist order |
| Values.KeysPresentIgnoresOthers | backend/services/activity_service.py:359 | dicts that agree on which whitelist keys they hold yield the same key list |
| ApiErrors.ServerMessageOr | frontend/src/store/useAuthStore.ts:67 | the server's message when present and non-empty, otherwise the fallback |
| ApiErrors.ErrorText | frontend/src/store/useClubStore.ts:81 | the server message, else `err.message`, else the fallback; never empty |
| PyStr.TrimLeft | backend/utils/db.py:38 | the suffix left after the leading whitespace is removed; it starts with no whitespace |
| PyStr.TrimRight | backend/utils/db.py:38 | the prefix left after the trailing whitespace is removed; it ends with no whitespace |
| PyStr.Strip | backend/utils/db.py:38 | `str.strip()`: no whitespace at either end of the result, which is empty iff the input is all whitespace |
| PyStr.StripOfStripped | backend/app.py:40 | stripping a string without surrounding whitespace returns it unchanged |
| PyStr.StripIdempotent | backend/app.py:40 | stripping twice is stripping once |
| PyStr.TrimLeftPadded | backend/utils/db.py:38 | leading whitespace padding is removed exactly, up to a non-blank word |
| PyStr.TrimRightPadded | backend/utils/db.py:38 | trailing whitespace padding is removed exactly |
| PyStr.StripPadded | backend/utils/db.py:38 | `(pad + w + pad).strip() == w` for whitespace padding and a stripped non-empty word |
| PyStr.StripSubstring | backend/app.py:40 | stripping never introduces a character absent from the input |
| PyStr.Lower | backend/utils/db.py:38 | `str.lower()` keeps the length and lowers each letter |
| PyStr.Split | backend/app.py:40 | `str.split(sep)`: at least one piece, and no piece contains the separator |
| PyStr.UpTo | backend/services/jwt_service.py:56 | the prefix before the first separator: it holds no separator and, when shorter than the input, is followed by one |
| PyStr.SplitPrefix | backend/services/jwt_service.py:56 | splitting `p + sep + rest` gives `p` first and the split of `rest` after |
| PyStr.SplitFirst | backend/services/jwt_service.py:56 | the first piece of a split is the text up to the first separator, and the other pieces split the rest |
| PyStr.SplitSecond | backend/services/jwt_service.py:56 | after a separator at a known position, the second piece is the text up to the next separator |
| PyStr.SplitJoin | backend/app.py:40 | splitting the join of separator-free pieces gives the pieces back |
| PyStr.JoinSplit | backend/app.py:40 | joining the split of a string gives the string back |
| JsArray.FindIndex | frontend/src/store/useClubStore.ts:154 | `findIndex`: -1 iff nothing matches, otherwise the first matching index |
| JsArray.Find | frontend/src/store/useClubStore.ts:58 | `find`: absent iff nothing matches, otherwise the element at the first matching index |
| JsArray.UpdateFirst | frontend/src/store/useClubStore.ts:236-240 | find-then-mutate: same length, the first match replaced by its update, every other element kept |
| JsArray.UpdateFirstNoMatch | frontend/src/store/group.ts:22 | with no match the list is unchanged |
| JsArray.UpdateFirstIdempotent | frontend/src/store/group.ts:21-22 | an update that keeps the match and is idempotent makes the whole step idempotent |
| JsArray.Filter | frontend/src/store/useClubStore.ts:264 | `filter`: kept elements satisfy the test and come from the input; every satisfying element is kept |
| JsArray.FilterAppend | frontend/src/store/useClubStore.ts:264 | filtering distributes over concatenation, so the relative order is preserved |
| JsArray.FilterKeepsAll | frontend/src/store/useClubStore.ts:264 | a filter that rejects nothing returns its input |
| JsArray.FilterIdempotent | frontend/src/store/useJoinRequestStore.ts:27 | filtering twice by the same test is filtering once |
| JsArray.FilterSubMultiset | frontend/src/store/useParticipantStore.ts:44 | filtering never adds occurrences |
| SqlText.PlaceholdersAppend | backend/services/activity_service.py:368 | the `%s` count of a concatenation is the sum of the counts, plus one when `%` and `s` meet at the seam |
| SqlText.Placeholders | backend/services/activity_service.py:368 | the number of `%s` occurrences, positive iff `%s` occurs somewhere |
| SqlText.NoPercentNoPlaceholders | backend/services/activity_service.py:368 | text without `%` has no placeholder |
| SqlText.FragmentPlaceholders | backend/services/activity_service.py:360 | `col + " = %s"` holds exactly one placeholder |
| SqlText.JoinPlaceholders | backend/services/activity_service.py:368 | `", ".join` of fragments holds the sum of their placeholders |
| SqlText.StatementPlaceholders | backend/services/activity_service.py:368 | prefix, SET list and WHERE suffix together hold the prefix's placeholders, one per fragment, and the suffix's |
| SqlText.Fragments | backend/services/activity_service.py:360 | one `"col = %s"` fragment per column, in column order |
| SqlText.FragmentsPlaceholders | backend/services/activity_service.py:360 | every fragment of a `%`-free column holds exactly one placeholder |
| SqlText.SetListPlaceholders | backend/services/activity_service.py:368 | the whole UPDATE text holds one placeholder per column plus the suffix's |
| ActivityService.BuildSetClause | backend/services/activity_service.py:353-361 | the loop yields one fragment and one value per whitelisted key present, in whitelist order, each value the body's |
| ActivityService.SetClauseOver | backend/services/activity_service.py:356-361 | the same loop over any whitelist: one `col = %s` fragment and the body's value per present key, in whitelist order |
| ActivityService.ColumnValues | backend/services/activity_service.py:361 | the values of the chosen columns, in order |
| ActivityService.PlanUpdate | backend/services/activity_service.py:353-368 | the method's statement is the `UpdatePlanOf` specification |
| ActivityService.PlanReturnsCurrent | backend/services/activity_service.py:363-364 | the update returns the current activity without executing iff no whitelisted key is present |
| ActivityService.PlanParams | backend/services/activity_service.py:361-366 | the parameters are the present values in whitelist order followed by the activity id |
| ActivityService.PlanPlaceholders | backend/services/activity_service.py:360-370 | the statement's `%s` count equals its parameter count |
| ActivityService.UpdatePlanOf | backend/services/activity_service.py:353-370 | an UPDATE is planned iff a whitelisted key is present; it carries one parameter per such key and the activity id last |
| ActivityService.PlanForPlaceholders | backend/services/activity_service.py:360-370 | for any `%`-free column list, placeholders and parameters match |
| ActivityService.ColumnsHaveNoPercent | backend/services/activity_service.py:356-358 | no whitelisted column name contains `%` |
| ActivityService.PrefixPlaceholders | backend/services/activity_service.py:368 | `UPDATE activities SET ` holds no placeholder and ends without `%` |
| ActivityService.SuffixPlaceholders | backend/services/activity_service.py:368 | ` WHERE activity_id = %s` holds one placeholder and does not start with `s` |
| ActivityService.SetClauseWhitelistOnly | backend/services/activity_service.py:356-360 | every SET column is a whitelisted key present in the body |
| ActivityService.SetClauseWhitelistOrder | backend/services/activity_service.py:356-360 | with every key present, the SET columns are the whole whitelist in its order |
| ActivityService.SetClauseIgnoresOtherKeys | backend/services/activity_service.py:359 | a non-whitelisted key in the body does not change the SET clause |
| ActivityService.InsertParams | backend/services/activity_service.py:317-327 | nine parameters from `dict.get`; the status defaults to 1; the creator is the caller's id |
| ActivityService.InsertIgnoresBodyCreator | backend/services/activity_service.py:324 | a `creator_id` in the body does not change the inserted creator |
| ActivityService.DeleteActivity | backend/services/activity_service.py:388-407 | participants are deleted, then the activity, then the commit; success iff connected and all three run; a failure stops at the failing statement |
| ActivityService.DeleteFrom | backend/services/activity_service.py:393-396 | a `DELETE FROM <table> WHERE activity_id = %s` statement with one placeholder and the id as its one parameter |
| ActivityService.DeletePlan | backend/services/activity_service.py:392-398 | participants are deleted first, then the activity, then the commit; each DELETE has one placeholder and the id as its parameter |
| ActivityService.MapActivityRow | backend/services/activity_service.py:50-65 | a 14-column row maps column by column, with the date through `isoformat`; short rows and dates `isoformat` cannot format fail |
| ActivityService.MapAllRows | backend/services/activity_service.py:48-69 | every row maps, in order, or the listing fails |
| ActivityService.MapActivityRows | backend/services/activity_service.py:48-73 | the loop returns the mapped rows, or `[]` when any row raises |
| ClubService.ColumnFor | backend/services/club_service.py:98-103 | `description` is written to `group_description`; every other key keeps its name |
| ClubService.SimpleKeys | backend/services/club_service.py:95-97 | the simple settings keys present in the body |
| ClubService.BuildSettingsUpdate | backend/services/club_service.py:91-109 | the loop yields the fragments and values of the present simple keys, then `social_links` as JSON text |
| ClubService.SettingsLoop | backend/services/club_service.py:96-104 | the field loop over any key list and key-to-column map: one fragment for the mapped column and the body's value per present key, in order |
| ClubService.AssignmentsFromLoop | backend/services/club_service.py:96-109 | the loop's simple-key prefix plus the social step is the specification's fragment and value list |
| ClubService.UpdateClubSettings | backend/services/club_service.py:82-128 | the statement is issued iff connected and there is something to update; True iff connected and it runs or there is nothing to update |
| ClubService.SettingsKeysSplit | backend/services/club_service.py:95-108 | the settings keys are the simple keys followed by `social_links` when present |
| ClubService.ColumnNames | backend/services/club_service.py:98-103 | a simple key maps to `group_description` iff it is `description`, and never to `description` or `social_links` |
| ClubService.DescriptionColumn | backend/services/club_service.py:98-99 | `group_description` is set iff `description` is in the body; `description` is never a column |
| ClubService.SettingsIgnoreOtherKeys | backend/services/club_service.py:96-108 | keys outside the four settings do not change the plan |
| ClubService.SettingsOrder | backend/services/club_service.py:95-108 | with all four keys, the columns are logo_url, group_description, has_funds, social_links |
| ClubService.SettingsNothingToUpdate | backend/services/club_service.py:111-112 | nothing is executed iff none of the four keys is present |
| ClubService.SettingsPlanParams | backend/services/club_service.py:114-116 | one parameter per column plus the club id last, matching the placeholder count |
| ClubService.SettingsPlanOf | backend/services/club_service.py:111-118 | an UPDATE is planned iff a settings column is present; one parameter per column and the club id last |
| ClubService.ColumnsHaveNoPercent | backend/services/club_service.py:99-108 | no settings column contains `%` |
| ClubService.SettingsPrefixPlaceholders | backend/services/club_service.py:116 | `UPDATE groups SET ` has no placeholder and ends without `%` |
| ClubService.SettingsSuffixPlaceholders | backend/services/club_service.py:116 | ` WHERE group_id = %s` holds one placeholder |
| ClubService.SocialLinks | backend/services/club_service.py:50-55 | `{}` for a falsy cell or one `json.loads` rejects, otherwise the parsed value |
| ClubService.HasFunds | backend/services/club_service.py:66 | `bool(cell)`, with NULL giving False |
| ClubService.GetClubDetails | backend/services/club_service.py:44-75 | no row gives None; a 13-column row maps each column to its field, the date via `isoformat`, `has_funds` via its truth value and `social_links` parsed; a row that raises gives None |
| Db.NullParse | backend/utils/db.py:25-48 | None, empty containers, null words after strip/lower and JSON text of an empty container become None; anything else is returned unchanged |
| Db.NullParseIdempotent | backend/utils/db.py:25-48 | applying `null_parse` twice is applying it once |
| Db.NullWordPadded | backend/utils/db.py:38-40 | whitespace around `null`, `none` or blank does not stop it becoming None |
| Db.BlankIsNull | backend/utils/db.py:38-40 | a whitespace-only string is None |
| App.StrippedNonBlank | backend/app.py:40 | the stripped non-blank pieces: never more than the pieces |
| App.StrippedNonBlankClean | backend/app.py:40 | every kept entry is non-empty and stripped |
| App.StrippedNonBlankAppend | backend/app.py:40 | the comprehension distributes over concatenation, keeping order |
| App.StrippedNonBlankSingle | backend/app.py:40 | one piece yields its stripped form, or nothing when it is blank |
| App.AllowedOrigins | backend/app.py:39-40 | every allowed origin is non-empty, stripped and comma-free |
| App.CommaFree | backend/app.py:40 | pieces without commas stay without commas |
| App.NoOrigins | backend/app.py:39-40 | an unset or empty `FRONTEND_ORIGIN` allows no origin |
| App.OriginsRoundTrip | backend/app.py:39-40 | a comma-joined list of clean origins parses back to itself |
| App.KeepsClean | backend/app.py:40 | clean pieces pass through unchanged |
| App.BlankBetween | backend/app.py:40 | two non-blank pieces around a blank one leave exactly their two stripped texts |
| App.PaddedPieces | backend/app.py:40 | whitespace-padded entries around a whitespace-only piece clean up to the two entries |
| App.PaddedEntries | backend/app.py:39-40 | padded entries and blank entries between commas are stripped and dropped |
| Responses.Failure | backend/controllers/auth_controller.py:14 | a JSON body with `success` False and the message, under the given status |
| Responses.ErrorReply | backend/controllers/finance_controller.py:19 | a JSON body with the `error` message, under the given status |
| JwtService.CreateTokenPayload | backend/services/jwt_service.py:16-28 | the user claims plus `exp` (now + expiry, default 300 s), `iss` and `type`; `jti` for refresh tokens; no other keys |
| JwtService.SelectToken | backend/services/jwt_service.py:53-58 | refresh tokens and requests without a Bearer header use the `refresh_token` cookie |
| JwtService.BearerToken | backend/services/jwt_service.py:55-56 | otherwise the token is the header's second space-separated piece |
| JwtService.TokenRequired | backend/services/jwt_service.py:52-75 | every refusal is 401; the view runs iff a token exists, verifies, and has the expected type; `current_user` is its claims |
| JwtService.DenyMessage | backend/services/jwt_service.py:60-74 | each refusal's text: the two fixed texts identify their reasons, the wrong-type text carries the expected type after its head, the processing text ends with the exception's text |
| JwtService.MissingTokenRefused | backend/services/jwt_service.py:59-60 | a missing token is refused before the verifier is consulted |
| JwtService.RefreshIgnoresHeader | backend/services/jwt_service.py:55-58 | a refresh-protected view does not depend on the Authorization header |
| JwtService.WrongTypeRefused | backend/services/jwt_service.py:66-69 | a verified token of another type is refused with both types in the reason |
| JwtService.CreatedTokenAccepted | backend/services/jwt_service.py:16-30 | a token made by `create_token` passes the guard iff its type is the expected one |
| AuthController.LoginBody | backend/controllers/auth_controller.py:22-33 | the login body copies columns 0-7 and adds success and message |
| AuthController.ValidatePassword | backend/utils/security.py:7-9 | an answer only when both arguments are strings and bcrypt answers; that answer is bcrypt's |
| AuthController.LoginUser | backend/controllers/auth_controller.py:4-36 | a body that is not a JSON object raises; 400 for incomplete credentials, 404 for no user, a raise for a short row or a password check that raises, 200 with the body when the password matches, 401 otherwise |
| AuthController.IncompleteBeforeLookup | backend/controllers/auth_controller.py:13-14 | incomplete credentials are refused whatever the lookup would return |
| AuthController.LoginSucceedsIff | backend/controllers/auth_controller.py:13-34 | 200 iff the body is an object with complete credentials, the user exists and bcrypt accepts the password against column 8 |
| AuthController.NonStringPasswordCrashes | backend/controllers/auth_controller.py:21 | a truthy password that is not a string makes `validate_password` raise, so the view answers 500, not 401 |
| AuthController.LoginServiceErrorCrashes | backend/controllers/auth_controller.py:21 | the service's `(str(e), False)` error pair makes the view raise |
| AuthController.CreateUser | backend/controllers/auth_controller.py:38-58 | 201 iff the result is truthy and column 4 is truthy; else 400 with column 2 or the unknown-error text |
| AuthController.EnrollServicePairCrashes | backend/controllers/auth_controller.py:46 | a 2-tuple result makes the view raise |
| FinanceController.Authenticate | backend/controllers/finance_controller.py:17-25 | no Bearer header gives 401; a raising decoder gives 500; a falsy payload gives 401 |
| FinanceController.GetFinanceSummary | backend/controllers/finance_controller.py:9-36 | the auth refusal, else 500 for no summary, else 200 with it |
| FinanceController.GetClubTransactions | backend/controllers/finance_controller.py:38-62 | the auth refusal, else 200 with the transactions |
| FinanceController.MissingDecoderGives500 | backend/controllers/finance_controller.py:22 | with a decoder that raises, both views answer 500 |
| FinanceController.FirstMissing | backend/controllers/finance_controller.py:90-92 | the first required field whose value is falsy, absent iff all are truthy |
| FinanceController.ValidateTransaction | backend/controllers/finance_controller.py:89-105 | accepted iff all fields are truthy, the type is income or expense, and the amount parses positive; the result is that amount; an `OverflowError` from `float()` escapes iff the fields and type pass and the amount is too large |
| FinanceController.ZeroAmountIsMissing | backend/controllers/finance_controller.py:91 | an amount of 0 is reported as a missing field |
| FinanceController.FirstMissingSkips | backend/controllers/finance_controller.py:90-92 | checked truthy fields can be skipped |
| FinanceController.MissingFieldReported | backend/controllers/finance_controller.py:90-92 | the reported field is the first missing one |
| FinanceController.AddTransaction | backend/controllers/finance_controller.py:64-116 | auth refusal, 500 for a non-object body, the validation error, 500 for an amount `float()` overflows on, else an insert of the data with the float amount, answering 201 or 500 |
| ImageValidation.ValidateImageFile | frontend/src/composables/useImageValidation.ts:10-32 | valid iff the type is allowed and the size is at most 10 MiB; the type message wins; a valid result says 'Archivo válido' |
| ImageValidation.TypeReportedFirst | frontend/src/composables/useImageValidation.ts:14-19 | a wrong type that is also too large reports the type |
| ImageValidation.SizeBoundInclusive | frontend/src/composables/useImageValidation.ts:21 | exactly 10 MiB is accepted; one byte more is refused |
| ImageDao.ValidateImageFile | frontend/src/services/dao/ImageDao.ts:63-85 | valid iff type allowed and size at most 10 MiB, with the type message first |
| ImageDao.SameAsComposable | frontend/src/services/dao/ImageDao.ts:63-85 | the DAO's validator and the composable's agree on every file |
| Http.Send | frontend/src/services/http.ts:22-53 | a settled request resolves only with a 2xx and rejects only with an error that does not trigger a refresh; only the request, the refresh and the marked replay are sent; a marked request is sent once |
| Http.SuccessPassesThrough | frontend/src/services/http.ts:24 | a 2xx reply is returned as is after one call |
| Http.OtherErrorRejected | frontend/src/services/http.ts:51-52 | a non-401 error is rejected unchanged after one call |
| Http.MarkedRequestRejected | frontend/src/services/http.ts:31 | a 401 on an already retried request is rejected without a refresh |
| Http.RefreshThenReplay | frontend/src/services/http.ts:31-40 | a first 401 calls the refresh, then replays the marked request and settles as the replay |
| Http.RefreshFailureLogsOut | frontend/src/services/http.ts:42-47 | a refresh that fails logs out and rejects with the refresh's error |
| Http.Repeat | frontend/src/services/http.ts:37 | n copies of an event |
| Http.RefreshLoopDiverges | frontend/src/services/http.ts:31-37 | when the refresh endpoint answers 401, posting it recurses into itself for ever |
| Http.SessionExpiryNeverSettles | frontend/src/services/http.ts:31-47 | a 401 with an expired refresh never settles and never logs out |
| AuthStore.MapUserToLean | frontend/src/store/useAuthStore.ts:19-22 | the lean user keeps id, name and type, and takes the profile photo as avatar |
| AuthStore.LeanDependsOnFourFields | frontend/src/store/useAuthStore.ts:20-21 | two users map to the same lean user iff they agree on those four fields |
| AuthStore.AuthStore.constructor | frontend/src/store/useAuthStore.ts:25-29 | no user, not loading, no error |
| AuthStore.AuthStore.IsAuthenticated | frontend/src/store/useAuthStore.ts:35 | `!!state.user`: true iff a user is stored; Login and Logout state how it moves |
| AuthStore.AuthStore.Bootstrap | frontend/src/store/useAuthStore.ts:43-55 | with a user nothing happens; otherwise the user is the lean `me` result or none, and loading ends false |
| AuthStore.AuthStore.Login | frontend/src/store/useAuthStore.ts:60-72 | a failed login sets and rethrows the server message or 'Credenciales inválidas.'; success bootstraps and clears the error; loading ends false |
| AuthStore.AuthStore.Logout | frontend/src/store/useAuthStore.ts:77-84 | the backend is told once, the state is reset, and one 'logout' message is posted |
| AuthStore.AuthStore.OnMessage | frontend/src/store/useAuthStore.ts:89-94 | the tab logs out and reloads iff the message is 'logout' and it is signed in; otherwise nothing changes |
| AuthStore.BootstrapTwice | frontend/src/store/useAuthStore.ts:44 | a second bootstrap after a successful one keeps the user |
| AuthStore.CrossTabLogout | frontend/src/store/useAuthStore.ts:83-94 | a logout in one tab signs out the other; the echo back is ignored, so at most two messages are posted |
| Router.PublicRoutes | frontend/src/router/index.ts:22-48 | exactly the four authentication routes do not require auth |
| Router.BeforeEach | frontend/src/router/index.ts:63-75 | the token is restored only when signed out with a 'jwt' entry; an auth route while signed out redirects to Login with the full path; everything else proceeds |
| Router.RedirectTargetIsPublic | frontend/src/router/index.ts:70-71 | the redirect target is the public Login route, which the guard always lets through |
| Router.SignedInProceeds | frontend/src/router/index.ts:66-73 | a signed-in user proceeds and no token restoration is attempted |
| Router.PublicRouteProceeds | frontend/src/router/index.ts:70-73 | public routes proceed whatever the session |
| Router.ScrollBehavior | frontend/src/router/index.ts:54-59 | the saved position when there is one, otherwise the top |
| UserStore.UserStore.constructor | frontend/src/store/useUserStore.ts:44-74 | every modal closed, no toast, groups collapsed, panel closed |
| UserStore.UserStore.FilteredGroups | frontend/src/store/useUserStore.ts:77-80 | empty without a user or groups; all groups when expanded; otherwise the first min(3, n) in order |
| UserStore.UserStore.IsAnyModalOpen | frontend/src/store/useUserStore.ts:81-83 | some modal flag is true; then the modal map is non-empty |
| UserStore.UserStore.ToggleGroupsView | frontend/src/store/useUserStore.ts:101 | negates the expansion flag and nothing else |
| UserStore.UserStore.CloseAllModals | frontend/src/store/useUserStore.ts:107-110 | every modal and the panel end closed; nothing else changes |
| UserStore.UserStore.OpenModal | frontend/src/store/useUserStore.ts:102-106 | a known name leaves exactly that modal open; an unknown one leaves none; the panel ends closed |
| UserStore.UserStore.ToggleNotificationPanel | frontend/src/store/useUserStore.ts:124-131 | the panel always ends closed; opening it closes every modal |
| UserStore.UserStore.ToggleNotificationPanelIntended | frontend/src/store/useUserStore.ts:117-123 | the panel alternates and opening it closes every modal |
| UserStore.UserStore.ShowToast | frontend/src/store/useUserStore.ts:111-112 | the toast shows the message with the type |
| UserStore.UserStore.HideToast | frontend/src/store/useUserStore.ts:115 | hidden with an empty message; the type is kept |
| UserStore.UserStore.UpdateProfile | frontend/src/store/useUserStore.ts:91-100 | success merges the payload into the profile with the success toast; failure sets the error and an error toast; loading ends false |
| UserStore.MergeWins | frontend/src/store/useUserStore.ts:95 | after the merge each payload key has the payload's value and other keys keep theirs |
| UserStore.SwitchModal | frontend/src/store/useUserStore.ts:102-106 | opening a second modal leaves only it open |
| UserStore.ToggleGroupsTwice | frontend/src/store/useUserStore.ts:101 | two toggles restore the flag and the filtered list |
| UserStore.PanelNeverOpens | frontend/src/store/useUserStore.ts:124-131 | after any positive number of toggles the panel is closed |
| ClubStore.ClubStore.constructor | frontend/src/store/useClubStore.ts:21-40 | empty collections, no busy flag on, no error |
| ClubStore.ClubStore.PendingJoinRequests | frontend/src/store/useClubStore.ts:55 | exactly the requests with status 'pending' |
| ClubStore.ClubStore.ClubById | frontend/src/store/useClubStore.ts:58 | the first club with the id, absent iff none has it |
| ClubStore.ClubStore.ClearError | frontend/src/store/useClubStore.ts:68-70 | clears the error only |
| ClubStore.ClubStore.FetchAllClubs | frontend/src/store/useClubStore.ts:75-86 | success replaces `clubs`; failure keeps it, sets the error text and rethrows; the flag ends false |
| ClubStore.ClubStore.FetchMyClubs | frontend/src/store/useClubStore.ts:91-102 | the same for `myClubs` |
| ClubStore.ClubStore.FetchDetails | frontend/src/store/useClubStore.ts:107-120 | success sets the details; failure leaves none, sets the error and rethrows |
| ClubStore.ClubStore.CreateClub | frontend/src/store/useClubStore.ts:125-142 | success prepends the club to both lists, where `getClubById` then finds it; failure changes no list |
| ClubStore.ClubStore.UpdateClub | frontend/src/store/useClubStore.ts:147-176 | the first match in each list is replaced, and the details when they are that club; failure changes nothing but the error |
| ClubStore.ClubStore.RequestJoinClub | frontend/src/store/useClubStore.ts:181-192 | only the error and the flag change |
| ClubStore.ClubStore.FetchClubMembers | frontend/src/store/useClubStore.ts:197-208 | success replaces the members; failure keeps them and rethrows |
| ClubStore.ClubStore.FetchJoinRequests | frontend/src/store/useClubStore.ts:213-224 | success replaces the requests; failure keeps them and rethrows |
| ClubStore.ClubStore.ProcessJoinRequest | frontend/src/store/useClubStore.ts:229-252 | the first matching request becomes approved or rejected at the given time; an approval reloads the members; any error ends with this action's text |
| ClubStore.ClubStore.DeleteClub | frontend/src/store/useClubStore.ts:257-277 | every club with the id leaves both lists, so `getClubById` finds none; matching details are cleared |
| ClubStore.ClubStore.ResetState | frontend/src/store/useClubStore.ts:282-295 | all collections emptied and the error cleared; loadingMembers, loadingJoinRequests and updatingClub untouched |
| ClubStore.ClubStore.UpdateSettings | frontend/src/store/useClubStore.ts:300-313 | only the error and the flag change |
| ClubStore.ClubStore.InviteMembers | frontend/src/store/useClubStore.ts:318-330 | only the error and the flag change |
| ClubStore.ClubStore.UpdateClubMember | frontend/src/store/useClubStore.ts:335-348 | success reloads the members; an error from either call ends with this action's text |
| ClubStore.UpdateClubIdempotent | frontend/src/store/useClubStore.ts:154-162 | applying the same update twice is applying it once |
| ClubStore.DeleteKeepsOthers | frontend/src/store/useClubStore.ts:264-265 | deletion keeps the other clubs in order and removes every copy of the id |
| ClubStore.ProcessedLeavesPending | frontend/src/store/useClubStore.ts:236-239 | the processed request has the new status and is no longer pending |
| ParticipantStore.ParticipantStore.constructor | frontend/src/store/useParticipantStore.ts:6-10 | empty list, not loading, no error |
| ParticipantStore.ParticipantStore.FetchByActivity | frontend/src/store/useParticipantStore.ts:12-21 | success replaces the list; failure keeps it and sets the error; loading ends false |
| ParticipantStore.ParticipantStore.Register | frontend/src/store/useParticipantStore.ts:22-36 | the list is reloaded only after a successful registration |
| ParticipantStore.ParticipantStore.UpdateAttendance | frontend/src/store/useParticipantStore.ts:37-41 | after the DAO succeeds the first participant with the id gets the status; a failure propagates with the list unchanged |
| ParticipantStore.ParticipantStore.Remove | frontend/src/store/useParticipantStore.ts:42-45 | after the DAO succeeds every participant with the id is dropped |
| ParticipantStore.AttendanceTouchesOneEntry | frontend/src/store/useParticipantStore.ts:39-40 | only the first match changes, and only its status |
| ParticipantStore.RemoveDropsAll | frontend/src/store/useParticipantStore.ts:44 | no participant with the id remains and every other one does |
| ScheduleStore.ScheduleStore.constructor | frontend/src/store/useScheduleStore.ts:6-10 | empty list, not loading, no error |
| ScheduleStore.ScheduleStore.FetchByActivity | frontend/src/store/useScheduleStore.ts:12-21 | success replaces the list; failure keeps it and sets the error |
| ScheduleStore.ScheduleStore.Create | frontend/src/store/useScheduleStore.ts:22-25 | one entry appended: the payload with the returned `schedule_id` |
| ScheduleStore.ScheduleStore.Update | frontend/src/store/useScheduleStore.ts:26-32 | the payload is merged into the first entry with the id |
| ScheduleStore.ScheduleStore.Remove | frontend/src/store/useScheduleStore.ts:33-36 | every entry with the id is dropped |
| ScheduleStore.MergeKeepsOthers | frontend/src/store/useScheduleStore.ts:30 | the merge takes the payload's fields and keeps the others |
| ScheduleStore.UpdateUnknownId | frontend/src/store/useScheduleStore.ts:28-29 | an unknown id changes nothing |
| ScheduleStore.RemoveAfterCreate | frontend/src/store/useScheduleStore.ts:22-35 | removing a freshly created id restores the list |
| JoinRequestStore.JoinRequestStore.constructor | frontend/src/store/useJoinRequestStore.ts:7-11 | empty list, not loading, no error |
| JoinRequestStore.JoinRequestStore.FetchPending | frontend/src/store/useJoinRequestStore.ts:13-22 | success replaces the list; failure keeps it and sets the error; loading ends false |
| JoinRequestStore.JoinRequestStore.Process | frontend/src/store/useJoinRequestStore.ts:23-33 | success drops every request with the id; failure keeps the list and sets the error |
| JoinRequestStore.ProcessTwice | frontend/src/store/useJoinRequestStore.ts:27 | processing twice is processing once, and no request with the id remains |
| JoinRequestStore.ProcessKeepsOrder | frontend/src/store/useJoinRequestStore.ts:27 | the other requests keep their order |
| CategoryStore.CategoryStore.constructor | frontend/src/store/useCategoryStore.ts:11-22 | the items start as the six fallback categories |
| CategoryStore.CategoryStore.FetchAll | frontend/src/store/useCategoryStore.ts:29-47 | no-op once fetched; items replaced only by a non-empty array; fetched only after success; loading ends false |
| CategoryStore.FetchOnce | frontend/src/store/useCategoryStore.ts:30 | after one success a later fetch changes nothing |
| CategoryStore.RetryAfterFailure | frontend/src/store/useCategoryStore.ts:40-44 | a failure keeps the fallback and allows a later attempt |
| GroupStore.GroupStore.constructor | frontend/src/store/group.ts:8-16 | the groups and activities it is given |
| GroupStore.GroupStore.MyGroups | frontend/src/store/group.ts:18 | exactly the groups with `isMember`, in order |
| GroupStore.GroupStore.JoinGroup | frontend/src/store/group.ts:20-23 | the first group with the id becomes a membership, and it then shows in `myGroups` |
| GroupStore.JoinUnknown | frontend/src/store/group.ts:22 | an unknown id changes nothing |
| GroupStore.JoinIdempotent | frontend/src/store/group.ts:22 | joining twice is joining once |

## Left out

- I/O is not modelled, and neither is anything else that happens outside the decision logic:
  - database connections, cursors and rollbacks;
  - HTTP transport and cookies;
  - JWT signing;
  - password hashing;
  - e-mail;
  - `console` output and `setTimeout`;
  - `window.location.reload`.

  Each one enters the model only as the result it returns, passed as a parameter.
- The BroadcastChannel delivers messages asynchronously. The model delivers a posted message by an explicit call (`AuthStore.CrossTabLogout`).
- Aliasing is not modelled:
  - `find` returns an element that is then mutated in place, and the model writes the updated element back into the sequence;
  - the interceptor's `_retry` mark lives on the shared config object, and the model carries it on the replayed request value.
- Http.Send: the bound on recursion depth is a fuel parameter. An exhausted fuel is reported as `OutOfFuel` rather than as an unbounded wait.
- Unicode: `strip` removes ASCII and Latin-1 whitespace (including U+001C–U+001F, U+0085 and U+00A0); other Unicode spaces (U+2000–U+200A, U+3000, …) are not stripped. `lower` folds ASCII letters only.
- Floats are reals. `float()` is an oracle that answers a number or raises, so NaN and infinities are not distinguished.
- Router.ScrollBehavior: `{ top: 0 }` is modelled as the position (0, 0). The horizontal coordinate is not left to the browser.
- Python exceptions that Flask turns into a 500 are the `Crash` reply, with no body.
- Rows and records:
  - The activity and club rows are mapped to record datatypes rather than to JSON dictionaries.
  - Columns hold `Value`s. A column's position stands for its key.
- ActivityService.DeleteActivity and ClubService.UpdateClubSettings: acquiring the connection is a single `connected` input that is decided before any statement.
- The user store's profile:
  - UserStore.UserStore.UpdateProfile: the merge writes into the profile's own fields, with the group list kept apart, so a payload cannot replace the groups. `UserUpdateDTO` is not defined in the source.
  - `UserStore.fetchProfile` is left out. In the code it only waits and clears `loading`, because the DAO call is commented out.
- Getters that return a field unchanged (`isLoading`, `getAllClubs`, `hasError` and the like) are read directly from the fields.
- The routes' components and titles, the mock data and the club children's layouts are left out. Only the names, paths and `requiresAuth` inheritance of the route table are kept.

## Findings

| source | as written | input that shows it | evidently intended | confidence | as-written member | corrected member |
|---|---|---|---|---|---|---|
| frontend/src/store/useUserStore.ts:124-131 | the toggle sets the panel flag and then calls `closeAllModals`, which clears that flag again | panel closed, then `toggleNotificationPanel()`: the panel stays closed | the panel alternates (as its documentation at lines 117-122 says), closing modals when it opens | high; not executed | UserStore.UserStore.ToggleNotificationPanel | UserStore.UserStore.ToggleNotificationPanelIntended |
