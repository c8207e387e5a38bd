# yelpcamp-express authentication core, modelled in Dafny

This project models the session subsystem of the yelpcamp-express API.

**Data.** A users collection holds one document per user: email, password hash, first and last name, and a list of refresh-token entries. Each entry records a token's `jti`, the user agent that obtained it, when it was created and when it expires (seven days later).

**Handlers.** Five request handlers work on that collection:

- `signup` creates the user and its first session.
- `signin` checks the password, sweeps expired entries and opens a new session.
- `signout` revokes the presented token.
- `refreshToken` rotates a refresh token. A token that verifies but no longer matches a session from the same user agent is treated as stolen: the user still holding it loses every session.
- `getSession` shows the public fields of the signed-in user.

**Tokens.** The `refreshToken` cookie carries a signed token over `{ sub, jti }`. Access tokens carry `{ sub }` and reach the server in an `Authorization: Bearer` header. The `auth` middleware checks them.

**Errors.** An `ApiError` raises any status code below 400 to 500, keeps every other code as given, and marks whether its message is safe to show. The global error handler turns errors thrown by the handlers and by Mongoose into responses. In production it hides every unexpected error behind one fixed 500.

**Modules.** The model follows the source file by file:

| Dafny file | module | source |
|---|---|---|
| `wrappers.dfy` | `Wrappers` | JavaScript `undefined`, truthiness and default parameters |
| `payload.dfy` | `Payload` | `src/types/payload.ts` |
| `api_error.dfy` | `ApiErrors` | `src/lib/ApiError.ts` |
| `api_response.dfy` | `ApiResponses` | `src/lib/ApiResponse.ts` |
| `error_controller.dfy` | `ErrorController` | `src/controllers/error.controller.ts` |
| `auth_middleware.dfy` | `AuthMiddleware` | `src/middleware/auth.ts` |
| `user_model.dfy` | `UserModel` | `src/models/user.model.ts` |
| `auth_controller.dfy` | `AuthController` | `src/controllers/auth.controller.ts` |
| `scenarios.dfy` | `SessionScenarios` | several handler calls in a row |

**Pure and stateful parts.** The error value, the response envelope, the error handler and the middleware are pure functions. The middleware's result is the request as it leaves together with the argument given to `next`.

The user model and the handlers are stateful, and are modelled as two classes:

- `UserModel.UserStore` is the collection, a map from document id to `UserRecord`.
- `UserModel.UserDoc` is a hydrated Mongoose document. Its fields are changed in place, and `Save` writes it back through the pre-save hook.

`findOne` is modelled as picking any document from the set of matching ids. The invariant `UserStore.Valid` says that emails are unique (the unique index) and that no `jti` is held by two users (`jti`s are fresh UUIDs). `QueriesAreDeterministic` proves that under this invariant every query the handlers run has at most one answer.

**Inputs.** The following are parameters of the model:

- the clock (`now`, in milliseconds);
- the parsed User-Agent;
- the new document id and the new `jti`, both required to be fresh;
- the `Crypto` record of functions: the password hasher and checker, and the token signers and verifiers.

Nothing is assumed about the `Crypto` functions by the handlers. Four members assume the token verifiers accept what the signers produce:

- `UserModel.IssuedRefreshTokenVerifies` and `SessionScenarios.SignupThenRefresh` require `RefreshCodecRoundTrips`.
- `SessionScenarios.IssuedAccessTokenPassesGuard` and `SessionScenarios.SignupThenGetSession` require `AccessCodecRoundTrips`, which also says a signed access token is non-empty and contains no space.

**Replay after rotation.** The `hackedUser` branch of `refreshToken` (`src/controllers/auth.controller.ts:140-148`) is there to contain a stolen refresh token: when a token verifies but no session of the same user agent matches it, the user still holding its `jti` loses every session. That lookup is by `jti` alone (`src/controllers/auth.controller.ts:141-143`). A rotation pulls the presented `jti` (`src/controllers/auth.controller.ts:154`), so a token that has already been rotated away matches nobody, and replaying it revokes nothing. `SessionScenarios.ReplayAfterRotation` proves this: the replay is refused, but the session created by the rotation survives.

## Model

| member | source | states |
|---|---|---|
| ApiErrors.NewApiError | src/lib/ApiError.ts:7-36 | The result is always well formed. A missing code becomes 500 and a code below 400 is forced to 500; any other code is kept. The status is `fail` exactly for 4xx. Every 4xx is operational, and for 5xx the flag is the argument (default true). The message defaults to "Something went wrong". |
| ApiErrors.Throw | src/lib/ApiError.ts:7-29 | `new ApiError(code, message)` is well formed, keeps the message, carries no data and keeps any code of at least 400. |
| ApiErrors.OperationalArgumentOnlyMattersFor5xx | src/lib/ApiError.ts:19-29 | Two errors that differ only in the `isOperational` argument are equal for 4xx codes. For 5xx codes they are equal exactly when the arguments are. The code is never below 400. |
| ApiResponses.NewApiResponse | src/lib/ApiResponse.ts:7-12 | The status is "success", and the code and data are kept unchanged. The message is present exactly when the argument is truthy. |
| ApiResponses.EmptyMessageIsAbsent | src/lib/ApiResponse.ts:11 | An empty message yields the same envelope as no message. |
| ErrorController.DevErrors | src/controllers/error.controller.ts:8-18 | The HTTP status equals the error's own code, and the body shows its status, code, message and name. |
| ErrorController.ProdErrors | src/controllers/error.controller.ts:21-37 | An operational error is shown with its own code, status and message. Any other error becomes the fixed 500 "Something went wrong! Please try again later.". |
| ErrorController.FieldMessages | src/controllers/error.controller.ts:41-44 | One `{ field, message }` per validator entry, in order. |
| ErrorController.ValidationErrorHandler | src/controllers/error.controller.ts:40-46 | A 400 "Invalid input data" whose data lists each invalid field with its validator message, in order. |
| ErrorController.CastErrorHandler | src/controllers/error.controller.ts:48-51 | A 400 whose message names the path and the value, and whose data holds both. |
| ErrorController.DuplicateKeyErrorHandler | src/controllers/error.controller.ts:53-60 | A 400. When the first key of the pattern is truthy, the message names that key and its value (or "undefined"), and the data holds them. Otherwise the message is the generic duplicate-key text. |
| ErrorController.MongooseErrorHandler | src/controllers/error.controller.ts:62-67 | Validation errors, cast errors and code 11000 go through their own mappers (`validationErrorHandler`, `castErrorHandler`, `duplicateKeyErrorHandler`), so each is a 400 as those mappers build it. Any other Mongoose error maps to an operational 500 "Mongoose error" carrying the error's name. |
| ErrorController.ToApiError | src/controllers/error.controller.ts:70-87 | An `ApiError` passes through unchanged, and a Mongoose error goes through its mapper. Anything else becomes a non-operational 500 keeping its truthy message and name, or the defaults. |
| ErrorController.GlobalErrorHandler | src/controllers/error.controller.ts:70-94 | Development answers as `devErrors` of the mapped error: its own code, status, message and name. Production answers as `prodErrors` of the mapped error. |
| ErrorController.ResponsesAreErrors | src/controllers/error.controller.ts:70-94 | Every answer has a status of at least 400 that equals the body's code. The body's status is `fail` exactly for 4xx. |
| ErrorController.ProductionHidesUnexpectedErrors | src/controllers/error.controller.ts:77-93 | In production, any two thrown errors that are neither ApiErrors nor Mongoose errors get the same answer, which carries the fixed message. |
| ErrorController.UnknownMongooseErrorIsShown | src/controllers/error.controller.ts:62-67 | In production, an unknown Mongoose error is shown as a 500 "Mongoose error", because it is operational by default. |
| AuthMiddleware.Split | src/middleware/auth.ts:11 | `split(' ')` yields at least one field, and no field contains a space. |
| AuthMiddleware.SplitNoSpace | src/middleware/auth.ts:11 | A string without spaces splits into itself alone. |
| AuthMiddleware.SplitAtFirstSpace | src/middleware/auth.ts:11 | Splitting `a + " " + b`, with `a` space-free, gives `a` followed by the fields of `b`. |
| AuthMiddleware.JoinSplit | src/middleware/auth.ts:11 | Joining the fields with single spaces gives back the original string. |
| AuthMiddleware.SplitJoin | src/middleware/auth.ts:11 | Splitting a join of space-free fields gives back the fields. |
| AuthMiddleware.FirstFieldIsPrefix | src/middleware/auth.ts:11 | The first field is a prefix of the string that ends at the string's end or at a space. |
| AuthMiddleware.BearerToken | src/middleware/auth.ts:9-11 | The token is the longest space-free prefix of what follows "Bearer ". |
| AuthMiddleware.Auth | src/middleware/auth.ts:7-21 | A header not starting with "Bearer " gives 401 "Unauthorized request". An empty or unverifiable token gives 401 "invalid token". The guard passes exactly when the token is non-empty and verifies, and then `userId` is the token's `sub`. A refused request leaves unchanged. |
| AuthMiddleware.TrailingFieldsIgnored | src/middleware/auth.ts:11-18 | Text after a second space does not change the outcome or the `userId`. |
| AuthMiddleware.TokenIsDetermined | src/middleware/auth.ts:11 | Any space-free prefix of the credentials that ends at a space or at the end is the token. |
| AuthMiddleware.EmptyTokenIsInvalid | src/middleware/auth.ts:11-12 | "Bearer " with nothing after it, or with a second space, is refused as an invalid token. |
| UserModel.NewRefreshEntry | src/models/user.model.ts:34-48 | A pushed entry keeps its `jti` and agent, is created now and expires exactly seven days later. |
| UserModel.NewEntryLiveUntilExpiry | src/models/user.model.ts:39-43 | A new entry survives the expiry sweep at time `t` exactly when `t` is before creation plus 604 800 000 ms. |
| UserModel.Filter | src/models/user.model.ts:121 | The kept entries are exactly the input entries the criterion keeps, and there are no more of them than in the input. |
| UserModel.Unexpired | src/models/user.model.ts:119-123 | The sweep keeps exactly the entries whose expiry is strictly after `now`. |
| UserModel.Pull | src/controllers/auth.controller.ts:115 | `pull({ jti })` keeps exactly the entries with another `jti`. No entry with that `jti` remains. |
| UserModel.FilterIsSubsequence | src/models/user.model.ts:121 | Filtering keeps the original order: the result is a subsequence of the input. |
| UserModel.FilterKeepsMultiplicity | src/models/user.model.ts:121 | Each kept entry occurs in the result exactly as often as in the input, and a dropped one not at all. |
| UserModel.FilterIdempotent | src/models/user.model.ts:121 | Filtering twice by the same criterion equals filtering once. |
| UserModel.FilterCommutes | src/controllers/auth.controller.ts:154-156 | Pulling a `jti` and sweeping expired entries give the same list in either order. |
| UserModel.UnexpiredProperties | src/models/user.model.ts:119-123 | The sweep keeps exactly the live entries, each as often as it occurs, in order. Sweeping twice at the same instant changes nothing. |
| UserModel.HasJtiAppend | src/controllers/auth.controller.ts:161-164 | After a push, a list holds a `jti` exactly when the old list or the new entry did. |
| UserModel.TrimStart | src/models/user.model.ts:97 | Removes exactly the leading JavaScript white space: the result is a suffix starting with a non-space character. |
| UserModel.TrimEnd | src/models/user.model.ts:97 | Removes exactly the trailing JavaScript white space: the result is a prefix ending with a non-space character. |
| UserModel.Trim | src/models/user.model.ts:97 | The result is no longer than the input and neither starts nor ends with white space. |
| UserModel.TrimIsSlice | src/models/user.model.ts:97 | `trim()` returns a contiguous slice of its argument, and every character it removes is white space. |
| UserModel.TrimOfClean | src/models/user.model.ts:97 | A string with no white space at either end is its own trim. |
| UserModel.TrimIdempotent | src/models/user.model.ts:97 | Trimming twice equals trimming once. |
| UserModel.FullName | src/models/user.model.ts:96-98 | The full name is at most the two names and a space long, and has no white space at either end. |
| UserModel.FullNameOfTrimmedNames | src/models/user.model.ts:96-98 | For non-empty names trimmed as the schema stores them, the full name is exactly "first last". |
| UserModel.GenerateAccessToken | src/models/user.model.ts:105-107 | The access token is the signature over `{ sub: id }`; `SessionScenarios.IssuedAccessTokenPassesGuard` connects it to the guard. |
| UserModel.GenerateRefreshToken | src/models/user.model.ts:109-117 | The returned `jti` is the one signed into the token, together with `sub`. |
| UserModel.IssuedRefreshTokenVerifies | src/models/user.model.ts:109-117 | With a verifier that accepts what was signed, the issued cookie is non-empty and verifies to the user and the returned `jti`. |
| UserModel.EmailHolders | src/models/user.model.ts:130 | `findOne({ email })` candidates are exactly the users with that email. |
| UserModel.JtiHolders | src/controllers/auth.controller.ts:141-143 | Candidates are exactly the users holding the `jti`. There are none exactly when the `jti` is unused. |
| UserModel.SessionHolders | src/controllers/auth.controller.ts:135-138 | Candidates are exactly the users holding the `jti` and holding an entry with the agent, possibly in two different entries. |
| UserModel.Authenticated | src/models/user.model.ts:126-143 | Candidates are exactly the email's holders whose stored hash accepts the password. |
| UserModel.QueriesAreDeterministic | src/models/user.model.ts:55 | With unique emails and `jti`s, every query the handlers run (by email, by login, by `jti`, by session) has at most one answer. |
| UserModel.ReplaceTokensKeepsWellFormed | src/models/user.model.ts:83-86 | Replacing a user's list keeps uniqueness, provided each `jti` in the new list was already that user's or is unused. |
| UserModel.AddUserKeepsWellFormed | src/models/user.model.ts:52-56 | Inserting a user with a new email and unused `jti`s keeps uniqueness. |
| UserModel.SweptWithFreshEntry | src/controllers/auth.controller.ts:154-164 | A swept list plus one entry for an unused `jti` meets the condition of `ReplaceTokensKeepsWellFormed`. |
| UserModel.UserDoc.Create | src/controllers/auth.controller.ts:19-24 | A new document holds the given fields and an empty list, and its password counts as modified. |
| UserModel.UserDoc.Hydrate | src/models/user.model.ts:130 | A loaded document mirrors the stored record, and nothing is modified. |
| UserModel.UserDoc.PreSaveHook | src/models/user.model.ts:146-153 | The password is replaced by its hash only when it was modified. Every other field is untouched. |
| UserModel.UserDoc.Save | src/models/user.model.ts:146-153 | The hook runs, then the collection maps the document's id to its record and only that entry changes. The dirty flag is cleared. |
| UserModel.UserDoc.RemoveExpiredRefreshTokens | src/models/user.model.ts:119-123 | The list becomes its live entries, the document is saved and no other document changes. |
| UserModel.UserStore.constructor | src/models/user.model.ts:163 | An empty collection satisfies the invariant. |
| UserModel.UserStore.FindOne | src/controllers/auth.controller.ts:13 | No document is returned exactly when nothing matches. Otherwise it returns a fresh, unmodified document of one of the matching users. |
| UserModel.UserStore.FindById | src/controllers/auth.controller.ts:175 | Returns the document with that id, or nothing when the id is absent or unknown. |
| UserModel.UserStore.AuthenticateUser | src/models/user.model.ts:126-143 | Returns nothing exactly when no user with that email accepts the password. Otherwise it returns that user's document. |
| AuthController.LoggedOut | src/controllers/auth.controller.ts:97 | Signout's envelope: 200, data "Logged out", no message. |
| AuthController.Signup | src/controllers/auth.controller.ts:11-51 | A taken email gives 400 "User already exists" and nothing changes. Otherwise exactly one user is added, with the hashed password and one entry whose `jti` is the cookie's. The reply carries the access token and public fields, and uniqueness is kept. |
| AuthController.Signin | src/controllers/auth.controller.ts:53-92 | A wrong email or password gives 401 and nothing changes. Otherwise only that user's list changes, to its live entries plus one new entry. The password hash is untouched, and the cookie is the token for the new `jti`. |
| AuthController.OpenSession | src/controllers/auth.controller.ts:62-75 | The user's list becomes its live entries plus one entry for the new `jti`, and no other user changes. The returned tokens are those issued for the user and that `jti`. |
| AuthController.Signout | src/controllers/auth.controller.ts:94-119 | The answer is always 200 "Logged out", and the cookie is cleared exactly when it was truthy. A verifying token held with this agent is pulled from its holder and nothing else changes. Afterwards no user matches the token. |
| AuthController.RefreshToken | src/controllers/auth.controller.ts:121-172 | No cookie gives 401 "Refresh token is required". A bad token gives 401 "Invalid refresh token" and clears the cookie. A token held without this agent empties its holder's list. Otherwise the presented `jti` and expired entries are replaced by one new entry, and a new access token and cookie are returned. Afterwards the presented `jti` is held by nobody. |
| AuthController.RevokeHolder | src/controllers/auth.controller.ts:140-148 | The user holding the `jti`, if any, has its list emptied and no one else changes. Afterwards the `jti` is unused. |
| AuthController.Rotate | src/controllers/auth.controller.ts:154-171 | The holder's list becomes the old list minus the presented `jti`, swept, plus one new entry. The returned tokens are those issued for the user and the new `jti`. |
| AuthController.GetSession | src/controllers/auth.controller.ts:174-194 | An unknown or absent user id gives 401 "User not found". Otherwise the answer is that user's id, email and full name, and nothing changes. |
| SessionScenarios.SignoutTwice | src/controllers/auth.controller.ts:94-119 | Signing out twice with the same cookie gives the same answer twice, and the second call changes nothing. |
| SessionScenarios.ReplayAfterRotation | src/controllers/auth.controller.ts:135-152 | After a rotation, replaying the old cookie from the same agent is refused, but revokes nothing: the rotated session survives. |
| SessionScenarios.IssuedAccessTokenPassesGuard | src/middleware/auth.ts:9-18 | With a verifier that accepts what was signed, "Bearer " followed by the access token issued for a user passes the guard, and the request leaves with that user's id. |
| SessionScenarios.SignupThenGetSession | src/controllers/auth.controller.ts:174-194 | After signup, the answer's access token passes the guard, and `getSession` then answers with the same public fields signup returned. |
| SessionScenarios.SignupThenRefresh | src/controllers/auth.controller.ts:121-172 | With a verifier that accepts what was signed, refreshing with the cookie issued at signup from the same agent succeeds. The user is left with exactly the new entry. |

## Left out

- Entry schema and `userAgent`: the refresh-entry schema (`src/models/user.model.ts:34-48`) declares no `userAgent` path. In Mongoose's default strict mode, the key pushed by the handlers would therefore not be stored, and the session query of `signout` and `refreshToken` would never match. The model stores the agent the handlers push, because that is what the handlers are written against. Mongoose's casting is not part of this model.
- Request validation (the zod schemas in `src/schema/auth.schema.ts` and `validate` in `src/lib/utils.ts`) is not modelled. The handlers receive already-validated fields. The schema's `trim`, `lowercase` and length limits on stored fields are not applied.
- Password hashing and checking (argon2), and token signing and verification (jsonwebtoken, with its `iat`/`exp` claims and 15-minute/7-day lifetimes) are parameters. Only their inputs and outputs are modelled.
- UserModel.UserStore.AuthenticateUser: the dummy argon2 check run for an unknown email only equalises timing, so it is not modelled.
- Hydrated documents always carry the password hash. The source loads it only with `select('+password')`, but no handler other than `authenticateUser` reads or writes it.
- `removeExpiredRefreshTokens` is not awaited in `refreshToken` (`src/controllers/auth.controller.ts:156`). The model runs its save to completion before the next step. The interleaving of the two concurrent saves is not modelled. A likely consequence in the source, which comes from Mongoose and has not been checked: Mongoose normally refuses a second `save()` of a document whose first save is still pending (a `ParallelSaveError`). The global handler would render that error as an operational 500 "Mongoose error", so the source's success path may fail where the model rotates.
- I/O is not modelled: the HTTP layer, cookie options, logging (`console.log`/`console.error`), stack traces, the Express route wiring, and the separate `src/models/refreshToken.model.ts`, which the handlers do not use.
- ErrorController.DevErrors: the `details` and `stack` fields of the development body are left out. The first is never set on an `ApiError`, and the second is a runtime artefact.
- ApiErrors.NewApiError: codes are integers. A non-numeric or fractional `statusCode` (which JavaScript would accept) is not modelled.
- AuthMiddleware.Auth: the scheme name is matched case-sensitively, exactly as written. The b64token grammar of section 2.1 of RFC 6750 is not checked.
- Documents and the collection: timestamps (`createdAt`/`updatedAt` of the user document) and Mongoose virtuals in JSON output are not modelled.
