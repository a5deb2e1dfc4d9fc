# Daily fitness API: the token and credential lifecycle

A Dafny model of the authentication core of the daily-fitness-api backend. It covers four
source files.

- The token service (`src/services/token.service.js`) issues signed tokens and one-time codes,
  stores them in the Token collection and checks presented tokens against it.
- The auth service (`src/services/auth.service.js`) runs the login, logout, refresh-rotation,
  password-reset, email-verification and one-time-code workflows over the Token and User
  collections. It also shapes a Google profile into a new user.
- The custom validators (`src/validations/custom.validation.js`) are the Mongo object-id rule
  and the password-strength rule.
- The `like` helper (`src/utils/like.js`) builds a case-insensitive regex filter from a query
  object.

Modules, one per file:

- `Results`: `Option`, `Result` and the error shape. `ApiError` carries an HTTP status.
  `Thrown` is a plain `Error` or an error of the JWT library.
- `Jwt`: token kinds, the payload (`sub`, `iat`, `exp` and the custom `type`, named `kind`
  here because `type` is a Dafny keyword), and signing and checking. A signed token is a value
  carrying its payload and the key it was signed with. `Verify` accepts it iff the key is the
  secret and the clock reading is strictly before `exp`.
- `TokenModel`: token documents, query filters, and the `TokenCollection` class. The class holds
  the documents in natural order in a `seq` field. Its methods are the collection calls the
  services make: `create`, `remove`, `deleteMany` and `updateOne`. `findOne` is the function
  `FindOne`, which returns the first match.
- `UserModel`: the user fields the core touches, first-match lookup by id or email, and the
  `UserCollection` class.
- `TokenService`, `AuthService`, `CustomValidation`, `Like`: the four source files.

Each state-changing operation is a method on the collection objects. For every auth workflow
except logout there is also a function (`RefreshStep`, `ResetPasswordStep`, ...). It gives the
workflow's result and the collections it leaves behind, and the method's postcondition equates
the two. Each function's own postcondition says that a failure changes nothing. Properties that
relate two calls are lemmas about these functions: single use and one OTP document per user.

`TokenService.Consistent` is an invariant of the Token collection. It says no access token is
stored, and every stored JWT was signed with the secret for the document's own owner, expiry and
kind. Each issuing method (`GenerateAuthTokens`, `GenerateResetPasswordToken`,
`GenerateVerifyEmailToken`, `GenerateUserVerifyOtp`) and each consuming one (`Logout`,
`RefreshStep`, `ResetPasswordStep`, `VerifyEmailStep`, `VerifyCodeStep`) states in its contract
that it preserves it. `SaveToken`, the raw insert beneath them, stores whatever it is given.
Under the invariant, a token passes `verifyToken` only as the kind it was issued as, and an
access token never passes.

Refresh rotation is single use only with two conditions, and `AuthService.RefreshIsSingleUse`
states both. The consumed token must be the only stored document for that token. It must also
not have been issued in the very second of the exchange. Claims are whole seconds and signing
is deterministic, so a pair issued to the same user in the same second as the consumed token
has exactly the same refresh token. `AuthService.SameSecondRefreshReplays` shows two exchanges
of one refresh token within one second both succeeding.

The auth service's `verifyCode` (src/services/auth.service.js:104-117) only consumes the code
and marks the user verified; it issues no tokens. The token pair that follows a verified code is
issued by the controller (src/controllers/auth.controller.js:53), which is not part of this
model.

Inputs that the source takes from its environment are parameters here:

- the clock: `now`, in whole seconds;
- the configuration: `JwtConfig`;
- the draw of `Math.random()`: a real in [0, 1);
- the generated placeholder password;
- the Google profile fetched over the network: `None` when the fetch fails;
- the bcrypt comparison `isPasswordMatch`: a function parameter.

## Model

| member | source | states |
|---|---|---|
| `Jwt.Sign` | src/services/token.service.js:26 | a signed token passes verification with exactly the signing key, strictly before its `exp`, and yields the signed payload |
| `Jwt.Verify` | src/services/token.service.js:56 | verification succeeds iff the value is a JWT, the key is the secret and the clock is before `exp`; otherwise a thrown (non-API) error |
| `TokenModel.FindOne` | src/services/token.service.js:57 | `findOne` returns the first matching document; none is returned iff no document matches |
| `TokenModel.DeleteMatching` | src/services/auth.service.js:73 | after `deleteMany` no document matches the filter, and every non-matching document is kept exactly as often as before |
| `TokenModel.RemoveAt` | src/services/auth.service.js:37 | `remove()` takes out exactly that one document; the others keep their order |
| `TokenModel.UpdateFirst` | src/services/token.service.js:149 | `updateOne`: the first matching document takes the new token and keeps its other fields, every other document is unchanged, and with no match nothing changes |
| `TokenModel.TokenCollection.Create` | src/services/token.service.js:39-45 | `Token.create` appends the document |
| `TokenModel.TokenCollection.Remove` | src/services/auth.service.js:37 | the collection becomes `RemoveAt` of the old one |
| `TokenModel.TokenCollection.DeleteMany` | src/services/auth.service.js:73 | the collection becomes `DeleteMatching` of the old one |
| `TokenModel.TokenCollection.UpdateOne` | src/services/token.service.js:149 | the collection becomes `UpdateFirst` of the old one |
| `UserModel.FindUser` | src/services/auth.service.js:17 | `getUserByEmail`/`getUserById` return the first user with that key; none iff no user has it |
| `UserModel.UserCollection.Update` | src/services/auth.service.js:72 | `updateUserById` replaces that one user document and no other |
| `TokenService.GenerateToken` | src/services/token.service.js:19-27 | the token carries `sub = userId`, `iat = now`, `exp = expires`, `type = kind`, and verifies with the given secret (and no other key) until `expires` |
| `TokenService.SaveToken` | src/services/token.service.js:38-47 | exactly one document `{token, user, expires, type, blacklisted}` is appended and returned; existing documents are unchanged |
| `TokenService.VerifyToken` | src/services/token.service.js:55-62 | JWT errors propagate; then success iff a stored non-blacklisted document holds this token, this kind and the token's subject as owner; else "Token not found" |
| `TokenService.VerifyCode` | src/services/token.service.js:71-77 | success iff a non-blacklisted document with this code, kind and owner exists, and it is returned; no signature or expiry check; else "Token not found" |
| `TokenService.AuthTokensFor` | src/services/token.service.js:84-101 | access expiry is now + 60 × `accessExpirationMinutes` and refresh expiry now + 86400 × `refreshExpirationDays`; each token verifies until its expiry and carries the user and its own kind; the two tokens differ |
| `TokenService.GenerateAuthTokens` | src/services/token.service.js:84-102 | returns the pair and appends exactly one REFRESH document holding the returned refresh token; the access token is not stored; the store invariant is kept |
| `TokenService.GenerateResetPasswordToken` | src/services/token.service.js:109-118 | unknown email: NOT_FOUND "No users found with this email" and nothing stored; otherwise one RESET_PASSWORD document holding the returned token is appended |
| `TokenService.GenerateVerifyEmailToken` | src/services/token.service.js:125-130 | one VERIFY_EMAIL document holding the returned token is appended |
| `TokenService.OtpCode` | src/services/token.service.js:160 | the code drawn from `Math.random()` lies in [100000, 999999] |
| `TokenService.OtpCodeReachesEveryCode` | src/services/token.service.js:160 | every six-digit code is produced by some draw in [0, 1) |
| `TokenService.FindVerifyOtpToken` | src/services/token.service.js:137-140 | a VERIFY_OTP document of the user is found iff one exists, blacklisted or not |
| `TokenService.UpdateVerifyOtpToken` | src/services/token.service.js:148-151 | only the first VERIFY_OTP document of the user takes the new code |
| `TokenService.GenerateUserVerifyOtp` | src/services/token.service.js:158-168 | returns a six-digit code; the collection becomes `OtpIssued` of the old one; the store invariant is kept |
| `TokenService.OtpIssuedShape` | src/services/token.service.js:161-166 | re-issue: same number of documents, only the token of the user's first VERIFY_OTP document changes and its expiry is not refreshed; first issue: exactly one VERIFY_OTP document appended |
| `TokenService.OtpIssuedHoldsCode` | src/services/token.service.js:158-168 | afterwards the user's first VERIFY_OTP document holds the returned code, and the code verifies unless that document is blacklisted |
| `TokenService.OtpIssueKeepsOneRow` | src/services/token.service.js:161-166 | with at most one VERIFY_OTP document per user before, exactly one after |
| `TokenService.SecondOtpReplacesFirst` | src/services/token.service.js:158-168 | two issues to a user with no code leave one document holding the second code, with the first expiry; the second code verifies and a different first code does not |
| `TokenService.VerifiedTokenHasRequestedKind` | src/services/token.service.js:55-62 | under the store invariant, a token passing `verifyToken` was issued as the requested kind, which is never ACCESS |
| `TokenService.AccessTokenNeverVerifiesAsStored` | src/services/token.service.js:84-90 | under the store invariant, an access token never passes `verifyToken`, whatever kind it is presented as |
| `AuthService.Login` | src/services/auth.service.js:16-25 | success iff the email's user exists, the password matches and the user is verified; unknown email or wrong password gives "Incorrect email or password" (checked first); a verified-password but unverified user gives "User not verified"; on success the result is exactly the user `getUserByEmail` found, whose password was compared; read-only |
| `AuthService.Logout` | src/services/auth.service.js:32-38 | removes exactly the first non-blacklisted REFRESH document with that token, with no owner filter, and keeps the store invariant; with none, NOT_FOUND "Not found" and nothing changes |
| `AuthService.RefreshStep` | src/services/auth.service.js:45-57 | success iff the token verifies and its owner exists; any failure is "Please authenticate" with both collections unchanged; success removes the consumed document, stores the new refresh token and leaves users unchanged |
| `AuthService.RefreshAuth` | src/services/auth.service.js:45-57 | result and new Token collection are those of `RefreshStep` |
| `AuthService.RefreshIsSingleUse` | src/services/auth.service.js:47-53 | a second exchange of the same refresh token fails, if it was the only stored copy and not issued in the second of the first exchange |
| `AuthService.SameSecondRefreshReplays` | src/services/auth.service.js:47-53 | two exchanges of one refresh token within the same second both succeed |
| `AuthService.ResetPasswordStep` | src/services/auth.service.js:65-77 | success: the owner's password is the new one, zero RESET_PASSWORD documents of the owner remain, every other document keeps its count and all other users are kept, and the store invariant holds; any failure: "Password reset failed", password and store unchanged |
| `AuthService.ResetPasswordFlow` | src/services/auth.service.js:65-77 | result and new collections are those of `ResetPasswordStep` |
| `AuthService.ResetPasswordIsSingleUse` | src/services/auth.service.js:67-73 | after a successful reset the same token fails and changes nothing |
| `AuthService.VerifyEmailStep` | src/services/auth.service.js:84-96 | success: all VERIFY_EMAIL documents of the owner deleted, every other document keeps its count, owner marked verified and returned, store invariant kept; any failure: "Email verification failed", nothing changes |
| `AuthService.VerifyEmailFlow` | src/services/auth.service.js:84-96 | result and new collections are those of `VerifyEmailStep` |
| `AuthService.VerifyEmailIsSingleUse` | src/services/auth.service.js:86-92 | after a successful verification the same token fails |
| `AuthService.VerifyCodeStep` | src/services/auth.service.js:104-117 | success: all VERIFY_OTP documents of the user deleted, every other document keeps its count, user marked verified and returned, store invariant kept; any failure: "User verification failed", nothing changes |
| `AuthService.VerifyCodeFlow` | src/services/auth.service.js:104-117 | result and new collections are those of `VerifyCodeStep` |
| `AuthService.VerifyCodeIsSingleUse` | src/services/auth.service.js:106-111 | after a successful verification every code, the used one included, fails for that user |
| `AuthService.IssuedOtpVerifiesOnce` | src/services/auth.service.js:104-117 | a code issued to a user with none pending verifies once, marking the user verified, and fails the second time |
| `AuthService.VerifyGoogleToken` | src/services/auth.service.js:124-146 | fails with INTERNAL_SERVER_ERROR "Google verification failed" iff the profile fetch failed; otherwise an unsaved Google user of rank BEGINER with email, names, picture and verified flag copied from the profile and the generated password |
| `CustomValidation.AllInMeansEvery` | src/validations/custom.validation.js:2 | the recursive `^[k]*$` predicate holds iff every character is in the class |
| `CustomValidation.SomeInMeansExists` | src/validations/custom.validation.js:9 | the recursive `(?=.*[k])` predicate holds iff some character is in the class |
| `CustomValidation.ObjectId` | src/validations/custom.validation.js:1-6 | accepts, returning the value unchanged, iff it has exactly 24 characters all in 0-9, a-f, A-F; otherwise the "must be a valid mongo id" message |
| `CustomValidation.Password` | src/validations/custom.validation.js:8-15 | accepts, returning the value unchanged, iff at least 8 characters, all from A-Z, a-z, 0-9 and `!@#$%^&*()_+.`, with a lower-case letter, an upper-case letter, a digit and a special character; otherwise the password message |
| `CustomValidation.WeakPasswordsRejected` | src/validations/custom.validation.js:9 | a string shorter than 8, or with a character outside the allowed set, is rejected |
| `CustomValidation.ObjectIdSamples` | src/validations/custom.validation.js:2 | a 24-digit hex id is accepted; one non-hex character makes it rejected |
| `CustomValidation.StrongPasswordSample` | src/validations/custom.validation.js:9 | "Passw0rd!" is accepted |
| `CustomValidation.NoSpecialSample` | src/validations/custom.validation.js:9 | "Passw0rd" (no special character) is rejected |
| `Like.FoldWrites` | src/utils/like.js:8-14 | the reduce keeps the accumulator's entries and writes every listed key the object owns with its case-insensitive filter |
| `Like.Like` | src/utils/like.js:7-15 | the result's keys are exactly the listed keys the object owns (none for a null object); each maps to `{ $regex: value, $options: 'i' }` with the value verbatim |
| `Like.LikeDependsOnlyOnKeySet` | src/utils/like.js:8-14 | reordering the key list or repeating keys gives the same result |

## Left out

- JSON Web Token cryptography: a token is a value carrying its payload and signing key, and
  verification compares keys. Forgery resistance is assumed, not modelled. The
  `nbf`/`aud`/`iss` options of the library are not modelled; the source does not use them.
- Calendar arithmetic: `moment().add(n, 'days')` is 86400 × n seconds. Daylight-saving days of
  23 or 25 hours are not modelled.
- Clock readings: the source reads the clock separately for `iat` and for each expiry, and
  stores expiries with millisecond precision. The model uses one reading `now` in whole seconds
  per operation.
- `Math.random` is a real draw in [0, 1), computed exactly. Floating-point rounding and the
  uniformity of the draw are not modelled.
- bcrypt hashing on save and `isPasswordMatch`: the stored password is the value written, and
  matching is a parameter.
- `generate-password`: the placeholder password is a parameter.
- The Google userinfo fetch in the token service (`verifyGoogleToken` at
  src/services/token.service.js:175-181): it is network I/O. The auth service receives its
  outcome as an `Option`.
- src/services/user.service.js is not part of this model. `getUserById` and `getUserByEmail` are
  first-match lookups. `updateUserById` replaces the found user; its own NOT_FOUND and
  email-taken checks cannot fire here because the user was just found and the email is not
  changed.
- Store failures and timeouts: every collection call succeeds and each workflow runs
  atomically. So the model does not cover a failure between the writes of a workflow. In
  `refreshAuth` a failure inside `generateAuthTokens`, returned without `await` at line 53,
  escapes the catch at line 54. Races between concurrent requests are not modelled either.
- Mongoose casting: a one-time code is a `Code` value both when stored and when presented.
  String forms such as a leading zero are not modelled.
- `like` values are strings, as query parameters are. `String()` of other value types is not
  modelled.
- The `rank` and account-type enumerations of the user configuration: only BEGINER and the two
  account types named in the source are modelled.
- Email sending, the controllers, routes, the workout service and controller, and the
  declarative Mongoose and Joi schemas: HTTP glue and library declarations.
