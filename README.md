# Account lifecycle of the auth service, modelled in Dafny

The auth service's HTTP API (`auth-service/api/api.go`) runs account
handling over one SQL table, `users`. Its six handlers are signup, signin,
logout, verify, sendReset and resetPassword. Each one is a straight run of
guards with early returns. Together they read and update the rows
(`username`, `email`, `hashedPassword`, `password`, `verifiedToken`,
`verified`, `resetToken`, `userId`). They also set session cookies and hand
verification and reset tokens to a mailer.

The model has five modules:

- `Store` (store.dfy): the row type and every SQL statement the handlers
  run. Queries are predicates or lookups. `INSERT` and `UPDATE ... WHERE`
  are functions from the old rows to the new rows. A generic `Update`
  rewrites the selected rows in place and leaves the others alone.
- `Session` (session.dfy): the claim sets that are signed for
  `access_token` and `refresh_token`, and the blank, already expired cookies
  that logout sets. Also, after RFC 6265, the path under which a user agent
  stores a cookie, and when a new cookie replaces a stored one.
- `Lifecycle` (lifecycle.dfy): each handler twice. First as a pure function
  (`SignupSpec`, `SigninSpec`, ...) from the old table and the decoded
  request to a `Transition`: the new table, the mail sent, the outcome and
  the cookies. Second as a method of the class `AuthService`. The class holds
  the table (`users: seq<User>`) and the mail handed to the notifier
  (`outbox`). Each method performs the handler's steps in the source's order
  and is proved equal to its function. The properties are lemmas about the
  functions.
- `Invariants` (invariants.dfy): the handlers as one state machine
  (`Request`, `Apply`, `Run`), and what holds over any sequence of requests.
- `Findings` (findings.dfy): five consequences of the code as written: three
  in resetPassword, one in verify and one in logout. Each has a corrected
  definition with the property it was evidently meant to have. For the reset
  that property is: a reset token permits one password change, for its own
  account only.

Things outside the service enter as values:

- The password hash is an injected function `Config.hash`. "Compare" means
  `stored == hash(password)`.
- Each request gets an `Env`. It holds the clock reading `now` in Unix
  seconds, the fresh UUID, and `randomBase62(n)`: the token
  `GetRandomBase62(n)` returns for size `n` in that request.
- `Env.fails` is the set of outside calls that fail in that request: SQL
  statements, hashing, signing and mail.
- A signed token is represented by the claims it signs.

Error responses are the constructors of `Error`, one per distinct
`http.Error` call. The one exception is `MissingResetToken`, which no handler
writes; only the corrected reset uses it. `StatusOf` gives the status class
each one carries.

Where the documented behaviour of the service and the code disagree, the
model follows the code:

- verify with a token that no row holds answers 200 and changes nothing
  (`VerifyUnknownTokenIsOk`). The UPDATE matches zero rows, which is not an
  error.
- signin answers a wrong password with a 500 "incorrect password"
  (`IncorrectPassword`). It is not a separate bad-credentials class.
- verify does not clear `verifiedToken`.
- A reset writes the `password` column. It does not write `hashedPassword`,
  which signin reads. It updates by email.
- A signup whose signing or mail step fails keeps the stored row and
  answers 500. There is no separate created-but-not-notified outcome.

## Model

| member | source | states |
|---|---|---|
| Store.HasUsername | auth-service/api/api.go:62 | the username query: some row has the username |
| Store.HasEmail | auth-service/api/api.go:78 | the email query: some row has the email |
| Store.HasResetPair | auth-service/api/api.go:481 | the pair query: some row has the username and a resetToken equal to the token; a NULL resetToken matches no token |
| Store.FindByEmail | auth-service/api/api.go:230-241 | the QueryRow by email yields the first row with that email, and none exactly when no row has it |
| Store.Update | auth-service/api/api.go:354 | an UPDATE keeps the row count and order, rewrites every row its WHERE selects, and leaves every other row as it was |
| Store.Insert | auth-service/api/api.go:123 | the signup INSERT: appends one row with the five given columns, and NULL password, verified and resetToken |
| Store.SetVerified | auth-service/api/api.go:354 | the verify UPDATE: `verified` becomes 1 on every row whose verifiedToken is the token |
| Store.SetResetToken | auth-service/api/api.go:410 | the sendReset UPDATE: `resetToken` becomes the token on every row with the email |
| Store.ClearResetSetPassword | auth-service/api/api.go:512 | the resetPassword UPDATE: `resetToken` becomes "" and `password` the hash on every row with the email |
| Store.InsertKeepsUnique | auth-service/api/api.go:123 | inserting a username and an email that no row has keeps usernames and emails unique |
| Store.UpdateKeepsUnique | auth-service/api/api.go:410 | an UPDATE that writes neither username nor email keeps them unique |
| Store.UpdateKeepsFindByEmail | auth-service/api/api.go:512 | an UPDATE that does not write email leaves the signin lookup finding the same row |
| Store.FindByEmailUnique | auth-service/api/api.go:231 | with unique emails, a row's email finds exactly that row |
| Session.AccessCookie | auth-service/api/api.go:133-165 | the access_token cookie issued at now for a user id; the signin copy is at :255-286 |
| Session.RefreshCookie | auth-service/api/api.go:167-192 | the refresh_token cookie issued at now for a user id; the signin copy is at :288-314 |
| Session.LogoutCookies | auth-service/api/api.go:329-331 | the two blank logout cookies, with no Path, expiring one TTL before now |
| Session.LogoutCookiesStoredUnderRouteDirectory | auth-service/api/api.go:29 | the logout cookies carry no Path, so a user agent stores them under "/api/auth", the directory of the logout route |
| Session.IssuedCookiesCarryClaims | auth-service/api/api.go:133-192 | access and refresh cookies carry claims for the given user id: subject "access"/"refresh", the configured issuer, issued now, expiring now + the TTL, which is also the cookie expiry; both expire in the future for positive TTLs |
| Session.LogoutCookiesAreExpired | auth-service/api/api.go:329-331 | logout sets access_token then refresh_token, both blank, expiring one TTL before now, so strictly in the past for positive TTLs |
| Lifecycle.SignupSpec | auth-service/api/api.go:44-204 | the signup handler: its guards in source order, the insert, both signings and the verification mail |
| Lifecycle.SignupChecksUsernameFirst | auth-service/api/api.go:60-75 | a taken username gives Conflict (UsernameTaken) whatever the email, with no row, cookie or mail |
| Lifecycle.SignupChecksEmailSecond | auth-service/api/api.go:77-93 | a free username with a taken email gives Conflict (EmailTaken), with nothing changed |
| Lifecycle.SignupInsertsOneRow | auth-service/api/api.go:95-131 | signup appends exactly the new row when both uniqueness checks, hashing and insert pass, and changes nothing otherwise. The new row has the given username and email, hash(password), the token drawn for size 6, the fresh UUID, and NULL verified/resetToken/password. A refused signup sets no cookie and sends no mail |
| Lifecycle.SignupIssuesSessions | auth-service/api/api.go:133-192 | after the insert, the access cookie is set only if its claims were signed, and the refresh cookie only if both were; both carry claims for the new UUID |
| Lifecycle.SignupCreatedMailsToken | auth-service/api/api.go:194-203 | Created exactly when every step succeeds; then the new row's verification token is mailed to the given email; otherwise no mail is sent |
| Lifecycle.SignupKeepsUnique | auth-service/api/api.go:60-131 | signup keeps usernames and emails unique |
| Lifecycle.SignupThenVerify | auth-service/api/api.go:120-123 | a new row starts unverified, and verifying with its own 6-symbol token marks it verified |
| Lifecycle.SigninSpec | auth-service/api/api.go:206-315 | the signin handler: lookup, password compare, then both signings |
| Lifecycle.SigninLookupFails | auth-service/api/api.go:236-238 | a failing lookup gives the lookup error with no cookie |
| Lifecycle.SigninUnknownEmail | auth-service/api/api.go:229-241 | an email no row has gives NotFound with no cookie |
| Lifecycle.SigninWrongPassword | auth-service/api/api.go:243-253 | a password whose hash differs from the row's hashedPassword is refused before any claims are signed |
| Lifecycle.SigninIssuesSessions | auth-service/api/api.go:255-314 | once the password matches, the access claims are signed first; a failing access signer sets no cookie, a failing refresh signer only the access cookie; both carry claims for the row's user id |
| Lifecycle.SigninSucceedsIff | auth-service/api/api.go:229-314 | with unique emails and no failing call, signin succeeds exactly when some row has the email and the password's hash, and then it sets the access and refresh cookies for that row's userId |
| Lifecycle.LogoutSpec | auth-service/api/api.go:317-333 | the logout handler: Ok with the two logout cookies |
| Lifecycle.VerifySpec | auth-service/api/api.go:335-370 | the verify handler: missing-token guard, then the UPDATE, with the first query value as the token |
| Lifecycle.VerifyRejectsMissingToken | auth-service/api/api.go:345-351 | an absent or empty token is refused with nothing changed |
| Lifecycle.VerifyMarksMatchingRows | auth-service/api/api.go:353-369 | every row whose verifiedToken is the token gets verified = 1 and keeps its token; every other row is unchanged |
| Lifecycle.VerifyUnknownTokenIsOk | auth-service/api/api.go:354-369 | a token no row holds succeeds and changes nothing |
| Lifecycle.SendResetSpec | auth-service/api/api.go:373-428 | the sendReset handler: empty-email guard, token drawn for size 6, the UPDATE, then the reset mail |
| Lifecycle.SendResetRejectsEmptyEmail | auth-service/api/api.go:399-403 | an empty email is refused with nothing changed |
| Lifecycle.SendResetStoresToken | auth-service/api/api.go:406-427 | every row with the email gets the size-6 token as resetToken and every other row is unchanged; the same token is mailed unless delivery fails |
| Lifecycle.SendResetUnknownEmail | auth-service/api/api.go:409-418 | an email no row has leaves the table as it was and raises no error |
| Lifecycle.SendResetHidesAccountExistence | auth-service/api/api.go:399-427 | the response and the mail do not depend on the table, so they do not reveal whether the email has an account |
| Lifecycle.ResetPasswordSpec | auth-service/api/api.go:430-521 | the resetPassword handler: the three field guards, the pair query, hashing, then the UPDATE by email |
| Lifecycle.ResetPasswordChecksFieldsInOrder | auth-service/api/api.go:458-474 | an empty username, then email, then password is refused, in that order, with nothing changed |
| Lifecycle.ResetPasswordSucceedsIff | auth-service/api/api.go:476-516 | a reset succeeds exactly when the fields are non-empty, some row has both the username and resetToken = token, and no call fails. Otherwise nothing changes, and a missing pair gives NotFound |
| Lifecycle.ResetPasswordUpdatesByEmail | auth-service/api/api.go:511-516 | a successful reset gives every row with the given email resetToken "" and password = hash(new password); hashedPassword and all other rows are unchanged |
| Lifecycle.VerifyKeepsUnique | auth-service/api/api.go:354 | verify keeps usernames and emails unique |
| Lifecycle.SendResetKeepsUnique | auth-service/api/api.go:410 | sendReset keeps usernames and emails unique |
| Lifecycle.ResetPasswordKeepsUnique | auth-service/api/api.go:512 | resetPassword keeps usernames and emails unique |
| Lifecycle.AuthService.Signup | auth-service/api/api.go:44-204 | the method's new table, mail, outcome and cookies are those of SignupSpec, and it keeps the table's uniqueness invariant |
| Lifecycle.AuthService.Signin | auth-service/api/api.go:206-315 | the method's outcome and cookies are those of SigninSpec; it changes no state; with no failing call it succeeds exactly when some row has the email and the password's hash |
| Lifecycle.AuthService.Logout | auth-service/api/api.go:317-333 | logout always succeeds, whatever the state, with two blank cookies that have already expired for positive TTLs |
| Lifecycle.AuthService.Verify | auth-service/api/api.go:335-370 | the new table and outcome are those of VerifySpec; uniqueness is kept |
| Lifecycle.AuthService.SendReset | auth-service/api/api.go:373-428 | the new table, mail and outcome are those of SendResetSpec; uniqueness is kept |
| Lifecycle.AuthService.ResetPassword | auth-service/api/api.go:430-521 | the new table and outcome are those of ResetPasswordSpec; uniqueness is kept |
| Lifecycle.AuthService.ResetPasswordIntended | auth-service/api/api.go:511-512 | the corrected reset as a method: new table and outcome are those of ResetPasswordIntendedSpec |
| Invariants.ApplyEvolves | auth-service/api/api.go:123 | no request deletes or moves a row. No request changes an existing row's username, email, hashedPassword, verifiedToken or userId, or clears verified |
| Invariants.SignupEvolves | auth-service/api/api.go:123 | signup leaves every existing row as it was and appends at most one |
| Invariants.VerifyEvolves | auth-service/api/api.go:354 | verify writes no column but `verified`, and that one only to 1 |
| Invariants.SendResetEvolves | auth-service/api/api.go:410 | sendReset writes no column but `resetToken` |
| Invariants.ResetPasswordEvolves | auth-service/api/api.go:512 | resetPassword writes no column but `resetToken` and `password` |
| Invariants.ApplyKeepsUnique | auth-service/api/api.go:60-93 | every request keeps usernames and emails unique |
| Invariants.RunEvolves | auth-service/api/api.go:354 | over any sequence of requests, rows are only appended and every existing row persists |
| Invariants.RunKeepsUnique | auth-service/api/api.go:62-93 | over any sequence of requests, usernames and emails stay unique |
| Invariants.SigninPasswordNeverChanges | auth-service/api/api.go:231 | after any sequence of requests, resets included, signin for an existing email accepts exactly the passwords whose hash is that row's original hashedPassword |
| Findings.ResetScenarioAsWritten | auth-service/api/api.go:512 | signup, signin, wrong signin, reset request and reset all answer as expected (Created, Ok, refused, Ok, Ok), yet afterwards pw1 still signs in and pw2 is refused |
| Findings.ResetKeepsSigninAsWritten | auth-service/api/api.go:512 | for every table and request, a reset as written leaves signin's answer unchanged for every email and password |
| Findings.CrossAccountResetAsWritten | auth-service/api/api.go:481-512 | the holder of account i's token, naming account j's email, rewrites j's password and clears j's reset, while i keeps its usable token |
| Findings.ClearedTokenReplaysAsWritten | auth-service/api/api.go:441-512 | after a successful reset of an account's own row, the same account is reset again with the empty token |
| Findings.VerifyAsWrittenSpec | auth-service/api/api.go:354 | verify as written: the UPDATE is handed the `[]string` of query values and always fails |
| Findings.VerifyNeverMarksAsWritten | auth-service/api/api.go:354-359 | verify as written never changes the table, and answers "invalid token" to every present token |
| Findings.SignupThenVerifyAsWritten | auth-service/api/api.go:120-123 | under verify as written, a new account verified with the token it was mailed stays unverified |
| Findings.LogoutKeepsSessionCookiesAsWritten | auth-service/api/api.go:330-331 | neither logout cookie replaces the session cookie of its name, issued with Path "/" on any route |
| Findings.IntendedResetTakesEffect | auth-service/api/api.go:511-512 | the corrected reset of the row with the checked pair touches no other row, and signin then accepts exactly the passwords with the new hash |
| Findings.IntendedResetIsSingleUse | auth-service/api/api.go:511-512 | after a corrected reset, the same (username, token) pair is refused, and so is the empty token |
| Findings.IntendedLogoutReplacesSessionCookies | auth-service/api/api.go:329-331 | logout cookies with Path "/" replace both session cookies whatever the routes, are blank and have already expired for positive TTLs |
| Findings.ResetScenarioIntended | auth-service/api/api.go:511-512 | with the corrected reset, the new password signs in, the old is refused, and neither the used token nor the empty token opens a second reset |

## Left out

- CORS headers and the early return for `OPTIONS` requests. These are transport.
- JSON body and query-string decoding, with the decoding-error responses of
  signin, sendReset and resetPassword. Handlers take the decoded fields.
  Verify's token is the first query value, or None when absent. A missing
  reset token is "".
- RegisterRoutes, godotenv, the SendGrid client and mail delivery itself.
  A delivered mail is recorded in `outbox`. A failed one is the `SendMail`
  failure.
- bcrypt. The hash is an injected deterministic function, and compare is
  equality. Salting and the 72-byte input limit are not modelled.
  GenerateFromPassword failing is the `Hashing` failure. The check at :107
  that the new hash matches the password always passes under equality-based
  compare, so it is not modelled.
- JWT signing via `setClaims`, and cookie serialisation. A signed value is
  its claim set, and a signing error is `SignAccess`/`SignRefresh`.
- `GetRandomBase62` and `uuid.New()`, which are random and not part of this
  model. Their results come in through `Env`. Nothing is assumed about token
  length except where a lemma says so (`SignupThenVerify`).
- `time.Now()`. Each request reads one clock value in whole seconds, while
  the source reads the clock separately for each claim and cookie.
  `DefaultAccessJWTExpiry`, `DefaultRefreshJWTExpiry` and `defaultJWTIssuer`
  are defined outside the file shown, so they are configuration values.
- SQL engine semantics. Each statement is a table read or update and either
  succeeds whole or fails without changing anything. String comparison is
  exact, with no collation. QueryRow takes the first matching row in table
  order. The table schema is not part of this model, so the columns the
  INSERT leaves out are NULL, which matches no value. In verify, a failing
  UPDATE gives the 404 "invalid token" response (`rows == nil`), so the 400
  branch after it is not modelled separately.
- The database driver, which is not part of this model. `VerifySpec` binds
  the first `token` query value to the UPDATE at :354. The code passes the
  whole `[]string`, and drivers refuse that argument; this is a finding
  below. In `VerifySpec` that refusal is the `VerifyUpdate` failure.
- Concurrency between requests, and unique-index races in the database.
  Requests are applied one at a time.
- Logging, and the panics it causes. The guards at :401, :460, :466, :472,
  :495 and :507 call `log.Print(err.Error())` while `err` is nil, which
  panics. `http.Error` has only buffered the error response at that point.
  net/http recovers the panic and closes the connection without flushing the
  buffer, so on these paths the client gets no status at all. The model
  gives these guards the error response the code means to send (406, 404 or
  500) and does not model the dropped connection.
- Numeric HTTP status codes. They are named classes (`Status`).

## Findings

| source | as written | input that shows it | evidently intended | confidence | as-written member | corrected member |
|---|---|---|---|---|---|---|
| auth-service/api/api.go:512 | the new hash goes to column `password`, but signin compares against `hashedPassword` (:231) | signup(alice, alice@x.com, pw1); sendReset(alice@x.com) mails T; resetPassword(alice, alice@x.com, pw2, T) answers 200; then signin(alice@x.com, pw2) is refused and signin(alice@x.com, pw1) succeeds | the reset rewrites the hash that signin checks | high; not executed | Findings.ResetScenarioAsWritten | Findings.IntendedResetTakesEffect |
| auth-service/api/api.go:512 | the update is keyed by the request's email, while the check at :481 is on (username, resetToken) | alice holds reset token T; resetPassword(alice, bob@x.com, pw, T) rewrites bob's row and leaves alice's token valid | the update targets the row whose pair was checked | high; not executed | Findings.CrossAccountResetAsWritten | Findings.IntendedResetTakesEffect |
| auth-service/api/api.go:512 | the token is cleared to "", and an absent or empty `token` query parameter (:441) is not refused | after a completed resetPassword(alice, alice@x.com, pw2, T), resetPassword(alice, alice@x.com, pw3, "") answers 200 | a used token can never open a second reset | high; not executed | Findings.ClearedTokenReplaysAsWritten | Findings.IntendedResetIsSingleUse |
| auth-service/api/api.go:354 | `token` is the `[]string` of query values (:345), and that slice is the UPDATE's argument; `database/sql` drivers accept no slice argument but `[]byte`, so Exec fails and `rows` is nil | signup(alice, alice@x.com, pw1) mails T; verify(token=T) answers 404 "invalid token" and alice stays unverified | the UPDATE binds `token[0]`, and verify with the mailed token marks the account verified | medium (the driver is not part of this model); not executed | Findings.SignupThenVerifyAsWritten | Lifecycle.SignupThenVerify |
| auth-service/api/api.go:330-331 | the logout cookies have no Path, so under section 5.2.4 of RFC 6265 a user agent stores them under "/api/auth", the default-path of the logout route (:29); the session cookies were set with Path "/" (:164, :191, :285, :313) | signin sets access_token with Path "/"; logout sets access_token="" for "/api/auth"; the user agent keeps the Path "/" session cookie | logout replaces both session cookies | medium (depends on the user agent following RFC 6265); not executed | Findings.LogoutKeepsSessionCookiesAsWritten | Findings.IntendedLogoutReplacesSessionCookies |

In the corrected reset (`Lifecycle.ResetPasswordIntendedSpec`,
`Lifecycle.AuthService.ResetPasswordIntended`), an empty token is refused
like the other fields. The update rewrites `hashedPassword` and clears
`resetToken` on the row whose (username, resetToken) pair was checked. Both
the modelled state machine and the faithful `ResetPassword` keep the code's
behaviour. The corrected reset is used by the scenario
`Findings.ResetScenarioIntended`.

The corrected verify is `Lifecycle.VerifySpec` itself, which binds the first
query value; the code as written is `Findings.VerifyAsWrittenSpec`, the same
handler with the UPDATE always failing. The corrected logout cookies are
`Session.IntendedLogoutCookies`: the same blank, expired cookies with Path
"/". `Lifecycle.LogoutSpec` and `Lifecycle.AuthService.Logout` keep the code's
cookies.
