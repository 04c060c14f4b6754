/** The account-lifecycle handlers of the authentication API: signup, signin,
    logout, verify, sendReset and resetPassword. Each handler is a straight
    run of guards with early returns over the `users` table.

    Every handler appears twice: as a pure function from the old table and
    the request to a `Transition` (the new table, the mail handed to the
    notifier, the outcome and the cookies set), about which the properties are
    proved, and as a method of `AuthService` that performs the same steps one
    by one on the service's state and is proved to agree with the function. */
module Lifecycle {
  import opened Store
  import opened Session

  const VerifyTokenSize := 6
  const ResetTokenSize := 6

  /** The calls a handler makes that can fail by themselves: SQL statements,
      hashing, token signing and mail delivery. */
  datatype Call =
    | UsernameQuery     // signup: does the username exist?
    | EmailQuery        // signup: does the email exist?
    | Hashing           // bcrypt.GenerateFromPassword, in signup and resetPassword
    | InsertRow         // signup: INSERT INTO users
    | SignAccess        // signing the access claims, in signup and signin
    | SignRefresh       // signing the refresh claims, in signup and signin
    | SendMail          // SendEmail, in signup and sendReset
    | EmailLookup       // signin: SELECT hashedPassword, userId
    | VerifyUpdate      // verify: UPDATE ... SET verified
    | ResetTokenUpdate  // sendReset: UPDATE ... SET resetToken
    | PairQuery         // resetPassword: does the (username, resetToken) pair exist?
    | PasswordUpdate    // resetPassword: UPDATE ... SET resetToken, password

  /** The error responses the handlers write, one per distinct `http.Error`
      call, and `MissingResetToken`, which no handler writes: only the
      corrected reset (`ResetPasswordIntendedSpec`) refuses an empty token. */
  datatype Error =
    | UsernameCheckFailed | UsernameTaken | EmailCheckFailed | EmailTaken
    | EncryptFailed | StoreFailed | AccessTokenFailed | RefreshTokenFailed | VerificationMailFailed
    | EmailLookupFailed | EmailNotFound | IncorrectPassword
    | TokenMissing | InvalidToken
    | InvalidEmail | ResetTokenFailed | ResetMailFailed
    | InvalidUsername | InvalidPassword | MissingResetToken
    | PairCheckFailed | PairNotFound | PasswordUpdateFailed

  /** HTTP status classes, named rather than numbered. */
  datatype Status = StatusCreated | StatusOk | BadRequest | NotFound | NotAcceptable | Conflict | InternalServerError

  /** The status code each error response carries in the source. */
  function StatusOf(e: Error): Status {
    match e
    case UsernameTaken | EmailTaken => Conflict
    case EmailNotFound | InvalidToken | PairNotFound => NotFound
    case InvalidEmail | InvalidUsername | InvalidPassword | MissingResetToken => NotAcceptable
    case PasswordUpdateFailed => BadRequest
    case _ => InternalServerError
  }

  datatype Outcome = Created | Ok | Fail(error: Error) {
    function Status(): Status {
      match this
      case Created => StatusCreated
      case Ok => StatusOk
      case Fail(e) => StatusOf(e)
    }
  }

  /** A message handed to the notifier: `SendEmail(to, subject, template, {"Token": token})`. */
  datatype Mail = Mail(to: string, subject: string, template: string, token: string)

  /** Configuration fixed for the life of the process: the password-hashing
      primitive (compared by equality, `stored == hash(password)`) and the
      session settings. */
  datatype Config = Config(hash: string -> string, session: SessionConfig)

  /** What a single request meets outside the service: the clock, the fresh
      UUID, the tokens `GetRandomBase62(n)` returns for each size `n`, and the
      calls that fail. */
  datatype Env = Env(now: int, uuid: string, randomBase62: nat -> string, fails: set<Call>)

  /** What the client receives: the outcome and the cookies set, in order. */
  datatype Response = Response(outcome: Outcome, cookies: seq<Cookie>)

  /** The effect of one request: the new table, the mail sent, the response. */
  datatype Transition = Transition(users: seq<User>, mail: seq<Mail>, response: Response)

  /** A request turned away before anything was changed or sent. */
  function Refused(users: seq<User>, e: Error): Transition {
    Transition(users, [], Response(Fail(e), []))
  }

  // ---------------------------------------------------------------- signup

  /** Signup passes all its guards and stores the new row. */
  predicate SignupAccepted(users: seq<User>, username: string, email: string, env: Env) {
    && UsernameQuery !in env.fails && !HasUsername(users, username)
    && EmailQuery !in env.fails && !HasEmail(users, email)
    && Hashing !in env.fails && InsertRow !in env.fails
  }

  /** The row a successful signup inserts. */
  function NewUser(cfg: Config, username: string, email: string, password: string, env: Env): User {
    User(username, email, cfg.hash(password), None, env.randomBase62(VerifyTokenSize), None, None, env.uuid)
  }

  function SignupSpec(cfg: Config, users: seq<User>, username: string, email: string, password: string,
                      env: Env): Transition
  {
    if UsernameQuery in env.fails then Refused(users, UsernameCheckFailed)
    else if HasUsername(users, username) then Refused(users, UsernameTaken)
    else if EmailQuery in env.fails then Refused(users, EmailCheckFailed)
    else if HasEmail(users, email) then Refused(users, EmailTaken)
    else if Hashing in env.fails then Refused(users, EncryptFailed)
    else if InsertRow in env.fails then Refused(users, StoreFailed)
    else
      var row := NewUser(cfg, username, email, password, env);
      var stored := users + [row];
      var access := AccessCookie(cfg.session, row.userId, env.now);
      var refresh := RefreshCookie(cfg.session, row.userId, env.now);
      if SignAccess in env.fails then Transition(stored, [], Response(Fail(AccessTokenFailed), []))
      else if SignRefresh in env.fails then Transition(stored, [], Response(Fail(RefreshTokenFailed), [access]))
      else if SendMail in env.fails then Transition(stored, [], Response(Fail(VerificationMailFailed), [access, refresh]))
      else Transition(stored, [Mail(email, "Email Verification", "user-signup.html", row.verifiedToken)],
                      Response(Created, [access, refresh]))
  }

  /** A taken username is reported first, whatever the email, and nothing changes. */
  lemma SignupChecksUsernameFirst(cfg: Config, users: seq<User>, username: string, email: string,
                                  password: string, env: Env)
    requires UsernameQuery !in env.fails && HasUsername(users, username)
    ensures SignupSpec(cfg, users, username, email, password, env) == Refused(users, UsernameTaken)
  {
  }

  /** A free username with a taken email is reported as such, and nothing changes. */
  lemma SignupChecksEmailSecond(cfg: Config, users: seq<User>, username: string, email: string,
                                password: string, env: Env)
    requires UsernameQuery !in env.fails && !HasUsername(users, username)
    requires EmailQuery !in env.fails && HasEmail(users, email)
    ensures SignupSpec(cfg, users, username, email, password, env) == Refused(users, EmailTaken)
  {
  }

  /** Signup adds exactly one row, the new user's, when its guards pass and
      changes nothing otherwise; a refused signup issues no cookie and sends no
      mail. The new row is unverified, has no reset pending, stores the hash of
      the password, the token drawn for size 6 and the fresh UUID. */
  lemma SignupInsertsOneRow(cfg: Config, users: seq<User>, username: string, email: string,
                            password: string, env: Env)
    ensures var t := SignupSpec(cfg, users, username, email, password, env);
      t.users == if SignupAccepted(users, username, email, env)
                 then users + [NewUser(cfg, username, email, password, env)] else users
    ensures var t := SignupSpec(cfg, users, username, email, password, env);
      !SignupAccepted(users, username, email, env) ==>
        t.mail == [] && t.response.cookies == [] && t.response.outcome.Fail?
    ensures var row := NewUser(cfg, username, email, password, env);
      && row.username == username && row.email == email && row.userId == env.uuid
      && row.hashedPassword == cfg.hash(password) && row.verifiedToken == env.randomBase62(6)
      && row.verified == None && row.resetToken == None && row.password == None
  {
  }

  /** After the row is stored, the access claims are signed before the refresh
      claims and each cookie follows its own signing: a failure to sign leaves
      the row in place and sets only the cookies issued before it. The cookies
      carry claims for the new user's id with subjects "access" and "refresh". */
  lemma SignupIssuesSessions(cfg: Config, users: seq<User>, username: string, email: string,
                             password: string, env: Env)
    requires SignupAccepted(users, username, email, env)
    ensures var t := SignupSpec(cfg, users, username, email, password, env);
      var access := AccessCookie(cfg.session, env.uuid, env.now);
      var refresh := RefreshCookie(cfg.session, env.uuid, env.now);
      && |t.users| == |users| + 1
      && t.response.cookies == (if SignAccess in env.fails then []
                                else if SignRefresh in env.fails then [access]
                                else [access, refresh])
      && IssuedFor(access, cfg.session, "access_token", "access", cfg.session.accessTTL, env.uuid, env.now)
      && IssuedFor(refresh, cfg.session, "refresh_token", "refresh", cfg.session.refreshTTL, env.uuid, env.now)
  {
    IssuedCookiesCarryClaims(cfg.session, env.uuid, env.now);
  }

  /** Signup answers Created exactly when every step succeeds, and then it has
      mailed the new row's verification token to the given email. */
  lemma SignupCreatedMailsToken(cfg: Config, users: seq<User>, username: string, email: string,
                                password: string, env: Env)
    ensures var t := SignupSpec(cfg, users, username, email, password, env);
      t.response.outcome == Created <==>
        SignupAccepted(users, username, email, env) && SignAccess !in env.fails
        && SignRefresh !in env.fails && SendMail !in env.fails
    ensures var t := SignupSpec(cfg, users, username, email, password, env);
      t.response.outcome == Created ==>
        && |t.users| == |users| + 1
        && t.mail == [Mail(email, "Email Verification", "user-signup.html", t.users[|users|].verifiedToken)]
    ensures var t := SignupSpec(cfg, users, username, email, password, env);
      t.response.outcome != Created ==> t.mail == []
  {
  }

  /** Signup keeps usernames and emails unique. */
  lemma SignupKeepsUnique(cfg: Config, users: seq<User>, username: string, email: string,
                          password: string, env: Env)
    requires Unique(users)
    ensures Unique(SignupSpec(cfg, users, username, email, password, env).users)
  {
    if SignupAccepted(users, username, email, env) {
      var row := NewUser(cfg, username, email, password, env);
      InsertKeepsUnique(users, username, email, row.hashedPassword, row.verifiedToken, row.userId);
    }
  }

  // ---------------------------------------------------------------- signin

  function SigninSpec(cfg: Config, users: seq<User>, email: string, password: string, env: Env): Response {
    if EmailLookup in env.fails then Response(Fail(EmailLookupFailed), [])
    else match FindByEmail(users, email)
      case None => Response(Fail(EmailNotFound), [])
      case Some(i) =>
        var row := users[i];
        if row.hashedPassword != cfg.hash(password) then Response(Fail(IncorrectPassword), [])
        else
          var access := AccessCookie(cfg.session, row.userId, env.now);
          if SignAccess in env.fails then Response(Fail(AccessTokenFailed), [])
          else if SignRefresh in env.fails then Response(Fail(RefreshTokenFailed), [access])
          else Response(Ok, [access, RefreshCookie(cfg.session, row.userId, env.now)])
  }

  /** An email that no row has is reported as not found, with no cookie. */
  lemma SigninUnknownEmail(cfg: Config, users: seq<User>, email: string, password: string, env: Env)
    requires EmailLookup !in env.fails && !HasEmail(users, email)
    ensures SigninSpec(cfg, users, email, password, env) == Response(Fail(EmailNotFound), [])
  {
  }

  /** A password whose hash is not the row's `hashedPassword` is refused
      before any claims are signed. */
  lemma SigninWrongPassword(cfg: Config, users: seq<User>, i: nat, password: string, env: Env)
    requires Unique(users) && i < |users| && EmailLookup !in env.fails
    requires users[i].hashedPassword != cfg.hash(password)
    ensures SigninSpec(cfg, users, users[i].email, password, env) == Response(Fail(IncorrectPassword), [])
  {
    FindByEmailUnique(users, i);
  }

  /** A failing lookup is reported before anything else, with no cookie. */
  lemma SigninLookupFails(cfg: Config, users: seq<User>, email: string, password: string, env: Env)
    requires EmailLookup in env.fails
    ensures SigninSpec(cfg, users, email, password, env) == Response(Fail(EmailLookupFailed), [])
  {
  }

  /** Once the password matches, the access claims are signed before the
      refresh claims and each cookie follows its own signing: a failure to
      sign sets only the cookies issued before it. Both carry claims for the
      row's user id. */
  lemma SigninIssuesSessions(cfg: Config, users: seq<User>, i: nat, password: string, env: Env)
    requires Unique(users) && i < |users| && EmailLookup !in env.fails
    requires users[i].hashedPassword == cfg.hash(password)
    ensures var r := SigninSpec(cfg, users, users[i].email, password, env);
      var access := AccessCookie(cfg.session, users[i].userId, env.now);
      var refresh := RefreshCookie(cfg.session, users[i].userId, env.now);
      && r.outcome == (if SignAccess in env.fails then Fail(AccessTokenFailed)
                       else if SignRefresh in env.fails then Fail(RefreshTokenFailed)
                       else Ok)
      && r.cookies == (if SignAccess in env.fails then []
                       else if SignRefresh in env.fails then [access]
                       else [access, refresh])
      && IssuedFor(access, cfg.session, "access_token", "access", cfg.session.accessTTL, users[i].userId, env.now)
      && IssuedFor(refresh, cfg.session, "refresh_token", "refresh", cfg.session.refreshTTL, users[i].userId, env.now)
  {
    FindByEmailUnique(users, i);
    IssuedCookiesCarryClaims(cfg.session, users[i].userId, env.now);
  }

  /** Signin reads nothing of the table but the row the email lookup finds,
      and of that row only `hashedPassword` and `userId`. */
  lemma SigninReadsOnlyLoginColumns(cfg: Config, users: seq<User>, users': seq<User>, email: string,
                                    password: string, env: Env)
    requires FindByEmail(users', email) == FindByEmail(users, email)
    requires FindByEmail(users, email).Some? ==>
      var i := FindByEmail(users, email).value;
      users'[i].hashedPassword == users[i].hashedPassword && users'[i].userId == users[i].userId
    ensures SigninSpec(cfg, users', email, password, env) == SigninSpec(cfg, users, email, password, env)
  {
  }

  /** With unique emails and no failing call, signin succeeds exactly when some
      row has the email and the hash of the password, and then it sets the
      access and refresh cookies issued for that row's user id. */
  lemma SigninSucceedsIff(cfg: Config, users: seq<User>, email: string, password: string, env: Env)
    requires Unique(users)
    requires EmailLookup !in env.fails && SignAccess !in env.fails && SignRefresh !in env.fails
    ensures SigninSpec(cfg, users, email, password, env).outcome == Ok <==>
      exists i :: 0 <= i < |users| && users[i].email == email && users[i].hashedPassword == cfg.hash(password)
    ensures forall i :: 0 <= i < |users| && users[i].email == email && users[i].hashedPassword == cfg.hash(password) ==>
      SigninSpec(cfg, users, email, password, env).cookies ==
        [AccessCookie(cfg.session, users[i].userId, env.now), RefreshCookie(cfg.session, users[i].userId, env.now)]
  {
    forall i | 0 <= i < |users| && users[i].email == email {
      FindByEmailUnique(users, i);
    }
  }

  // ---------------------------------------------------------------- logout

  function LogoutSpec(cfg: Config, now: int): Response {
    Response(Ok, LogoutCookies(cfg.session, now))
  }

  // ---------------------------------------------------------------- verify

  /** `token` is the first value of the query parameter, None when it is absent. */
  function VerifySpec(users: seq<User>, token: Option<string>, env: Env): Transition {
    if token.None? || |token.value| < 1 then Refused(users, TokenMissing)
    else if VerifyUpdate in env.fails then Refused(users, InvalidToken)
    else Transition(SetVerified(users, token.value), [], Response(Ok, []))
  }

  /** A missing or empty token is refused and nothing changes. */
  lemma VerifyRejectsMissingToken(users: seq<User>, token: Option<string>, env: Env)
    requires token.None? || token.value == ""
    ensures VerifySpec(users, token, env) == Refused(users, TokenMissing)
  {
  }

  /** Otherwise every row whose verifiedToken is the token is marked verified,
      keeping its token, and every other row stays as it was. */
  lemma VerifyMarksMatchingRows(users: seq<User>, token: string, env: Env)
    requires token != "" && VerifyUpdate !in env.fails
    ensures var t := VerifySpec(users, Some(token), env);
      && t.response == Response(Ok, []) && t.mail == []
      && |t.users| == |users|
      && (forall i :: 0 <= i < |users| ==>
            t.users[i] == if users[i].verifiedToken == token then users[i].(verified := Some(1)) else users[i])
      && (forall i :: 0 <= i < |users| ==> t.users[i].verifiedToken == users[i].verifiedToken)
  {
  }

  /** A new account starts unverified, and verifying with the token it was
      given (a token of 6 symbols, so never the empty one) marks it verified. */
  lemma SignupThenVerify(cfg: Config, users: seq<User>, username: string, email: string, password: string,
                         env: Env, verifyEnv: Env)
    requires SignupAccepted(users, username, email, env)
    requires |env.randomBase62(VerifyTokenSize)| == VerifyTokenSize
    requires VerifyUpdate !in verifyEnv.fails
    ensures var after := SignupSpec(cfg, users, username, email, password, env).users;
      && |after| == |users| + 1 && after[|users|].verified == None
      && var t := VerifySpec(after, Some(after[|users|].verifiedToken), verifyEnv);
         t.response.outcome == Ok && t.users[|users|].verified == Some(1)
  {
  }

  /** A token that no row holds is answered with success and changes nothing. */
  lemma VerifyUnknownTokenIsOk(users: seq<User>, token: string, env: Env)
    requires token != "" && VerifyUpdate !in env.fails
    requires forall i :: 0 <= i < |users| ==> users[i].verifiedToken != token
    ensures VerifySpec(users, Some(token), env) == Transition(users, [], Response(Ok, []))
  {
    var r := VerifySpec(users, Some(token), env).users;
    assert r == users;
  }

  /** Verify keeps usernames and emails unique. */
  lemma VerifyKeepsUnique(users: seq<User>, token: Option<string>, env: Env)
    requires Unique(users)
    ensures Unique(VerifySpec(users, token, env).users)
  {
    if token.Some? && token.value != "" && VerifyUpdate !in env.fails {
      UpdateKeepsUnique(users, (u: User) => u.verifiedToken == token.value, (u: User) => u.(verified := Some(1)));
    }
  }

  // ---------------------------------------------------------------- sendReset

  function SendResetSpec(users: seq<User>, email: string, env: Env): Transition {
    if email == "" then Refused(users, InvalidEmail)
    else
      var token := env.randomBase62(ResetTokenSize);
      if ResetTokenUpdate in env.fails then Refused(users, ResetTokenFailed)
      else
        var stored := SetResetToken(users, email, token);
        if SendMail in env.fails then Transition(stored, [], Response(Fail(ResetMailFailed), []))
        else Transition(stored, [Mail(email, "BearChat Password Reset", "password-reset.html", token)], Response(Ok, []))
  }

  /** An empty email is refused and nothing changes. */
  lemma SendResetRejectsEmptyEmail(users: seq<User>, env: Env)
    ensures SendResetSpec(users, "", env) == Refused(users, InvalidEmail)
  {
  }

  /** Otherwise every row with the email gets the token drawn for size 6 as
      its resetToken, every other row stays as it was, and the same token is
      mailed to the email unless delivery fails. */
  lemma SendResetStoresToken(users: seq<User>, email: string, env: Env)
    requires email != "" && ResetTokenUpdate !in env.fails
    ensures var t := SendResetSpec(users, email, env);
      var token := env.randomBase62(6);
      && |t.users| == |users|
      && (forall i :: 0 <= i < |users| ==>
            t.users[i] == if users[i].email == email then users[i].(resetToken := Some(token)) else users[i])
      && t.mail == (if SendMail in env.fails then [] else [Mail(email, "BearChat Password Reset", "password-reset.html", token)])
      && t.response.outcome == (if SendMail in env.fails then Fail(ResetMailFailed) else Ok)
  {
  }

  /** An email that no row has leaves the table unchanged and raises no error. */
  lemma SendResetUnknownEmail(users: seq<User>, email: string, env: Env)
    requires email != "" && !HasEmail(users, email)
    requires ResetTokenUpdate !in env.fails && SendMail !in env.fails
    ensures SendResetSpec(users, email, env).users == users
    ensures SendResetSpec(users, email, env).response == Response(Ok, [])
  {
    assert SendResetSpec(users, email, env).users == users;
  }

  /** The response and the mail of a reset request do not depend on the table:
      a caller cannot tell from them whether the email has an account. */
  lemma SendResetHidesAccountExistence(users1: seq<User>, users2: seq<User>, email: string, env: Env)
    ensures SendResetSpec(users1, email, env).response == SendResetSpec(users2, email, env).response
    ensures SendResetSpec(users1, email, env).mail == SendResetSpec(users2, email, env).mail
  {
  }

  /** SendReset keeps usernames and emails unique. */
  lemma SendResetKeepsUnique(users: seq<User>, email: string, env: Env)
    requires Unique(users)
    ensures Unique(SendResetSpec(users, email, env).users)
  {
    if email != "" && ResetTokenUpdate !in env.fails {
      var token := env.randomBase62(ResetTokenSize);
      UpdateKeepsUnique(users, (u: User) => u.email == email, (u: User) => u.(resetToken := Some(token)));
    }
  }

  // ---------------------------------------------------------------- resetPassword

  /** `token` is the query parameter, "" when it is absent. */
  function ResetPasswordSpec(cfg: Config, users: seq<User>, username: string, email: string, password: string,
                             token: string, env: Env): Transition
  {
    if username == "" then Refused(users, InvalidUsername)
    else if email == "" then Refused(users, InvalidEmail)
    else if password == "" then Refused(users, InvalidPassword)
    else if PairQuery in env.fails then Refused(users, PairCheckFailed)
    else if !HasResetPair(users, username, token) then Refused(users, PairNotFound)
    else if Hashing in env.fails then Refused(users, EncryptFailed)
    else if PasswordUpdate in env.fails then Refused(users, PasswordUpdateFailed)
    else Transition(ClearResetSetPassword(users, email, cfg.hash(password)), [], Response(Ok, []))
  }

  /** The three fields are checked in the order username, email, password, and
      an empty one is refused with nothing changed. */
  lemma ResetPasswordChecksFieldsInOrder(cfg: Config, users: seq<User>, username: string, email: string,
                                         password: string, token: string, env: Env)
    ensures username == "" ==>
      ResetPasswordSpec(cfg, users, username, email, password, token, env) == Refused(users, InvalidUsername)
    ensures username != "" && email == "" ==>
      ResetPasswordSpec(cfg, users, username, email, password, token, env) == Refused(users, InvalidEmail)
    ensures username != "" && email != "" && password == "" ==>
      ResetPasswordSpec(cfg, users, username, email, password, token, env) == Refused(users, InvalidPassword)
  {
  }

  /** A reset succeeds exactly when the fields are non-empty, some row has
      both the username and the token as resetToken, and no call fails; a
      reset that does not succeed changes nothing. */
  lemma ResetPasswordSucceedsIff(cfg: Config, users: seq<User>, username: string, email: string,
                                 password: string, token: string, env: Env)
    ensures var t := ResetPasswordSpec(cfg, users, username, email, password, token, env);
      t.response.outcome == Ok <==>
        && username != "" && email != "" && password != ""
        && HasResetPair(users, username, token)
        && PairQuery !in env.fails && Hashing !in env.fails && PasswordUpdate !in env.fails
    ensures var t := ResetPasswordSpec(cfg, users, username, email, password, token, env);
      t.response.outcome != Ok ==> t.users == users && t.response.cookies == []
    ensures var t := ResetPasswordSpec(cfg, users, username, email, password, token, env);
      (username != "" && email != "" && password != "" && PairQuery !in env.fails
       && !HasResetPair(users, username, token)) ==> t == Refused(users, PairNotFound)
  {
  }

  /** A successful reset rewrites the rows with the given email, whichever
      username was checked: their resetToken becomes "" and their `password`
      column the new hash; `hashedPassword` and every other row stay as they were. */
  lemma ResetPasswordUpdatesByEmail(cfg: Config, users: seq<User>, username: string, email: string,
                                    password: string, token: string, env: Env)
    requires ResetPasswordSpec(cfg, users, username, email, password, token, env).response.outcome == Ok
    ensures var t := ResetPasswordSpec(cfg, users, username, email, password, token, env);
      && |t.users| == |users|
      && (forall i :: 0 <= i < |users| ==>
            t.users[i] == if users[i].email == email
                          then users[i].(resetToken := Some(""), password := Some(cfg.hash(password)))
                          else users[i])
      && (forall i :: 0 <= i < |users| ==> t.users[i].hashedPassword == users[i].hashedPassword)
  {
  }

  /** ResetPassword keeps usernames and emails unique. */
  lemma ResetPasswordKeepsUnique(cfg: Config, users: seq<User>, username: string, email: string,
                                 password: string, token: string, env: Env)
    requires Unique(users)
    ensures Unique(ResetPasswordSpec(cfg, users, username, email, password, token, env).users)
  {
    var hashed := cfg.hash(password);
    UpdateKeepsUnique(users, (u: User) => u.email == email,
                      (u: User) => u.(resetToken := Some(""), password := Some(hashed)));
  }

  /** The corrected reset, under which a reset token permits one password
      change, for its own account only: an empty token is refused like the
      other fields, and the hash signin checks is rewritten, and the token
      consumed, on the row whose (username, resetToken) pair was confirmed. */
  function ResetPasswordIntendedSpec(cfg: Config, users: seq<User>, username: string, email: string,
                                     password: string, token: string, env: Env): Transition
  {
    if username == "" then Refused(users, InvalidUsername)
    else if email == "" then Refused(users, InvalidEmail)
    else if password == "" then Refused(users, InvalidPassword)
    else if token == "" then Refused(users, MissingResetToken)
    else if PairQuery in env.fails then Refused(users, PairCheckFailed)
    else if !HasResetPair(users, username, token) then Refused(users, PairNotFound)
    else if Hashing in env.fails then Refused(users, EncryptFailed)
    else if PasswordUpdate in env.fails then Refused(users, PasswordUpdateFailed)
    else Transition(ConsumeResetToken(users, username, token, cfg.hash(password)), [], Response(Ok, []))
  }

  // ---------------------------------------------------------------- the service

  /** The API's shared state: the `users` table and the mail handed to the
      notifier so far. Each method is one handler, given its decoded inputs. */
  class AuthService {
    const cfg: Config
    var users: seq<User>
    var outbox: seq<Mail>

    ghost predicate Valid()
      reads this
    {
      Unique(users)
    }

    constructor (cfg: Config)
      ensures this.cfg == cfg && users == [] && outbox == [] && Valid()
    {
      this.cfg := cfg;
      users := [];
      outbox := [];
    }

    method Signup(username: string, email: string, password: string, env: Env)
      returns (outcome: Outcome, cookies: seq<Cookie>)
      modifies this
      ensures var t := SignupSpec(cfg, old(users), username, email, password, env);
        users == t.users && outbox == old(outbox) + t.mail && Response(outcome, cookies) == t.response
      requires Valid()
      ensures Valid()
    {
      cookies := [];
      SignupKeepsUnique(cfg, users, username, email, password, env);
      if UsernameQuery in env.fails {
        return Fail(UsernameCheckFailed), cookies;
      }
      if HasUsername(users, username) {
        return Fail(UsernameTaken), cookies;
      }
      if EmailQuery in env.fails {
        return Fail(EmailCheckFailed), cookies;
      }
      if HasEmail(users, email) {
        return Fail(EmailTaken), cookies;
      }
      if Hashing in env.fails {
        return Fail(EncryptFailed), cookies;
      }
      var hashed := cfg.hash(password);
      var newUUID := env.uuid;
      var newToken := env.randomBase62(VerifyTokenSize);
      if InsertRow in env.fails {
        return Fail(StoreFailed), cookies;
      }
      users := Insert(users, username, email, hashed, newToken, newUUID);

      var accessExpiresAt := env.now + cfg.session.accessTTL;
      var accessClaims := Claims(newUUID, "access", accessExpiresAt, cfg.session.issuer, env.now);
      if SignAccess in env.fails {
        return Fail(AccessTokenFailed), cookies;
      }
      cookies := cookies + [Cookie("access_token", Jwt(accessClaims), accessExpiresAt, "/")];

      var refreshExpiresAt := env.now + cfg.session.refreshTTL;
      var refreshClaims := Claims(newUUID, "refresh", refreshExpiresAt, cfg.session.issuer, env.now);
      if SignRefresh in env.fails {
        return Fail(RefreshTokenFailed), cookies;
      }
      cookies := cookies + [Cookie("refresh_token", Jwt(refreshClaims), refreshExpiresAt, "/")];

      if SendMail in env.fails {
        return Fail(VerificationMailFailed), cookies;
      }
      outbox := outbox + [Mail(email, "Email Verification", "user-signup.html", newToken)];
      outcome := Created;
    }

    method Signin(email: string, password: string, env: Env) returns (outcome: Outcome, cookies: seq<Cookie>)
      requires Valid()
      ensures Response(outcome, cookies) == SigninSpec(cfg, users, email, password, env)
      ensures EmailLookup !in env.fails && SignAccess !in env.fails && SignRefresh !in env.fails ==>
        (outcome == Ok <==>
           exists i :: 0 <= i < |users| && users[i].email == email && users[i].hashedPassword == cfg.hash(password))
    {
      if EmailLookup !in env.fails && SignAccess !in env.fails && SignRefresh !in env.fails {
        SigninSucceedsIff(cfg, users, email, password, env);
      }
      cookies := [];
      if EmailLookup in env.fails {
        return Fail(EmailLookupFailed), cookies;
      }
      var found := FindByEmail(users, email);
      if found.None? {
        return Fail(EmailNotFound), cookies;
      }
      var hashedPassword, userID := users[found.value].hashedPassword, users[found.value].userId;
      if hashedPassword != cfg.hash(password) {
        return Fail(IncorrectPassword), cookies;
      }

      var accessExpiresAt := env.now + cfg.session.accessTTL;
      var accessClaims := Claims(userID, "access", accessExpiresAt, cfg.session.issuer, env.now);
      if SignAccess in env.fails {
        return Fail(AccessTokenFailed), cookies;
      }
      cookies := cookies + [Cookie("access_token", Jwt(accessClaims), accessExpiresAt, "/")];

      var refreshExpiresAt := env.now + cfg.session.refreshTTL;
      var refreshClaims := Claims(userID, "refresh", refreshExpiresAt, cfg.session.issuer, env.now);
      if SignRefresh in env.fails {
        return Fail(RefreshTokenFailed), cookies;
      }
      cookies := cookies + [Cookie("refresh_token", Jwt(refreshClaims), refreshExpiresAt, "/")];
      outcome := Ok;
    }

    method Logout(now: int) returns (outcome: Outcome, cookies: seq<Cookie>)
      ensures Response(outcome, cookies) == LogoutSpec(cfg, now)
      ensures outcome == Ok && |cookies| == 2 && cookies[0].value == Blank && cookies[1].value == Blank
      ensures cfg.session.accessTTL > 0 ==> cookies[0].expires < now
      ensures cfg.session.refreshTTL > 0 ==> cookies[1].expires < now
    {
      var expiresAt := now;
      cookies := [Cookie("access_token", Blank, expiresAt - cfg.session.accessTTL, "")];
      cookies := cookies + [Cookie("refresh_token", Blank, expiresAt - cfg.session.refreshTTL, "")];
      outcome := Ok;
      LogoutCookiesAreExpired(cfg.session, now);
    }

    method Verify(token: Option<string>, env: Env) returns (outcome: Outcome)
      modifies this
      ensures var t := VerifySpec(old(users), token, env);
        users == t.users && outbox == old(outbox) + t.mail && Response(outcome, []) == t.response
      requires Valid()
      ensures Valid()
    {
      if token.None? || |token.value| < 1 {
        return Fail(TokenMissing);
      }
      if VerifyUpdate in env.fails {
        return Fail(InvalidToken);
      }
      users := SetVerified(users, token.value);
      outcome := Ok;
    }

    method SendReset(email: string, env: Env) returns (outcome: Outcome)
      modifies this
      ensures var t := SendResetSpec(old(users), email, env);
        users == t.users && outbox == old(outbox) + t.mail && Response(outcome, []) == t.response
      requires Valid()
      ensures Valid()
    {
      if email == "" {
        return Fail(InvalidEmail);
      }
      var token := env.randomBase62(ResetTokenSize);
      if ResetTokenUpdate in env.fails {
        return Fail(ResetTokenFailed);
      }
      users := SetResetToken(users, email, token);
      if SendMail in env.fails {
        return Fail(ResetMailFailed);
      }
      outbox := outbox + [Mail(email, "BearChat Password Reset", "password-reset.html", token)];
      outcome := Ok;
    }

    method ResetPassword(username: string, email: string, password: string, token: string, env: Env)
      returns (outcome: Outcome)
      modifies this
      ensures var t := ResetPasswordSpec(cfg, old(users), username, email, password, token, env);
        users == t.users && outbox == old(outbox) + t.mail && Response(outcome, []) == t.response
      requires Valid()
      ensures Valid()
    {
      if username == "" {
        return Fail(InvalidUsername);
      }
      if email == "" {
        return Fail(InvalidEmail);
      }
      if password == "" {
        return Fail(InvalidPassword);
      }
      if PairQuery in env.fails {
        return Fail(PairCheckFailed);
      }
      var pairExists := HasResetPair(users, username, token);
      if !pairExists {
        return Fail(PairNotFound);
      }
      if Hashing in env.fails {
        return Fail(EncryptFailed);
      }
      var hashed := cfg.hash(password);
      if PasswordUpdate in env.fails {
        return Fail(PasswordUpdateFailed);
      }
      users := ClearResetSetPassword(users, email, hashed);
      outcome := Ok;
    }

    /** The corrected resetPassword (see ResetPasswordIntendedSpec). */
    method ResetPasswordIntended(username: string, email: string, password: string, token: string, env: Env)
      returns (outcome: Outcome)
      modifies this
      ensures var t := ResetPasswordIntendedSpec(cfg, old(users), username, email, password, token, env);
        users == t.users && outbox == old(outbox) + t.mail && Response(outcome, []) == t.response
      requires Valid()
      ensures Valid()
    {
      if username == "" {
        return Fail(InvalidUsername);
      }
      if email == "" {
        return Fail(InvalidEmail);
      }
      if password == "" {
        return Fail(InvalidPassword);
      }
      if token == "" {
        return Fail(MissingResetToken);
      }
      if PairQuery in env.fails {
        return Fail(PairCheckFailed);
      }
      var pairExists := HasResetPair(users, username, token);
      if !pairExists {
        return Fail(PairNotFound);
      }
      if Hashing in env.fails {
        return Fail(EncryptFailed);
      }
      var hashed := cfg.hash(password);
      if PasswordUpdate in env.fails {
        return Fail(PasswordUpdateFailed);
      }
      users := ConsumeResetToken(users, username, token, hashed);
      outcome := Ok;
    }
  }
}
