/** Consequences of the code as written, each shown on the model of the code
    as it stands, together with a corrected definition and the properties that
    one has instead.

    Three concern resetPassword. A reset token is meant to permit one password
    change, for its own account only; the corrected reset is
    `ResetPasswordIntendedSpec`.

    1. The new hash goes to the `password` column, while signin checks
       `hashedPassword`: a completed reset never changes which password signs in.
    2. The update is keyed by the email of the request, not by the username
       whose reset token was checked: the holder of one account's token
       rewrites another account's row.
    3. The reset token is "cleared" to the empty string, which the pair check
       then accepts as a token: after one reset, the same account can be reset
       again with no token at all.

    4. verify hands the whole list of `token` query values to the UPDATE, an
       argument `database/sql` drivers refuse: no account is ever verified.
       The corrected verify is `VerifySpec`, which binds the first value.
    5. The logout cookies carry no Path, so a user agent stores them under the
       logout route's directory and not under "/", where the session cookies
       are: logout does not replace them. The corrected cookies are
       `IntendedLogoutCookies`. */
module Findings {
  import opened Store
  import opened Session
  import opened Lifecycle
  import opened Invariants

  // ------------------------------------------------------------ as written

  /** The account walk-through of signup, signin, reset request and reset, run
      on the service as written: the reset reports success, yet afterwards the
      old password still signs in and the new one is refused. */
  method ResetScenarioAsWritten(cfg: Config)
    returns (signedUp: Outcome, before: Outcome, wrong: Outcome, requested: Outcome, reset: Outcome,
             oldPassword: Outcome, newPassword: Outcome)
    requires cfg.hash("pw1") != cfg.hash("pw2") && cfg.hash("pw1") != cfg.hash("wrong")
    ensures signedUp == Created && before == Ok && wrong == Fail(IncorrectPassword)
    ensures requested == Ok && reset == Ok
    ensures oldPassword == Ok && newPassword == Fail(IncorrectPassword)
  {
    var svc := new AuthService(cfg);
    var env := Env(1000, "5f0c2a9e", n => "Vx7Q2m", {});
    var cookies;
    signedUp, cookies := svc.Signup("alice", "alice@x.com", "pw1", env);
    assert svc.users == [NewUser(cfg, "alice", "alice@x.com", "pw1", env)];
    before, cookies := svc.Signin("alice@x.com", "pw1", env);
    wrong, cookies := svc.Signin("alice@x.com", "wrong", env);
    requested := svc.SendReset("alice@x.com", Env(2000, "", n => "R3sE7t", {}));
    var token := svc.outbox[|svc.outbox| - 1].token;  // the token the reset mail carries
    assert svc.users[0].resetToken == Some(token);
    reset := svc.ResetPassword("alice", "alice@x.com", "pw2", token, env);
    oldPassword, cookies := svc.Signin("alice@x.com", "pw1", env);
    newPassword, cookies := svc.Signin("alice@x.com", "pw2", env);
  }

  /** The holder of account i's reset token, naming account j's email, resets
      account j: j's `password` is rewritten and its pending reset cleared,
      while account i keeps its token, which stays usable. */
  lemma CrossAccountResetAsWritten(cfg: Config, users: seq<User>, i: nat, j: nat, password: string, env: Env)
    requires Unique(users) && i < |users| && j < |users| && i != j
    requires users[i].resetToken.Some? && users[i].username != "" && users[j].email != "" && password != ""
    requires PairQuery !in env.fails && Hashing !in env.fails && PasswordUpdate !in env.fails
    ensures var t := ResetPasswordSpec(cfg, users, users[i].username, users[j].email, password,
                                       users[i].resetToken.value, env);
      && t.response.outcome == Ok
      && t.users[j] == users[j].(resetToken := Some(""), password := Some(cfg.hash(password)))
      && t.users[i] == users[i]
  {
    assert HasResetPair(users, users[i].username, users[i].resetToken.value) by {
      assert users[i].resetToken == Some(users[i].resetToken.value);
    }
    ResetPasswordUpdatesByEmail(cfg, users, users[i].username, users[j].email, password,
                                users[i].resetToken.value, env);
  }

  /** After a successful reset of an account's own row, that account can be
      reset again with the empty token: the cleared resetToken "" is found by
      the pair check like any other token. */
  lemma ClearedTokenReplaysAsWritten(cfg: Config, users: seq<User>, k: nat, password: string, token: string,
                                     env: Env, password2: string, env2: Env)
    requires k < |users|
    requires ResetPasswordSpec(cfg, users, users[k].username, users[k].email, password, token, env)
               .response.outcome == Ok
    requires password2 != ""
    requires PairQuery !in env2.fails && Hashing !in env2.fails && PasswordUpdate !in env2.fails
    ensures var after := ResetPasswordSpec(cfg, users, users[k].username, users[k].email, password, token, env).users;
      ResetPasswordSpec(cfg, after, users[k].username, users[k].email, password2, "", env2).response.outcome == Ok
  {
    var after := ResetPasswordSpec(cfg, users, users[k].username, users[k].email, password, token, env).users;
    ResetPasswordSucceedsIff(cfg, users, users[k].username, users[k].email, password, token, env);
    ResetPasswordUpdatesByEmail(cfg, users, users[k].username, users[k].email, password, token, env);
    assert after[k].username == users[k].username && after[k].resetToken == Some("");
    assert HasResetPair(after, users[k].username, "");
  }

  /** Over every table and request, a reset as written leaves signin's answer
      as it was, for every email and every password. */
  lemma ResetKeepsSigninAsWritten(cfg: Config, users: seq<User>, username: string, email: string,
                                  password: string, token: string, env: Env,
                                  signinEmail: string, signinPassword: string, signinEnv: Env)
    ensures var after := ResetPasswordSpec(cfg, users, username, email, password, token, env).users;
      SigninSpec(cfg, after, signinEmail, signinPassword, signinEnv) ==
        SigninSpec(cfg, users, signinEmail, signinPassword, signinEnv)
  {
    var t := ResetPasswordSpec(cfg, users, username, email, password, token, env);
    ResetPasswordSucceedsIff(cfg, users, username, email, password, token, env);
    if t.response.outcome == Ok {
      var hashed := cfg.hash(password);
      assert t.users == ClearResetSetPassword(users, email, hashed);
      UpdateKeepsFindByEmail(users, (u: User) => u.email == email,
                             (u: User) => u.(resetToken := Some(""), password := Some(hashed)), signinEmail);
      SigninReadsOnlyLoginColumns(cfg, users, t.users, signinEmail, signinPassword, signinEnv);
    }
  }

  /** verify as written: `token` is the `[]string` of query values, and the
      UPDATE at api.go:354 is handed that slice. The argument conversion of
      `database/sql` drivers accepts no slice but `[]byte`, so the statement
      fails each time, which is the `VerifyUpdate` failure. */
  function VerifyAsWrittenSpec(users: seq<User>, token: Option<string>, env: Env): Transition {
    VerifySpec(users, token, env.(fails := env.fails + {VerifyUpdate}))
  }

  /** No verify as written changes the table, and every present token is
      answered "invalid token". */
  lemma VerifyNeverMarksAsWritten(users: seq<User>, token: Option<string>, env: Env)
    ensures VerifyAsWrittenSpec(users, token, env).users == users
    ensures token.Some? && token.value != "" ==>
      VerifyAsWrittenSpec(users, token, env) == Refused(users, InvalidToken)
  {
  }

  /** A new account verified with the very token it was mailed stays
      unverified under verify as written. */
  lemma SignupThenVerifyAsWritten(cfg: Config, users: seq<User>, username: string, email: string,
                                  password: string, env: Env, verifyEnv: Env)
    requires SignupAccepted(users, username, email, env)
    requires |env.randomBase62(VerifyTokenSize)| == VerifyTokenSize
    ensures var after := SignupSpec(cfg, users, username, email, password, env).users;
      && |after| == |users| + 1
      && var t := VerifyAsWrittenSpec(after, Some(after[|users|].verifiedToken), verifyEnv);
         t.response.outcome == Fail(InvalidToken) && t.users[|users|].verified == None
  {
  }

  /** Logout as written, in answer to its route, sets two cookies whose
      stored path is "/api/auth", while the session cookies issued by signup
      or signin, whatever their route, are stored under "/": neither logout
      cookie replaces the session cookie of its name. */
  lemma LogoutKeepsSessionCookiesAsWritten(cfg: SessionConfig, userId: string, issuedAt: int,
                                           issuePath: string, now: int)
    ensures var out := LogoutCookies(cfg, now);
      && !Replaces(out[0], LogoutRoute, AccessCookie(cfg, userId, issuedAt), issuePath)
      && !Replaces(out[1], LogoutRoute, RefreshCookie(cfg, userId, issuedAt), issuePath)
  {
    LogoutCookiesStoredUnderRouteDirectory(cfg, now);
    assert LogoutCookies(cfg, now)[0] in LogoutCookies(cfg, now);
    assert LogoutCookies(cfg, now)[1] in LogoutCookies(cfg, now);
  }

  // ------------------------------------------------------------ as intended

  /** The intended reset of the row holding the (username, token) pair makes
      signin for that row's email accept exactly the passwords with the new
      hash, and touches no other row. */
  lemma IntendedResetTakesEffect(cfg: Config, users: seq<User>, i: nat, email: string, password: string,
                                 env: Env, signinEnv: Env)
    requires Unique(users) && i < |users|
    requires users[i].resetToken.Some? && users[i].resetToken.value != ""
    requires users[i].username != "" && email != "" && password != ""
    requires PairQuery !in env.fails && Hashing !in env.fails && PasswordUpdate !in env.fails
    requires EmailLookup !in signinEnv.fails && SignAccess !in signinEnv.fails && SignRefresh !in signinEnv.fails
    ensures var t := ResetPasswordIntendedSpec(cfg, users, users[i].username, email, password,
                                               users[i].resetToken.value, env);
      && t.response.outcome == Ok
      && (forall j :: 0 <= j < |users| && j != i ==> t.users[j] == users[j])
      && (forall p :: SigninSpec(cfg, t.users, users[i].email, p, signinEnv).outcome == Ok <==>
                       cfg.hash(p) == cfg.hash(password))
  {
    var token := users[i].resetToken.value;
    assert HasResetPair(users, users[i].username, token) by {
      assert users[i].resetToken == Some(token);
    }
    var after := ResetPasswordIntendedSpec(cfg, users, users[i].username, email, password, token, env).users;
    assert Unique(after);
    assert after[i].hashedPassword == cfg.hash(password) && after[i].email == users[i].email;
    FindByEmailUnique(after, i);
  }

  /** A (username, token) pair opens at most one intended reset: once it has
      succeeded, the same pair is refused whatever else the request says, and
      the empty token is refused always. */
  lemma IntendedResetIsSingleUse(cfg: Config, users: seq<User>, username: string, email: string,
                                 password: string, token: string, env: Env,
                                 email2: string, password2: string, env2: Env)
    requires Unique(users)
    requires ResetPasswordIntendedSpec(cfg, users, username, email, password, token, env).response.outcome == Ok
    ensures var after := ResetPasswordIntendedSpec(cfg, users, username, email, password, token, env).users;
      && !HasResetPair(after, username, token)
      && ResetPasswordIntendedSpec(cfg, after, username, email2, password2, token, env2).response.outcome != Ok
      && ResetPasswordIntendedSpec(cfg, after, username, email2, password2, "", env2).response.outcome != Ok
  {
  }

  /** The corrected logout cookies, set in answer to any route, replace the
      session cookie of the same name issued on any route; they are blank and,
      for positive TTLs, already expired. */
  lemma IntendedLogoutReplacesSessionCookies(cfg: SessionConfig, userId: string, issuedAt: int,
                                             issuePath: string, now: int, logoutPath: string)
    ensures var out := IntendedLogoutCookies(cfg, now);
      && |out| == 2
      && Replaces(out[0], logoutPath, AccessCookie(cfg, userId, issuedAt), issuePath)
      && Replaces(out[1], logoutPath, RefreshCookie(cfg, userId, issuedAt), issuePath)
      && out[0].value == Blank && out[1].value == Blank
      && (cfg.accessTTL > 0 ==> out[0].expires < now)
      && (cfg.refreshTTL > 0 ==> out[1].expires < now)
  {
  }

  /** The same walk-through with the intended reset: the new password signs in,
      the old one is refused, and neither the used token nor the empty token
      opens a second reset. */
  method ResetScenarioIntended(cfg: Config)
    returns (reset: Outcome, oldPassword: Outcome, newPassword: Outcome, replay: Outcome, emptyToken: Outcome)
    requires cfg.hash("pw1") != cfg.hash("pw2")
    ensures reset == Ok && oldPassword == Fail(IncorrectPassword) && newPassword == Ok
    ensures replay == Fail(PairNotFound) && emptyToken == Fail(MissingResetToken)
  {
    var svc := new AuthService(cfg);
    var env := Env(1000, "5f0c2a9e", n => "Vx7Q2m", {});
    var signedUp, requested, cookies;
    signedUp, cookies := svc.Signup("alice", "alice@x.com", "pw1", env);
    requested := svc.SendReset("alice@x.com", Env(2000, "", n => "R3sE7t", {}));
    var token := svc.outbox[|svc.outbox| - 1].token;
    assert svc.users[0].resetToken == Some(token);
    reset := svc.ResetPasswordIntended("alice", "alice@x.com", "pw2", token, env);
    oldPassword, cookies := svc.Signin("alice@x.com", "pw1", env);
    newPassword, cookies := svc.Signin("alice@x.com", "pw2", env);
    replay := svc.ResetPasswordIntended("alice", "alice@x.com", "pw3", token, env);
    emptyToken := svc.ResetPasswordIntended("alice", "alice@x.com", "pw3", "", env);
  }
}
