/** The handlers as one state machine over the `users` table: a request of any
    kind, applied to the table, and what stays true over any sequence of them. */
module Invariants {
  import opened Store
  import opened Lifecycle

  /** A decoded request to one of the six endpoints. */
  datatype Request =
    | SignupRequest(username: string, email: string, password: string)
    | SigninRequest(email: string, password: string)
    | LogoutRequest
    | VerifyRequest(verifyToken: Option<string>)
    | SendResetRequest(email: string)
    | ResetPasswordRequest(username: string, email: string, password: string, resetToken: string)

  /** The effect of serving `req` in `env`; signin and logout leave the table alone. */
  function Apply(cfg: Config, users: seq<User>, req: Request, env: Env): Transition {
    match req
    case SignupRequest(u, e, p) => SignupSpec(cfg, users, u, e, p, env)
    case SigninRequest(e, p) => Transition(users, [], SigninSpec(cfg, users, e, p, env))
    case LogoutRequest => Transition(users, [], LogoutSpec(cfg, env.now))
    case VerifyRequest(t) => VerifySpec(users, t, env)
    case SendResetRequest(e) => SendResetSpec(users, e, env)
    case ResetPasswordRequest(u, e, p, t) => ResetPasswordSpec(cfg, users, u, e, p, t, env)
  }

  /** The table after serving the requests one after the other. */
  function Run(cfg: Config, users: seq<User>, trace: seq<(Request, Env)>): seq<User>
    decreases |trace|
  {
    if trace == [] then users
    else Run(cfg, Apply(cfg, users, trace[0].0, trace[0].1).users, trace[1..])
  }

  /** A row that existed before a request keeps its place, its username, email,
      hashedPassword, verifiedToken and userId, and stays verified once it is. */
  predicate Persists(before: User, after: User) {
    && after.username == before.username
    && after.email == before.email
    && after.hashedPassword == before.hashedPassword
    && after.verifiedToken == before.verifiedToken
    && after.userId == before.userId
    && (before.verified == Some(1) ==> after.verified == Some(1))
  }

  /** Rows are only ever appended, and every existing row persists. */
  predicate Evolves(before: seq<User>, after: seq<User>) {
    && |before| <= |after|
    && forall i :: 0 <= i < |before| ==> Persists(before[i], after[i])
  }

  lemma EvolvesTransitive(a: seq<User>, b: seq<User>, c: seq<User>)
    requires Evolves(a, b) && Evolves(b, c)
    ensures Evolves(a, c)
  {
  }

  /** No request deletes, moves or re-keys a row, overwrites a stored
      hashedPassword, or clears `verified`. */
  lemma ApplyEvolves(cfg: Config, users: seq<User>, req: Request, env: Env)
    ensures Evolves(users, Apply(cfg, users, req, env).users)
  {
    match req
    case SignupRequest(u, e, p) => SignupEvolves(cfg, users, u, e, p, env);
    case SigninRequest(_, _) =>
    case LogoutRequest =>
    case VerifyRequest(t) => VerifyEvolves(users, t, env);
    case SendResetRequest(e) => SendResetEvolves(users, e, env);
    case ResetPasswordRequest(u, e, p, t) => ResetPasswordEvolves(cfg, users, u, e, p, t, env);
  }

  /** Signup leaves every existing row as it was and at most appends one. */
  lemma SignupEvolves(cfg: Config, users: seq<User>, username: string, email: string, password: string, env: Env)
    ensures var after := SignupSpec(cfg, users, username, email, password, env).users;
      |users| <= |after| <= |users| + 1 && after[..|users|] == users
    ensures Evolves(users, SignupSpec(cfg, users, username, email, password, env).users)
  {
  }

  /** Verify writes no column but `verified`, and that one only to 1. */
  lemma VerifyEvolves(users: seq<User>, token: Option<string>, env: Env)
    ensures var after := VerifySpec(users, token, env).users;
      && |after| == |users|
      && forall i :: 0 <= i < |users| ==>
           after[i].(verified := users[i].verified) == users[i]
           && (after[i].verified == users[i].verified || after[i].verified == Some(1))
    ensures Evolves(users, VerifySpec(users, token, env).users)
  {
  }

  /** SendReset writes no column but `resetToken`. */
  lemma SendResetEvolves(users: seq<User>, email: string, env: Env)
    ensures var after := SendResetSpec(users, email, env).users;
      && |after| == |users|
      && forall i :: 0 <= i < |users| ==> after[i].(resetToken := users[i].resetToken) == users[i]
    ensures Evolves(users, SendResetSpec(users, email, env).users)
  {
  }

  /** ResetPassword writes no column but `resetToken` and `password`. */
  lemma ResetPasswordEvolves(cfg: Config, users: seq<User>, username: string, email: string, password: string,
                             token: string, env: Env)
    ensures var after := ResetPasswordSpec(cfg, users, username, email, password, token, env).users;
      && |after| == |users|
      && forall i :: 0 <= i < |users| ==>
           after[i].(resetToken := users[i].resetToken, password := users[i].password) == users[i]
    ensures Evolves(users, ResetPasswordSpec(cfg, users, username, email, password, token, env).users)
  {
  }

  /** Every request keeps usernames and emails unique. */
  lemma ApplyKeepsUnique(cfg: Config, users: seq<User>, req: Request, env: Env)
    requires Unique(users)
    ensures Unique(Apply(cfg, users, req, env).users)
  {
    match req
    case SignupRequest(u, e, p) => SignupKeepsUnique(cfg, users, u, e, p, env);
    case SigninRequest(_, _) =>
    case LogoutRequest =>
    case VerifyRequest(t) => VerifyKeepsUnique(users, t, env);
    case SendResetRequest(e) => SendResetKeepsUnique(users, e, env);
    case ResetPasswordRequest(u, e, p, t) => ResetPasswordKeepsUnique(cfg, users, u, e, p, t, env);
  }

  lemma {:induction false} RunEvolves(cfg: Config, users: seq<User>, trace: seq<(Request, Env)>)
    ensures Evolves(users, Run(cfg, users, trace))
    decreases |trace|
  {
    if trace != [] {
      var next := Apply(cfg, users, trace[0].0, trace[0].1).users;
      ApplyEvolves(cfg, users, trace[0].0, trace[0].1);
      RunEvolves(cfg, next, trace[1..]);
      EvolvesTransitive(users, next, Run(cfg, next, trace[1..]));
    }
  }

  lemma {:induction false} RunKeepsUnique(cfg: Config, users: seq<User>, trace: seq<(Request, Env)>)
    requires Unique(users)
    ensures Unique(Run(cfg, users, trace))
    decreases |trace|
  {
    if trace != [] {
      ApplyKeepsUnique(cfg, users, trace[0].0, trace[0].1);
      RunKeepsUnique(cfg, Apply(cfg, users, trace[0].0, trace[0].1).users, trace[1..]);
    }
  }

  /** Whatever requests are served, signin for an existing row's email accepts
      exactly the passwords whose hash is the hashedPassword that row had to
      begin with: no request, a completed password reset included, changes
      which password signin accepts. */
  lemma SigninPasswordNeverChanges(cfg: Config, users: seq<User>, trace: seq<(Request, Env)>, i: nat,
                                   password: string, env: Env)
    requires Unique(users) && i < |users|
    requires EmailLookup !in env.fails && SignAccess !in env.fails && SignRefresh !in env.fails
    ensures var later := Run(cfg, users, trace);
      SigninSpec(cfg, later, users[i].email, password, env).outcome == Ok <==>
        cfg.hash(password) == users[i].hashedPassword
  {
    var later := Run(cfg, users, trace);
    RunEvolves(cfg, users, trace);
    RunKeepsUnique(cfg, users, trace);
    assert Persists(users[i], later[i]);
    FindByEmailUnique(later, i);
  }
}
