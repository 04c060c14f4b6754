/** The `users` table of the authentication service and the SQL statements the
    handlers run against it, each as a function from the table's old rows to
    its new rows (or to the answer of a query). */
module Store {

  datatype Option<T> = None | Some(value: T)

  /** One row of `users`. The columns that the signup INSERT does not write
      (`password`, `verified`, `resetToken`) hold SQL NULL until an UPDATE
      sets them; NULL is `None`, and in a WHERE clause it equals nothing. */
  datatype User = User(
    username: string,
    email: string,
    hashedPassword: string,
    password: Option<string>,
    verifiedToken: string,
    verified: Option<int>,
    resetToken: Option<string>,
    userId: string)

  /** `SELECT EXISTS(SELECT * FROM users WHERE username = ?)` */
  predicate HasUsername(rows: seq<User>, username: string) {
    exists i :: 0 <= i < |rows| && rows[i].username == username
  }

  /** `SELECT EXISTS(SELECT * FROM users WHERE email = ?)` */
  predicate HasEmail(rows: seq<User>, email: string) {
    exists i :: 0 <= i < |rows| && rows[i].email == email
  }

  /** `SELECT EXISTS(SELECT * FROM users WHERE username = ? AND resetToken = ?)`;
      a NULL resetToken matches no token, not even the empty one. */
  predicate HasResetPair(rows: seq<User>, username: string, token: string) {
    exists i :: 0 <= i < |rows| && rows[i].username == username && rows[i].resetToken == Some(token)
  }

  /** `SELECT hashedPassword, userId FROM users WHERE email = ?` read with
      QueryRow: the first row with that email, or no row at all. */
  function FindByEmail(rows: seq<User>, email: string): (r: Option<nat>)
    ensures r.Some? ==> r.value < |rows| && rows[r.value].email == email
    ensures r.Some? ==> forall j :: 0 <= j < r.value ==> rows[j].email != email
    ensures r.None? <==> !HasEmail(rows, email)
  {
    if rows == [] then None
    else if rows[0].email == email then Some(0)
    else match FindByEmail(rows[1..], email)
      case None => assert forall j :: 1 <= j < |rows| ==> rows[j] == rows[1..][j - 1]; None
      case Some(k) => Some(k + 1)
  }

  /** `UPDATE users SET <assign> WHERE <where>`: every row the WHERE clause
      selects is rewritten in place, every other row is left as it was, and
      no row is added, removed or moved. */
  function Update(rows: seq<User>, where: User -> bool, assign: User -> User): (r: seq<User>)
    ensures |r| == |rows|
    ensures forall i :: 0 <= i < |rows| ==> r[i] == if where(rows[i]) then assign(rows[i]) else rows[i]
  {
    if rows == [] then []
    else [if where(rows[0]) then assign(rows[0]) else rows[0]] + Update(rows[1..], where, assign)
  }

  /** `INSERT INTO users (username, email, hashedPassword, verifiedToken, userId) VALUES (...)` */
  function Insert(rows: seq<User>, username: string, email: string, hashedPassword: string,
                  verifiedToken: string, userId: string): seq<User>
  {
    rows + [User(username, email, hashedPassword, None, verifiedToken, None, None, userId)]
  }

  /** `UPDATE users SET verified = 1 WHERE verifiedToken = ?` */
  function SetVerified(rows: seq<User>, token: string): seq<User> {
    Update(rows, (u: User) => u.verifiedToken == token, (u: User) => u.(verified := Some(1)))
  }

  /** `UPDATE users SET resetToken = ? WHERE email = ?` */
  function SetResetToken(rows: seq<User>, email: string, token: string): seq<User> {
    Update(rows, (u: User) => u.email == email, (u: User) => u.(resetToken := Some(token)))
  }

  /** `UPDATE users SET resetToken = '', password = ? WHERE email = ?` */
  function ClearResetSetPassword(rows: seq<User>, email: string, hashed: string): seq<User> {
    Update(rows, (u: User) => u.email == email, (u: User) => u.(resetToken := Some(""), password := Some(hashed)))
  }

  /** `UPDATE users SET resetToken = '', hashedPassword = ? WHERE username = ? AND resetToken = ?`:
      the statement a reset performs when it rewrites the row whose pair it checked. */
  function ConsumeResetToken(rows: seq<User>, username: string, token: string, hashed: string): seq<User> {
    Update(rows, (u: User) => u.username == username && u.resetToken == Some(token),
           (u: User) => u.(resetToken := Some(""), hashedPassword := hashed))
  }

  /** No two rows share a username, and no two rows share an email. */
  predicate Unique(rows: seq<User>) {
    forall i, j :: 0 <= i < j < |rows| ==>
      rows[i].username != rows[j].username && rows[i].email != rows[j].email
  }

  /** An INSERT of a username and an email that no row has keeps both columns unique. */
  lemma InsertKeepsUnique(rows: seq<User>, username: string, email: string, hashedPassword: string,
                          verifiedToken: string, userId: string)
    requires Unique(rows) && !HasUsername(rows, username) && !HasEmail(rows, email)
    ensures Unique(Insert(rows, username, email, hashedPassword, verifiedToken, userId))
  {
    var r := Insert(rows, username, email, hashedPassword, verifiedToken, userId);
    forall i, j | 0 <= i < j < |r|
      ensures r[i].username != r[j].username && r[i].email != r[j].email
    {
      if j == |rows| {
        assert rows[i] == r[i];
      }
    }
  }

  /** An UPDATE that writes neither username nor email keeps both columns unique. */
  lemma UpdateKeepsUnique(rows: seq<User>, where: User -> bool, assign: User -> User)
    requires Unique(rows)
    requires forall u :: assign(u).username == u.username && assign(u).email == u.email
    ensures Unique(Update(rows, where, assign))
  {
  }

  /** An UPDATE that does not write the email column leaves every email-keyed
      lookup finding the same row. */
  lemma {:induction false} UpdateKeepsFindByEmail(rows: seq<User>, where: User -> bool, assign: User -> User,
                                                 email: string)
    requires forall u :: assign(u).email == u.email
    ensures FindByEmail(Update(rows, where, assign), email) == FindByEmail(rows, email)
  {
    if rows != [] {
      var r := Update(rows, where, assign);
      assert r[1..] == Update(rows[1..], where, assign);
      UpdateKeepsFindByEmail(rows[1..], where, assign, email);
    }
  }

  /** In a table with unique emails, the email of a row finds that row. */
  lemma FindByEmailUnique(rows: seq<User>, i: nat)
    requires Unique(rows) && i < |rows|
    ensures FindByEmail(rows, rows[i].email) == Some(i)
  {
  }
}
