/**
 * `POST /api/auth/google`: after an OAuth sign-in the client posts the
 * user's email and name; the row with that email gets the new name, or a
 * new row is created with an empty password and no phone.
 */
module AuthRoute {
  import opened Wrappers
  import opened Http
  import Js
  import Users

  /** The request body; `image` and `googleId` are sent but not used. */
  datatype GoogleBody = GoogleBody(email: Option<string>, name: Option<string>)

  /** The `user` object of the answer. */
  datatype UserView = UserView(id: int, email: string, name: string, phone: Option<string>, createdAt: int)

  const MissingFields := "Email and name are required"

  /** The table after the upsert of `(email, name)`: the rows and the next id. */
  function Upsert(rows: map<string, Users.User>, nextId: int, email: string, name: string, now: int)
    : (r: (map<string, Users.User>, int))
    ensures email in r.0 && r.0[email].name == name
    ensures r.0.Keys == rows.Keys + {email}
    ensures forall e :: e in rows && e != email ==> r.0[e] == rows[e]
    ensures email in rows ==> r.0[email] == rows[email].(name := name) && r.1 == nextId
    ensures email !in rows ==>
      r.0[email] == Users.User(nextId, email, name, "", None, now) && r.1 == nextId + 1
  {
    if email in rows then (rows[email := rows[email].(name := name)], nextId)
    else (rows[email := Users.User(nextId, email, name, "", None, now)], nextId + 1)
  }

  /** An upsert keeps the table well formed: still one row per email, ids still distinct. */
  lemma UpsertWellFormed(rows: map<string, Users.User>, nextId: int, email: string, name: string, now: int)
    requires Users.WellFormed(rows, nextId)
    ensures Users.WellFormed(Upsert(rows, nextId, email, name, now).0, Upsert(rows, nextId, email, name, now).1)
  {
  }

  /** Repeating a sign-in with the same email and name changes nothing more. */
  lemma UpsertIdempotent(rows: map<string, Users.User>, nextId: int, email: string, name: string, now: int, later: int)
    ensures var (rows1, next1) := Upsert(rows, nextId, email, name, now);
            Upsert(rows1, next1, email, name, later) == (rows1, next1)
  {
    var (rows1, next1) := Upsert(rows, nextId, email, name, now);
    assert rows1[email := rows1[email].(name := name)] == rows1;
  }

  /** The table grows by one row exactly when the email was new. */
  lemma UpsertSize(rows: map<string, Users.User>, nextId: int, email: string, name: string, now: int)
    ensures |Upsert(rows, nextId, email, name, now).0| == if email in rows then |rows| else |rows| + 1
  {
    var r := Upsert(rows, nextId, email, name, now).0;
    if email in rows {
      assert r.Keys == rows.Keys;
    } else {
      assert r.Keys == rows.Keys + {email};
    }
  }

  function View(u: Users.User): UserView
  {
    UserView(u.id, u.email, u.name, u.phone, u.createdAt)
  }

  /**
   * The handler: 400 unless both email and name are given, otherwise the
   * upsert, answered with the stored row.
   */
  method GoogleSignIn(users: Users.UserTable, body: GoogleBody, now: int) returns (r: Response<UserView>)
    requires users.Valid()
    modifies users
    ensures users.Valid()
    ensures !(Js.TruthyString(body.email) && Js.TruthyString(body.name)) ==>
      r == Err(BadRequest, MissingFields) && users.rows == old(users.rows) && users.nextId == old(users.nextId)
    ensures Js.TruthyString(body.email) && Js.TruthyString(body.name) ==>
      (users.rows, users.nextId) == Upsert(old(users.rows), old(users.nextId), body.email.value, body.name.value, now)
      && r == Ok(View(users.rows[body.email.value]))
  {
    if !Js.TruthyString(body.email) || !Js.TruthyString(body.name) {
      return Err(BadRequest, MissingFields);
    }
    var email, name := body.email.value, body.name.value;
    UpsertWellFormed(users.rows, users.nextId, email, name, now);
    var existing := Users.FindByEmail(users.rows, email);
    var user: Users.User;
    if existing.Some? {
      user := existing.value.(name := name);
    } else {
      user := Users.User(users.nextId, email, name, "", None, now);
      users.nextId := users.nextId + 1;
    }
    users.rows := users.rows[email := user];
    r := Ok(View(user));
  }
}
