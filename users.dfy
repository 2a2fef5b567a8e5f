/**
 * The user table shared by the sign-in route and the authentication
 * middleware. The email column is unique, so the table is kept as a map
 * from email to row; ids are handed out from an increasing counter.
 */
module Users {
  import opened Wrappers

  datatype User = User(
    id: int,
    email: string,
    name: string,
    password: string,
    phone: Option<string>,
    createdAt: int)

  /** Every row sits under its own email: the unique index of the email column. */
  ghost predicate KeyedByEmail(rows: map<string, User>)
  {
    forall e :: e in rows ==> rows[e].email == e
  }

  /** Keyed by email, ids distinct and below the next id to hand out. */
  ghost predicate WellFormed(rows: map<string, User>, nextId: int)
  {
    && KeyedByEmail(rows)
    && 1 <= nextId
    && (forall e :: e in rows ==> 1 <= rows[e].id < nextId)
    && (forall e1, e2 :: e1 in rows && e2 in rows && rows[e1].id == rows[e2].id ==> e1 == e2)
  }

  /** `findUnique({ where: { email } })`: the one row with this email, if any. */
  function FindByEmail(rows: map<string, User>, email: string): (r: Option<User>)
    requires KeyedByEmail(rows)
    ensures r.Some? ==> r.value.email == email && email in rows && rows[email] == r.value
    ensures r.None? ==> forall e :: e in rows ==> rows[e].email != email
  {
    if email in rows then Some(rows[email]) else None
  }

  class UserTable {
    var rows: map<string, User>
    var nextId: int

    ghost predicate Valid()
      reads this
    {
      WellFormed(rows, nextId)
    }

    constructor ()
      ensures Valid() && rows == map[] && nextId == 1
    {
      rows := map[];
      nextId := 1;
    }
  }
}
