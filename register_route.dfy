/** The admin-only registration endpoint: validate, reject duplicates, create the user. */
module RegisterRoute {
  import opened Wrappers
  import opened Auth
  import opened Http
  import opened Db

  /** The JSON body; an absent field is "". */
  datatype RegisterBody = RegisterBody(name: string, email: string, password: string, role: string)

  /** The user as the response shows it: no password column. */
  datatype PublicUser = PublicUser(id: string, email: string, name: string, role: string)

  datatype Registered = Registered(message: string, user: PublicUser)

  function Public(u: User): (p: PublicUser)
    ensures p.id == u.id && p.email == u.email && p.name == u.name && p.role == u.role
  {
    PublicUser(u.id, u.email, u.name, u.role)
  }

  /** The response reveals nothing of the stored password: it is the same whatever the hash. */
  lemma PublicIgnoresPassword(u: User, other: string)
    ensures Public(u.(password := other)) == Public(u)
  {
  }

  predicate HasRequiredFields(b: RegisterBody) {
    b.name != "" && b.email != "" && b.password != "" && b.role != ""
  }

  /** The new row: the body's name, email and role and the hashed password. */
  function NewUser(id: string, b: RegisterBody, hash: string -> string): User {
    User(id, b.name, b.email, hash(b.password), b.role, None)
  }

  datatype Decision = Rejected(response: Response<Registered>) | Accepted(body: RegisterBody)

  /**
   * The ladder of `POST /api/register`. The body is read only after the admin
   * check; a body that is not JSON makes reading it throw, which the handler's
   * `catch` turns into 500.
   */
  function CheckRegister(session: Session, body: Option<RegisterBody>, users: seq<User>): (d: Decision)
    ensures (d.Rejected? && d.response.status == Unauthorized) <==> !IsAdmin(session)
    ensures (d.Rejected? && d.response.status == ServerError) <==> IsAdmin(session) && body.None?
    ensures (d.Rejected? && d.response == Reject(BadRequest, "Missing required fields")) <==>
      IsAdmin(session) && body.Some? && !HasRequiredFields(body.value)
    ensures (d.Rejected? && d.response == Reject(BadRequest, "User already exists")) <==>
      IsAdmin(session) && body.Some? && HasRequiredFields(body.value)
      && exists k :: 0 <= k < |users| && users[k].email == body.value.email
    ensures d.Rejected? ==> d.response.status in {Unauthorized, ServerError, BadRequest} && d.response.body.Message?
    ensures d.Accepted? ==>
      && IsAdmin(session) && body == Some(d.body) && HasRequiredFields(d.body)
      && forall k :: 0 <= k < |users| ==> users[k].email != d.body.email
  {
    if !IsAdmin(session) then Rejected(Reject(Unauthorized, UnauthorizedMessage))
    else if body.None? then Rejected(Reject(ServerError, "Internal server error"))
    else if !HasRequiredFields(body.value) then Rejected(Reject(BadRequest, "Missing required fields"))
    else if FindByEmail(users, body.value.email).Some? then Rejected(Reject(BadRequest, "User already exists"))
    else Accepted(body.value)
  }

  /** Adding an accepted registration under a fresh id keeps ids and emails unique. */
  lemma RegisterKeepsKeys(users: seq<User>, id: string, b: RegisterBody, hash: string -> string)
    requires UsersKeyed(users)
    requires id !in UserIds(users)
    requires forall k :: 0 <= k < |users| ==> users[k].email != b.email
    ensures UsersKeyed(users + [NewUser(id, b, hash)])
  {
    var r := users + [NewUser(id, b, hash)];
    forall i, j | 0 <= i < j < |r| ensures r[i].id != r[j].id && r[i].email != r[j].email {
      if j == |users| {
        assert r[i] in users;
      }
    }
  }

  /** `POST /api/register`; `hash` is the password hasher. */
  method Post(db: Database, session: Session, body: Option<RegisterBody>, hash: string -> string)
    returns (r: Response<Registered>)
    modifies db`users
    ensures var d := CheckRegister(session, body, old(db.users));
      && (d.Rejected? ==> r == d.response && db.users == old(db.users))
      && (d.Accepted? ==>
            && r.status == Created && r.body.Payload?
            && r.body.value.message == "User created successfully"
            && var u := NewUser(r.body.value.user.id, d.body, hash);
            && u.id !in UserIds(old(db.users))
            && db.users == old(db.users) + [u]
            && r.body.value.user == Public(u))
    ensures old(db.Valid()) ==> db.Valid()
  {
    var d := CheckRegister(session, body, db.users);
    match d
    case Rejected(response) =>
      r := response;
    case Accepted(b) =>
      FreshIdExists(UserIds(db.users));
      var id :| id !in UserIds(db.users);
      var u := NewUser(id, b, hash);
      if UsersKeyed(db.users) {
        RegisterKeepsKeys(db.users, id, b, hash);
      }
      db.users := db.users + [u];
      r := Response(Created, Payload(Registered("User created successfully", Public(u))));
  }
}
