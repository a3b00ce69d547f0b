/** The admin user endpoint: list users by name, delete one and list the rest. */
module UsersRoute {
  import opened Wrappers
  import opened Auth
  import opened Http
  import opened Db
  import opened Sorting
  import Strings

  /** The columns the listing selects: no password. */
  datatype UserSummary = UserSummary(id: string, name: string, email: string, role: string, phone: Option<string>)

  function Summary(u: User): UserSummary {
    UserSummary(u.id, u.name, u.email, u.role, u.phone)
  }

  /** `orderBy: { name: "asc" }`. */
  function ByName(a: UserSummary, b: UserSummary): bool {
    Strings.LexLe(a.name, b.name)
  }

  /** `findMany({ select, orderBy })`. */
  function Listing(users: seq<User>): (r: seq<UserSummary>)
    ensures |r| == |users|
    ensures multiset(r) == multiset(seq(|users|, k requires 0 <= k < |users| => Summary(users[k])))
  {
    SortBy(seq(|users|, k requires 0 <= k < |users| => Summary(users[k])), ByName)
  }

  /**
   * The listing holds one summary per user, each as often as in the table,
   * sorted by name, and it is the same whatever the stored passwords are.
   */
  lemma ListingSpec(users: seq<User>)
    ensures |Listing(users)| == |users|
    ensures forall s :: multiset(Listing(users))[s] == multiset(seq(|users|, k requires 0 <= k < |users| => Summary(users[k])))[s]
    ensures forall k :: 0 < k < |Listing(users)| ==> Strings.LexLe(Listing(users)[k - 1].name, Listing(users)[k].name)
  {
    forall a, b ensures ByName(a, b) || ByName(b, a) {
      Strings.LexLeTotal(a.name, b.name);
    }
    SortBySorted(seq(|users|, k requires 0 <= k < |users| => Summary(users[k])), ByName);
  }

  /** Every listed row is the summary of a user in the table. */
  lemma ListingMembers(users: seq<User>, s: UserSummary)
    requires s in Listing(users)
    ensures exists k :: 0 <= k < |users| && Summary(users[k]) == s
  {
    var all := seq(|users|, k requires 0 <= k < |users| => Summary(users[k]));
    assert s in multiset(Listing(users));
    assert s in multiset(all);
    var k :| 0 <= k < |all| && all[k] == s;
  }

  /** Passwords never reach the listing: changing one leaves the listing as it was. */
  lemma ListingIgnoresPasswords(users: seq<User>, k: nat, password: string)
    requires k < |users|
    ensures Listing(users[k := users[k].(password := password)]) == Listing(users)
  {
    var changed := users[k := users[k].(password := password)];
    assert seq(|changed|, j requires 0 <= j < |changed| => Summary(changed[j]))
        == seq(|users|, j requires 0 <= j < |users| => Summary(users[j]));
  }

  /** `GET /api/admin/users`. */
  function GetUsers(session: Session, users: seq<User>): (r: Response<seq<UserSummary>>)
    ensures r.status == Unauthorized <==> !IsAdmin(session)
    ensures r.status == Ok <==> IsAdmin(session)
    ensures r.status == Ok ==> r.body == Payload(Listing(users))
  {
    if !IsAdmin(session) then Reject(Unauthorized, UnauthorizedMessage)
    else Response(Ok, Payload(Listing(users)))
  }

  /** `DELETE /api/admin/users`: remove the user with that id and list the others; an unknown id throws (500). */
  method Delete(db: Database, session: Session, id: string) returns (r: Response<seq<UserSummary>>)
    modifies db`users
    ensures r.status == Unauthorized <==> !IsAdmin(session)
    ensures r.status == BadRequest <==> IsAdmin(session) && id == ""
    ensures r.status == ServerError <==> IsAdmin(session) && id != "" && !HasUserId(old(db.users), id)
    ensures r.status == Ok <==> IsAdmin(session) && id != "" && HasUserId(old(db.users), id)
    ensures r.status != Ok ==> db.users == old(db.users) && r.body.Message?
    ensures r.status == Ok ==>
      && db.users == WithoutUser(old(db.users), id)
      && r.body == Payload(Listing(db.users))
    ensures old(db.Valid()) ==> db.Valid()
  {
    if !IsAdmin(session) {
      return Reject(Unauthorized, UnauthorizedMessage);
    }
    if id == "" {
      return Reject(BadRequest, "Missing user id");
    }
    if !HasUserId(db.users, id) {
      return Reject(ServerError, "Record to delete does not exist");
    }
    if UsersKeyed(db.users) {
      WithoutUserKeyed(db.users, id);
    }
    db.users := WithoutUser(db.users, id);
    r := Response(Ok, Payload(Listing(db.users)));
  }

  /** Deleting a row keeps ids and emails unique. */
  lemma {:induction false} WithoutUserKeyed(users: seq<User>, id: string)
    requires UsersKeyed(users)
    ensures UsersKeyed(WithoutUser(users, id))
  {
    if users != [] {
      var tail := users[1..];
      TailKeyed(users);
      WithoutUserKeyed(tail, id);
      if users[0].id != id {
        var rest := WithoutUser(tail, id);
        forall j | 0 <= j < |rest| ensures users[0].id != rest[j].id && users[0].email != rest[j].email {
          FromTail(users, rest[j]);
        }
        ConsKeyed(users[0], rest);
      }
    }
  }

  lemma TailKeyed(users: seq<User>)
    requires users != [] && UsersKeyed(users)
    ensures UsersKeyed(users[1..])
  {
    var tail := users[1..];
    forall i, j | 0 <= i < j < |tail| ensures tail[i].id != tail[j].id && tail[i].email != tail[j].email {
      assert tail[i] == users[i + 1] && tail[j] == users[j + 1];
    }
  }

  /** A row of the tail differs from the head in both unique columns. */
  lemma FromTail(users: seq<User>, u: User)
    requires users != [] && UsersKeyed(users)
    requires multiset(users[1..])[u] > 0
    ensures users[0].id != u.id && users[0].email != u.email
  {
    var m :| 0 <= m < |users[1..]| && users[1..][m] == u;
    assert users[m + 1] == u;
  }

  lemma ConsKeyed(head: User, rest: seq<User>)
    requires UsersKeyed(rest)
    requires forall j :: 0 <= j < |rest| ==> head.id != rest[j].id && head.email != rest[j].email
    ensures UsersKeyed([head] + rest)
  {
    var r := [head] + rest;
    forall i, j | 0 <= i < j < |r| ensures r[i].id != r[j].id && r[i].email != r[j].email {
      assert r[j] == rest[j - 1];
      if i > 0 {
        assert r[i] == rest[i - 1];
      }
    }
  }
}
