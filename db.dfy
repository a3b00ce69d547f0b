/**
 * The database the route handlers share: the user, order and order-item
 * tables. Rows are kept in insertion order; the database assigns every new
 * row an id that no row of its table uses yet.
 */
module Db {
  import opened Wrappers
  import opened Json

  datatype User = User(
    id: string,
    name: string,
    email: string,
    password: string,
    role: string,
    phone: Option<string>)

  /** The product descriptor an order line keeps: a snapshot, not a reference to a catalogue. */
  datatype ItemFields = ItemFields(
    productId: string,
    productName: string,
    productType: string,
    size: Option<Value>,
    image: Option<string>,
    link: Option<Value>,
    quantity: int,
    options: Options)

  datatype Order = Order(id: string, userId: string, createdAt: int, items: seq<ItemFields>)

  datatype OrderItem = OrderItem(id: string, orderId: string, fields: ItemFields)

  /** `findUnique({ where: { email } })`. */
  function FindByEmail(users: seq<User>, email: string): (r: Option<User>)
    ensures r.Some? ==> r.value in users && r.value.email == email
    ensures r.None? ==> forall k :: 0 <= k < |users| ==> users[k].email != email
  {
    Find(users, (u: User) => u.email == email)
  }

  predicate HasUserId(users: seq<User>, id: string) {
    exists k :: 0 <= k < |users| && users[k].id == id
  }

  /** The table without the row that has this id. */
  function WithoutUser(users: seq<User>, id: string): (r: seq<User>)
    ensures forall k :: 0 <= k < |r| ==> r[k].id != id
    ensures forall u :: multiset(r)[u] == if u.id == id then 0 else multiset(users)[u]
  {
    if users == [] then []
    else
      assert users == [users[0]] + users[1..];
      if users[0].id == id then WithoutUser(users[1..], id)
      else [users[0]] + WithoutUser(users[1..], id)
  }

  /** Unique columns of the user table: id and email. */
  predicate UsersKeyed(users: seq<User>) {
    forall i, j :: 0 <= i < j < |users| ==> users[i].id != users[j].id && users[i].email != users[j].email
  }

  function UserIds(users: seq<User>): set<string> {
    set u | u in users :: u.id
  }

  function OrderIds(orders: seq<Order>): set<string> {
    set o | o in orders :: o.id
  }

  ghost function LengthBound(ids: set<string>): (n: nat)
    ensures forall s :: s in ids ==> |s| < n
  {
    if ids == {} then 0
    else
      var s :| s in ids;
      var m := LengthBound(ids - {s});
      if |s| < m then m else |s| + 1
  }

  /** However many ids are taken, an unused one exists (one longer than all of them). */
  lemma FreshIdExists(ids: set<string>)
    ensures exists id :: id !in ids
  {
    var id := seq(LengthBound(ids), _ => 'c');
    assert id !in ids;
  }

  class Database {
    var users: seq<User>
    var orders: seq<Order>
    var orderItems: map<string, OrderItem>

    /** The unique constraints of the schema. */
    ghost predicate Valid()
      reads this
    {
      && UsersKeyed(users)
      && (forall i, j :: 0 <= i < j < |orders| ==> orders[i].id != orders[j].id)
      && (forall id :: id in orderItems ==> orderItems[id].id == id)
    }

    constructor ()
      ensures users == [] && orders == [] && orderItems == map[]
      ensures Valid()
    {
      users, orders, orderItems := [], [], map[];
    }
  }
}
