/**
 * The shopper's order endpoint: `POST` turns the submitted cart into one
 * order with an item snapshot per cart entry; `GET` lists the caller's orders,
 * newest first.
 */
module OrdersRoute {
  import opened Wrappers
  import opened Json
  import opened Auth
  import opened Http
  import opened Db
  import opened Sorting
  import Cart

  /** One element of the request's `items` array; an absent or empty text field is "". */
  datatype RequestItem = RequestItem(
    productId: string,
    name: string,
    productType: string,
    image: string,
    quantity: int,
    options: Option<Options>)

  /** The request's `items` field: absent (or otherwise falsy), not an array, or an array. */
  datatype ItemsField = Absent | NotArray | Items(items: seq<RequestItem>)

  /** A cart entry as the checkout page's `JSON.stringify({ items: cart })` sends it. */
  function FromCart(c: Cart.CartItem): (r: RequestItem)
    ensures r.productId == c.productId && r.name == c.name && r.image == c.image
    ensures r.quantity == c.quantity
    ensures r.productType == ""
    ensures r.options.Some? <==> c.options.Some?
    ensures r.options.Some? ==> forall k :: 0 <= k < |r.options.value| ==> r.options.value[k].1 != Undefined
  {
    RequestItem(c.productId, c.name, "", c.image, c.quantity, Serialized(c.options))
  }

  /** `{ items: cart }`: an array with one element per cart entry, empty exactly when the cart is. */
  function RequestBody(cart: seq<Cart.CartItem>): (r: ItemsField)
    ensures r.Items? && |r.items| == |cart|
    ensures forall k :: 0 <= k < |cart| ==> r.items[k] == FromCart(cart[k])
    ensures NonEmptyItems(r) <==> cart != []
  {
    Items(seq(|cart|, k requires 0 <= k < |cart| => FromCart(cart[k])))
  }

  /** `x || null` on an option value. */
  function OrNull(v: Value): (r: Option<Value>)
    ensures r.Some? <==> Truthy(v)
    ensures r.Some? ==> r.value == v && r.value != Null && r.value != Undefined
  {
    if Truthy(v) then Some(v) else None
  }

  /** The order-item snapshot of one request item. */
  function Snapshot(item: RequestItem): (f: ItemFields)
    ensures f.productId == item.productId && f.productName == item.name && f.quantity == item.quantity
    ensures f.productType != "" && (item.productType != "" ==> f.productType == item.productType)
    ensures f.size.Some? <==> Truthy(Get(item.options.GetOr([]), "size"))
    ensures f.link.Some? <==> Truthy(Get(item.options.GetOr([]), "customLink"))
    ensures f.image.Some? ==> f.image.value == item.image && item.image != ""
    ensures item.options.None? ==> f.options == [] && f.size.None? && f.link.None?
  {
    var opts := item.options.GetOr([]);
    ItemFields(
      item.productId,
      item.name,
      if item.productType == "" then "unknown" else item.productType,
      OrNull(Get(opts, "size")),
      if item.image == "" then None else Some(item.image),
      OrNull(Get(opts, "customLink")),
      item.quantity,
      opts)
  }

  /** `items.map(...)`. */
  function Snapshots(items: seq<RequestItem>): (r: seq<ItemFields>)
    ensures |r| == |items|
    ensures forall k :: 0 <= k < |items| ==> r[k] == Snapshot(items[k])
  {
    seq(|items|, k requires 0 <= k < |items| => Snapshot(items[k]))
  }

  predicate NonEmptyItems(items: ItemsField) {
    items.Items? && items.items != []
  }

  datatype Decision =
    | Rejected(response: Response<Order>)
    | Accepted(user: User, items: seq<RequestItem>)

  /** The early-return ladder of `POST`: session, then items, then the user row. */
  function CheckPost(session: Session, items: ItemsField, users: seq<User>): (d: Decision)
    ensures d.Rejected? ==> d.response.status in {Unauthorized, BadRequest, NotFound}
    ensures (d.Rejected? && d.response.status == Unauthorized) <==> SignedInEmail(session).None?
    ensures (d.Rejected? && d.response.status == BadRequest) <==>
      SignedInEmail(session).Some? && !NonEmptyItems(items)
    ensures (d.Rejected? && d.response.status == NotFound) <==>
      SignedInEmail(session).Some? && NonEmptyItems(items)
      && forall k :: 0 <= k < |users| ==> users[k].email != SignedInEmail(session).value
    ensures d.Accepted? ==>
      && SignedInEmail(session).Some? && NonEmptyItems(items)
      && d.user in users && d.user.email == SignedInEmail(session).value
      && d.items == items.items
  {
    match SignedInEmail(session)
    case None => Rejected(Reject(Unauthorized, UnauthorizedMessage))
    case Some(email) =>
      if !NonEmptyItems(items) then Rejected(Reject(BadRequest, "No items provided"))
      else
        match FindByEmail(users, email)
        case None => Rejected(Reject(NotFound, "User not found"))
        case Some(user) => Accepted(user, items.items)
  }

  /** `POST /api/orders`, at time `now`. */
  method Post(db: Database, session: Session, items: ItemsField, now: int) returns (r: Response<Order>)
    modifies db`orders
    ensures r.status == Created <==> CheckPost(session, items, old(db.users)).Accepted?
    ensures r.status != Created ==>
      r == CheckPost(session, items, old(db.users)).response && db.orders == old(db.orders)
    ensures r.status == Created ==>
      var d := CheckPost(session, items, old(db.users));
      && r.body.Payload?
      && db.orders == old(db.orders) + [r.body.value]
      && r.body.value.id !in OrderIds(old(db.orders))
      && r.body.value.userId == d.user.id
      && r.body.value.createdAt == now
      && r.body.value.items == Snapshots(d.items)
    ensures old(db.Valid()) ==> db.Valid()
  {
    var d := CheckPost(session, items, db.users);
    match d
    case Rejected(response) =>
      r := response;
    case Accepted(user, accepted) =>
      FreshIdExists(OrderIds(db.orders));
      var id :| id !in OrderIds(db.orders);
      var order := Order(id, user.id, now, Snapshots(accepted));
      db.orders := db.orders + [order];
      r := Response(Created, Payload(order));
  }

  /** `findMany({ where: { userId } })`: the orders of one user, in table order. */
  function OrdersOf(orders: seq<Order>, userId: string): (r: seq<Order>)
    ensures forall k :: 0 <= k < |r| ==> r[k].userId == userId
    ensures |r| <= |orders|
    ensures forall o :: multiset(r)[o] == if o.userId == userId then multiset(orders)[o] else 0
  {
    if orders == [] then []
    else
      assert orders == [orders[0]] + orders[1..];
      if orders[0].userId == userId then [orders[0]] + OrdersOf(orders[1..], userId)
      else OrdersOf(orders[1..], userId)
  }

  /** `orderBy: { createdAt: "desc" }`. */
  function NewerOrSame(a: Order, b: Order): bool {
    a.createdAt >= b.createdAt
  }

  /** `GET /api/orders`. */
  function GetOrders(session: Session, users: seq<User>, orders: seq<Order>): (r: Response<seq<Order>>)
    ensures r.status in {Ok, Unauthorized, NotFound}
    ensures r.status == Ok <==> SignedInEmail(session).Some? && FindByEmail(users, SignedInEmail(session).value).Some?
    ensures r.body.Payload? ==> |r.body.value| <= |orders|
  {
    match SignedInEmail(session)
    case None => Reject(Unauthorized, UnauthorizedMessage)
    case Some(email) =>
      match FindByEmail(users, email)
      case None => Reject(NotFound, "User not found")
      case Some(user) => Response(Ok, Payload(SortBy(OrdersOf(orders, user.id), NewerOrSame)))
  }

  /**
   * `GET` answers 401 without a signed-in email and 404 for an unknown user;
   * otherwise it returns exactly the caller's orders, each as often as in the
   * table, newest first.
   */
  lemma GetOrdersSpec(session: Session, users: seq<User>, orders: seq<Order>)
    ensures var r := GetOrders(session, users, orders);
      && (r.status == Unauthorized <==> SignedInEmail(session).None?)
      && (r.status == NotFound <==> SignedInEmail(session).Some? && FindByEmail(users, SignedInEmail(session).value).None?)
      && (r.status == Ok <==> r.body.Payload?)
      && (r.body.Payload? ==>
            var user := FindByEmail(users, SignedInEmail(session).value).value;
            && user.email == SignedInEmail(session).value
            && (forall k :: 0 <= k < |r.body.value| ==> r.body.value[k].userId == user.id)
            && (forall o: Order :: o.userId == user.id ==> multiset(r.body.value)[o] == multiset(orders)[o])
            && (forall k :: 0 < k < |r.body.value| ==> r.body.value[k - 1].createdAt >= r.body.value[k].createdAt))
  {
    var r := GetOrders(session, users, orders);
    if r.body.Payload? {
      var user := FindByEmail(users, SignedInEmail(session).value).value;
      var mine := OrdersOf(orders, user.id);
      assert r.body.value == SortBy(mine, NewerOrSame);
      SortBySorted(mine, NewerOrSame);
      forall k | 0 <= k < |r.body.value| ensures r.body.value[k].userId == user.id {
        assert r.body.value[k] in multiset(r.body.value);
        assert r.body.value[k] in multiset(mine);
        var m :| 0 <= m < |mine| && mine[m] == r.body.value[k];
      }
    }
  }

  /**
   * What the order records of a cart: one item per cart entry, in cart order,
   * with the product id, name and quantity copied, the type "unknown" (a cart
   * entry has none), the options as their JSON text carries them, and no link
   * unless `options.customLink` is a non-empty value.
   */
  lemma OrderMirrorsCart(cart: seq<Cart.CartItem>)
    ensures var lines := Snapshots(RequestBody(cart).items);
      && |lines| == |cart|
      && forall k :: 0 <= k < |cart| ==>
        && lines[k].productId == cart[k].productId
        && lines[k].productName == cart[k].name
        && lines[k].quantity == cart[k].quantity
        && lines[k].productType == "unknown"
        && lines[k].options == (if cart[k].options.Some? then DropUndefined(cart[k].options.value) else [])
        && lines[k].image == (if cart[k].image == "" then None else Some(cart[k].image))
        && (Get(lines[k].options, "customLink") == Str("") ==> lines[k].link.None?)
        && (lines[k].size.Some? <==> Truthy(Get(lines[k].options, "size")))
        && lines[k].size == OrNull(Get(lines[k].options, "size"))
        && lines[k].link == OrNull(Get(lines[k].options, "customLink"))
        && (cart[k].options.Some? && DistinctKeys(cart[k].options.value) ==>
              && lines[k].size == OrNull(Get(cart[k].options.value, "size"))
              && lines[k].link == OrNull(Get(cart[k].options.value, "customLink")))
  {
    forall k | 0 <= k < |cart| && cart[k].options.Some? && DistinctKeys(cart[k].options.value)
      ensures Get(DropUndefined(cart[k].options.value), "size") == Get(cart[k].options.value, "size")
      ensures Get(DropUndefined(cart[k].options.value), "customLink") == Get(cart[k].options.value, "customLink")
    {
      GetDropUndefined(cart[k].options.value, "size");
      GetDropUndefined(cart[k].options.value, "customLink");
    }
  }
}
