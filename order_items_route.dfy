/**
 * The admin order-item endpoint: read, create, update and delete one row of
 * the order-item table, each behind the admin gate.
 */
module OrderItemsRoute {
  import opened Wrappers
  import opened Json
  import opened Auth
  import opened Http
  import opened Db

  /** A `POST` body; an absent text field is "" and an absent quantity is 0 (both falsy). */
  datatype ItemInput = ItemInput(
    orderId: string,
    productId: string,
    productName: string,
    productType: string,
    quantity: int,
    size: Option<Value>,
    image: Option<string>,
    link: Option<Value>,
    options: Options)

  /** A `PUT` body: the row id ("" when absent) and the columns it sets (`None` when absent). */
  datatype ItemPatch = ItemPatch(
    id: string,
    orderId: Option<string>,
    productId: Option<string>,
    productName: Option<string>,
    productType: Option<string>,
    size: Option<Option<Value>>,
    image: Option<Option<string>>,
    link: Option<Option<Value>>,
    quantity: Option<int>,
    options: Option<Options>)

  /** `!data.orderId || !data.productId || !data.productName || !data.productType || !data.quantity` fails. */
  predicate HasRequiredFields(data: ItemInput) {
    data.orderId != "" && data.productId != "" && data.productName != ""
    && data.productType != "" && data.quantity != 0
  }

  function FieldsOf(data: ItemInput): ItemFields {
    ItemFields(data.productId, data.productName, data.productType, data.size, data.image, data.link,
               data.quantity, data.options)
  }

  /** `update({ where: { id }, data })`: every column the patch names takes its value, the others stay. */
  function Patched(item: OrderItem, p: ItemPatch): (r: OrderItem)
    ensures r.id == item.id
    ensures r.orderId == (if p.orderId.Some? then p.orderId.value else item.orderId)
    ensures r.fields.productId == (if p.productId.Some? then p.productId.value else item.fields.productId)
    ensures r.fields.productName == (if p.productName.Some? then p.productName.value else item.fields.productName)
    ensures r.fields.productType == (if p.productType.Some? then p.productType.value else item.fields.productType)
    ensures r.fields.size == (if p.size.Some? then p.size.value else item.fields.size)
    ensures r.fields.image == (if p.image.Some? then p.image.value else item.fields.image)
    ensures r.fields.link == (if p.link.Some? then p.link.value else item.fields.link)
    ensures r.fields.quantity == (if p.quantity.Some? then p.quantity.value else item.fields.quantity)
    ensures r.fields.options == (if p.options.Some? then p.options.value else item.fields.options)
  {
    var f := item.fields;
    OrderItem(
      item.id,
      p.orderId.GetOr(item.orderId),
      ItemFields(
        p.productId.GetOr(f.productId),
        p.productName.GetOr(f.productName),
        p.productType.GetOr(f.productType),
        p.size.GetOr(f.size),
        p.image.GetOr(f.image),
        p.link.GetOr(f.link),
        p.quantity.GetOr(f.quantity),
        p.options.GetOr(f.options)))
  }

  /** Applying the same update twice is applying it once; an empty update changes nothing. */
  lemma PatchedIdempotent(item: OrderItem, p: ItemPatch)
    ensures Patched(Patched(item, p), p) == Patched(item, p)
    ensures Patched(item, p).id == item.id
    ensures p.orderId.None? && p.productId.None? && p.productName.None? && p.productType.None?
      && p.size.None? && p.image.None? && p.link.None? && p.quantity.None? && p.options.None?
      ==> Patched(item, p) == item
  {
  }

  /** `GET ?id=`: 401 for non-admins, 400 without an id, 404 for an unknown id, else the row. */
  function GetItem(session: Session, id: string, table: map<string, OrderItem>): (r: Response<OrderItem>)
    ensures r.status == Unauthorized <==> !IsAdmin(session)
    ensures r.status == BadRequest <==> IsAdmin(session) && id == ""
    ensures r.status == NotFound <==> IsAdmin(session) && id != "" && id !in table
    ensures r.status == Ok <==> IsAdmin(session) && id != "" && id in table
    ensures r.status == Ok ==> r.body == Payload(table[id])
  {
    if !IsAdmin(session) then Reject(Unauthorized, UnauthorizedMessage)
    else if id == "" then Reject(BadRequest, "Missing id")
    else if id !in table then Reject(NotFound, "Not found")
    else Response(Ok, Payload(table[id]))
  }

  /** `POST`: create a row from the body when every required field is truthy. */
  method Post(db: Database, session: Session, data: ItemInput) returns (r: Response<OrderItem>)
    modifies db`orderItems
    ensures r.status == Unauthorized <==> !IsAdmin(session)
    ensures r.status == BadRequest <==> IsAdmin(session) && !HasRequiredFields(data)
    ensures r.status == Created <==> IsAdmin(session) && HasRequiredFields(data)
    ensures r.status != Created ==> db.orderItems == old(db.orderItems) && r.body.Message?
    ensures r.status == Created ==>
      && r.body.Payload? && r.body.value.id !in old(db.orderItems)
      && r.body.value == OrderItem(r.body.value.id, data.orderId, FieldsOf(data))
      && db.orderItems == old(db.orderItems)[r.body.value.id := r.body.value]
    ensures old(db.Valid()) ==> db.Valid()
  {
    if !IsAdmin(session) {
      return Reject(Unauthorized, UnauthorizedMessage);
    }
    if !HasRequiredFields(data) {
      return Reject(BadRequest, "Missing required fields");
    }
    FreshIdExists(db.orderItems.Keys);
    var id :| id !in db.orderItems.Keys;
    var item := OrderItem(id, data.orderId, FieldsOf(data));
    db.orderItems := db.orderItems[id := item];
    r := Response(Created, Payload(item));
  }

  /** `PUT`: update the row the body's id names; an unknown id makes the update throw (500). */
  method Put(db: Database, session: Session, patch: ItemPatch) returns (r: Response<OrderItem>)
    modifies db`orderItems
    ensures r.status == Unauthorized <==> !IsAdmin(session)
    ensures r.status == BadRequest <==> IsAdmin(session) && patch.id == ""
    ensures r.status == ServerError <==> IsAdmin(session) && patch.id != "" && patch.id !in old(db.orderItems)
    ensures r.status == Ok <==> IsAdmin(session) && patch.id != "" && patch.id in old(db.orderItems)
    ensures r.status != Ok ==> db.orderItems == old(db.orderItems)
    ensures r.status == Ok ==>
      var updated := Patched(old(db.orderItems)[patch.id], patch);
      r.body == Payload(updated) && db.orderItems == old(db.orderItems)[patch.id := updated]
    ensures old(db.Valid()) ==> db.Valid()
  {
    if !IsAdmin(session) {
      return Reject(Unauthorized, UnauthorizedMessage);
    }
    if patch.id == "" {
      return Reject(BadRequest, "Missing id");
    }
    if patch.id !in db.orderItems {
      return Reject(ServerError, "Record to update not found");
    }
    var updated := Patched(db.orderItems[patch.id], patch);
    db.orderItems := db.orderItems[patch.id := updated];
    r := Response(Ok, Payload(updated));
  }

  /** `DELETE`: remove the row; the body `{ success: true }` is `Payload(true)`. */
  method Delete(db: Database, session: Session, id: string) returns (r: Response<bool>)
    modifies db`orderItems
    ensures r.status == Unauthorized <==> !IsAdmin(session)
    ensures r.status == BadRequest <==> IsAdmin(session) && id == ""
    ensures r.status == ServerError <==> IsAdmin(session) && id != "" && id !in old(db.orderItems)
    ensures r.status == Ok <==> IsAdmin(session) && id != "" && id in old(db.orderItems)
    ensures r.status != Ok ==> db.orderItems == old(db.orderItems)
    ensures r.status == Ok ==> r.body == Payload(true) && db.orderItems == old(db.orderItems) - {id}
    ensures old(db.Valid()) ==> db.Valid()
  {
    if !IsAdmin(session) {
      return Reject(Unauthorized, UnauthorizedMessage);
    }
    if id == "" {
      return Reject(BadRequest, "Missing id");
    }
    if id !in db.orderItems {
      return Reject(ServerError, "Record to delete does not exist");
    }
    db.orderItems := db.orderItems - {id};
    r := Response(Ok, Payload(true));
  }
}
