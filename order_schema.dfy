/** The order record as the Mongoose schema declares it: the five-value status
    enum, the fields and their `required` constraints, and the JSON view. */
module OrderSchema {
  import opened Wrappers
  import opened Json

  datatype OrderStatus = CREATED | ACCEPTED | REJECTED | SHIPPING_IN_PROGRESS | SHIPPED

  /** The enum members in declaration order. */
  const ALL_STATUSES: seq<OrderStatus> := [CREATED, ACCEPTED, REJECTED, SHIPPING_IN_PROGRESS, SHIPPED]

  /** The string value of each enum member (each equals its member name). */
  function StatusName(s: OrderStatus): string {
    match s
    case CREATED => "CREATED"
    case ACCEPTED => "ACCEPTED"
    case REJECTED => "REJECTED"
    case SHIPPING_IN_PROGRESS => "SHIPPING_IN_PROGRESS"
    case SHIPPED => "SHIPPED"
  }

  /** The enum member whose string value is `name`, if there is one: what the
      schema's `enum: OrderStatus` validator accepts. */
  function ParseStatus(name: string): (r: Option<OrderStatus>)
    ensures r.Some? ==> StatusName(r.value) == name
  {
    if name == "CREATED" then Some(CREATED)
    else if name == "ACCEPTED" then Some(ACCEPTED)
    else if name == "REJECTED" then Some(REJECTED)
    else if name == "SHIPPING_IN_PROGRESS" then Some(SHIPPING_IN_PROGRESS)
    else if name == "SHIPPED" then Some(SHIPPED)
    else None
  }

  /** The enum has exactly five members, with five distinct string values, and
      every value parses back to its member. */
  lemma ExactlyFiveStatuses()
    ensures |ALL_STATUSES| == 5
    ensures forall s: OrderStatus :: s in ALL_STATUSES
    ensures forall i, j :: 0 <= i < j < |ALL_STATUSES| ==>
      StatusName(ALL_STATUSES[i]) != StatusName(ALL_STATUSES[j])
    ensures forall s: OrderStatus :: ParseStatus(StatusName(s)) == Some(s)
  {
    forall s: OrderStatus ensures s in ALL_STATUSES {
      match s
      case CREATED => assert ALL_STATUSES[0] == s;
      case ACCEPTED => assert ALL_STATUSES[1] == s;
      case REJECTED => assert ALL_STATUSES[2] == s;
      case SHIPPING_IN_PROGRESS => assert ALL_STATUSES[3] == s;
      case SHIPPED => assert ALL_STATUSES[4] == s;
    }
  }

  /** The stored order. `price` and `quantity` are JavaScript numbers. */
  datatype Order = Order(
    orderId: string,
    price: real,
    quantity: real,
    productId: string,
    customerId: string,
    sellerId: string,
    status: OrderStatus)

  /** Every field of the schema, each `@Prop({ required: true })`. */
  const ORDER_FIELDS: set<string> :=
    {"orderId", "price", "quantity", "productId", "customerId", "sellerId", "status"}

  /** The paths whose `required` check fails at `save()`, in schema order. A
      required String rejects the empty string; `price`, `quantity` and `status`
      are always present in this record, and `status` is always an enum member. */
  function MissingRequired(o: Order): (paths: seq<string>)
    ensures paths == [] <==>
      o.orderId != "" && o.productId != "" && o.customerId != "" && o.sellerId != ""
    ensures forall p :: p in paths ==> p in ORDER_FIELDS
  {
    (if o.orderId == "" then ["orderId"] else [])
    + (if o.productId == "" then ["productId"] else [])
    + (if o.customerId == "" then ["customerId"] else [])
    + (if o.sellerId == "" then ["sellerId"] else [])
  }

  /** The order passes the schema's validation. */
  predicate SchemaValid(o: Order) {
    MissingRequired(o) == []
  }

  /** The stored document: the business fields plus `_id` and the version key. */
  function Document(o: Order, internalId: string, version: nat): Object {
    map[
      "_id" := Str(internalId),
      "__v" := Num(version as real),
      "orderId" := Str(o.orderId),
      "price" := Num(o.price),
      "quantity" := Num(o.quantity),
      "productId" := Str(o.productId),
      "customerId" := Str(o.customerId),
      "sellerId" := Str(o.sellerId),
      "status" := Str(StatusName(o.status))]
  }

  /** Reads an order back from a JSON object; `None` when a field is missing, has
      the wrong kind, or the status is not an enum value. */
  function OrderFromJson(j: Object): (r: Option<Order>)
    ensures r.Some? ==> "status" in j && j["status"] == Str(StatusName(r.value.status))
    ensures r.Some? ==> ORDER_FIELDS <= j.Keys
  {
    if && "orderId" in j && j["orderId"].Str?
       && "price" in j && j["price"].Num?
       && "quantity" in j && j["quantity"].Num?
       && "productId" in j && j["productId"].Str?
       && "customerId" in j && j["customerId"].Str?
       && "sellerId" in j && j["sellerId"].Str?
       && "status" in j && j["status"].Str?
    then
      match ParseStatus(j["status"].s)
      case None => None
      case Some(status) =>
        Some(Order(j["orderId"].s, j["price"].x, j["quantity"].x, j["productId"].s,
                   j["customerId"].s, j["sellerId"].s, status))
    else None
  }

  /** The JSON view of a stored order shows exactly the schema's fields, and from
      them the whole order can be read back. */
  lemma OrderJsonView(o: Order, internalId: string, version: nat)
    ensures ToJSON(Document(o, internalId, version)).Keys == ORDER_FIELDS
    ensures OrderFromJson(ToJSON(Document(o, internalId, version))) == Some(o)
  {
    var doc := Document(o, internalId, version);
    assert doc.Keys == ORDER_FIELDS + {"_id", "__v"};
  }
}
