/** The class-validator rules declared on the order request body (`OrderDto`):
    one predicate per decorated field, over the raw JSON body. */
module Dto {
  import opened Wrappers
  import opened Json
  import opened OrderSchema

  /** The list given to `@IsEnum` on `status`, in the order written there. */
  const STATUS_CHOICES: seq<string> :=
    ["CREATED", "ACCEPTED", "SHIPPING_IN_PROGRESS", "REJECTED", "SHIPPED"]

  /** A body field, `None` when the key is absent (`undefined`). */
  function Field(body: Object, name: string): Option<Value> {
    if name in body then Some(body[name]) else None
  }

  // The checks class-validator runs for each decorator; `undefined` fails all of them.

  /** `@IsInt()`: a number with no fractional part. */
  predicate IsInt(v: Option<Value>) {
    v.Some? && v.value.Num? && v.value.x.Floor as real == v.value.x
  }

  /** `@IsPositive()`: a number greater than zero. */
  predicate IsPositive(v: Option<Value>) {
    v.Some? && v.value.Num? && v.value.x > 0.0
  }

  /** `@IsString()`. */
  predicate IsString(v: Option<Value>) {
    v.Some? && v.value.Str?
  }

  /** `@IsEnum(choices)` with an array: the value is one of the listed strings. */
  predicate IsEnum(v: Option<Value>, choices: seq<string>) {
    v.Some? && v.value.Str? && v.value.s in choices
  }

  /** The whole body passes validation. */
  predicate ValidOrderBody(body: Object)
    ensures ValidOrderBody(body) ==>
      forall name :: name in ["price", "quantity", "productId", "customerId", "sellerId", "status"] ==> name in body
  {
    && IsInt(Field(body, "price")) && IsPositive(Field(body, "price"))
    && IsInt(Field(body, "quantity")) && IsPositive(Field(body, "quantity"))
    && IsString(Field(body, "productId"))
    && IsString(Field(body, "customerId"))
    && IsString(Field(body, "sellerId"))
    && IsEnum(Field(body, "status"), STATUS_CHOICES)
  }

  /** The request body the order service receives: the declared fields, plus an
      `orderId` the body may carry. No decorator declares `orderId`, but the
      body is spread into the new document unvalidated, so a string given there
      is kept. */
  datatype OrderDto = OrderDto(
    orderId: Option<string>,
    price: real,
    quantity: real,
    productId: string,
    customerId: string,
    sellerId: string,
    status: string)

  /** The body as an `OrderDto`, when and only when it validates; the fields it
      then carries are the body's own, with a positive integer price and
      quantity and an enum status. */
  function ParseOrderBody(body: Object): (r: Option<OrderDto>)
    ensures r.Some? <==> ValidOrderBody(body)
    ensures r.Some? ==> r.value.price > 0.0 && r.value.price.Floor as real == r.value.price
    ensures r.Some? ==> r.value.quantity > 0.0 && r.value.quantity.Floor as real == r.value.quantity
    ensures r.Some? ==> ParseStatus(r.value.status).Some?
    ensures r.Some? ==>
      && Field(body, "price") == Some(Num(r.value.price))
      && Field(body, "quantity") == Some(Num(r.value.quantity))
      && Field(body, "productId") == Some(Str(r.value.productId))
      && Field(body, "customerId") == Some(Str(r.value.customerId))
      && Field(body, "sellerId") == Some(Str(r.value.sellerId))
      && Field(body, "status") == Some(Str(r.value.status))
    ensures r.Some? ==> (r.value.orderId.Some? <==> IsString(Field(body, "orderId")))
    ensures r.Some? && r.value.orderId.Some? ==> Field(body, "orderId") == Some(Str(r.value.orderId.value))
  {
    if ValidOrderBody(body) then
      Some(OrderDto(if IsString(Field(body, "orderId")) then Some(body["orderId"].s) else None,
                    body["price"].x, body["quantity"].x, body["productId"].s,
                    body["customerId"].s, body["sellerId"].s, body["status"].s))
    else None
  }

  /** The `@IsEnum` list names exactly the `OrderStatus` values, though in a
      different order. */
  lemma DtoStatusesAreEnumValues()
    ensures forall name :: name in STATUS_CHOICES <==> ParseStatus(name).Some?
    ensures |STATUS_CHOICES| == |ALL_STATUSES|
    ensures forall s: OrderStatus :: StatusName(s) in STATUS_CHOICES
  {
    forall s: OrderStatus ensures StatusName(s) in STATUS_CHOICES {
      match s
      case CREATED => assert STATUS_CHOICES[0] == StatusName(s);
      case ACCEPTED => assert STATUS_CHOICES[1] == StatusName(s);
      case SHIPPING_IN_PROGRESS => assert STATUS_CHOICES[2] == StatusName(s);
      case REJECTED => assert STATUS_CHOICES[3] == StatusName(s);
      case SHIPPED => assert STATUS_CHOICES[4] == StatusName(s);
    }
  }
}
