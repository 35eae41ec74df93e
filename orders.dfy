/** `OrderService` of the order side: the orders collection, order creation,
    reads, and the status update that publishes `ORDER_SHIPPED`. */
module Orders {
  import opened Wrappers
  import opened Exceptions
  import opened Collection
  import opened OrderSchema
  import opened Dto
  import opened Events

  /** The field `findOne({ orderId })` matches on. */
  function OrderKey(o: Order): string {
    o.orderId
  }

  /** `new orderModel({ ...orderData, status: OrderStatus.CREATED })`: the body's
      fields with the status forced to CREATED. The `orderId` is the one the body
      carries, or, when it has none, the schema default `generatedId`. */
  function NewOrder(orderData: OrderDto, generatedId: string): (o: Order)
    ensures o.status == CREATED
    ensures o.orderId == if orderData.orderId.Some? then orderData.orderId.value else generatedId
    ensures o.price == orderData.price && o.quantity == orderData.quantity
    ensures o.productId == orderData.productId && o.customerId == orderData.customerId
    ensures o.sellerId == orderData.sellerId
  {
    var orderId := if orderData.orderId.Some? then orderData.orderId.value else generatedId;
    Order(orderId, orderData.price, orderData.quantity, orderData.productId,
          orderData.customerId, orderData.sellerId, CREATED)
  }

  /** Whatever status the request carried, the order is created with CREATED;
      the generated id is used exactly when the body brings no `orderId`. */
  lemma NewOrderIgnoresRequestedStatus(orderData: OrderDto, requested: string, generatedId: string)
    ensures NewOrder(orderData.(status := requested), generatedId) == NewOrder(orderData, generatedId)
    ensures NewOrder(orderData, generatedId).status == CREATED
    ensures orderData.orderId.None? ==> NewOrder(orderData, generatedId).orderId == generatedId
    ensures orderData.orderId.Some? ==> NewOrder(orderData, generatedId).orderId == orderData.orderId.value
  {
  }

  /** `findOneAndUpdate({ orderId }, { status })`: the first order carrying
      `orderId` gets the new status; without one, nothing changes. */
  function WithStatus(orders: seq<Order>, orderId: string, status: OrderStatus): (r: seq<Order>)
    ensures |r| == |orders|
    ensures forall j :: 0 <= j < |r| ==> r[j].orderId == orders[j].orderId && r[j].price == orders[j].price
    ensures forall j :: 0 <= j < |r| ==> r[j].status == orders[j].status || r[j].status == status
  {
    match FindFirst(orders, OrderKey, orderId)
    case None => orders
    case Some(i) => orders[i := orders[i].(status := status)]
  }

  /** What `updateOrderStatus` hands to `client.emit`, given the updated order it got back. */
  function ShippedMessages(updated: Option<Order>, orderId: string, status: OrderStatus): (r: seq<Message>)
    ensures |r| <= 1
    ensures |r| == 1 <==> updated.Some? && status == SHIPPED
    ensures forall m :: m in r ==> m == Message(ORDER_SHIPPED, ShippedPayload(orderId))
  {
    if updated.Some? && status == SHIPPED then [Message(ORDER_SHIPPED, ShippedPayload(orderId))] else []
  }

  /** A newly inserted order is what a read by its id returns, unless an earlier
      order already carries that id; reads of other ids are unaffected. */
  lemma CreateThenRead(orders: seq<Order>, o: Order, orderId: string)
    ensures FindOne(orders + [o], OrderKey, orderId) ==
      if FindOne(orders, OrderKey, orderId).Some? then FindOne(orders, OrderKey, orderId)
      else if o.orderId == orderId then Some(o)
      else None
  {
    FindFirstAppend(orders, o, OrderKey, orderId);
    assert forall j :: 0 <= j < |orders| ==> (orders + [o])[j] == orders[j];
  }

  /** Write-then-read: after a status update of an existing order, reading it
      back gives the same order with the new status, from any prior status. */
  lemma {:induction false} UpdateThenRead(orders: seq<Order>, orderId: string, status: OrderStatus)
    requires FindOne(orders, OrderKey, orderId).Some?
    ensures FindOne(WithStatus(orders, orderId, status), OrderKey, orderId)
      == Some(FindOne(orders, OrderKey, orderId).value.(status := status))
  {
    var i := FindFirst(orders, OrderKey, orderId).value;
    FindFirstKeyPreserving(orders, i, orders[i].(status := status), OrderKey, orderId);
  }

  /** An update of an unknown order changes nothing. */
  lemma UpdateUnknownIsNoop(orders: seq<Order>, orderId: string, status: OrderStatus)
    requires FindOne(orders, OrderKey, orderId).None?
    ensures WithStatus(orders, orderId, status) == orders
  {
  }

  /** Only the first order carrying `orderId` changes, and only in its status. */
  lemma UpdateFrame(orders: seq<Order>, orderId: string, status: OrderStatus)
    ensures |WithStatus(orders, orderId, status)| == |orders|
    ensures forall j :: 0 <= j < |orders| ==>
      var after := WithStatus(orders, orderId, status)[j];
      after == orders[j] || (after == orders[j].(status := status) && FindFirst(orders, OrderKey, orderId) == Some(j))
    ensures forall j :: 0 <= j < |orders| && orders[j].orderId != orderId ==>
      WithStatus(orders, orderId, status)[j] == orders[j]
  {
  }

  /** The message that follows a status update is emitted exactly when the
      order exists and the new status is SHIPPED, and then carries its id. */
  lemma {:induction false} EmitIffFoundAndShipped(orders: seq<Order>, orderId: string, status: OrderStatus)
    ensures var sent := ShippedMessages(FindOne(WithStatus(orders, orderId, status), OrderKey, orderId), orderId, status);
      && (|sent| == 1 <==> FindOne(orders, OrderKey, orderId).Some? && status == SHIPPED)
      && (|sent| == 0 <==> FindOne(orders, OrderKey, orderId).None? || status != SHIPPED)
      && (forall m :: m in sent ==> m.pattern == ORDER_SHIPPED && m.data == ShippedPayload(orderId))
  {
    if FindOne(orders, OrderKey, orderId).Some? {
      UpdateThenRead(orders, orderId, status);
    } else {
      UpdateUnknownIsNoop(orders, orderId, status);
    }
  }

  /** A status update keeps every stored order valid under the schema. */
  lemma UpdateKeepsSchema(orders: seq<Order>, orderId: string, status: OrderStatus)
    requires forall i :: 0 <= i < |orders| ==> SchemaValid(orders[i])
    ensures forall i :: 0 <= i < |orders| ==> SchemaValid(WithStatus(orders, orderId, status)[i])
  {
  }

  class OrderService {
    /** The orders collection, in insertion order. */
    var orders: seq<Order>
    /** Every message handed to the broker client, in emit order. */
    var outbox: seq<Message>

    /** Every stored order passed the schema's validation, and the queue
        carries nothing but `ORDER_SHIPPED` messages. */
    ghost predicate Valid()
      reads this
    {
      && (forall i :: 0 <= i < |orders| ==> SchemaValid(orders[i]))
      && (forall i :: 0 <= i < |outbox| ==> outbox[i].pattern == ORDER_SHIPPED)
    }

    constructor ()
      ensures Valid() && orders == [] && outbox == []
    {
      orders := [];
      outbox := [];
    }

    /** `createOrder`: builds the order and saves it; `save()` rejects an order
        whose required fields are empty, and then nothing is stored. */
    method CreateOrder(orderData: OrderDto, generatedId: string) returns (r: Result<Order, ServiceError>)
      requires Valid()
      modifies this
      ensures Valid() && outbox == old(outbox)
      ensures r.Ok? <==> SchemaValid(NewOrder(orderData, generatedId))
      ensures r.Ok? ==> r.value == NewOrder(orderData, generatedId) && orders == old(orders) + [r.value]
      ensures r.Err? ==>
        r.error == ValidationError(MissingRequired(NewOrder(orderData, generatedId))) && orders == old(orders)
    {
      var order := NewOrder(orderData, generatedId);
      var missing := MissingRequired(order);
      if missing != [] {
        return Err(ValidationError(missing));
      }
      orders := orders + [order];
      r := Ok(order);
    }

    /** `listOrders`: the whole collection. */
    method ListOrders() returns (all: seq<Order>)
      ensures all == orders
    {
      all := orders;
    }

    /** `getOrderDetails`: the first order carrying `orderId`, or `null`. */
    method GetOrderDetails(orderId: string) returns (order: Option<Order>)
      ensures order == FindOne(orders, OrderKey, orderId)
      ensures order.Some? ==> order.value in orders && order.value.orderId == orderId
      ensures order.None? <==> forall o :: o in orders ==> o.orderId != orderId
    {
      var i := FindFirst(orders, OrderKey, orderId);
      if i.Some? {
        order := Some(orders[i.value]);
      } else {
        order := None;
      }
    }

    /** `updateOrderStatus`: overwrites the status of the first order carrying
        `orderId` (from any prior status), returns the updated order or `null`,
        and emits `ORDER_SHIPPED {orderId}` exactly when an order was updated
        to SHIPPED. */
    method UpdateOrderStatus(orderId: string, status: OrderStatus) returns (updated: Option<Order>)
      requires Valid()
      modifies this
      ensures Valid()
      ensures orders == WithStatus(old(orders), orderId, status)
      ensures updated.Some? <==> FindOne(old(orders), OrderKey, orderId).Some?
      ensures updated.Some? ==> updated == Some(FindOne(old(orders), OrderKey, orderId).value.(status := status))
      ensures updated == FindOne(orders, OrderKey, orderId)
      ensures outbox == old(outbox) + ShippedMessages(updated, orderId, status)
    {
      ghost var before := orders;
      var i := FindFirst(orders, OrderKey, orderId);
      if i.Some? {
        orders := orders[i.value := orders[i.value].(status := status)];
        updated := Some(orders[i.value]);
        UpdateThenRead(before, orderId, status);
      } else {
        updated := None;
      }
      UpdateKeepsSchema(before, orderId, status);
      if updated.Some? && status == SHIPPED {
        outbox := outbox + [Message(ORDER_SHIPPED, ShippedPayload(orderId))];
      }
    }
  }
}
