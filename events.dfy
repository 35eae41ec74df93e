/** The one message the order side publishes and the invoice side consumes. */
module Events {

  /** The event pattern `updateOrderStatus` emits and `@EventPattern` listens for. */
  const ORDER_SHIPPED: string := "ORDER_SHIPPED"

  /** The durable queue both sides are configured with. */
  const ORDERS_QUEUE: string := "orders-queue"

  /** The payload `{ orderId }` (the consumer's `RabbitPayload`). */
  datatype ShippedPayload = ShippedPayload(orderId: string)

  /** One `client.emit(pattern, data)` call. */
  datatype Message = Message(pattern: string, data: ShippedPayload)
}
