/** The single-process application in which the order service, the invoice
    service and the invoice controller run together: the invoice side reads
    orders in process, and the broker carries each emitted `ORDER_SHIPPED`
    message to the controller's event handler. */
module Marketplace {
  import opened Wrappers
  import opened Exceptions
  import opened Collection
  import opened Events
  import OrderSchema
  import InvoiceSchema
  import Dto
  import Orders
  import Invoices
  import InvoiceApi

  /** The order read the invoice service performs (`getOrderDetails`), over the
      order collection as it stands. */
  function OrderFetcher(orders: seq<OrderSchema.Order>): (fetch: string -> Option<OrderSchema.Order>)
    ensures forall orderId :: fetch(orderId).Some? ==> fetch(orderId).value in orders && fetch(orderId).value.orderId == orderId
    ensures forall orderId :: fetch(orderId).None? <==> forall o :: o in orders ==> o.orderId != orderId
  {
    (orderId: string) => FindOne(orders, Orders.OrderKey, orderId)
  }

  /** Eventual consistency: setting an order that has an invoice to SHIPPED
      emits exactly one `ORDER_SHIPPED` message for it, and delivering that
      message stamps the invoice. */
  lemma {:induction false} ShippedUpdateReachesInvoice(orders: seq<OrderSchema.Order>,
                                                       invoices: seq<InvoiceSchema.Invoice>,
                                                       orderId: string, now: InvoiceSchema.Timestamp)
    requires FindOne(orders, Orders.OrderKey, orderId).Some?
    requires FindOne(invoices, Invoices.OrderIdKey, orderId).Some?
    ensures var updated := FindOne(Orders.WithStatus(orders, orderId, OrderSchema.SHIPPED), Orders.OrderKey, orderId);
      var sent := Orders.ShippedMessages(updated, orderId, OrderSchema.SHIPPED);
      && |sent| == 1 && sent[0].pattern == ORDER_SHIPPED && sent[0].data.orderId == orderId
      && Invoices.MarkSent(invoices, sent[0].data.orderId, now).Ok?
      && FindOne(Invoices.MarkSent(invoices, orderId, now).value, Invoices.OrderIdKey, orderId).Some?
      && FindOne(Invoices.MarkSent(invoices, orderId, now).value, Invoices.OrderIdKey, orderId).value.sentAt == Some(now)
  {
    Orders.UpdateThenRead(orders, orderId, OrderSchema.SHIPPED);
    Invoices.MarkSentStampsFirstMatch(invoices, orderId, now);
  }

  /** The race where shipping comes first: once the order has been set to
      SHIPPED, an invoice uploaded for it is stamped at creation, with no
      message needed. */
  lemma {:induction false} UploadAfterShipping(orders: seq<OrderSchema.Order>, invoiceData: InvoiceSchema.InvoiceData,
                                               generatedId: string, now: InvoiceSchema.Timestamp)
    requires Invoices.Truthy(invoiceData.orderId)
    requires FindOne(orders, Orders.OrderKey, invoiceData.orderId.value).Some?
    ensures var shipped := Orders.WithStatus(orders, invoiceData.orderId.value, OrderSchema.SHIPPED);
      var r := Invoices.UploadResult(invoiceData, OrderFetcher(shipped), generatedId, now);
      r.Ok? ==> r.value.sentAt == Some(now)
  {
    Orders.UpdateThenRead(orders, invoiceData.orderId.value, OrderSchema.SHIPPED);
  }

  class App {
    const orderService: Orders.OrderService
    const invoiceService: Invoices.InvoiceService
    const invoiceController: InvoiceApi.InvoiceController

    ghost predicate Valid()
      reads this, orderService, invoiceService
    {
      && invoiceController.invoiceService == invoiceService
      && orderService.Valid()
      && invoiceService.Valid()
    }

    constructor ()
      ensures Valid() && fresh(orderService) && fresh(invoiceService)
      ensures orderService.orders == [] && orderService.outbox == [] && invoiceService.invoices == []
    {
      var orders := new Orders.OrderService();
      var invoices := new Invoices.InvoiceService();
      var controller := new InvoiceApi.InvoiceController(invoices);
      orderService, invoiceService, invoiceController := orders, invoices, controller;
    }

    /** An HTTP upload: the interceptor's filter and disk name, then the
        controller, with the order read from the order service. A rejected file
        stores nothing. */
    method UploadInvoice(orderId: string, originalname: string, uploadTime: nat,
                         generatedId: string, now: InvoiceSchema.Timestamp)
      returns (r: Result<InvoiceSchema.Invoice, ServiceError>)
      requires Valid()
      modifies invoiceService
      ensures Valid()
      ensures InvoiceApi.Intercept(originalname, uploadTime).Err? ==>
        r == Err(BadRequest(InvoiceApi.PDF_ONLY))
      ensures InvoiceApi.Intercept(originalname, uploadTime).Ok? ==>
        r == Invoices.UploadResult(
               InvoiceSchema.InvoiceData(None, Some(orderId),
                 Some(InvoiceApi.PdfUrl(InvoiceApi.Intercept(originalname, uploadTime).value.filename))),
               OrderFetcher(orderService.orders), generatedId, now)
      ensures invoiceService.invoices ==
        if r.Ok? then old(invoiceService.invoices) + [r.value] else old(invoiceService.invoices)
      ensures invoiceService.writes ==
        old(invoiceService.writes) + (if r.Err? then 0 else if r.value.sentAt.Some? then 2 else 1)
    {
      var file := InvoiceApi.Intercept(originalname, uploadTime);
      if file.Err? {
        return Err(file.error);
      }
      r := invoiceController.UploadInvoice(orderId, Some(file.value), OrderFetcher(orderService.orders), generatedId, now);
    }

    /** The broker delivering the `k`-th emitted message (for the first time or
        again) to the event handler. */
    method Deliver(k: nat, now: InvoiceSchema.Timestamp) returns (r: Result<(), ServiceError>)
      requires Valid() && k < |orderService.outbox|
      modifies invoiceService
      ensures Valid()
      ensures var outcome := Invoices.MarkSent(old(invoiceService.invoices), orderService.outbox[k].data.orderId, now);
        && (outcome.Err? ==> r == Err(outcome.error) && invoiceService.invoices == old(invoiceService.invoices))
        && (outcome.Ok? ==> r == Ok(()) && invoiceService.invoices == outcome.value)
    {
      var message := orderService.outbox[k];
      r := invoiceController.HandleOrderShippedEvent(message.data, now);
    }
  }

  /** Order O1 is created, invoice I1 is uploaded for it unstamped, O1 is set to
      SHIPPED, the message is delivered, and I1 reads back stamped. */
  method ShippingScenario() {
    var app := new App();
    var body := Dto.OrderDto(None, 100.0, 2.0, "prod-001", "cust-002", "seller-003", "CREATED");
    var created := app.orderService.CreateOrder(body, "O1");
    assert created.Ok?;

    var uploaded := app.UploadInvoice("O1", "a.pdf", 1000, "I1", 2000);
    assert "a.pdf"[1..] == ".pdf";
    assert uploaded.Ok? && uploaded.value.sentAt.None?;

    var updated := app.orderService.UpdateOrderStatus("O1", OrderSchema.SHIPPED);
    assert |app.orderService.outbox| == 1;

    var delivered := app.Deliver(0, 3000);
    assert delivered.Ok?;
    var invoice := app.invoiceService.GetInvoiceDetails("I1");
    assert invoice.Some? && invoice.value.sentAt == Some(3000);
  }
}
