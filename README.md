# Order-to-invoice workflow, modelled in Dafny

This project models the marketplace's order-to-invoice workflow. The order side
creates orders, reads them, and overwrites their status. When an order is set to
SHIPPED it emits an `ORDER_SHIPPED {orderId}` message on the durable queue
`orders-queue`. The invoice side creates an invoice when a PDF is uploaded for an
order. It stamps `sentAt` at once if the order has already shipped; otherwise it
stamps the order's first invoice when the message arrives.

Each Mongo collection is a sequence in insertion order: `findOne` and
`findOneAndUpdate` pick the first document whose key matches. The RabbitMQ client
is an outbox sequence: `emit` appends to it. Both the in-process order read
(`OrderService.getOrderDetails`) and the HTTP order read are a function
`fetchOrder: string -> Option<Order>`. Clock values (`new Date()`, `Date.now()`)
and generated ids (`uuidv4()`) are parameters. Thrown exceptions are `Err`
values of `ServiceError`: NotFound, BadRequest, a Mongoose ValidationError, or
a JavaScript TypeError thrown inside a handler.

Modules, one per source file or shared concept:

- `Wrappers`, `Exceptions`: Option, Result and the error kinds.
- `Collection`: first-match lookup over a collection.
- `Json`: the plain-object view and the `toJSON` projection.
- `Text`: suffix test, last index of a character, decimal rendering.
- `Events`: the message and queue constants.
- `OrderSchema`, `Dto`, `Orders`: the order side (`order.schema.ts`,
  `orders.dto.ts`, `orders.service.ts`). `Orders.OrderService` is a class holding
  the order collection and the outbox.
- `InvoiceSchema`, `Invoices`, `InvoiceApi`: the invoice side
  (`invoice.schema.ts`, `invoice.service.ts`, `invoice.controller.ts`).
  `Invoices.InvoiceService` holds the invoice collection. It also has a ghost
  count of document writes, so the double `save()` on a shipped order is visible.
- `Marketplace`: the single-process application of `mediamarkt-test`. The invoice
  service reads orders in process, and the broker delivers any emitted message,
  as often as it likes, to the event handler. `ShippingScenario` walks one flow end to end:
  create order O1, upload invoice I1 for it (unstamped), set O1 to SHIPPED,
  deliver the message, and read I1 back stamped.

Both versions of `InvoiceService` run the same steps and differ only in how the
order is fetched, so one class models both. `Marketplace.OrderFetcher` supplies
the v1 in-process read.

Some behaviours of the code that a reader might not expect:

- An upload without an `orderId` fails NotFound, while an upload for an unknown
  order fails BadRequest.
- `sentAt` is not set once and kept. Every delivery of the message rewrites it
  with the new time (`Invoices.MarkSentTwice`).
- Status changes are not restricted: any status can be overwritten with any
  other.
- Nothing handles a failed publish, and there is no acknowledgement policy.
- The request body reaches `createOrder` unvalidated, so an `orderId` in the
  body is kept and the schema default applies only when it is absent.

## Model

| member | source | states |
|---|---|---|
| Collection.FindFirst | mediamarkt-test-v2/order-service/src/orders/orders.service.ts:26 | the index found holds the key and no earlier document does; `None` exactly when no document holds the key |
| Collection.FindOne | mediamarkt-test-v2/order-service/src/orders/orders.service.ts:25-27 | the document returned is in the collection and carries the key; `null` exactly when no document carries it |
| Json.ToJSON | mediamarkt-test-v2/order-service/src/orders/schemas/order.schema.ts:13-22 | the view drops `_id`, the `id` virtual and `__v`, and keeps every other field with its value |
| OrderSchema.ExactlyFiveStatuses | mediamarkt-test-v2/order-service/src/orders/schemas/order.schema.ts:5-11 | the enum has exactly five members, CREATED, ACCEPTED, REJECTED, SHIPPING_IN_PROGRESS and SHIPPED, with distinct string values that parse back to their members |
| OrderSchema.ParseStatus | mediamarkt-test-v2/order-service/src/orders/schemas/order.schema.ts:43 | a string the `enum` validator accepts names the member it parses to |
| OrderSchema.MissingRequired | mediamarkt-test-v2/order-service/src/orders/schemas/order.schema.ts:25-44 | validation passes exactly when `orderId`, `productId`, `customerId` and `sellerId` are non-empty; every failing path is a schema field |
| OrderSchema.OrderFromJson | mediamarkt-test-v2/order-service/src/orders/schemas/order.schema.ts:24-45 | an order is read only from an object that has every field and whose status is an enum value |
| OrderSchema.OrderJsonView | mediamarkt-test-v2/order-service/src/orders/schemas/order.schema.ts:13-22 | the JSON view of a stored order has exactly the seven schema fields, and the order reads back from it unchanged |
| Dto.ValidOrderBody | mediamarkt-test-v2/order-service/src/orders/orders.dto.ts:4-22 | the body passes `@IsInt`/`@IsPositive` on price and quantity, `@IsString` on the three ids and `@IsEnum` on status; a passing body has every decorated field |
| Dto.ParseOrderBody | mediamarkt-test-v2/order-service/src/orders/orders.dto.ts:3-23 | a body becomes an `OrderDto` exactly when every field rule holds; its fields are then the body's own, its price and quantity integers greater than zero and its status an enum value; a string `orderId` in the body is carried along |
| Dto.DtoStatusesAreEnumValues | mediamarkt-test-v2/order-service/src/orders/orders.dto.ts:21 | the `@IsEnum` list is exactly the set of `OrderStatus` values |
| Orders.NewOrder | mediamarkt-test-v2/order-service/src/orders/orders.service.ts:17 | the new document has the body's price, quantity and ids, status CREATED, and the body's `orderId` or, when absent, the schema default |
| Orders.NewOrderIgnoresRequestedStatus | mediamarkt-test-v2/order-service/src/orders/orders.service.ts:16-18 | the created order has status CREATED whatever status the body carried; its `orderId` is the generated default exactly when the body has none, and the body's otherwise |
| Orders.WithStatus | mediamarkt-test-v2/order-service/src/orders/orders.service.ts:30-34 | `findOneAndUpdate` keeps the collection's length, every order's id and price, and gives each order either its old status or the new one |
| Orders.ShippedMessages | mediamarkt-test-v2/order-service/src/orders/orders.service.ts:38-40 | at most one message; one exactly when an order was updated and the status is SHIPPED; it is `ORDER_SHIPPED {orderId}` |
| Orders.CreateThenRead | mediamarkt-test-v2/order-service/src/orders/orders.service.ts:16-27 | after an insert, a read by the new id finds the new order unless an earlier order holds that id; other reads are unchanged |
| Orders.UpdateThenRead | mediamarkt-test-v2/order-service/src/orders/orders.service.ts:25-34 | after updating an existing order, reading it back gives that order with the new status, whatever the old status was |
| Orders.UpdateUnknownIsNoop | mediamarkt-test-v2/order-service/src/orders/orders.service.ts:30-42 | updating an unknown order leaves the collection unchanged |
| Orders.UpdateFrame | mediamarkt-test-v2/order-service/src/orders/orders.service.ts:30-33 | only the first order holding the id changes, and only in its status; orders with other ids are untouched |
| Orders.EmitIffFoundAndShipped | mediamarkt-test-v2/order-service/src/orders/orders.service.ts:38-40 | one message is emitted exactly when the order exists and the new status is SHIPPED, and none otherwise; the message carries the order id |
| Orders.UpdateKeepsSchema | mediamarkt-test-v2/order-service/src/orders/orders.service.ts:30-34 | a status update keeps every stored order schema-valid |
| Orders.OrderService.constructor | mediamarkt-test-v2/order-service/src/orders/orders.service.ts:11-14 | starts with no orders and an empty outbox |
| Orders.OrderService.CreateOrder | mediamarkt-test-v2/order-service/src/orders/orders.service.ts:16-19 | appends the built order (body `orderId` kept, otherwise generated) and returns it when validation passes; otherwise returns the failing paths and stores nothing; nothing is emitted |
| Orders.OrderService.ListOrders | mediamarkt-test-v2/order-service/src/orders/orders.service.ts:21-23 | returns the whole collection |
| Orders.OrderService.GetOrderDetails | mediamarkt-test-v2/order-service/src/orders/orders.service.ts:25-27 | returns the first order with that id, or `null` exactly when none has it |
| Orders.OrderService.UpdateOrderStatus | mediamarkt-test-v2/order-service/src/orders/orders.service.ts:29-43 | the new collection is the old one with the first match's status overwritten; returns the updated order, or `null` when the order is unknown; appends `ORDER_SHIPPED {orderId}` to the outbox exactly when an order was updated to SHIPPED |
| InvoiceSchema.NewInvoice | mediamarkt-test/src/invoice/schemas/invoice.schema.ts:16-28 | a new invoice has no `sentAt`, the given `orderId` and `pdfUrl` (an absent one held as ""), and the given `invoiceId` or, when absent, the generated one |
| InvoiceSchema.MissingRequired | mediamarkt-test/src/invoice/schemas/invoice.schema.ts:17-24 | validation passes exactly when `invoiceId`, `orderId` and `pdfUrl` are non-empty; `sentAt` is never required |
| InvoiceSchema.InvoiceFromJson | mediamarkt-test/src/invoice/schemas/invoice.schema.ts:26-27 | the invoice read has `sentAt` exactly when the object has the key |
| InvoiceSchema.InvoiceJsonView | mediamarkt-test/src/invoice/schemas/invoice.schema.ts:5-14 | the JSON view has the schema fields (`sentAt` only once set) and nothing storage-internal, and the invoice reads back whole |
| Invoices.UploadResult | mediamarkt-test-v2/invoice-service/src/invoice/invoice.service.ts:18-39 | a successful upload has the input's `orderId`, names an order the order side knows, and is schema-valid; a failure is NotFound, BadRequest or a ValidationError |
| Invoices.UploadWithoutOrderId | mediamarkt-test-v2/invoice-service/src/invoice/invoice.service.ts:19-22 | a missing or empty `orderId` fails NotFound whatever the order side would answer; a missing one gives the message "No orderId found for orderId: undefined" |
| Invoices.UploadErrors | mediamarkt-test-v2/invoice-service/src/invoice/invoice.service.ts:19-32 | NotFound exactly when `orderId` is falsy; BadRequest "Order with ID … does not exist" exactly when the order is unknown; ValidationError exactly when a required invoice field is empty |
| Invoices.UploadBuildsInvoice | mediamarkt-test-v2/invoice-service/src/invoice/invoice.service.ts:31-39 | a successful upload returns a schema-valid invoice with the input `orderId` and `pdfUrl`, the given or generated `invoiceId`, and `sentAt = now` exactly when the fetched order is SHIPPED |
| Invoices.MarkSent | mediamarkt-test-v2/invoice-service/src/invoice/invoice.service.ts:50-57 | fails exactly when no invoice has the order id; on success keeps the collection's length and every invoice's order id |
| Invoices.MarkSentWithoutInvoice | mediamarkt-test-v2/invoice-service/src/invoice/invoice.service.ts:50-54 | the consumer fails exactly when no invoice has the order id, with NotFound "No invoice found for order ID ….". |
| Invoices.MarkSentStampsFirstMatch | mediamarkt-test-v2/invoice-service/src/invoice/invoice.service.ts:51-57 | on success the order's first invoice reads back with `sentAt = now`; every other invoice and every other field is unchanged |
| Invoices.MarkSentTwice | mediamarkt-test-v2/invoice-service/src/invoice/invoice.service.ts:56-57 | a second delivery succeeds again and ends where one delivery at the later time would: `sentAt` stays set, overwritten with the new time |
| Invoices.MarkSentKeepsSchema | mediamarkt-test-v2/invoice-service/src/invoice/invoice.service.ts:56-57 | stamping keeps every stored invoice schema-valid |
| Invoices.InvoiceService.constructor | mediamarkt-test-v2/invoice-service/src/invoice/invoice.service.ts:12-16 | starts with no invoices and no writes |
| Invoices.InvoiceService.UploadInvoice | mediamarkt-test-v2/invoice-service/src/invoice/invoice.service.ts:18-40 | returns the upload outcome; on success appends exactly the returned invoice, with one write, or two when it was stamped; on failure writes nothing |
| Invoices.InvoiceService.GetInvoiceDetails | mediamarkt-test-v2/invoice-service/src/invoice/invoice.service.ts:42-44 | returns the first invoice with that `invoiceId`, or `null` exactly when none has it |
| Invoices.InvoiceService.ListInvoices | mediamarkt-test-v2/invoice-service/src/invoice/invoice.service.ts:46-48 | returns the whole collection |
| Invoices.InvoiceService.ProcessOrderShippedEvent | mediamarkt-test-v2/invoice-service/src/invoice/invoice.service.ts:50-58 | on a miss, fails NotFound and leaves the collection and the write count unchanged; otherwise stamps the first match, with exactly one write |
| InvoiceApi.FileFilter | mediamarkt-test-v2/invoice-service/src/invoice/invoice.controller.ts:43-48 | accepts exactly the names ending in ".pdf" (case-sensitive); rejects the rest with BadRequest "Only PDF files are allowed!" |
| InvoiceApi.ExtName | mediamarkt-test-v2/invoice-service/src/invoice/invoice.controller.ts:38 | the extension is a suffix of the name that starts with its only '.'; it is empty exactly when the name is ".." or has no '.' after its first character |
| InvoiceApi.Intercept | mediamarkt-test-v2/invoice-service/src/invoice/invoice.controller.ts:32-50 | a file is stored exactly when the filter accepts it, under field "file", its original name and the disk filename; otherwise the upload fails with the filter's BadRequest |
| InvoiceApi.DiskFilename | mediamarkt-test-v2/invoice-service/src/invoice/invoice.controller.ts:36-40 | the disk name starts with the field name and "-", and ends with the original name's extension |
| InvoiceApi.PdfUrl | mediamarkt-test-v2/invoice-service/src/invoice/invoice.controller.ts:55 | the URL is "/uploads/" followed by exactly the stored filename |
| InvoiceApi.DiskFilenameParts | mediamarkt-test-v2/invoice-service/src/invoice/invoice.controller.ts:36-40 | the stored name is the field name, "-", the upload time in decimal digits (which read back as that time), then the original extension |
| InvoiceApi.AcceptedKeepsPdfExtension | mediamarkt-test-v2/invoice-service/src/invoice/invoice.controller.ts:38-46 | any accepted name other than ".pdf" itself is stored with the extension ".pdf" |
| InvoiceApi.BarePdfNameLosesExtension | mediamarkt-test-v2/invoice-service/src/invoice/invoice.controller.ts:38-46 | the name ".pdf" passes the filter but is stored without an extension |
| InvoiceApi.NonPdfRejected | mediamarkt-test-v2/invoice-service/src/invoice/invoice.controller.ts:43-46 | "file.txt" and "file.PDF" are rejected and "file.pdf" is accepted |
| InvoiceApi.ControllerUploadFailsOnlyOnOrder | mediamarkt-test-v2/invoice-service/src/invoice/invoice.controller.ts:51-57 | an upload through the controller (with a non-empty generated id) succeeds exactly when `orderId` is non-empty and the order exists; the invoice then has that `orderId` and `pdfUrl` "/uploads/" + filename |
| InvoiceApi.InvoiceController.constructor | mediamarkt-test-v2/invoice-service/src/invoice/invoice.controller.ts:27 | the controller delegates to the given service |
| InvoiceApi.InvoiceController.UploadInvoice | mediamarkt-test-v2/invoice-service/src/invoice/invoice.controller.ts:51-57 | with no file in the request, fails with the TypeError of reading `file.filename` and writes nothing; otherwise passes `{orderId, pdfUrl: "/uploads/" + filename}` to the service and returns its result unchanged; a success makes one write, or two when stamped, and a failure none |
| InvoiceApi.InvoiceController.HandleOrderShippedEvent | mediamarkt-test-v2/invoice-service/src/invoice/invoice.controller.ts:73-77 | passes `payload.orderId` to the consumer and returns its failure unchanged |
| Marketplace.OrderFetcher | mediamarkt-test/src/invoice/invoice.service.ts:21 | the in-process order read returns an order of the collection with the asked id, and nothing exactly when no order has that id |
| Marketplace.ShippedUpdateReachesInvoice | mediamarkt-test-v2/order-service/src/orders/orders.service.ts:29-42 | setting an invoiced order to SHIPPED emits exactly one message for it, and delivering that message stamps the invoice with the delivery time |
| Marketplace.UploadAfterShipping | mediamarkt-test/src/invoice/invoice.service.ts:21-32 | once the order is SHIPPED, an invoice uploaded for it (read in process) is stamped at creation, with no message needed |
| Marketplace.App.constructor | mediamarkt-test/src/invoice/invoice.module.ts:8-16 | wires one order service, one invoice service and a controller over it, all empty |
| Marketplace.App.UploadInvoice | mediamarkt-test/src/invoice/invoice.service.ts:15-35 | a rejected file fails BadRequest and writes nothing; otherwise the result is the upload outcome with the order read from the order service, with one write, or two when stamped |
| Marketplace.App.Deliver | mediamarkt-test/src/main.ts:9-19 | delivering an emitted message, for the first time or again, has exactly the consumer's effect on the invoice collection |
| Text.LastIndexOf | mediamarkt-test-v2/invoice-service/src/invoice/invoice.controller.ts:38 | the index returned holds the character and nothing after it does; `None` exactly when the string lacks it |
| Text.DecimalString | mediamarkt-test-v2/invoice-service/src/invoice/invoice.controller.ts:37-39 | the rendering of `Date.now()` is non-empty, all digits, and has no leading zero |
| Text.DecimalRoundTrip | mediamarkt-test-v2/invoice-service/src/invoice/invoice.controller.ts:37-39 | reading the rendered digits back gives the timestamp |

## Left out

- Mongoose persistence beyond its observable effect: `_id` values, the version
  counter, queries with `exec()`, and indexes. `orderId` and `invoiceId` are not
  declared unique, so duplicates are allowed and the first match wins.
- The HTTP order read in the v2 `uploadInvoice`: the URL, the `ConfigService`
  fallback and network failures. An empty response for an unknown order counts
  as `None`.
- Broker behaviour: connection, acknowledgement, redelivery order and publish
  failure. `emit` is an append; `App.Deliver` delivers any emitted message at any
  time, as often as wanted.
- Concurrency: every operation runs to completion before the next one starts.
- The bootstraps, modules and dependency wiring, and `orders.controller.ts`,
  which only forwards to the service.
- The invoice controller's `getOrderDetails` and `getInvoices` endpoints, which
  only forward to the service.
- Authentication: the guards, roles, `auth.controller.ts`, user schemas and
  seeding.
- Multer's file writing and `console.log`.
- Orders.OrderService.CreateOrder: the model's body always carries a numeric
  `price` and `quantity`, so Mongoose's number cast on those paths is not
  represented. A missing or empty value fails `required`. A numeric string such
  as "100", or a boolean, is cast to a number and the order is saved. A
  non-numeric string, an object or an array fails with a CastError on that path.
- Dto.ParseOrderBody: a present `orderId` that is not a string is read as
  absent, so the order gets the generated id. The source keeps the value
  instead: `null` then fails `required` at `save()`, and a number or boolean is
  cast to its string and saved.
- Orders.NewOrderIgnoresRequestedStatus: states the `orderId` outcome only for
  a string or absent body `orderId`, for the reason in the line above.
- InvoiceApi.InvoiceController.UploadInvoice: a file sent under a form field
  other than "file" is refused by multer before the controller runs, and stores
  nothing. `Marketplace.App.UploadInvoice` always sends one file under "file".
- Request validation wiring. No `ValidationPipe` is registered in the bootstraps
  shown, so `Dto` models the field rules on their own. `UpdateOrderStatus` takes
  a typed status, so the unchecked route string and the update without
  validators are not represented.
- The v2 invoice service imports `OrderStatus` from `src/common/order-status.enum`.
  That file is not part of this model; it is assumed to hold the same five
  values.
- A `Partial<Invoice>` that carries `sentAt`, and a `null` (not `undefined`)
  `orderId`. The only caller passes `orderId` and `pdfUrl`.
- JavaScript number corner cases (NaN, infinities) and the Date object. A
  timestamp is an integer count of milliseconds.
- InvoiceApi.ExtName: models `path.extname` on a bare file name (multer passes
  the client's base name) and ignores '/' separators and trailing slashes.
