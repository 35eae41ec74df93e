/** `InvoiceService` of the invoice side: invoice upload (which stamps `sentAt`
    at once when the order has already shipped), reads, and the consumer of
    `ORDER_SHIPPED` that stamps the invoice of the shipped order. */
module Invoices {
  import opened Wrappers
  import opened Exceptions
  import opened Collection
  import OrderSchema
  import opened InvoiceSchema

  /** The field `findOne({ invoiceId })` matches on. */
  function InvoiceIdKey(inv: Invoice): string {
    inv.invoiceId
  }

  /** The field `findOne({ orderId })` matches on. */
  function OrderIdKey(inv: Invoice): string {
    inv.orderId
  }

  /** JavaScript truthiness of an optional string: present and non-empty. */
  predicate Truthy(v: Option<string>) {
    v.Some? && v.value != ""
  }

  /** `${v}` in a template literal. */
  function Interpolate(v: Option<string>): string {
    if v.Some? then v.value else "undefined"
  }

  /** What `uploadInvoice` does with its input and the order it fetches: the
      invoice it stores and returns, or the exception it throws. */
  function UploadResult(invoiceData: InvoiceData, fetchOrder: string -> Option<OrderSchema.Order>,
                        generatedId: string, now: Timestamp): (r: Result<Invoice, ServiceError>)
    ensures r.Ok? ==> invoiceData.orderId.Some? && r.value.orderId == invoiceData.orderId.value
    ensures r.Ok? ==> SchemaValid(r.value) && fetchOrder(r.value.orderId).Some?
    ensures r.Err? ==> r.error.NotFound? || r.error.BadRequest? || r.error.ValidationError?
  {
    if !Truthy(invoiceData.orderId) then
      Err(NotFound("No orderId found for orderId: " + Interpolate(invoiceData.orderId)))
    else
      var orderId := invoiceData.orderId.value;
      match fetchOrder(orderId)
      case None => Err(BadRequest("Order with ID " + orderId + " does not exist"))
      case Some(order) =>
        var invoice := NewInvoice(invoiceData, generatedId);
        if !SchemaValid(invoice) then Err(ValidationError(MissingRequired(invoice)))
        else if order.status == OrderSchema.SHIPPED then Ok(invoice.(sentAt := Some(now)))
        else Ok(invoice)
  }

  /** A missing or empty `orderId` is rejected with NotFound before the order is
      fetched: the result does not depend on the order side at all. */
  lemma UploadWithoutOrderId(invoiceData: InvoiceData, fetchA: string -> Option<OrderSchema.Order>,
                             fetchB: string -> Option<OrderSchema.Order>, generatedId: string, now: Timestamp)
    requires !Truthy(invoiceData.orderId)
    ensures UploadResult(invoiceData, fetchA, generatedId, now)
         == UploadResult(invoiceData, fetchB, generatedId, now)
         == Err(NotFound("No orderId found for orderId: " + Interpolate(invoiceData.orderId)))
    ensures invoiceData.orderId.None? ==>
      UploadResult(invoiceData, fetchA, generatedId, now) == Err(NotFound("No orderId found for orderId: undefined"))
  {
    if invoiceData.orderId.None? {
      assert "No orderId found for orderId: " + Interpolate(invoiceData.orderId)
          == "No orderId found for orderId: undefined";
    }
  }

  /** The upload fails exactly in these cases: no `orderId` (NotFound), an order
      the order side does not know (BadRequest), or a required field left empty
      (ValidationError). */
  lemma UploadErrors(invoiceData: InvoiceData, fetchOrder: string -> Option<OrderSchema.Order>,
                     generatedId: string, now: Timestamp)
    ensures var r := UploadResult(invoiceData, fetchOrder, generatedId, now);
      && (r.Err? && r.error.NotFound? <==> !Truthy(invoiceData.orderId))
      && (r.Err? && r.error.BadRequest? <==>
            Truthy(invoiceData.orderId) && fetchOrder(invoiceData.orderId.value).None?)
      && (r.Err? && r.error.BadRequest? ==>
            r.error.message == "Order with ID " + invoiceData.orderId.value + " does not exist")
      && (r.Err? && r.error.ValidationError? <==>
            Truthy(invoiceData.orderId) && fetchOrder(invoiceData.orderId.value).Some?
            && !SchemaValid(NewInvoice(invoiceData, generatedId)))
  {
  }

  /** A successful upload returns the invoice built from the input: its
      `orderId` and `pdfUrl` are the given ones, its `invoiceId` the given or
      generated one, and `sentAt` is set (to `now`) exactly when the fetched
      order is already SHIPPED. */
  lemma UploadBuildsInvoice(invoiceData: InvoiceData, fetchOrder: string -> Option<OrderSchema.Order>,
                            generatedId: string, now: Timestamp)
    requires UploadResult(invoiceData, fetchOrder, generatedId, now).Ok?
    ensures var inv := UploadResult(invoiceData, fetchOrder, generatedId, now).value;
      && Truthy(invoiceData.orderId) && fetchOrder(invoiceData.orderId.value).Some?
      && inv.orderId == invoiceData.orderId.value
      && invoiceData.pdfUrl.Some? && inv.pdfUrl == invoiceData.pdfUrl.value
      && inv.invoiceId == (if invoiceData.invoiceId.Some? then invoiceData.invoiceId.value else generatedId)
      && SchemaValid(inv)
      && (inv.sentAt.Some? <==> fetchOrder(invoiceData.orderId.value).value.status == OrderSchema.SHIPPED)
      && (inv.sentAt.Some? ==> inv.sentAt.value == now)
  {
  }

  /** `processOrderShippedEvent` on a collection: the first invoice of the order
      gets `sentAt = now`; without one it fails with NotFound. */
  function MarkSent(invoices: seq<Invoice>, orderId: string, now: Timestamp): (r: Result<seq<Invoice>, ServiceError>)
    ensures r.Err? <==> forall j :: 0 <= j < |invoices| ==> invoices[j].orderId != orderId
    ensures r.Ok? ==> |r.value| == |invoices|
    ensures r.Ok? ==> forall j :: 0 <= j < |invoices| ==> r.value[j].orderId == invoices[j].orderId
  {
    match FindFirst(invoices, OrderIdKey, orderId)
    case None => Err(NotFound("No invoice found for order ID " + orderId + "."))
    case Some(i) => Ok(invoices[i := invoices[i].(sentAt := Some(now))])
  }

  /** With no invoice for the order, the consumer fails with NotFound. */
  lemma MarkSentWithoutInvoice(invoices: seq<Invoice>, orderId: string, now: Timestamp)
    ensures MarkSent(invoices, orderId, now).Err? <==> FindOne(invoices, OrderIdKey, orderId).None?
    ensures MarkSent(invoices, orderId, now).Err? ==>
      MarkSent(invoices, orderId, now).error == NotFound("No invoice found for order ID " + orderId + ".")
  {
  }

  /** On success, reading the order's invoice gives it stamped with `now`;
      every other invoice, and every other field, is unchanged. */
  lemma {:induction false} MarkSentStampsFirstMatch(invoices: seq<Invoice>, orderId: string, now: Timestamp)
    requires FindOne(invoices, OrderIdKey, orderId).Some?
    ensures MarkSent(invoices, orderId, now).Ok?
    ensures var after := MarkSent(invoices, orderId, now).value;
      && |after| == |invoices|
      && FindOne(after, OrderIdKey, orderId) == Some(FindOne(invoices, OrderIdKey, orderId).value.(sentAt := Some(now)))
      && (forall j :: 0 <= j < |invoices| ==>
            after[j] == invoices[j] || (after[j] == invoices[j].(sentAt := Some(now))
                                        && FindFirst(invoices, OrderIdKey, orderId) == Some(j)))
      && (forall j :: 0 <= j < |invoices| && invoices[j].orderId != orderId ==> after[j] == invoices[j])
  {
    var i := FindFirst(invoices, OrderIdKey, orderId).value;
    FindFirstKeyPreserving(invoices, i, invoices[i].(sentAt := Some(now)), OrderIdKey, orderId);
  }

  /** Redelivery: handling the event a second time succeeds again, keeps
      `sentAt` set, and ends exactly where a single handling at the later time
      would; the timestamp is overwritten, nothing else changes. */
  lemma {:induction false} MarkSentTwice(invoices: seq<Invoice>, orderId: string, first: Timestamp, second: Timestamp)
    requires MarkSent(invoices, orderId, first).Ok?
    ensures MarkSent(MarkSent(invoices, orderId, first).value, orderId, second)
         == MarkSent(invoices, orderId, second)
  {
    var i := FindFirst(invoices, OrderIdKey, orderId).value;
    var once := invoices[i := invoices[i].(sentAt := Some(first))];
    FindFirstKeyPreserving(invoices, i, once[i], OrderIdKey, orderId);
    assert once[i := once[i].(sentAt := Some(second))] == invoices[i := invoices[i].(sentAt := Some(second))];
  }

  /** Stamping keeps every stored invoice valid under the schema. */
  lemma MarkSentKeepsSchema(invoices: seq<Invoice>, orderId: string, now: Timestamp)
    requires forall i :: 0 <= i < |invoices| ==> SchemaValid(invoices[i])
    requires MarkSent(invoices, orderId, now).Ok?
    ensures forall i :: 0 <= i < |invoices| ==> SchemaValid(MarkSent(invoices, orderId, now).value[i])
  {
  }

  class InvoiceService {
    /** The invoices collection, in insertion order. */
    var invoices: seq<Invoice>
    /** The number of `save()` calls that wrote a document. */
    ghost var writes: nat

    /** Every stored invoice passed the schema's validation. */
    ghost predicate Valid()
      reads this
    {
      forall i :: 0 <= i < |invoices| ==> SchemaValid(invoices[i])
    }

    constructor ()
      ensures Valid() && invoices == [] && writes == 0
    {
      invoices := [];
      writes := 0;
    }

    /** `uploadInvoice`: checks `orderId`, fetches the order (`fetchOrder` is the
        order side's `getOrderDetails`), saves the new invoice, and, when the
        order is already SHIPPED, stamps `sentAt` and saves it a second time. On
        failure nothing is written. */
    method UploadInvoice(invoiceData: InvoiceData, fetchOrder: string -> Option<OrderSchema.Order>,
                         generatedId: string, now: Timestamp) returns (r: Result<Invoice, ServiceError>)
      requires Valid()
      modifies this
      ensures Valid()
      ensures r == UploadResult(invoiceData, fetchOrder, generatedId, now)
      ensures invoices == if r.Ok? then old(invoices) + [r.value] else old(invoices)
      ensures writes == old(writes) + (if r.Err? then 0 else if r.value.sentAt.Some? then 2 else 1)
    {
      var orderId := invoiceData.orderId;
      if !Truthy(orderId) {
        return Err(NotFound("No orderId found for orderId: " + Interpolate(orderId)));
      }
      var order := fetchOrder(orderId.value);
      if order.None? {
        return Err(BadRequest("Order with ID " + orderId.value + " does not exist"));
      }
      var invoice := NewInvoice(invoiceData, generatedId);
      var missing := MissingRequired(invoice);
      if missing != [] {
        return Err(ValidationError(missing));
      }
      invoices := invoices + [invoice];
      writes := writes + 1;
      var saved := |invoices| - 1;
      if order.value.status == OrderSchema.SHIPPED {
        invoices := invoices[saved := invoices[saved].(sentAt := Some(now))];
        writes := writes + 1;
      }
      r := Ok(invoices[saved]);
    }

    /** `getInvoiceDetails`: the first invoice with that `invoiceId`, or `null`. */
    method GetInvoiceDetails(invoiceId: string) returns (invoice: Option<Invoice>)
      ensures invoice == FindOne(invoices, InvoiceIdKey, invoiceId)
      ensures invoice.Some? ==> invoice.value in invoices && invoice.value.invoiceId == invoiceId
      ensures invoice.None? <==> forall inv :: inv in invoices ==> inv.invoiceId != invoiceId
    {
      var i := FindFirst(invoices, InvoiceIdKey, invoiceId);
      if i.Some? {
        invoice := Some(invoices[i.value]);
      } else {
        invoice := None;
      }
    }

    /** `listInvoices`: the whole collection. */
    method ListInvoices() returns (all: seq<Invoice>)
      ensures all == invoices
    {
      all := invoices;
    }

    /** `processOrderShippedEvent`: stamps `sentAt = now` on the first invoice
        of the order and saves it, or throws NotFound and writes nothing. */
    method ProcessOrderShippedEvent(orderId: string, now: Timestamp) returns (r: Result<(), ServiceError>)
      requires Valid()
      modifies this
      ensures Valid()
      ensures MarkSent(old(invoices), orderId, now).Err? ==>
        r == Err(MarkSent(old(invoices), orderId, now).error) && invoices == old(invoices) && writes == old(writes)
      ensures MarkSent(old(invoices), orderId, now).Ok? ==>
        r == Ok(()) && invoices == MarkSent(old(invoices), orderId, now).value && writes == old(writes) + 1
    {
      var i := FindFirst(invoices, OrderIdKey, orderId);
      if i.None? {
        return Err(NotFound("No invoice found for order ID " + orderId + "."));
      }
      MarkSentKeepsSchema(invoices, orderId, now);
      invoices := invoices[i.value := invoices[i.value].(sentAt := Some(now))];
      writes := writes + 1;
      r := Ok(());
    }
  }
}
