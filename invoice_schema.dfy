/** The invoice record as the Mongoose schema declares it: a defaulted
    `invoiceId`, required `orderId` and `pdfUrl`, an optional `sentAt`, and the
    JSON view. */
module InvoiceSchema {
  import opened Wrappers
  import opened Json

  /** A point in time, as milliseconds since the epoch (`new Date()`). */
  type Timestamp = int

  /** The stored invoice; `sentAt` is `None` until the invoice is marked sent. */
  datatype Invoice = Invoice(invoiceId: string, orderId: string, pdfUrl: string, sentAt: Option<Timestamp>)

  /** The `Partial<Invoice>` given to `new invoiceModel(...)`; `None` is an
      absent (`undefined`) field. */
  datatype InvoiceData = InvoiceData(invoiceId: Option<string>, orderId: Option<string>, pdfUrl: Option<string>)

  const INVOICE_FIELDS: set<string> := {"invoiceId", "orderId", "pdfUrl", "sentAt"}

  /** `new invoiceModel(invoiceData)`: the given fields, `invoiceId` defaulting
      to a generated id, and no `sentAt`. An absent required string is held as
      "", which the `required` check rejects just as it rejects `undefined`. */
  function NewInvoice(data: InvoiceData, generatedId: string): (inv: Invoice)
    ensures inv.sentAt.None?
    ensures inv.invoiceId == if data.invoiceId.Some? then data.invoiceId.value else generatedId
    ensures data.orderId.Some? ==> inv.orderId == data.orderId.value
    ensures data.pdfUrl.Some? ==> inv.pdfUrl == data.pdfUrl.value
    ensures data.orderId.None? ==> inv.orderId == ""
    ensures data.pdfUrl.None? ==> inv.pdfUrl == ""
  {
    Invoice(
      if data.invoiceId.Some? then data.invoiceId.value else generatedId,
      if data.orderId.Some? then data.orderId.value else "",
      if data.pdfUrl.Some? then data.pdfUrl.value else "",
      None)
  }

  /** The paths whose `required` check fails at `save()`, in schema order. */
  function MissingRequired(inv: Invoice): (paths: seq<string>)
    ensures paths == [] <==> inv.invoiceId != "" && inv.orderId != "" && inv.pdfUrl != ""
    ensures forall p :: p in paths ==> p in INVOICE_FIELDS && p != "sentAt"
  {
    (if inv.invoiceId == "" then ["invoiceId"] else [])
    + (if inv.orderId == "" then ["orderId"] else [])
    + (if inv.pdfUrl == "" then ["pdfUrl"] else [])
  }

  /** The invoice passes the schema's validation. */
  predicate SchemaValid(inv: Invoice) {
    MissingRequired(inv) == []
  }

  /** The stored document; an unset `sentAt` is not stored at all. */
  function Document(inv: Invoice, internalId: string, version: nat): Object {
    var doc := map[
      "_id" := Str(internalId),
      "__v" := Num(version as real),
      "invoiceId" := Str(inv.invoiceId),
      "orderId" := Str(inv.orderId),
      "pdfUrl" := Str(inv.pdfUrl)];
    if inv.sentAt.Some? then doc["sentAt" := Date(inv.sentAt.value)] else doc
  }

  /** Reads an invoice back from a JSON object. */
  function InvoiceFromJson(j: Object): (r: Option<Invoice>)
    ensures r.Some? ==> (r.value.sentAt.Some? <==> "sentAt" in j)
  {
    if && "invoiceId" in j && j["invoiceId"].Str?
       && "orderId" in j && j["orderId"].Str?
       && "pdfUrl" in j && j["pdfUrl"].Str?
       && ("sentAt" in j ==> j["sentAt"].Date?)
    then
      Some(Invoice(j["invoiceId"].s, j["orderId"].s, j["pdfUrl"].s,
                   if "sentAt" in j then Some(j["sentAt"].ms) else None))
    else None
  }

  /** The JSON view of a stored invoice shows the schema's fields (`sentAt` only
      once set) and nothing storage-internal, and the invoice reads back whole. */
  lemma InvoiceJsonView(inv: Invoice, internalId: string, version: nat)
    ensures ToJSON(Document(inv, internalId, version)).Keys ==
      if inv.sentAt.Some? then INVOICE_FIELDS else INVOICE_FIELDS - {"sentAt"}
    ensures InvoiceFromJson(ToJSON(Document(inv, internalId, version))) == Some(inv)
  {
    var doc := Document(inv, internalId, version);
    assert doc.Keys == (if inv.sentAt.Some? then INVOICE_FIELDS else INVOICE_FIELDS - {"sentAt"}) + {"_id", "__v"};
  }
}
