/** `InvoiceController` of the invoice side: the upload interceptor's PDF filter
    and disk filename, the `pdfUrl` handed to the service, and the
    `ORDER_SHIPPED` event handler. */
module InvoiceApi {
  import opened Wrappers
  import opened Exceptions
  import opened Text
  import opened Events
  import OrderSchema
  import opened InvoiceSchema
  import opened Invoices

  /** The form field `FileInterceptor('file')` reads the upload from. */
  const UPLOAD_FIELD: string := "file"

  /** The URL prefix of the upload directory `./uploads`. */
  const UPLOADS_URL: string := "/uploads/"

  const PDF_ONLY: string := "Only PDF files are allowed!"

  /** What reading `file.filename` throws when the request carried no file. */
  const NO_FILE: string := "Cannot read properties of undefined (reading 'filename')"

  /** The multer file as the controller receives it. */
  datatype UploadedFile = UploadedFile(fieldname: string, originalname: string, filename: string)

  /** `fileFilter`: `callback(null, true)` when `originalname` matches
      `/\.(pdf)$/` (case-sensitive, at the very end), otherwise
      `callback(new BadRequestException(...), false)`. */
  function FileFilter(originalname: string): (r: Result<bool, ServiceError>)
    ensures r.Ok? <==> EndsWith(originalname, ".pdf")
    ensures r.Ok? ==> r.value
    ensures r.Err? ==> r.error == BadRequest(PDF_ONLY)
  {
    if EndsWith(originalname, ".pdf") then Ok(true) else Err(BadRequest(PDF_ONLY))
  }

  /** `path.extname` of a file name without directories: from the last '.' to
      the end, or "" when the name has no '.' after its first character or is "..". */
  function ExtName(name: string): (ext: string)
    ensures ext == "" || (ext[0] == '.' && EndsWith(name, ext) && |ext| < |name|)
    ensures forall i :: 1 <= i < |ext| ==> ext[i] != '.'
    ensures ext == "" <==> name == ".." || forall i :: 0 < i < |name| ==> name[i] != '.'
  {
    match LastIndexOf(name, '.')
    case None => ""
    case Some(dot) => if dot == 0 || name == ".." then "" else name[dot..]
  }

  /** The disk storage `filename`: `${fieldname}-${uniqueSuffix}${ext}`, with
      `uniqueSuffix` the upload time `Date.now()`. */
  function DiskFilename(fieldname: string, uniqueSuffix: nat, originalname: string): (f: string)
    ensures |fieldname| + 1 < |f|
    ensures f[..|fieldname| + 1] == fieldname + "-"
    ensures EndsWith(f, ExtName(originalname))
  {
    fieldname + "-" + DecimalString(uniqueSuffix) + ExtName(originalname)
  }

  /** The `pdfUrl` the controller stores for a saved file. */
  function PdfUrl(filename: string): (url: string)
    ensures |url| == |UPLOADS_URL| + |filename|
    ensures url[..|UPLOADS_URL|] == UPLOADS_URL && url[|UPLOADS_URL|..] == filename
  {
    UPLOADS_URL + filename
  }

  /** The interceptor as configured: the filter first, then the disk name. */
  function Intercept(originalname: string, uploadTime: nat): (r: Result<UploadedFile, ServiceError>)
    ensures r.Ok? <==> FileFilter(originalname).Ok?
    ensures r.Err? ==> r.error == BadRequest(PDF_ONLY)
    ensures r.Ok? ==> r.value.fieldname == UPLOAD_FIELD && r.value.originalname == originalname
    ensures r.Ok? ==> r.value.filename == DiskFilename(UPLOAD_FIELD, uploadTime, originalname)
  {
    match FileFilter(originalname)
    case Err(e) => Err(e)
    case Ok(_) => Ok(UploadedFile(UPLOAD_FIELD, originalname, DiskFilename(UPLOAD_FIELD, uploadTime, originalname)))
  }

  /** The disk name is the field name, a dash, the upload time in decimal (which
      reads back as that time), and the original extension. */
  lemma DiskFilenameParts(fieldname: string, uniqueSuffix: nat, originalname: string)
    ensures var f := DiskFilename(fieldname, uniqueSuffix, originalname);
      var ext := ExtName(originalname);
      && |fieldname| + 1 <= |f| - |ext|
      && f[..|fieldname| + 1] == fieldname + "-"
      && EndsWith(f, ext)
      && AllDigits(f[|fieldname| + 1..|f| - |ext|])
      && DecimalValue(f[|fieldname| + 1..|f| - |ext|]) == uniqueSuffix
  {
    var f := DiskFilename(fieldname, uniqueSuffix, originalname);
    var ext := ExtName(originalname);
    var digits := DecimalString(uniqueSuffix);
    assert f == (fieldname + "-") + digits + ext;
    assert f[|fieldname| + 1..|f| - |ext|] == digits;
    DecimalRoundTrip(uniqueSuffix);
  }

  /** A name the filter accepts keeps ".pdf" as its disk extension, unless the
      whole name is ".pdf". */
  lemma {:induction false} AcceptedKeepsPdfExtension(originalname: string)
    requires FileFilter(originalname).Ok? && originalname != ".pdf"
    ensures ExtName(originalname) == ".pdf"
  {
    var n := |originalname|;
    assert originalname[n - 4..] == ".pdf";
    assert originalname[n - 4] == '.' && originalname[n - 3] == 'p'
        && originalname[n - 2] == 'd' && originalname[n - 1] == 'f';
    var dot := LastIndexOf(originalname, '.');
    assert dot.Some? && dot.value == n - 4;
  }

  /** ".pdf" itself passes the filter, yet its disk name has no extension. */
  lemma BarePdfNameLosesExtension(uploadTime: nat)
    ensures FileFilter(".pdf").Ok?
    ensures DiskFilename(UPLOAD_FIELD, uploadTime, ".pdf") == "file-" + DecimalString(uploadTime)
  {
    assert ExtName(".pdf") == "";
  }

  /** A name not ending in lower-case ".pdf" is rejected: "file.txt", "file.PDF". */
  lemma NonPdfRejected()
    ensures FileFilter("file.txt") == Err(BadRequest("Only PDF files are allowed!"))
    ensures FileFilter("file.PDF") == Err(BadRequest("Only PDF files are allowed!"))
    ensures FileFilter("file.pdf") == Ok(true)
  {
    assert "file.txt"[4..] != ".pdf" by { assert "file.txt"[5] == 't'; }
    assert "file.PDF"[4..] != ".pdf" by { assert "file.PDF"[5] == 'P'; }
    assert "file.pdf"[4..] == ".pdf";
  }

  /** Through the controller the upload carries a route `orderId` and a
      non-empty `pdfUrl`, so (given a non-empty generated id) it fails only on an
      empty `orderId` or an order the order side does not know. */
  lemma ControllerUploadFailsOnlyOnOrder(orderId: string, filename: string,
                                         fetchOrder: string -> Option<OrderSchema.Order>,
                                         generatedId: string, now: Timestamp)
    requires generatedId != ""
    ensures var r := UploadResult(InvoiceData(None, Some(orderId), Some(PdfUrl(filename))), fetchOrder, generatedId, now);
      && (r.Ok? <==> orderId != "" && fetchOrder(orderId).Some?)
      && (r.Ok? ==> r.value.orderId == orderId && r.value.pdfUrl == PdfUrl(filename) && r.value.invoiceId == generatedId)
  {
    assert |PdfUrl(filename)| >= |UPLOADS_URL|;
  }

  class InvoiceController {
    const invoiceService: InvoiceService

    constructor (invoiceService: InvoiceService)
      ensures this.invoiceService == invoiceService
    {
      this.invoiceService := invoiceService;
    }

    /** `uploadInvoice`: passes `{ orderId, pdfUrl: "/uploads/" + filename }` to
        the service and returns its result unchanged. When the request carried
        no file, `file` is `undefined` and reading its `filename` throws before
        the service is reached. */
    method UploadInvoice(orderId: string, file: Option<UploadedFile>, fetchOrder: string -> Option<OrderSchema.Order>,
                         generatedId: string, now: Timestamp) returns (r: Result<Invoice, ServiceError>)
      requires invoiceService.Valid()
      modifies invoiceService
      ensures invoiceService.Valid()
      ensures file.None? ==> r == Err(TypeError(NO_FILE))
      ensures file.Some? ==>
        r == UploadResult(InvoiceData(None, Some(orderId), Some(PdfUrl(file.value.filename))), fetchOrder, generatedId, now)
      ensures invoiceService.invoices ==
        if r.Ok? then old(invoiceService.invoices) + [r.value] else old(invoiceService.invoices)
      ensures invoiceService.writes ==
        old(invoiceService.writes) + (if r.Err? then 0 else if r.value.sentAt.Some? then 2 else 1)
    {
      if file.None? {
        return Err(TypeError(NO_FILE));
      }
      var pdfUrl := PdfUrl(file.value.filename);
      r := invoiceService.UploadInvoice(InvoiceData(None, Some(orderId), Some(pdfUrl)), fetchOrder, generatedId, now);
    }

    /** `handleOrderShippedEvent`: hands `payload.orderId` to
        `processOrderShippedEvent` and lets its failure propagate. */
    method HandleOrderShippedEvent(payload: ShippedPayload, now: Timestamp) returns (r: Result<(), ServiceError>)
      requires invoiceService.Valid()
      modifies invoiceService
      ensures invoiceService.Valid()
      ensures MarkSent(old(invoiceService.invoices), payload.orderId, now).Err? ==>
        r == Err(MarkSent(old(invoiceService.invoices), payload.orderId, now).error)
        && invoiceService.invoices == old(invoiceService.invoices)
      ensures MarkSent(old(invoiceService.invoices), payload.orderId, now).Ok? ==>
        r == Ok(()) && invoiceService.invoices == MarkSent(old(invoiceService.invoices), payload.orderId, now).value
    {
      r := invoiceService.ProcessOrderShippedEvent(payload.orderId, now);
    }
  }
}
