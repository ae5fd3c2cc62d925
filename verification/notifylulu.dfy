/**
 * The Lulu notification Lambda: check the stored credentials, get a token,
 * build one print line item per book that has a final PDF, and create one
 * print job for the order.
 *
 * Secrets Manager's answer, the token request and the print-job request are
 * inputs.
 */
module NotifyLulu {
  import opened Wrappers
  import opened PyStr

  /**
   * One entry of processed_books_results. `pdfPath` is
   * pdf_generation_output.final_pdf_s3_path (None when either key is
   * absent); the other fields are None when their key is absent.
   */
  datatype ProcessedBook = ProcessedBook(pdfPath: Option<string>, coverTitle: Option<string>, lineItemId: Option<string>)

  datatype LineItem = LineItem(
    externalId: string,
    coverSourceUrl: string,
    interiorSourceUrl: string,
    podPackageId: string,
    quantity: nat,
    title: string)

  datatype ShippingAddress = ShippingAddress(
    name: string,
    street1: Option<string>,
    street2: Option<string>,
    city: Option<string>,
    stateCode: Option<string>,
    countryCode: Option<string>,
    postcode: Option<string>)

  datatype PrintJob = PrintJob(
    externalId: string,
    lineItems: seq<LineItem>,
    productionDelay: nat,
    shippingLevel: string,
    shippingAddress: ShippingAddress)

  /** The requests the handler sends to Lulu, in order. */
  datatype LuluCall = RequestToken(clientKey: string, clientSecret: string) | CreatePrintJob(token: string, job: PrintJob)

  datatype LuluResult = LuluResult(status: string, orderId: string, luluJobId: Option<string>)

  const DefaultTitle: string := "A Personal Portrait"
  const CoverPlaceholder: string := "URL_TO_YOUR_COVER_PDF_OR_IMAGE"
  const PodPackageId: string := "0550X0850BWSTDLW060UC444MNG"
  const ProductionDelay: nat := 1440
  const ShippingLevel: string := "MAIL"
  const MissingCredentials: string := "Lulu API credentials not found in Secrets Manager"

  function NoValidBooks(orderId: string): string {
    "Order " + orderId + " had no valid books to print."
  }

  function Get(m: map<string, string>, k: string): Option<string> {
    if k in m then Some(m[k]) else None
  }

  // ---------------------------------------------------------------------
  // Line items

  /** The line item for a book that has a PDF. */
  function LuluLineItem(orderId: string, book: ProcessedBook): LineItem
    requires book.pdfPath.Some?
  {
    LineItem(book.lineItemId.GetOr(orderId), CoverPlaceholder, book.pdfPath.value, PodPackageId, 1,
             book.coverTitle.GetOr(DefaultTitle))
  }

  /** The books that have a non-empty PDF path, in order. */
  function Printable(books: seq<ProcessedBook>): (r: seq<ProcessedBook>)
    ensures |r| <= |books|
    ensures forall k :: 0 <= k < |r| ==> Truthy(r[k].pdfPath) && r[k] in books
    ensures forall j :: 0 <= j < |books| && Truthy(books[j].pdfPath) ==> books[j] in r
  {
    if books == [] then []
    else
      var last := books[|books| - 1];
      var before := Printable(books[..|books| - 1]);
      assert forall b :: b in before ==> b in books;
      before + (if Truthy(last.pdfPath) then [last] else [])
  }

  function LineItemsFor(orderId: string, books: seq<ProcessedBook>): (items: seq<LineItem>)
    requires forall k :: 0 <= k < |books| ==> books[k].pdfPath.Some?
    ensures |items| == |books|
  {
    seq(|books|, k requires 0 <= k < |books| => LuluLineItem(orderId, books[k]))
  }

  /** The line-item loop: skip books without a PDF, append one item per other book. */
  method BuildLineItems(orderId: string, books: seq<ProcessedBook>) returns (items: seq<LineItem>)
    ensures items == LineItemsFor(orderId, Printable(books))
  {
    items := [];
    var i := 0;
    while i < |books|
      invariant 0 <= i <= |books|
      invariant items == LineItemsFor(orderId, Printable(books[..i]))
    {
      var book := books[i];
      assert books[..i + 1][..i] == books[..i];
      assert books[..i + 1][i] == book;
      if !Truthy(book.pdfPath) {
        i := i + 1;
        continue;
      }
      items := items + [LuluLineItem(orderId, book)];
      i := i + 1;
    }
    assert books[..|books|] == books;
  }

  /**
   * Every item prints one copy of a book's PDF, with the line item id (or
   * the order id) as external id and the cover title (or the default) as
   * title; exactly the books without a PDF path are skipped.
   */
  lemma {:induction false} LineItemsShape(orderId: string, books: seq<ProcessedBook>)
    ensures var items := LineItemsFor(orderId, Printable(books));
      && |items| == |Printable(books)|
      && forall k :: 0 <= k < |items| ==>
           var b := Printable(books)[k];
           && items[k].quantity == 1
           && items[k].interiorSourceUrl == b.pdfPath.value && items[k].interiorSourceUrl != ""
           && items[k].externalId == b.lineItemId.GetOr(orderId)
           && items[k].title == b.coverTitle.GetOr(DefaultTitle)
           && items[k].podPackageId == PodPackageId
  {
  }

  /** A book is kept exactly when it has a PDF path: all of them, or none. */
  lemma {:induction false} PrintableCount(books: seq<ProcessedBook>)
    ensures (forall k :: 0 <= k < |books| ==> Truthy(books[k].pdfPath)) ==> Printable(books) == books
    ensures (forall k :: 0 <= k < |books| ==> !Truthy(books[k].pdfPath)) ==> Printable(books) == []
    decreases |books|
  {
    if books != [] {
      PrintableCount(books[..|books| - 1]);
      assert books[..|books| - 1] + [books[|books| - 1]] == books;
    }
  }

  // ---------------------------------------------------------------------
  // The handler

  /** `f"{first_name} {last_name}"` with '' for a missing part, and the other fields copied. */
  function LuluAddress(shipping: map<string, string>): (a: ShippingAddress)
    ensures a.name == Get(shipping, "first_name").GetOr("") + " " + Get(shipping, "last_name").GetOr("")
  {
    ShippingAddress(
      Get(shipping, "first_name").GetOr("") + " " + Get(shipping, "last_name").GetOr(""),
      Get(shipping, "address1"), Get(shipping, "address2"), Get(shipping, "city"),
      Get(shipping, "province_code"), Get(shipping, "country_code"), Get(shipping, "zip"))
  }

  /**
   * `lambda_handler`. `secrets` is the stored secret, `tokenReply` the token
   * request's outcome and `jobReply` the print-job request's outcome (the
   * job id it returns, if any); a Failure is an exception the handler raises.
   */
  method HandleNotify(orderId: string, shipping: map<string, string>, books: seq<ProcessedBook>,
                      secrets: map<string, string>, tokenReply: Result<string, string>,
                      jobReply: Result<Option<string>, string>)
    returns (r: Result<LuluResult, string>, calls: seq<LuluCall>)
    ensures !Truthy(Get(secrets, "LuluApiClientKey")) || !Truthy(Get(secrets, "LuluApiClientSecret")) ==>
      r == Failure(MissingCredentials) && calls == []
    ensures Truthy(Get(secrets, "LuluApiClientKey")) && Truthy(Get(secrets, "LuluApiClientSecret")) ==>
      && |calls| >= 1
      && calls[0] == RequestToken(secrets["LuluApiClientKey"], secrets["LuluApiClientSecret"])
    ensures tokenReply.Success? && Printable(books) == [] && calls != [] ==>
      r == Failure(NoValidBooks(orderId)) && |calls| == 1
    ensures r.Success? <==>
      && Truthy(Get(secrets, "LuluApiClientKey")) && Truthy(Get(secrets, "LuluApiClientSecret"))
      && tokenReply.Success? && Printable(books) != [] && jobReply.Success?
    ensures r.Success? ==>
      && r.value == LuluResult("SUCCESS", orderId, jobReply.value)
      && |calls| == 2
      && calls[1] == CreatePrintJob(tokenReply.value,
           PrintJob(orderId, LineItemsFor(orderId, Printable(books)), ProductionDelay, ShippingLevel,
                    LuluAddress(shipping)))
  {
    calls := [];
    var clientKey := Get(secrets, "LuluApiClientKey");
    var clientSecret := Get(secrets, "LuluApiClientSecret");
    if !Truthy(clientKey) || !Truthy(clientSecret) {
      return Failure(MissingCredentials), calls;
    }

    calls := calls + [RequestToken(clientKey.value, clientSecret.value)];
    if tokenReply.Failure? {
      return Failure(tokenReply.error), calls;
    }
    var token := tokenReply.value;

    var lineItems := BuildLineItems(orderId, books);
    if lineItems == [] {
      return Failure(NoValidBooks(orderId)), calls;
    }

    var job := PrintJob(orderId, lineItems, ProductionDelay, ShippingLevel, LuluAddress(shipping));
    calls := calls + [CreatePrintJob(token, job)];
    if jobReply.Failure? {
      return Failure(jobReply.error), calls;
    }
    r := Success(LuluResult("SUCCESS", orderId, jobReply.value));
  }
}
