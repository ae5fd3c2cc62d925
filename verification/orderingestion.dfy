/**
 * The order-ingestion Lambda: read a Shopify order, keep the line items that
 * carry the three book properties, parse each one's birth details, and, when
 * there is at least one book, store the raw payload, write the order record
 * and enqueue one message listing the books.
 *
 * The birth-data parser, S3, DynamoDB and SQS are inputs; the creation time
 * is a parameter.
 */
module OrderIngestion {
  import opened Wrappers
  import opened PyStr

  /** One entry of a line item's "properties"; None stands for a missing key. */
  datatype Property = Property(name: Option<string>, value: Option<string>)

  /** A line item: its "id" (None when absent) and its properties. */
  datatype LineItem = LineItem(id: Option<int>, properties: seq<Property>)

  /**
   * The order payload. `customer` and `shippingAddress` are None when the key
   * is absent; the handler then uses an empty dictionary.
   */
  datatype Payload = Payload(
    id: Option<int>,
    lineItems: seq<LineItem>,
    customer: Option<map<string, string>>,
    shippingAddress: Option<map<string, string>>)

  datatype BookDetails<B> = BookDetails(lineItemId: string, coverTitle: string, birthData: B)

  /** The message for the workflow. */
  datatype CleanPayload<B> = CleanPayload(
    orderId: string,
    shopifyPayloadS3Path: string,
    customerDetails: map<string, string>,
    shippingAddress: map<string, string>,
    books: seq<BookDetails<B>>)

  /** The DynamoDB item. */
  datatype OrderRecord = OrderRecord(
    orderId: string,
    createdAt: string,
    status: string,
    bookCount: nat,
    customerEmail: Option<string>,
    shopifyPayloadS3: string)

  /** The writes the handler makes, in order. */
  datatype Effect<B> =
    | PutRawPayload(bucket: string, key: string, body: string)
    | PutOrderRecord(table: string, record: OrderRecord)
    | SendMessage(queueUrl: string, message: CleanPayload<B>)

  /** The Lambda's result: a response, or an exception that escapes the handler. */
  datatype Outcome = Response(statusCode: int, body: string) | Raised(error: string)

  /** Where the writes go (environment variables). */
  datatype Config = Config(rawPayloadsBucket: string, ordersTable: string, queueUrl: string)

  /** Whether each write succeeds; a failing one raises inside the try block. */
  datatype Services = Services(s3PutOk: bool, dynamoPutOk: bool, sqsSendOk: bool)

  const CustomTextKey: string := "Custom Text"
  const AddressKey: string := "Address"
  const DeliveryKey: string := "Delivery Date & Time"

  const NoBooksBody: string := "Order processed, no valid books found."
  const ParsingErrorBody: string := "Internal server error during data parsing."
  const ReceivedStatus: string := "received"

  /** `f"shpfy_{payload['id']}"`. */
  function OrderId(id: int): string {
    "shpfy_" + IntText(id)
  }

  /** `str(line_item.get('id'))`. */
  function LineItemId(id: Option<int>): string {
    if id.Some? then IntText(id.value) else "None"
  }

  function Get(m: map<string, string>, k: string): Option<string> {
    if k in m then Some(m[k]) else None
  }

  // ---------------------------------------------------------------------
  // The properties dictionary

  /**
   * The dictionary after the first n properties, later names overwriting
   * earlier ones; None when a property lacks "name" or "value" (KeyError).
   */
  function PropsUpTo(props: seq<Property>, n: nat): (r: Option<map<string, string>>)
    requires n <= |props|
    ensures r.Some? ==> forall i :: 0 <= i < n ==> props[i].name.Some? && props[i].value.Some?
  {
    if n == 0 then Some(map[])
    else
      var m := PropsUpTo(props, n - 1);
      var p := props[n - 1];
      if m.None? || p.name.None? || p.value.None? then None
      else Some(m.value[p.name.value := p.value.value])
  }

  function PropsDict(props: seq<Property>): Option<map<string, string>> {
    PropsUpTo(props, |props|)
  }

  /** The properties loop: one store per property, in order. */
  method FoldProperties(props: seq<Property>) returns (r: Option<map<string, string>>)
    ensures r == PropsDict(props)
  {
    var unstructured: map<string, string> := map[];
    var i := 0;
    while i < |props|
      invariant 0 <= i <= |props|
      invariant PropsUpTo(props, i) == Some(unstructured)
    {
      var prop := props[i];
      if prop.name.None? || prop.value.None? {
        return None;
      }
      unstructured := unstructured[prop.name.value := prop.value.value];
      i := i + 1;
    }
    return Some(unstructured);
  }

  /** The fold has exactly the names of the properties as keys. */
  lemma {:induction false} PropsKeys(props: seq<Property>, n: nat)
    requires n <= |props| && PropsUpTo(props, n).Some?
    ensures forall k :: k in PropsUpTo(props, n).value <==> exists i :: 0 <= i < n && props[i].name == Some(k)
  {
    if n > 0 {
      PropsKeys(props, n - 1);
      var m := PropsUpTo(props, n).value;
      var m' := PropsUpTo(props, n - 1).value;
      var p := props[n - 1];
      assert m == m'[p.name.value := p.value.value];
      forall k
        ensures k in m <==> exists i :: 0 <= i < n && props[i].name == Some(k)
      {
        if k in m && k != p.name.value {
          assert k in m';
          var i :| 0 <= i < n - 1 && props[i].name == Some(k);
          assert 0 <= i < n && props[i].name == Some(k);
        }
        if k == p.name.value {
          assert props[n - 1].name == Some(k);
        }
        if k !in m {
          forall i | 0 <= i < n
            ensures props[i].name != Some(k)
          {
            if i < n - 1 {
              assert props[i].name != Some(k);
            }
          }
        }
      }
    }
  }

  /**
   * Each name holds the value of its last property: a later property
   * overwrites an earlier one of the same name.
   */
  lemma {:induction false} PropsLastWins(props: seq<Property>, n: nat, i: nat)
    requires n <= |props| && PropsUpTo(props, n).Some?
    requires i < n && forall j :: i < j < n ==> props[j].name != props[i].name
    ensures props[i].name.Some? && props[i].name.value in PropsUpTo(props, n).value
    ensures PropsUpTo(props, n).value[props[i].name.value] == props[i].value.value
  {
    if i < n - 1 {
      PropsLastWins(props, n - 1, i);
      assert props[n - 1].name != props[i].name;
    }
  }

  // ---------------------------------------------------------------------
  // Line-item selection

  /** The three book properties are all present and non-empty. */
  predicate IsBook(m: map<string, string>) {
    Truthy(Get(m, CustomTextKey)) && Truthy(Get(m, AddressKey)) && Truthy(Get(m, DeliveryKey))
  }

  /** What one line item contributes: None when it raises, Some([]) when skipped. */
  function ItemBooks<B>(item: LineItem, parse: (string, string) -> Option<B>): (r: Option<seq<BookDetails<B>>>)
    ensures r.Some? ==> |r.value| <= 1
  {
    var props := PropsDict(item.properties);
    if props.None? then None
    else if !IsBook(props.value) then Some([])
    else
      var birth := parse(props.value[DeliveryKey], props.value[AddressKey]);
      if birth.None? then None
      else Some([BookDetails(LineItemId(item.id), props.value[CustomTextKey], birth.value)])
  }

  /** The books of the first n line items, in order; None once one raises. */
  function BooksUpTo<B>(items: seq<LineItem>, n: nat, parse: (string, string) -> Option<B>): (r: Option<seq<BookDetails<B>>>)
    requires n <= |items|
    ensures r.Some? ==> |r.value| <= n
  {
    if n == 0 then Some([])
    else
      var before := BooksUpTo(items, n - 1, parse);
      var here := ItemBooks(items[n - 1], parse);
      if before.None? || here.None? then None else Some(before.value + here.value)
  }

  /** The body of the line-item loop for one item: its properties, the book check and the parse. */
  method ProcessLineItem<B>(lineItem: LineItem, parse: (string, string) -> Option<B>)
    returns (r: Option<seq<BookDetails<B>>>)
    ensures r == ItemBooks(lineItem, parse)
  {
    var lineItemId := LineItemId(lineItem.id);
    var props := FoldProperties(lineItem.properties);
    if props.None? {
      return None;
    }
    var unstructured := props.value;
    if !IsBook(unstructured) {
      return Some([]);
    }
    var birth := parse(unstructured[DeliveryKey], unstructured[AddressKey]);
    if birth.None? {
      return None;
    }
    return Some([BookDetails(lineItemId, unstructured[CustomTextKey], birth.value)]);
  }

  /** The line-item loop: skip non-books, parse each book, append in order. */
  method CollectBooks<B>(items: seq<LineItem>, parse: (string, string) -> Option<B>)
    returns (r: Option<seq<BookDetails<B>>>)
    ensures r == BooksUpTo(items, |items|, parse)
  {
    var books: seq<BookDetails<B>> := [];
    var i := 0;
    while i < |items|
      invariant 0 <= i <= |items|
      invariant BooksUpTo(items, i, parse) == Some(books)
    {
      var here := ProcessLineItem(items[i], parse);
      if here.None? {
        FailureStays(items, i + 1, |items|, parse);
        return None;
      }
      books := books + here.value;
      i := i + 1;
    }
    return Some(books);
  }

  /** Once a line item raises, the handler never gets past it. */
  lemma {:induction false} FailureStays<B>(items: seq<LineItem>, i: nat, n: nat, parse: (string, string) -> Option<B>)
    requires i <= n <= |items| && BooksUpTo(items, i, parse).None?
    ensures BooksUpTo(items, n, parse).None?
    decreases n - i
  {
    if i < n {
      FailureStays(items, i, n - 1, parse);
    }
  }

  /** The line items that are books, in order. */
  function BookItems(items: seq<LineItem>): (r: seq<LineItem>)
    ensures |r| <= |items|
  {
    if items == [] then []
    else
      var last := items[|items| - 1];
      var props := PropsDict(last.properties);
      BookItems(items[..|items| - 1]) + (if props.Some? && IsBook(props.value) then [last] else [])
  }

  /**
   * When no line item raises, there is one book per selected line item, in
   * line-item order, carrying its id, its "Custom Text" and the birth data
   * parsed from its "Delivery Date" and "Address".
   */
  lemma {:induction false} BooksFollowLineItems<B>(items: seq<LineItem>, n: nat, parse: (string, string) -> Option<B>)
    requires n <= |items| && BooksUpTo(items, n, parse).Some?
    ensures var books := BooksUpTo(items, n, parse).value;
      var selected := BookItems(items[..n]);
      && |books| == |selected|
      && forall k :: 0 <= k < |books| ==>
           && PropsDict(selected[k].properties).Some?
           && books[k].lineItemId == LineItemId(selected[k].id)
           && Some(books[k].coverTitle) == Get(PropsDict(selected[k].properties).value, CustomTextKey)
           && DeliveryKey in PropsDict(selected[k].properties).value
           && AddressKey in PropsDict(selected[k].properties).value
           && Some(books[k].birthData) == parse(PropsDict(selected[k].properties).value[DeliveryKey],
                                                PropsDict(selected[k].properties).value[AddressKey])
  {
    if n > 0 {
      BooksFollowLineItems(items, n - 1, parse);
      assert items[..n][..n - 1] == items[..n - 1];
      assert items[..n][n - 1] == items[n - 1];
    }
  }

  /** A selected line item has all three properties present and non-empty. */
  lemma {:induction false} SelectedItemsAreBooks(items: seq<LineItem>, k: nat)
    requires k < |BookItems(items)|
    ensures PropsDict(BookItems(items)[k].properties).Some?
    ensures IsBook(PropsDict(BookItems(items)[k].properties).value)
    decreases |items|
  {
    var before := BookItems(items[..|items| - 1]);
    if k < |before| {
      SelectedItemsAreBooks(items[..|items| - 1], k);
    }
  }

  /** Conversely, every line item that is a book is selected. */
  lemma {:induction false} BookItemsAreSelected(items: seq<LineItem>, j: nat)
    requires j < |items| && PropsDict(items[j].properties).Some?
    requires IsBook(PropsDict(items[j].properties).value)
    ensures items[j] in BookItems(items)
    decreases |items|
  {
    if j < |items| - 1 {
      BookItemsAreSelected(items[..|items| - 1], j);
    }
  }

  // ---------------------------------------------------------------------
  // The handler

  function RawPayloadKey(orderId: string): string {
    "raw-payloads/" + orderId + ".json"
  }

  function S3Path(bucket: string, key: string): string {
    "s3://" + bucket + "/" + key
  }

  /**
   * `lambda_handler` after the body has been decoded. `body` is the raw
   * request body stored in S3; `parse` is the birth-data parser (None when
   * it raises). The returned effects are the writes that succeeded.
   */
  method HandleOrder<B>(body: string, payload: Payload, config: Config, createdAt: string,
                        parse: (string, string) -> Option<B>, services: Services)
    returns (out: Outcome, effects: seq<Effect<B>>)
    ensures payload.id.None? ==> out == Raised("'id'") && effects == []
    ensures payload.id.Some? && BooksUpTo(payload.lineItems, |payload.lineItems|, parse).None? ==>
      out == Response(500, ParsingErrorBody) && effects == []
    ensures payload.id.Some? && BooksUpTo(payload.lineItems, |payload.lineItems|, parse) == Some([]) ==>
      out == Response(200, NoBooksBody) && effects == []
    ensures out == Response(200, "OK") <==>
      && payload.id.Some?
      && BooksUpTo(payload.lineItems, |payload.lineItems|, parse).Some?
      && BooksUpTo(payload.lineItems, |payload.lineItems|, parse).value != []
      && services.s3PutOk && services.dynamoPutOk && services.sqsSendOk
    ensures out == Response(200, "OK") ==>
      var orderId := OrderId(payload.id.value);
      var books := BooksUpTo(payload.lineItems, |payload.lineItems|, parse).value;
      var key := RawPayloadKey(orderId);
      var customer := payload.customer.GetOr(map[]);
      && |effects| == 3
      && effects[0] == PutRawPayload(config.rawPayloadsBucket, key, body)
      && effects[1] == PutOrderRecord(config.ordersTable,
           OrderRecord(orderId, createdAt, ReceivedStatus, |books|, Get(customer, "email"),
                       S3Path(config.rawPayloadsBucket, key)))
      && effects[2] == SendMessage(config.queueUrl,
           CleanPayload(orderId, S3Path(config.rawPayloadsBucket, key), customer,
                        payload.shippingAddress.GetOr(map[]), books))
    ensures out.Response? && out.statusCode != 200 ==> out == Response(500, ParsingErrorBody)
  {
    if payload.id.None? {
      return Raised("'id'"), [];
    }
    var orderId := OrderId(payload.id.value);
    effects := [];

    var collected := CollectBooks(payload.lineItems, parse);
    if collected.None? {
      return Response(500, ParsingErrorBody), effects;
    }
    var books := collected.value;
    if books == [] {
      return Response(200, NoBooksBody), effects;
    }

    var s3Key := RawPayloadKey(orderId);
    if !services.s3PutOk {
      return Response(500, ParsingErrorBody), effects;
    }
    effects := effects + [PutRawPayload(config.rawPayloadsBucket, s3Key, body)];

    var customer := payload.customer.GetOr(map[]);
    var cleanPayload := CleanPayload(orderId, S3Path(config.rawPayloadsBucket, s3Key), customer,
                                     payload.shippingAddress.GetOr(map[]), books);

    var record := OrderRecord(orderId, createdAt, ReceivedStatus, |books|, Get(customer, "email"),
                              cleanPayload.shopifyPayloadS3Path);
    if !services.dynamoPutOk {
      return Response(500, ParsingErrorBody), effects;
    }
    effects := effects + [PutOrderRecord(config.ordersTable, record)];

    if !services.sqsSendOk {
      return Response(500, ParsingErrorBody), effects;
    }
    effects := effects + [SendMessage(config.queueUrl, cleanPayload)];
    return Response(200, "OK"), effects;
  }

  /** The order id is "shpfy_" and the payload id, so distinct ids give distinct orders. */
  lemma {:induction false} OrderIdsDistinct(a: int, b: int)
    requires a != b
    ensures OrderId(a)[..6] == "shpfy_" && OrderId(a) != OrderId(b)
  {
    if OrderId(a) == OrderId(b) {
      assert IntText(a) == OrderId(a)[6..];
      assert IntText(b) == OrderId(b)[6..];
      IntTextInjective(a, b);
    }
  }
}
