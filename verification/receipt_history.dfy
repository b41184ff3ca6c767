/** The receipt-history service of `src/services/receipt-history.service.ts`: converting
    backend receipts to stored receipts, building the list query, the request bodies that
    carry line items, and the per-category statistics. */
module ReceiptHistory {
  import opened Wrappers
  import opened ReceiptData
  import opened Api
  import opened Text

  /** `PAGE_SIZE` */
  const PageSize: int := 20

  datatype BackendLineItem = BackendLineItem(description: string, quantity: real, unitPrice: real, total: real)

  datatype BackendStatus = Pending | Processing | Completed | Failed

  /** A receipt as the backend sends it; the optional fields may be missing. Dates stay as
      the backend's text. */
  datatype BackendReceipt = BackendReceipt(
    id: string,
    userId: string,
    imageUrl: string,
    thumbnailUrl: Option<string>,
    fileName: string,
    merchant: Option<string>,
    date: Option<string>,
    total: Option<real>,
    subtotal: Option<real>,
    tax: Option<real>,
    currency: Option<string>,
    category: Option<string>,
    lineItems: Option<seq<BackendLineItem>>,
    status: BackendStatus,
    createdAt: string,
    updatedAt: string,
    error: Option<string>)

  /** A receipt as the rest of the application keeps it. */
  datatype StoredReceipt = StoredReceipt(
    id: string,
    userId: string,
    imageUrl: string,
    thumbnailUrl: Option<string>,
    fileName: string,
    processedData: Option<ProcessedData>,
    status: BackendStatus,
    createdAt: string,
    updatedAt: string,
    error: Option<string>)

  /** `lineItems.map(item => ({ description, quantity, price: unitPrice, confidence: 1 }))` */
  function ToStoredItems(lineItems: seq<BackendLineItem>): seq<LineItem> {
    if lineItems == [] then []
    else [LineItem(lineItems[0].description, lineItems[0].quantity, lineItems[0].unitPrice, 1.0)]
         + ToStoredItems(lineItems[1..])
  }

  lemma {:induction false} ToStoredItemsAt(lineItems: seq<BackendLineItem>, i: int)
    requires 0 <= i < |lineItems|
    ensures |ToStoredItems(lineItems)| == |lineItems|
    ensures ToStoredItems(lineItems)[i]
         == LineItem(lineItems[i].description, lineItems[i].quantity, lineItems[i].unitPrice, 1.0)
  {
    if i > 0 {
      ToStoredItemsAt(lineItems[1..], i - 1);
    } else if |lineItems| > 1 {
      ToStoredItemsAt(lineItems[1..], 0);
    }
  }

  /** The extracted data of a backend receipt, present only when it names a merchant. */
  function ToProcessedData(b: BackendReceipt): Option<ProcessedData> {
    if Truthy(b.merchant) then
      Some(ProcessedData(
        b.merchant.value, 1.0,
        b.date.GetOr(""), 1.0,
        b.total.GetOr(0.0), 1.0,
        b.subtotal, b.tax,
        ToStoredItems(b.lineItems.GetOr([])),
        b.currency, b.category,
        None))
    else None
  }

  /** `backendToStoredReceipt` */
  function BackendToStoredReceipt(b: BackendReceipt): (s: StoredReceipt)
    ensures s.processedData.Some? <==> b.merchant.Some? && b.merchant.value != ""
    ensures s.id == b.id && s.userId == b.userId && s.imageUrl == b.imageUrl
    ensures s.thumbnailUrl == b.thumbnailUrl && s.fileName == b.fileName
    ensures s.status == b.status && s.error == b.error
    ensures s.createdAt == b.createdAt && s.updatedAt == b.updatedAt
  {
    StoredReceipt(b.id, b.userId, b.imageUrl, b.thumbnailUrl, b.fileName, ToProcessedData(b),
                  b.status, b.createdAt, b.updatedAt, b.error)
  }

  /** The defaults the conversion fills in: a missing total is 0, a missing date is empty,
      the three confidences are 1, and the items follow `lineItems` one for one. */
  lemma ConvertedDataDefaults(b: BackendReceipt)
    requires Truthy(b.merchant)
    ensures var d := BackendToStoredReceipt(b).processedData.value;
      && d.merchant == b.merchant.value
      && (b.total.None? ==> d.total == 0.0) && (b.total.Some? ==> d.total == b.total.value)
      && (b.date.None? ==> d.date == "") && (b.date.Some? ==> d.date == b.date.value)
      && d.merchantConfidence == 1.0 && d.dateConfidence == 1.0 && d.totalConfidence == 1.0
      && d.subtotal == b.subtotal && d.tax == b.tax
      && d.currency == b.currency && d.category == b.category
      && |d.items| == (if b.lineItems.Some? then |b.lineItems.value| else 0)
  {
    if b.lineItems.Some? && b.lineItems.value != [] {
      ToStoredItemsAt(b.lineItems.value, 0);
    }
  }

  /** Each converted item takes the backend item's description, quantity and unit price,
      with confidence 1. */
  lemma ConvertedItemAt(b: BackendReceipt, i: int)
    requires Truthy(b.merchant) && b.lineItems.Some? && 0 <= i < |b.lineItems.value|
    ensures var items := BackendToStoredReceipt(b).processedData.value.items;
      |items| == |b.lineItems.value| &&
      items[i] == LineItem(b.lineItems.value[i].description, b.lineItems.value[i].quantity,
                           b.lineItems.value[i].unitPrice, 1.0)
  {
    ToStoredItemsAt(b.lineItems.value, i);
  }

  // ---- the list query ----

  datatype SortOptions = SortOptions(field: string, direction: string)

  /** `ReceiptFilters`; dates are instants in milliseconds. */
  datatype ReceiptFilters = ReceiptFilters(
    category: Option<string>,
    dateFrom: Option<int>,
    dateTo: Option<int>,
    search: Option<string>,
    minAmount: Option<real>,
    maxAmount: Option<real>)

  datatype GetReceiptsOptions = GetReceiptsOptions(
    filters: Option<ReceiptFilters>,
    sort: Option<SortOptions>,
    pageSize: Option<int>,
    startAfter: Option<string>)

  const NoFilters: ReceiptFilters := ReceiptFilters(None, None, None, None, None, None)
  const DefaultSort: SortOptions := SortOptions("createdAt", "desc")

  /** The parameters of the list request. The first three are always sent; an optional
      one that is `None` is not sent at all. */
  datatype ReceiptQuery = ReceiptQuery(
    limit: ParamValue,
    sortBy: ParamValue,
    sortOrder: ParamValue,
    startAfter: Option<ParamValue>,
    category: Option<ParamValue>,
    startDate: Option<ParamValue>,
    endDate: Option<ParamValue>,
    search: Option<ParamValue>,
    minAmount: Option<ParamValue>,
    maxAmount: Option<ParamValue>)

  /** The query parameters of `getReceipts`, built by successive conditional assignments:
      the three paging and sorting parameters always, each filter only when it is set, and
      the amount bounds whenever they are defined, 0 included. */
  method ReceiptQueryParams(options: GetReceiptsOptions) returns (params: ReceiptQuery)
    ensures var sort := options.sort.GetOr(DefaultSort);
      && params.limit == Text(IntToString(options.pageSize.GetOr(PageSize)))
      && params.sortBy == Text(sort.field)
      && params.sortOrder == Text(sort.direction)
    ensures params.startAfter.Some? <==> Truthy(options.startAfter)
    ensures params.startAfter.Some? ==> params.startAfter.value == Text(options.startAfter.value)
    ensures var f := options.filters.GetOr(NoFilters);
      && (params.category.Some? <==> Truthy(f.category))
      && (params.category.Some? ==> params.category.value == Text(f.category.value))
      && (params.startDate.Some? <==> f.dateFrom.Some?)
      && (params.startDate.Some? ==> params.startDate.value == IsoDate(f.dateFrom.value))
      && (params.endDate.Some? <==> f.dateTo.Some?)
      && (params.endDate.Some? ==> params.endDate.value == IsoDate(f.dateTo.value))
      && (params.search.Some? <==> Truthy(f.search))
      && (params.search.Some? ==> params.search.value == Text(f.search.value))
      && (params.minAmount.Some? <==> f.minAmount.Some?)
      && (params.minAmount.Some? ==> params.minAmount.value == Number(f.minAmount.value))
      && (params.maxAmount.Some? <==> f.maxAmount.Some?)
      && (params.maxAmount.Some? ==> params.maxAmount.value == Number(f.maxAmount.value))
  {
    var filters := options.filters.GetOr(NoFilters);
    var sort := options.sort.GetOr(DefaultSort);
    var pageSize := options.pageSize.GetOr(PageSize);
    params := ReceiptQuery(Text(IntToString(pageSize)), Text(sort.field), Text(sort.direction),
                           None, None, None, None, None, None, None);
    if Truthy(options.startAfter) {
      params := params.(startAfter := Some(Text(options.startAfter.value)));
    }
    if Truthy(filters.category) {
      params := params.(category := Some(Text(filters.category.value)));
    }
    if filters.dateFrom.Some? {
      params := params.(startDate := Some(IsoDate(filters.dateFrom.value)));
    }
    if filters.dateTo.Some? {
      params := params.(endDate := Some(IsoDate(filters.dateTo.value)));
    }
    if Truthy(filters.search) {
      params := params.(search := Some(Text(filters.search.value)));
    }
    if filters.minAmount.Some? {
      params := params.(minAmount := Some(Number(filters.minAmount.value)));
    }
    if filters.maxAmount.Some? {
      params := params.(maxAmount := Some(Number(filters.maxAmount.value)));
    }
  }

  /** With no options, the query asks for the first 20 receipts, newest first. */
  method DefaultQuery() returns (params: ReceiptQuery)
    ensures params == ReceiptQuery(Text("20"), Text("createdAt"), Text("desc"), None, None, None, None, None, None, None)
  {
    params := ReceiptQueryParams(GetReceiptsOptions(None, None, None, None));
    assert NatToString(2) == "2";
    assert IntToString(20) == NatToString(2) + [DigitChar(0)] == "20";
  }

  datatype ReceiptsPage = ReceiptsPage(receipts: seq<BackendReceipt>, lastId: Option<string>, hasMore: bool)

  datatype GetReceiptsResult = GetReceiptsResult(receipts: seq<StoredReceipt>, lastId: Option<string>, hasMore: bool)

  function ToStoredReceipts(bs: seq<BackendReceipt>): (ss: seq<StoredReceipt>)
    ensures |ss| == |bs|
    ensures forall i :: 0 <= i < |bs| ==> ss[i] == BackendToStoredReceipt(bs[i])
  {
    if bs == [] then [] else [BackendToStoredReceipt(bs[0])] + ToStoredReceipts(bs[1..])
  }

  /** What `getReceipts` makes of the backend's answer: an error unless it succeeded,
      otherwise every receipt converted, in order, with the paging cursor passed through. */
  function GetReceiptsResponse(response: ApiResponse<ReceiptsPage>): (r: Result<GetReceiptsResult>)
    ensures !Succeeded(response) <==> r == Err("Failed to fetch receipts")
    ensures r.Ok? ==>
      && r.value.lastId == response.data.value.lastId
      && r.value.hasMore == response.data.value.hasMore
      && r.value.receipts == ToStoredReceipts(response.data.value.receipts)
  {
    if !Succeeded(response) then Err("Failed to fetch receipts")
    else
      var page := response.data.value;
      Ok(GetReceiptsResult(ToStoredReceipts(page.receipts), page.lastId, page.hasMore))
  }

  /** `getReceipt`: the converted receipt, or nothing when the answer is not a success. */
  function GetReceiptResponse(response: ApiResponse<BackendReceipt>): (r: Option<StoredReceipt>)
    ensures r.Some? <==> Succeeded(response)
    ensures r.Some? ==> r.value == BackendToStoredReceipt(response.data.value)
    ensures r.Some? ==> r.value.id == response.data.value.id
  {
    if Succeeded(response) then Some(BackendToStoredReceipt(response.data.value)) else None
  }

  // ---- request bodies ----

  /** An item as sent to the backend. */
  datatype OutgoingLineItem = OutgoingLineItem(description: string, quantity: real, unitPrice: real, total: real)

  /** A property of a request body; `Undefined` is a property assigned `undefined`, which
      the JSON encoding then drops. */
  datatype BodyValue = Str(s: string) | Num(n: real) | Undefined | LineItems(items: seq<OutgoingLineItem>)

  /** The properties of the two request bodies, named as on the wire. */
  datatype BodyKey = ImageUrl | FileName | Merchant | Date | Total | Subtotal | Tax | Currency
                   | CategoryName | LineItemsKey

  function OptStr(o: Option<string>): BodyValue {
    if o.Some? then Str(o.value) else Undefined
  }

  function OptNum(o: Option<real>): BodyValue {
    if o.Some? then Num(o.value) else Undefined
  }

  /** `items.map(item => ({ description, quantity, unitPrice: price, total: price * quantity }))` */
  function ToOutgoingItems(items: seq<LineItem>): seq<OutgoingLineItem> {
    if items == [] then []
    else [OutgoingLineItem(items[0].description, items[0].quantity, items[0].price, items[0].price * items[0].quantity)]
         + ToOutgoingItems(items[1..])
  }

  /** Each outgoing item carries the line total `price * quantity`. */
  lemma {:induction false} ToOutgoingItemsAt(items: seq<LineItem>, i: int)
    requires 0 <= i < |items|
    ensures |ToOutgoingItems(items)| == |items|
    ensures ToOutgoingItems(items)[i]
         == OutgoingLineItem(items[i].description, items[i].quantity, items[i].price, items[i].price * items[i].quantity)
  {
    if i > 0 {
      ToOutgoingItemsAt(items[1..], i - 1);
    } else if |items| > 1 {
      ToOutgoingItemsAt(items[1..], 0);
    }
  }

  /** The backend's items read back into the editor's items keep description, quantity and
      price; only the confidence becomes 1. */
  lemma {:induction false} LineItemsRoundTrip(items: seq<LineItem>)
    ensures var back := ToStoredItems(Backward(ToOutgoingItems(items)));
      |back| == |items| &&
      forall i :: 0 <= i < |items| ==> back[i] == items[i].(confidence := 1.0)
  {
    if items != [] {
      LineItemsRoundTrip(items[1..]);
    }
  }

  /** The backend stores an outgoing item as a backend item of the same fields. */
  function Backward(out: seq<OutgoingLineItem>): seq<BackendLineItem> {
    if out == [] then []
    else [BackendLineItem(out[0].description, out[0].quantity, out[0].unitPrice, out[0].total)] + Backward(out[1..])
  }

  /** The body of `createReceipt`. */
  method CreateReceiptBody(imageUrl: string, fileName: string, processedData: Option<ProcessedData>)
    returns (body: map<BodyKey, BodyValue>)
    ensures ImageUrl in body && body[ImageUrl] == Str(imageUrl)
    ensures FileName in body && body[FileName] == Str(fileName)
    ensures processedData.None? ==> body.Keys == {ImageUrl, FileName}
    ensures processedData.Some? ==> DataProperties(body, processedData.value)
  {
    body := map[ImageUrl := Str(imageUrl), FileName := Str(fileName)];
    if processedData.Some? {
      var d := processedData.value;
      body := body[Merchant := Str(d.merchant)];
      body := body[Date := Str(d.date)];
      body := body[Total := Num(d.total)];
      body := body[Subtotal := OptNum(d.subtotal)];
      body := body[Tax := OptNum(d.tax)];
      body := body[Currency := OptStr(d.currency)];
      body := body[CategoryName := OptStr(d.category)];
      if |d.items| > 0 {
        body := body[LineItemsKey := LineItems(ToOutgoingItems(d.items))];
      }
    }
  }

  /** The extracted fields as both bodies carry them: the seven scalar fields always
      (`Undefined` when absent), and the items only when there is at least one. */
  predicate DataProperties(body: map<BodyKey, BodyValue>, d: ProcessedData) {
    && Merchant in body && body[Merchant] == Str(d.merchant)
    && Date in body && body[Date] == Str(d.date)
    && Total in body && body[Total] == Num(d.total)
    && Subtotal in body && body[Subtotal] == OptNum(d.subtotal)
    && Tax in body && body[Tax] == OptNum(d.tax)
    && Currency in body && body[Currency] == OptStr(d.currency)
    && CategoryName in body && body[CategoryName] == OptStr(d.category)
    && (LineItemsKey in body <==> d.items != [])
    && (LineItemsKey in body ==> body[LineItemsKey] == LineItems(ToOutgoingItems(d.items)))
  }

  /** The body of `updateProcessedData`. */
  method ProcessedDataUpdates(d: ProcessedData) returns (updates: map<BodyKey, BodyValue>)
    ensures DataProperties(updates, d)
    ensures ImageUrl !in updates && FileName !in updates
  {
    updates := map[Merchant := Str(d.merchant), Date := Str(d.date), Total := Num(d.total),
                   Subtotal := OptNum(d.subtotal), Tax := OptNum(d.tax),
                   Currency := OptStr(d.currency), CategoryName := OptStr(d.category)];
    if |d.items| > 0 {
      updates := updates[LineItemsKey := LineItems(ToOutgoingItems(d.items))];
    }
  }

  /** Creating and updating send the extracted data identically. */
  method SameDataInBothBodies(imageUrl: string, fileName: string, d: ProcessedData)
    returns (created: map<BodyKey, BodyValue>, updated: map<BodyKey, BodyValue>)
    ensures created == updated + map[ImageUrl := Str(imageUrl), FileName := Str(fileName)]
  {
    created := CreateReceiptBody(imageUrl, fileName, Some(d));
    updated := ProcessedDataUpdates(d);
    var expected := updated + map[ImageUrl := Str(imageUrl), FileName := Str(fileName)];
    forall k ensures k in created <==> k in expected {
      match k
      case LineItemsKey =>
      case _ =>
    }
    forall k | k in created ensures created[k] == expected[k] {
      match k
      case LineItemsKey =>
      case _ =>
    }
  }

  // ---- statistics ----

  datatype BackendCategoryStat = BackendCategoryStat(amount: real, count: int)

  datatype CategoryStat = CategoryStat(count: int, total: real)

  /** The keys of a JavaScript object, in insertion order, are distinct. */
  predicate DistinctKeys<V>(entries: seq<(string, V)>) {
    forall i, j :: 0 <= i < j < |entries| ==> entries[i].0 != entries[j].0
  }

  /** The `byCategory` record of `getStatistics`, as its entries in insertion order: the
      backend's categories, each with `amount` renamed `total`; empty when the backend
      sends none. */
  method RenameCategoryStats(byCategory: Option<seq<(string, BackendCategoryStat)>>)
    returns (out: seq<(string, CategoryStat)>)
    requires byCategory.Some? ==> DistinctKeys(byCategory.value)
    ensures byCategory.None? ==> out == []
    ensures byCategory.Some? ==>
      && |out| == |byCategory.value|
      && forall i :: 0 <= i < |out| ==>
           out[i] == (byCategory.value[i].0, CategoryStat(byCategory.value[i].1.count, byCategory.value[i].1.amount))
    ensures DistinctKeys(out)
  {
    out := [];
    if byCategory.Some? {
      var entries := byCategory.value;
      for i := 0 to |entries|
        invariant |out| == i
        invariant forall j :: 0 <= j < i ==>
          out[j] == (entries[j].0, CategoryStat(entries[j].1.count, entries[j].1.amount))
      {
        var (category, data) := entries[i];
        out := out + [(category, CategoryStat(data.count, data.amount))];
      }
    }
  }

  /** One backend entry with `amount` renamed `total`. */
  function Renamed(entry: (string, BackendCategoryStat)): (string, CategoryStat) {
    (entry.0, CategoryStat(entry.1.count, entry.1.amount))
  }

  /** The entries of `byCategory` as the code builds it, by assignment into `{}`: assigning
      to the key "__proto__" runs the inherited setter, which replaces the record's
      prototype and adds no entry, so that category is lost. */
  function StatsByCategoryAsWritten(entries: seq<(string, BackendCategoryStat)>): (r: seq<(string, CategoryStat)>)
    ensures |r| <= |entries|
    ensures forall j :: 0 <= j < |r| ==> r[j].0 != "__proto__"
    ensures forall i :: 0 <= i < |entries| && entries[i].0 != "__proto__" ==> Renamed(entries[i]) in r
    ensures (forall i :: 0 <= i < |entries| ==> entries[i].0 != "__proto__") ==>
      |r| == |entries| && forall i :: 0 <= i < |entries| ==> r[i] == Renamed(entries[i])
  {
    if entries == [] then []
    else
      var init := entries[..|entries| - 1];
      var last := entries[|entries| - 1];
      assert forall i :: 0 <= i < |init| ==> init[i] == entries[i];
      if last.0 == "__proto__" then StatsByCategoryAsWritten(init)
      else StatsByCategoryAsWritten(init) + [Renamed(last)]
  }

  /** Nothing is invented: every entry of the record as written is a renamed backend entry
      other than "__proto__". */
  lemma {:induction false} AsWrittenEntriesComeFromBackend(entries: seq<(string, BackendCategoryStat)>)
    ensures forall j :: 0 <= j < |StatsByCategoryAsWritten(entries)| ==>
      exists i :: 0 <= i < |entries| && entries[i].0 != "__proto__"
                  && StatsByCategoryAsWritten(entries)[j] == Renamed(entries[i])
    decreases |entries|
  {
    if entries != [] {
      var init := entries[..|entries| - 1];
      var last := entries[|entries| - 1];
      var rest := StatsByCategoryAsWritten(init);
      var r := StatsByCategoryAsWritten(entries);
      AsWrittenEntriesComeFromBackend(init);
      assert r == if last.0 == "__proto__" then rest else rest + [Renamed(last)];
      forall j | 0 <= j < |r|
        ensures exists i :: 0 <= i < |entries| && entries[i].0 != "__proto__" && r[j] == Renamed(entries[i])
      {
        if j < |rest| {
          assert r[j] == rest[j];
          var i :| 0 <= i < |init| && init[i].0 != "__proto__" && rest[j] == Renamed(init[i]);
          assert entries[i] == init[i];
        } else {
          assert last.0 != "__proto__" && r[j] == Renamed(last);
        }
      }
    } else {
      assert StatsByCategoryAsWritten(entries) == [];
    }
  }

  /** A category named "__proto__" is missing from the record as written, although the
      backend reported it. */
  lemma ProtoCategoryIsDropped(stat: BackendCategoryStat)
    ensures StatsByCategoryAsWritten([("__proto__", stat)]) == []
    ensures StatsByCategoryAsWritten([("Food", stat), ("__proto__", stat)]) == [("Food", CategoryStat(stat.count, stat.amount))]
  {
    assert [("Food", stat), ("__proto__", stat)][..1] == [("Food", stat)];
  }

  datatype BackendStats = BackendStats(totalAmount: real, count: int, byCategory: Option<seq<(string, BackendCategoryStat)>>)

  datatype Statistics = Statistics(totalReceipts: int, totalAmount: real, byCategory: seq<(string, CategoryStat)>, recentTotal: real)

  /** `getStatistics`, given the answers to its two requests (all receipts, and the last
      30 days): the first must succeed; a failed second one counts as 0. */
  method GetStatistics(stats: ApiResponse<BackendStats>, recent: ApiResponse<BackendStats>)
    returns (r: Result<Statistics>)
    requires stats.data.Some? && stats.data.value.byCategory.Some? ==> DistinctKeys(stats.data.value.byCategory.value)
    ensures !Succeeded(stats) <==> r == Err("Failed to fetch statistics")
    ensures r.Ok? ==>
      && r.value.totalReceipts == stats.data.value.count
      && r.value.totalAmount == stats.data.value.totalAmount
      && r.value.recentTotal == (if Succeeded(recent) then recent.data.value.totalAmount else 0.0)
      && (stats.data.value.byCategory.None? ==> r.value.byCategory == [])
      && (stats.data.value.byCategory.Some? ==> |r.value.byCategory| == |stats.data.value.byCategory.value|)
    ensures r.Ok? && stats.data.value.byCategory.Some? ==>
      var bc := stats.data.value.byCategory.value;
      forall i :: 0 <= i < |bc| ==>
        r.value.byCategory[i] == (bc[i].0, CategoryStat(bc[i].1.count, bc[i].1.amount))
    ensures r.Ok? ==> DistinctKeys(r.value.byCategory)
  {
    if !Succeeded(stats) {
      return Err("Failed to fetch statistics");
    }
    var s := stats.data.value;
    var byCategory := RenameCategoryStats(s.byCategory);
    var recentTotal := if Succeeded(recent) then recent.data.value.totalAmount else 0.0;
    r := Ok(Statistics(s.count, s.totalAmount, byCategory, recentTotal));
  }
}
