/** The receipt exporters of `src/utils/export.service.ts`: the rows of the CSV file, and
    the total, row texts and row placement of the PDF summary. Date formatting, number
    rendering and the file download are not modelled: a formatted date keeps the text it
    was formatted from, and an amount keeps its value. */
module Export {
  import opened Wrappers
  import opened ReceiptData
  import opened ReceiptHistory

  // ---- CSV ----

  /** The Date column: empty, or the extracted date formatted as `yyyy-MM-dd`. */
  datatype DateCell = NoDate | FormattedDate(source: string)

  /** A numeric column that falls back to the empty text. */
  datatype AmountCell = Blank | Amount(value: real)

  datatype CsvRow = CsvRow(
    date: DateCell,
    merchant: string,
    amount: real,
    currency: string,
    category: string,
    paymentMethod: string,
    subtotal: AmountCell,
    tax: AmountCell,
    fileName: string,
    status: BackendStatus,
    createdAt: string)

  /** `x || fallback` on an optional text. */
  function TextOr(s: Option<string>, fallback: string): string {
    if s.Some? && s.value != "" then s.value else fallback
  }

  /** `x || ''` on an optional amount: 0 and a missing amount both give the empty cell. */
  function AmountOrBlank(x: Option<real>): (c: AmountCell)
    ensures c.Amount? <==> x.Some? && x.value != 0.0
    ensures c.Amount? ==> c.value == x.value
  {
    if x.Some? && x.value != 0.0 then Amount(x.value) else Blank
  }

  /** One receipt's CSV row. */
  function CsvRowOf(r: StoredReceipt): (row: CsvRow)
    ensures row.fileName == r.fileName && row.status == r.status && row.createdAt == r.createdAt
    ensures r.processedData.None? ==>
      row == CsvRow(NoDate, "", 0.0, "$", "", "", Blank, Blank, r.fileName, r.status, r.createdAt)
    ensures r.processedData.Some? ==>
      var d := r.processedData.value;
      && row.amount == d.total
      && (row.merchant == "" <==> d.merchant == "")
      && (d.merchant != "" ==> row.merchant == d.merchant)
      && (row.date == NoDate <==> d.date == "")
      && (d.date != "" ==> row.date == FormattedDate(d.date))
      && row.currency == TextOr(d.currency, "$")
      && row.category == TextOr(d.category, "")
      && row.paymentMethod == TextOr(d.paymentMethod, "")
      && row.subtotal == AmountOrBlank(d.subtotal)
      && row.tax == AmountOrBlank(d.tax)
  {
    match r.processedData
    case None => CsvRow(NoDate, "", 0.0, "$", "", "", Blank, Blank, r.fileName, r.status, r.createdAt)
    case Some(d) =>
      CsvRow(
        if d.date != "" then FormattedDate(d.date) else NoDate,
        d.merchant,
        d.total,
        TextOr(d.currency, "$"),
        TextOr(d.category, ""),
        TextOr(d.paymentMethod, ""),
        AmountOrBlank(d.subtotal),
        AmountOrBlank(d.tax),
        r.fileName, r.status, r.createdAt)
  }

  /** `receipts.map(...)`: one row per receipt, in order. */
  function CsvRows(receipts: seq<StoredReceipt>): (rows: seq<CsvRow>)
    ensures |rows| == |receipts|
    ensures forall i :: 0 <= i < |receipts| ==> rows[i] == CsvRowOf(receipts[i])
  {
    seq(|receipts|, i requires 0 <= i < |receipts| => CsvRowOf(receipts[i]))
  }

  /** The row of each receipt names that receipt's file, so no receipt is lost or repeated. */
  lemma CsvRowsFollowReceipts(receipts: seq<StoredReceipt>)
    ensures forall i :: 0 <= i < |receipts| ==> CsvRows(receipts)[i].fileName == receipts[i].fileName
    ensures forall i :: 0 <= i < |receipts| && receipts[i].processedData.Some? ==>
      CsvRows(receipts)[i].amount == receipts[i].processedData.value.total
  {
  }

  // ---- PDF ----

  /** A receipt's contribution to the total: its total, or 0 without extracted data. */
  function TotalOrZero(r: StoredReceipt): real {
    if r.processedData.Some? then r.processedData.value.total else 0.0
  }

  /** `receipts.reduce((sum, r) => sum + (r.processedData?.total || 0), 0)` */
  function PdfTotal(receipts: seq<StoredReceipt>): real {
    if receipts == [] then 0.0
    else PdfTotal(receipts[..|receipts| - 1]) + TotalOrZero(receipts[|receipts| - 1])
  }

  /** The total of a concatenation is the sum of the totals. */
  lemma {:induction false} PdfTotalAppend(a: seq<StoredReceipt>, b: seq<StoredReceipt>)
    ensures PdfTotal(a + b) == PdfTotal(a) + PdfTotal(b)
    decreases |b|
  {
    if b != [] {
      assert (a + b)[..|a + b| - 1] == a + b[..|b| - 1];
      PdfTotalAppend(a, b[..|b| - 1]);
    } else {
      assert a + b == a;
    }
  }

  /** Receipts without extracted data add nothing, and non-negative totals give a
      non-negative sum. */
  lemma {:induction false} PdfTotalBounds(receipts: seq<StoredReceipt>)
    ensures (forall i :: 0 <= i < |receipts| ==> receipts[i].processedData.None?) ==> PdfTotal(receipts) == 0.0
    ensures (forall i :: 0 <= i < |receipts| ==> TotalOrZero(receipts[i]) >= 0.0) ==> PdfTotal(receipts) >= 0.0
    decreases |receipts|
  {
    if receipts != [] {
      var init := receipts[..|receipts| - 1];
      PdfTotalBounds(init);
      assert forall i :: 0 <= i < |init| ==> init[i] == receipts[i];
    }
  }

  /** `text.length > limit ? text.substring(0, keep) + '...' : text` */
  function Truncate(text: string, limit: nat, keep: nat): (r: string)
    requires keep < limit
    ensures |text| <= limit ==> r == text
    ensures |text| > limit ==> r == text[..keep] + "..." && |r| == keep + 3
  {
    if |text| > limit then text[..keep] + "..." else text
  }

  /** The Amount column: `$` and the total to two places, or '$0.00' when the total is
      missing or zero. */
  datatype AmountText = Dollars(value: real)

  /** The texts of one PDF row; a missing date prints as 'N/A'. */
  datatype PdfRow = PdfRow(date: DateCell, merchant: string, category: string, amount: AmountText)

  const MerchantWidth: nat := 25
  const CategoryWidth: nat := 15

  function PdfRowOf(r: StoredReceipt): (row: PdfRow)
    ensures |row.merchant| <= MerchantWidth && |row.category| <= CategoryWidth
    ensures r.processedData.None? ==> row == PdfRow(NoDate, "Unknown", "N/A", Dollars(0.0))
    ensures r.processedData.Some? ==>
      var d := r.processedData.value;
      && (d.merchant == "" ==> row.merchant == "Unknown")
      && (0 < |d.merchant| <= MerchantWidth ==> row.merchant == d.merchant)
      && (|d.merchant| > MerchantWidth ==> row.merchant == d.merchant[..22] + "...")
      && row.amount == Dollars(d.total)
      && row.category == Truncate(TextOr(d.category, "N/A"), CategoryWidth, 12)
      && row.date == (if d.date != "" then FormattedDate(d.date) else NoDate)
  {
    var merchant := if r.processedData.Some? && r.processedData.value.merchant != "" then r.processedData.value.merchant else "Unknown";
    var category := if r.processedData.Some? then TextOr(r.processedData.value.category, "N/A") else "N/A";
    var date := if r.processedData.Some? && r.processedData.value.date != "" then FormattedDate(r.processedData.value.date) else NoDate;
    var amount := if r.processedData.Some? && r.processedData.value.total != 0.0 then Dollars(r.processedData.value.total) else Dollars(0.0);
    PdfRow(date, Truncate(merchant, MerchantWidth, 22), Truncate(category, CategoryWidth, 12), amount)
  }

  /** Where a row is printed: the page (0 is the first) and the distance from its top. */
  datatype Placement = Placement(page: nat, y: real)

  const Margin: real := 20.0
  const RowHeight: real := 7.0
  /** The first row's height on the first page, below the title, date, totals and header. */
  const FirstRowY: real := 77.0

  /** Where the row after `prev` goes: 7 lower on the same page, unless that position is
      past the bottom margin, in which case at the top margin of the next page. */
  function NextPlacement(prev: Placement, pageHeight: real): (next: Placement)
    ensures next.page == prev.page + 1 <==> prev.y + RowHeight > pageHeight - Margin
    ensures next.page != prev.page + 1 ==> next == Placement(prev.page, prev.y + RowHeight)
    ensures next.page == prev.page + 1 ==> next.y == Margin
  {
    if prev.y + RowHeight > pageHeight - Margin then Placement(prev.page + 1, Margin)
    else Placement(prev.page, prev.y + RowHeight)
  }

  /** Where the first row goes: below the title block, or at the top of the second page
      when the title block already reaches the bottom margin. */
  function FirstPlacement(pageHeight: real): Placement {
    if FirstRowY > pageHeight - Margin then Placement(1, Margin) else Placement(0, FirstRowY)
  }

  predicate Follows(prev: Placement, next: Placement, pageHeight: real) {
    next == NextPlacement(prev, pageHeight)
  }

  /** Where a single row may be printed: not above the top margin, not below the bottom
      margin of a page at least 40 high, and on the first page below the title block. */
  predicate RowInPage(p: Placement, pageHeight: real) {
    && Margin <= p.y
    && (pageHeight >= 2.0 * Margin ==> p.y <= pageHeight - Margin)
    && (p.page == 0 ==> p.y >= FirstRowY)
  }

  /** Every row is well placed and follows the row before it. */
  predicate WellPlaced(ps: seq<Placement>, pageHeight: real) {
    && (forall i :: 0 <= i < |ps| ==> RowInPage(ps[i], pageHeight))
    && (ps != [] ==> ps[0] == FirstPlacement(pageHeight))
    && (forall i :: 0 < i < |ps| ==> Follows(ps[i - 1], ps[i], pageHeight))
  }

  lemma WellPlacedAppend(ps: seq<Placement>, p: Placement, pageHeight: real)
    requires WellPlaced(ps, pageHeight) && RowInPage(p, pageHeight)
    requires ps == [] ==> p == FirstPlacement(pageHeight)
    requires ps != [] ==> Follows(ps[|ps| - 1], p, pageHeight)
    ensures WellPlaced(ps + [p], pageHeight)
  {
    var qs := ps + [p];
    forall i | 0 <= i < |qs| ensures RowInPage(qs[i], pageHeight) {
      if i < |ps| {
        assert qs[i] == ps[i];
      }
    }
    forall i | 0 < i < |qs| ensures Follows(qs[i - 1], qs[i], pageHeight) {
      if i < |ps| {
        assert qs[i - 1] == ps[i - 1] && qs[i] == ps[i];
      }
    }
  }

  /** The vertical layout of `exportToPDF`: the title block advances the position to the
      first row, then each row is printed, moving to a fresh page first when the position
      is past the bottom margin. */
  method PlaceRows(rowCount: nat, pageHeight: real) returns (placements: seq<Placement>)
    ensures |placements| == rowCount
    ensures forall i :: 0 <= i < |placements| ==> Margin <= placements[i].y
    ensures pageHeight >= 2.0 * Margin ==>
      forall i :: 0 <= i < |placements| ==> placements[i].y <= pageHeight - Margin
    ensures forall i :: 0 <= i < |placements| && placements[i].page == 0 ==> placements[i].y >= FirstRowY
    ensures rowCount > 0 ==>
      placements[0] == (if FirstRowY > pageHeight - Margin then Placement(1, Margin) else Placement(0, FirstRowY))
    ensures forall i :: 0 < i < |placements| ==>
      (placements[i].page == placements[i - 1].page + 1 <==> placements[i - 1].y + RowHeight > pageHeight - Margin)
    ensures forall i :: 0 < i < |placements| ==>
      || (placements[i].page == placements[i - 1].page && placements[i].y == placements[i - 1].y + RowHeight)
      || (placements[i].page == placements[i - 1].page + 1 && placements[i].y == Margin)
  {
    var y := Margin;
    y := y + 10.0;        // title
    y := y + 15.0;        // generation date
    y := y + 7.0;         // receipt count
    y := y + 15.0;        // total amount; the header row is printed here
    y := y + 2.0;         // rule under the header
    y := y + 8.0;
    var page: nat := 0;
    placements := [];
    while |placements| < rowCount
      invariant |placements| <= rowCount
      invariant Margin + RowHeight <= y
      invariant page == 0 ==> y >= FirstRowY
      invariant placements == [] ==> page == 0 && y == FirstRowY
      invariant placements != [] ==> placements[|placements| - 1] == Placement(page, y - RowHeight)
      invariant WellPlaced(placements, pageHeight)
    {
      if y > pageHeight - Margin {
        page := page + 1;
        y := Margin;
      }
      WellPlacedAppend(placements, Placement(page, y), pageHeight);
      placements := placements + [Placement(page, y)];
      y := y + RowHeight;
    }
    assert forall i :: 0 <= i < |placements| ==> RowInPage(placements[i], pageHeight);
    assert forall i :: 0 < i < |placements| ==> Follows(placements[i - 1], placements[i], pageHeight);
  }
}
