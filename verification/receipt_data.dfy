/** The extracted receipt data (`ProcessedReceiptData` and `ReceiptItem`) shared by the
    upload store, the data editor, the receipt-history service and the exporters. */
module ReceiptData {
  import opened Wrappers

  /** One line item; `confidence` is the extraction confidence. */
  datatype LineItem = LineItem(description: string, quantity: real, price: real, confidence: real)

  datatype ProcessedData = ProcessedData(
    merchant: string,
    merchantConfidence: real,
    date: string,
    dateConfidence: real,
    total: real,
    totalConfidence: real,
    subtotal: Option<real>,
    tax: Option<real>,
    items: seq<LineItem>,
    currency: Option<string>,
    category: Option<string>,
    paymentMethod: Option<string>)
}
