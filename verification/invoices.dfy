/** The invoice records the API returns and accepts, and the page's view modes. */
module Invoices {
  import opened Wrappers
  import opened JsValues

  /** One item of an invoice as the API carries it. */
  datatype InvoiceItem = InvoiceItem(ProductName: string, Quantity: JsNumber, UnitPrice: JsNumber)

  /** An invoice as fetched; fields the code reads through `||` or `?.` may be missing. */
  datatype Invoice = Invoice(
    InvoiceId: int,
    InvoiceNumber: Option<string>,
    CustomerName: Option<string>,
    InvoiceDate: Option<string>,
    InvoiceItems: Option<seq<InvoiceItem>>)

  /** The values the page stores in its `mode` state besides `null`. */
  datatype Mode = View | Edit | Create
}
