/**
 * The create/edit invoice form: its field rules, the validation effect that
 * gates submit, the prefill from an existing invoice, and the payload that
 * submit builds.
 *
 * The form is modelled in its settled state: every handler ends by running
 * the effects React would run after the re-render (the table reports
 * `itemsvalid`, then the validation effect recomputes `errors` and `isvalid`).
 */
module InvoiceForm {
  import opened Wrappers
  import opened JsValues
  import opened Invoices
  import opened InvoiceTable

  const MaxFieldLength := 50

  const InvoiceNumberRequired := "Invoice Number is required"
  const CustomerNameRequired := "Customer name is required"
  const MaxLengthMessage := "Max 50 characters allowed"
  const InvoiceDateRequired := "Invoice Date is required"
  const ItemsRequired := "At least one invoice item is required"
  const ItemsNeedFixing := "Please fix errors in invoice items"

  /** The `newErrors` object: a key is present exactly when its field has an error. */
  datatype FormErrors = FormErrors(
    invoicenumber: Option<string>,
    customername: Option<string>,
    invoicedate: Option<string>,
    items: Option<string>)

  const NoErrors := FormErrors(None, None, None, None)

  /** `Object.keys(newErrors).length`. */
  function ErrorCount(e: FormErrors): (n: nat)
    ensures n <= 4
    ensures n == 0 <==> e == NoErrors
  {
    (if e.invoicenumber.Some? then 1 else 0) + (if e.customername.Some? then 1 else 0)
    + (if e.invoicedate.Some? then 1 else 0) + (if e.items.Some? then 1 else 0)
  }

  // ---------------------------------------------------------------------
  // Field rules

  /** Invoice number and customer name: required after trimming, then at most 50 characters untrimmed. */
  function TextFieldError(value: string, requiredMessage: string): Option<string> {
    if Trim(value) == [] then Some(requiredMessage)
    else if |value| > MaxFieldLength then Some(MaxLengthMessage)
    else None
  }

  /** The date is required; any non-empty text passes. */
  function DateError(date: string): Option<string> {
    if date == "" then Some(InvoiceDateRequired) else None
  }

  /** The items error: missing rows first, then whatever the table reported. */
  function ItemsError(items: seq<Item>, itemsvalid: bool): Option<string> {
    if |items| == 0 then Some(ItemsRequired)
    else if !itemsvalid then Some(ItemsNeedFixing)
    else None
  }

  /** What the validation effect stores in `errors`. */
  function ErrorsOf(invoicenumber: string, customername: string, invoicedate: string,
                    items: seq<Item>, itemsvalid: bool): FormErrors
  {
    FormErrors(
      TextFieldError(invoicenumber, InvoiceNumberRequired),
      TextFieldError(customername, CustomerNameRequired),
      DateError(invoicedate),
      ItemsError(items, itemsvalid))
  }

  /** The required-then-length rule: which of its three outcomes a value gets. */
  lemma TextFieldRule(value: string, requiredMessage: string)
    requires requiredMessage != MaxLengthMessage
    ensures TextFieldError(value, requiredMessage) == Some(requiredMessage) <==> IsBlank(value)
    ensures TextFieldError(value, requiredMessage) == Some(MaxLengthMessage) <==>
      !IsBlank(value) && |value| > MaxFieldLength
    ensures TextFieldError(value, requiredMessage) == None <==>
      !IsBlank(value) && |value| <= MaxFieldLength
  {
    TrimEmptyIffBlank(value);
  }

  /** A blank value longer than 50 characters reports "required", never the length. */
  lemma RequiredBeforeLength(value: string)
    requires IsBlank(value) && |value| > MaxFieldLength
    ensures TextFieldError(value, InvoiceNumberRequired) == Some(InvoiceNumberRequired)
    ensures TextFieldError(value, CustomerNameRequired) == Some(CustomerNameRequired)
  {
    TrimEmptyIffBlank(value);
  }

  /** The items error is set exactly when the list is empty or the table reported it invalid. */
  lemma ItemsErrorRule(items: seq<Item>, itemsvalid: bool)
    ensures ItemsError(items, itemsvalid) == Some(ItemsRequired) <==> items == []
    ensures ItemsError(items, itemsvalid) == Some(ItemsNeedFixing) <==> items != [] && !itemsvalid
    ensures ItemsError(items, itemsvalid).None? <==> items != [] && itemsvalid
  {
  }

  /** The form is valid exactly when every field rule passes. */
  lemma FormValidIff(invoicenumber: string, customername: string, invoicedate: string,
                     items: seq<Item>, itemsvalid: bool)
    ensures ErrorCount(ErrorsOf(invoicenumber, customername, invoicedate, items, itemsvalid)) == 0 <==>
      !IsBlank(invoicenumber) && |invoicenumber| <= MaxFieldLength &&
      !IsBlank(customername) && |customername| <= MaxFieldLength &&
      invoicedate != "" && items != [] && itemsvalid
  {
    TextFieldRule(invoicenumber, InvoiceNumberRequired);
    TextFieldRule(customername, CustomerNameRequired);
  }

  /** Once the table has reported, the form is valid exactly when the invoice fields
      pass and the line-item list is valid. */
  lemma SettledFormValidIff(invoicenumber: string, customername: string, invoicedate: string,
                            items: seq<Item>)
    ensures ErrorsOf(invoicenumber, customername, invoicedate, items, ItemsValid(items)) == NoErrors <==>
      !IsBlank(invoicenumber) && |invoicenumber| <= MaxFieldLength &&
      !IsBlank(customername) && |customername| <= MaxFieldLength &&
      invoicedate != "" && ItemsValid(items)
  {
    FormValidIff(invoicenumber, customername, invoicedate, items, ItemsValid(items));
  }

  // ---------------------------------------------------------------------
  // Prefill

  /** The four editable fields of the form. */
  datatype Draft = Draft(invoicenumber: string, customername: string, invoicedate: string, items: seq<Item>)

  /** The state after a reset: empty fields and one default row. */
  function EmptyDraft(freshId: int): Draft {
    Draft("", "", "", [DefaultItem(freshId)])
  }

  /** `InvoiceItems.map((it, idx) => ...)`: rows numbered from `firstId`, in order. */
  function PrefillItems(xs: seq<InvoiceItem>, firstId: int): (r: seq<Item>)
    ensures |r| == |xs|
    ensures forall i :: 0 <= i < |xs| ==>
      r[i] == Item(firstId + i, xs[i].ProductName, xs[i].Quantity, xs[i].UnitPrice)
  {
    if xs == [] then []
    else [Item(firstId, xs[0].ProductName, xs[0].Quantity, xs[0].UnitPrice)] + PrefillItems(xs[1..], firstId + 1)
  }

  /** The prefill effect: copy an existing invoice into the form, or reset it. */
  function Prefill(invoice: Option<Invoice>, freshId: int): Draft {
    match invoice
    case None => EmptyDraft(freshId)
    case Some(inv) =>
      Draft(
        inv.InvoiceNumber.GetOr(""),
        inv.CustomerName.GetOr(""),
        match inv.InvoiceDate { case None => "" case Some(d) => PrefixBefore(d, 'T') },
        match inv.InvoiceItems { case None => [DefaultItem(freshId)] case Some(xs) => PrefillItems(xs, 1) })
  }

  /** Prefilled rows get ids 1..n in order and carry the invoice's values. */
  lemma PrefillNumbersItems(inv: Invoice, freshId: int)
    requires inv.InvoiceItems.Some?
    ensures var d := Prefill(Some(inv), freshId);
      var xs := inv.InvoiceItems.value;
      |d.items| == |xs| &&
      forall i :: 0 <= i < |xs| ==>
        Ids(d.items)[i] == i + 1 &&
        d.items[i].productname == xs[i].ProductName &&
        d.items[i].quantity == xs[i].Quantity && d.items[i].unitprice == xs[i].UnitPrice
  {
  }

  /** The prefilled date is the text of `InvoiceDate` before its first "T". */
  lemma PrefillDate(inv: Invoice, freshId: int, date: string)
    requires inv.InvoiceDate == Some(date)
    ensures var d := Prefill(Some(inv), freshId).invoicedate;
      d == date[..|d|] && 'T' !in d && (|d| < |date| ==> date[|d|] == 'T')
  {
  }

  /** Without `InvoiceItems` the form starts from one default row and is therefore invalid;
      an empty `InvoiceItems` array gives no row at all. */
  lemma PrefillMissingItems(inv: Invoice, freshId: int)
    ensures inv.InvoiceItems.None? ==>
      Prefill(Some(inv), freshId).items == [Item(freshId, "", Finite(1.0), Finite(0.0))] &&
      !ItemsValid(Prefill(Some(inv), freshId).items)
    ensures inv.InvoiceItems == Some([]) ==> Prefill(Some(inv), freshId).items == []
  {
    if inv.InvoiceItems.None? {
      AddItemInvalidates([], freshId);
      assert AddItem([], freshId) == [DefaultItem(freshId)];
    }
  }

  /** Without an invoice every field is reset and one default row is started. */
  lemma PrefillNothing(freshId: int)
    ensures Prefill(None, freshId) == Draft("", "", "", [Item(freshId, "", Finite(1.0), Finite(0.0))])
  {
  }

  // ---------------------------------------------------------------------
  // Payload

  /** The body sent to the API. `InvoiceNumber` is optional because edit mode copies it from
      the original invoice, where it may be missing. */
  datatype Payload = Payload(
    InvoiceNumber: Option<string>,
    CustomerName: string,
    InvoiceDate: string,
    InvoiceItems: seq<InvoiceItem>)

  /** `items.map(it => ({ ProductName, Quantity: Number(...), UnitPrice: Number(...) }))`. */
  function PayloadItems(items: seq<Item>): (r: seq<InvoiceItem>)
    ensures |r| == |items|
    ensures forall i :: 0 <= i < |items| ==>
      r[i] == InvoiceItem(items[i].productname, items[i].quantity, items[i].unitprice)
  {
    if items == [] then []
    else [InvoiceItem(items[0].productname, items[0].quantity, items[0].unitprice)] + PayloadItems(items[1..])
  }

  /** Saving an untouched prefilled form sends the original items back. */
  lemma PayloadOfPrefill(xs: seq<InvoiceItem>)
    ensures PayloadItems(PrefillItems(xs, 1)) == xs
  {
  }

  /** Rows numbered 1..n survive a trip through the payload and back unchanged. */
  lemma PrefillOfPayload(items: seq<Item>)
    requires forall i :: 0 <= i < |items| ==> items[i].id == i + 1
    ensures PrefillItems(PayloadItems(items), 1) == items
  {
  }

  /** What pressing submit leads to. */
  datatype SubmitAction =
    | Blocked                                   // the form is invalid: nothing happens
    | ThrowsTypeError                           // edit mode without an invoice: reading its number throws
    | UpdateRequest(id: int, payload: Payload)  // `updateInvoice(invoice.InvoiceId, payload)`
    | CreateRequest(payload: Payload)           // `createInvoice(payload)`

  // ---------------------------------------------------------------------
  // The component

  class Form {
    const invoice: Option<Invoice>
    const mode: Option<Mode>

    var invoicenumber: string
    var customername: string
    var invoicedate: string
    var items: seq<Item>
    var itemsvalid: bool
    var errors: FormErrors
    var isvalid: bool

    /** All effects have run for the current fields. */
    ghost predicate Settled()
      reads this
    {
      itemsvalid == ItemsValid(items) &&
      errors == ErrorsOf(invoicenumber, customername, invoicedate, items, itemsvalid) &&
      isvalid == (errors == NoErrors)
    }

    /** Mounting: the prefill effect runs on the `invoice` prop, then the other effects. */
    constructor (invoice: Option<Invoice>, mode: Option<Mode>, freshId: int)
      ensures this.invoice == invoice && this.mode == mode
      ensures invoicenumber == Prefill(invoice, freshId).invoicenumber
      ensures customername == Prefill(invoice, freshId).customername
      ensures invoicedate == Prefill(invoice, freshId).invoicedate
      ensures items == Prefill(invoice, freshId).items
      ensures Settled()
    {
      this.invoice := invoice;
      this.mode := mode;
      var d := Prefill(invoice, freshId);
      invoicenumber, customername, invoicedate, items := d.invoicenumber, d.customername, d.invoicedate, d.items;
      itemsvalid := ItemsValid(d.items);
      new;
      Validate();
    }

    /** The validation effect: fills `newErrors` field by field, then stores it and the flag. */
    method Validate()
      modifies this`errors, this`isvalid
      ensures errors == ErrorsOf(invoicenumber, customername, invoicedate, items, itemsvalid)
      ensures isvalid <==> ErrorCount(errors) == 0
    {
      var newErrors := NoErrors;
      if Trim(invoicenumber) == [] {
        newErrors := newErrors.(invoicenumber := Some(InvoiceNumberRequired));
      } else if |invoicenumber| > MaxFieldLength {
        newErrors := newErrors.(invoicenumber := Some(MaxLengthMessage));
      }
      assert newErrors.invoicenumber == TextFieldError(invoicenumber, InvoiceNumberRequired);
      if Trim(customername) == [] {
        newErrors := newErrors.(customername := Some(CustomerNameRequired));
      } else if |customername| > MaxFieldLength {
        newErrors := newErrors.(customername := Some(MaxLengthMessage));
      }
      assert newErrors.customername == TextFieldError(customername, CustomerNameRequired);
      if invoicedate == "" {
        newErrors := newErrors.(invoicedate := Some(InvoiceDateRequired));
      }
      assert newErrors.invoicedate == DateError(invoicedate);
      if |items| == 0 {
        newErrors := newErrors.(items := Some(ItemsRequired));
      } else if !itemsvalid {
        newErrors := newErrors.(items := Some(ItemsNeedFixing));
      }
      errors := newErrors;
      isvalid := ErrorCount(newErrors) == 0;
    }

    /** The table's validity callback followed by the validation effect. */
    method Settle()
      modifies this`itemsvalid, this`errors, this`isvalid
      ensures Settled()
    {
      itemsvalid := ItemsValid(items);
      Validate();
    }

    /** Typing into the invoice number field, which is disabled in edit mode. */
    method SetInvoiceNumber(value: string)
      requires mode != Some(Edit)
      modifies this
      ensures invoicenumber == value
      ensures customername == old(customername) && invoicedate == old(invoicedate) && items == old(items)
      ensures Settled()
    {
      invoicenumber := value;
      Settle();
    }

    /** Typing into the customer name field. */
    method SetCustomerName(value: string)
      modifies this
      ensures customername == value
      ensures invoicenumber == old(invoicenumber) && invoicedate == old(invoicedate) && items == old(items)
      ensures Settled()
    {
      customername := value;
      Settle();
    }

    /** Picking a date. */
    method SetInvoiceDate(value: string)
      modifies this
      ensures invoicedate == value
      ensures invoicenumber == old(invoicenumber) && customername == old(customername) && items == old(items)
      ensures Settled()
    {
      invoicedate := value;
      Settle();
    }

    /** `handleitemChange`: the table hands back its new list. */
    method ChangeItems(newItems: seq<Item>)
      modifies this
      ensures items == newItems
      ensures invoicenumber == old(invoicenumber) && customername == old(customername) && invoicedate == old(invoicedate)
      ensures Settled()
    {
      items := newItems;
      Settle();
    }

    /** The Clear button. */
    method Clear(freshId: int)
      modifies this
      ensures invoicenumber == "" && customername == "" && invoicedate == ""
      ensures items == [DefaultItem(freshId)]
      ensures Settled() && !isvalid
    {
      invoicenumber, customername, invoicedate, items := "", "", "", [DefaultItem(freshId)];
      Settle();
    }

    /** `handleSubmit` up to the network call: the gate, the payload and which request it makes. */
    method Submit() returns (action: SubmitAction)
      ensures !isvalid ==> action == Blocked
      ensures action == ThrowsTypeError <==> isvalid && mode == Some(Edit) && invoice.None?
      ensures action.UpdateRequest? <==> isvalid && invoice.Some?
      ensures action.CreateRequest? <==> isvalid && invoice.None? && mode != Some(Edit)
      ensures action.UpdateRequest? ==> action.id == invoice.value.InvoiceId
      ensures action.UpdateRequest? || action.CreateRequest? ==>
        action.payload.CustomerName == customername &&
        action.payload.InvoiceDate == invoicedate &&
        action.payload.InvoiceItems == PayloadItems(items) &&
        action.payload.InvoiceNumber ==
          (if mode == Some(Edit) then invoice.value.InvoiceNumber else Some(invoicenumber))
      ensures Settled() && (action.UpdateRequest? || action.CreateRequest?) ==>
        ItemsValid(items) && !IsBlank(invoicenumber) && |invoicenumber| <= MaxFieldLength &&
        !IsBlank(customername) && |customername| <= MaxFieldLength && invoicedate != ""
    {
      SettledFormValidIff(invoicenumber, customername, invoicedate, items);
      if !isvalid {
        return Blocked;
      }
      var payload := Payload(Some(invoicenumber), customername, invoicedate, PayloadItems(items));
      if mode == Some(Edit) {
        if invoice.None? {
          return ThrowsTypeError;
        }
        payload := payload.(InvoiceNumber := invoice.value.InvoiceNumber);
      }
      if invoice.Some? {
        action := UpdateRequest(invoice.value.InvoiceId, payload);
      } else {
        action := CreateRequest(payload);
      }
    }

    /** After a successful save: a create form is reset, an edit form is left as it is. */
    method SaveSucceeded(freshId: int)
      requires Settled()
      modifies this
      ensures invoice.None? ==>
        invoicenumber == "" && customername == "" && invoicedate == "" && items == [DefaultItem(freshId)]
      ensures invoice.Some? ==>
        invoicenumber == old(invoicenumber) && customername == old(customername) &&
        invoicedate == old(invoicedate) && items == old(items)
      ensures Settled()
    {
      if invoice.None? {
        invoicenumber, customername, invoicedate, items := "", "", "", [DefaultItem(freshId)];
        Settle();
      }
    }
  }
}
