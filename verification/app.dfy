/**
 * The invoices page: its view state and the handlers that change it.
 * Network calls, `window.confirm`, `localStorage` and navigation are outside
 * the model; their outcomes arrive as parameters.
 */
module App {
  import opened Wrappers
  import opened Sequences
  import opened Invoices
  import InvoiceForm

  /** `!!localStorage.getItem("token")`: a stored, non-empty token. */
  predicate TokenPresent(token: Option<string>) {
    token.Some? && token.value != ""
  }

  /** The test `inv.InvoiceId !== id` of `handleDelete`. */
  function OtherInvoice(id: int): Invoice -> bool {
    (inv: Invoice) => inv.InvoiceId != id
  }

  /** `invoices.filter(inv => inv.InvoiceId !== id)`. */
  function WithoutInvoice(invoices: seq<Invoice>, id: int): (r: seq<Invoice>)
    ensures forall inv :: inv in r <==> inv in invoices && inv.InvoiceId != id
    ensures |r| <= |invoices|
  {
    Filter(invoices, OtherInvoice(id))
  }

  /** Deleting an invoice keeps the others in order: one more entry at the end
      survives exactly when its id differs. */
  lemma WithoutInvoiceSnoc(invoices: seq<Invoice>, inv: Invoice, id: int)
    ensures WithoutInvoice(invoices + [inv], id) ==
      WithoutInvoice(invoices, id) + (if inv.InvoiceId != id then [inv] else [])
  {
    FilterSnoc(invoices, inv, OtherInvoice(id));
  }

  /** Deleting an id no invoice carries leaves the list as it was. */
  lemma WithoutAbsentInvoice(invoices: seq<Invoice>, id: int)
    requires forall inv :: inv in invoices ==> inv.InvoiceId != id
    ensures WithoutInvoice(invoices, id) == invoices
  {
    FilterKeepsAll(invoices, OtherInvoice(id));
  }

  /** Deleting the same id twice is deleting it once. */
  lemma WithoutInvoiceIdempotent(invoices: seq<Invoice>, id: int)
    ensures WithoutInvoice(WithoutInvoice(invoices, id), id) == WithoutInvoice(invoices, id)
  {
    FilterIdempotent(invoices, OtherInvoice(id));
  }

  /** Two confirmed deletes that overlap both filter the list rendered before either
      finished, so the later one brings back the invoice the earlier one removed; applied
      one after the other, they leave nothing. */
  lemma OverlappingDeletesRestoreFirst(a: Invoice, b: Invoice)
    requires a.InvoiceId != b.InvoiceId
    ensures WithoutInvoice([a, b], b.InvoiceId) == [a]
    ensures WithoutInvoice(WithoutInvoice([a, b], a.InvoiceId), b.InvoiceId) == []
  {
    WithoutInvoiceSnoc([a], b, b.InvoiceId);
    WithoutInvoiceSnoc([], a, b.InvoiceId);
    WithoutInvoiceSnoc([a], b, a.InvoiceId);
    WithoutInvoiceSnoc([], a, a.InvoiceId);
    WithoutInvoiceSnoc([], b, b.InvoiceId);
  }

  /** A delete the user confirmed, waiting for the server: the id and the list the
      handler captured when the page was last rendered. */
  datatype PendingDelete = PendingDelete(id: int, rendered: seq<Invoice>)

  class InvoicePage {
    var isAuthenticated: bool
    var invoices: seq<Invoice>
    var selectedinvoice: Option<Invoice>
    var mode: Option<Mode>
    var showModal: bool

    /** Edit mode always comes with a selected invoice. */
    predicate EditSelected()
      reads this
    {
      mode == Some(Edit) ==> selectedinvoice.Some?
    }

    /** Mounting: initial state, then the effect that reads the stored token. */
    constructor (token: Option<string>)
      ensures isAuthenticated == TokenPresent(token)
      ensures invoices == [] && selectedinvoice == None && mode == None && !showModal
      ensures EditSelected()
    {
      isAuthenticated := false;
      invoices := [];
      selectedinvoice := None;
      mode := None;
      showModal := false;
      isAuthenticated := token.Some? && token.value != "";
    }

    /** `handleLoginSuccess`. */
    method LoginSuccess()
      modifies this`isAuthenticated
      ensures isAuthenticated
    {
      isAuthenticated := true;
    }

    /** `handleLogout`: the token is removed and the page locks. */
    method Logout()
      modifies this`isAuthenticated
      ensures !isAuthenticated
    {
      isAuthenticated := false;
    }

    /** `fetchInvoices` succeeding: the list becomes the server's answer. */
    method InvoicesFetched(data: seq<Invoice>)
      modifies this`invoices
      ensures invoices == data
    {
      invoices := data;
    }

    /** `handleSelectInvoice(invoice, mode)`: the modal opens only for editing or creating. */
    method SelectInvoice(invoice: Invoice, m: Mode)
      modifies this`selectedinvoice, this`mode, this`showModal
      ensures selectedinvoice == Some(invoice) && mode == Some(m)
      ensures showModal == (old(showModal) || m == Edit || m == Create)
      ensures m == View ==> showModal == old(showModal) && DetailShown() && !FormShown()
      ensures m == Edit ==> FormShown() && FormInvoice() == Some(invoice)
      ensures EditSelected()
    {
      selectedinvoice := Some(invoice);
      mode := Some(m);
      if m == Edit || m == Create {
        showModal := true;
      }
    }

    /** `handleDelete(id)` up to its `await`: a declined confirmation ends the handler;
        a confirmed one captures the list of the current render. */
    method DeleteStart(id: int, confirmed: bool) returns (p: Option<PendingDelete>)
      ensures p.Some? <==> confirmed
      ensures p.Some? ==> p.value.id == id && p.value.rendered == invoices
    {
      if !confirmed {
        return None;
      }
      p := Some(PendingDelete(id, invoices));
    }

    /** `handleDelete(id)` after its `await`: on success the captured list, not the current
        one, is filtered, so whatever reached `invoices` in the meantime is overwritten;
        a failed request changes nothing. */
    method DeleteDone(p: PendingDelete, deleted: bool)
      modifies this`invoices
      ensures invoices == if deleted then WithoutInvoice(p.rendered, p.id) else old(invoices)
    {
      if deleted {
        invoices := WithoutInvoice(p.rendered, p.id);
      }
    }

    /** `closeModal`. */
    method CloseModal()
      modifies this`showModal, this`mode, this`selectedinvoice
      ensures !showModal && mode == None && selectedinvoice == None
      ensures EditSelected()
    {
      showModal := false;
      mode := None;
      selectedinvoice := None;
    }

    /** The `onCreateInvoice` callback handed to the navbar, which never calls it. */
    method CreateInvoice()
      modifies this`mode, this`selectedinvoice, this`showModal
      ensures mode == Some(Create) && selectedinvoice == None && showModal
      ensures FormShown() && FormInvoice() == None
      ensures EditSelected()
    {
      mode := Some(Create);
      selectedinvoice := None;
      showModal := true;
    }

    /** The form's `onSaveSuccess`: the list refetch is left out; the modal closes. */
    method SaveSuccess()
      modifies this`mode, this`showModal, this`selectedinvoice
      ensures !showModal && mode == None && selectedinvoice == None
      ensures EditSelected()
    {
      mode := None;
      CloseModal();
    }

    /** The form is rendered: the modal is open in edit or create mode. */
    predicate FormShown()
      reads this
    {
      showModal && (mode == Some(Edit) || mode == Some(Create))
    }

    /** The `invoice` prop handed to the form: the selection in edit mode, nothing otherwise. */
    function FormInvoice(): Option<Invoice>
      reads this
    {
      if mode == Some(Edit) then selectedinvoice else None
    }

    /** The detail panel is shown in view mode, for the selection. */
    predicate DetailShown()
      reads this
    {
      mode == Some(View)
    }

    /** The form the page renders, mounted with its props and submitted: in edit mode it
        updates the selected invoice under its own number, in create mode it creates one,
        and with a selection in edit mode it never throws. */
    method SubmitShownForm(freshId: int) returns (action: InvoiceForm.SubmitAction)
      requires FormShown()
      ensures EditSelected() ==> !action.ThrowsTypeError?
      ensures mode == Some(Edit) && selectedinvoice.Some? ==>
        action.Blocked? ||
        (action.UpdateRequest? && action.id == selectedinvoice.value.InvoiceId &&
         action.payload.InvoiceNumber == selectedinvoice.value.InvoiceNumber)
      ensures mode == Some(Create) ==> action.Blocked? || action.CreateRequest?
    {
      var form := new InvoiceForm.Form(FormInvoice(), mode, freshId);
      action := form.Submit();
    }
  }

  /** Two overlapping deletes on the page: the list ends with the first invoice back in it. */
  method OverlappingDeletes(a: Invoice, b: Invoice) returns (page: InvoicePage)
    requires a.InvoiceId != b.InvoiceId
    ensures page.invoices == [a]
  {
    page := new InvoicePage(Some("token"));
    page.InvoicesFetched([a, b]);
    var first := page.DeleteStart(a.InvoiceId, true);
    var second := page.DeleteStart(b.InvoiceId, true);
    page.DeleteDone(first.value, true);
    page.DeleteDone(second.value, true);
    OverlappingDeletesRestoreFirst(a, b);
  }
}
