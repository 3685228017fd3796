/** The read-only invoice detail: per-row totals and the subtotal `reduce`. */
module InvoiceDetail {
  import opened Wrappers
  import opened JsValues
  import opened Invoices

  /** `item.Quantity * item.UnitPrice`: the row's displayed total and its term in the subtotal. */
  function LineTotal(item: InvoiceItem): (r: JsNumber)
    ensures item.Quantity.Finite? && item.UnitPrice.Finite? ==>
      r == Finite(item.Quantity.value * item.UnitPrice.value)
  {
    Mul(item.Quantity, item.UnitPrice)
  }

  /** `items.reduce((sum, item) => sum + LineTotal(item), acc)`, a left fold. */
  function Reduce(acc: JsNumber, items: seq<InvoiceItem>): JsNumber
    decreases |items|
  {
    if items == [] then acc else Reduce(Add(acc, LineTotal(items[0])), items[1..])
  }

  /** `invoice.InvoiceItems?.reduce(..., 0) || 0`. */
  function SubTotal(invoice: Invoice): (r: JsNumber)
    ensures !r.NaN?
    ensures invoice.InvoiceItems.None? || invoice.InvoiceItems == Some([]) ==> r == Finite(0.0)
  {
    match invoice.InvoiceItems
    case None => Finite(0.0)
    case Some(items) => OrZero(Reduce(Finite(0.0), items))
  }

  /** Every quantity and price is a finite number. */
  predicate AllFinite(items: seq<InvoiceItem>) {
    forall i :: 0 <= i < |items| ==> items[i].Quantity.Finite? && items[i].UnitPrice.Finite?
  }

  /** The exact sum of quantity times price over finite items. */
  function Sum(items: seq<InvoiceItem>): real
    requires AllFinite(items)
  {
    if items == [] then 0.0
    else items[0].Quantity.value * items[0].UnitPrice.value + Sum(items[1..])
  }

  /** Folding one more item adds its line total to the running sum. */
  lemma {:induction false} ReduceSnoc(acc: JsNumber, items: seq<InvoiceItem>, item: InvoiceItem)
    ensures Reduce(acc, items + [item]) == Add(Reduce(acc, items), LineTotal(item))
    decreases |items|
  {
    if items != [] {
      assert (items + [item])[1..] == items[1..] + [item];
      ReduceSnoc(Add(acc, LineTotal(items[0])), items[1..], item);
    }
  }

  /** Over finite items the fold yields the exact sum, added to the start value. */
  lemma {:induction false} ReduceFinite(a: real, items: seq<InvoiceItem>)
    requires AllFinite(items)
    ensures Reduce(Finite(a), items) == Finite(a + Sum(items))
    decreases |items|
  {
    if items != [] {
      var t := items[0].Quantity.value * items[0].UnitPrice.value;
      assert AllFinite(items[1..]) by {
        forall i | 0 <= i < |items[1..]| ensures items[1..][i] == items[i + 1] { }
      }
      ReduceFinite(a + t, items[1..]);
    }
  }

  /** The subtotal is the sum of `Quantity * UnitPrice` over the items. */
  lemma SubTotalIsSum(invoice: Invoice)
    requires invoice.InvoiceItems.Some? && AllFinite(invoice.InvoiceItems.value)
    ensures SubTotal(invoice) == Finite(Sum(invoice.InvoiceItems.value))
  {
    ReduceFinite(0.0, invoice.InvoiceItems.value);
  }

  /** Adding one finite item raises the subtotal by exactly its displayed line total. */
  lemma SubTotalSnoc(id: int, number: Option<string>, customer: Option<string>, date: Option<string>,
                     items: seq<InvoiceItem>, item: InvoiceItem)
    requires AllFinite(items) && item.Quantity.Finite? && item.UnitPrice.Finite?
    ensures SubTotal(Invoice(id, number, customer, date, Some(items))).Finite?
    ensures SubTotal(Invoice(id, number, customer, date, Some(items + [item]))) ==
      Finite(SubTotal(Invoice(id, number, customer, date, Some(items))).value + LineTotal(item).value)
  {
    ReduceSnoc(Finite(0.0), items, item);
    ReduceFinite(0.0, items);
  }

  /** A NaN anywhere poisons the fold, so `|| 0` shows a subtotal of 0. */
  lemma {:induction false} ReduceNaNAbsorbs(acc: JsNumber, items: seq<InvoiceItem>)
    requires acc.NaN?
    ensures Reduce(acc, items).NaN?
  {
    if items != [] {
      ReduceNaNAbsorbs(Add(acc, LineTotal(items[0])), items[1..]);
    }
  }

  /** An item whose quantity or price is NaN makes the displayed subtotal 0. */
  lemma {:induction false} SubTotalNaNItemShowsZero(invoice: Invoice, k: nat)
    requires invoice.InvoiceItems.Some? && k < |invoice.InvoiceItems.value|
    requires invoice.InvoiceItems.value[k].Quantity.NaN? || invoice.InvoiceItems.value[k].UnitPrice.NaN?
    ensures SubTotal(invoice) == Finite(0.0)
  {
    var items := invoice.InvoiceItems.value;
    var pre := items[..k];
    var post := items[k + 1..];
    assert items == pre + [items[k]] + post;
    ReduceConcat(Finite(0.0), pre + [items[k]], post);
    ReduceSnoc(Finite(0.0), pre, items[k]);
    ReduceNaNAbsorbs(Reduce(Finite(0.0), pre + [items[k]]), post);
  }

  /** Folding a concatenation folds the second part from the first part's result. */
  lemma {:induction false} ReduceConcat(acc: JsNumber, a: seq<InvoiceItem>, b: seq<InvoiceItem>)
    ensures Reduce(acc, a + b) == Reduce(Reduce(acc, a), b)
    decreases |a|
  {
    if a == [] {
      assert a + b == b;
    } else {
      assert (a + b)[1..] == a[1..] + b;
      ReduceConcat(Add(acc, LineTotal(a[0])), a[1..], b);
    }
  }
}
