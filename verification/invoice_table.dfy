/**
 * The editable line-item table of the invoice form: the three list
 * operations, the validity flag it reports to the form, and the lenient
 * per-row display (line totals and error texts).
 */
module InvoiceTable {
  import opened JsValues
  import opened Sequences

  /** A row being edited; `quantity` and `unitprice` hold what `Number(...)` reads from the inputs. */
  datatype Item = Item(id: int, productname: string, quantity: JsNumber, unitprice: JsNumber)

  /** The `[field]: value` argument of `updateItem`. */
  datatype FieldEdit =
    | SetProductName(name: string)
    | SetQuantity(quantity: JsNumber)
    | SetUnitPrice(unitprice: JsNumber)

  /** The row `addItem` and the form's resets create. */
  function DefaultItem(id: int): Item {
    Item(id, "", Finite(1.0), Finite(0.0))
  }

  /** `addItem`: append one default row carrying the fresh id. */
  function AddItem(items: seq<Item>, freshId: int): (r: seq<Item>)
    ensures |r| == |items| + 1
    ensures r[..|items|] == items
    ensures r[|items|] == Item(freshId, "", Finite(1.0), Finite(0.0))
  {
    items + [DefaultItem(freshId)]
  }

  /** `{ ...it, [field]: value }`. */
  function ApplyEdit(it: Item, edit: FieldEdit): (r: Item)
    ensures r.id == it.id
    ensures r.productname == if edit.SetProductName? then edit.name else it.productname
    ensures r.quantity == if edit.SetQuantity? then edit.quantity else it.quantity
    ensures r.unitprice == if edit.SetUnitPrice? then edit.unitprice else it.unitprice
  {
    match edit
    case SetProductName(n) => it.(productname := n)
    case SetQuantity(q) => it.(quantity := q)
    case SetUnitPrice(p) => it.(unitprice := p)
  }

  /** `updateItem(id, field, value)`: the edit lands in every row with that id and nowhere else. */
  function UpdateItem(items: seq<Item>, id: int, edit: FieldEdit): (r: seq<Item>)
    ensures |r| == |items|
    ensures forall i :: 0 <= i < |items| && items[i].id == id ==> r[i] == ApplyEdit(items[i], edit)
    ensures forall i :: 0 <= i < |items| && items[i].id != id ==> r[i] == items[i]
  {
    if items == [] then []
    else [if items[0].id == id then ApplyEdit(items[0], edit) else items[0]] + UpdateItem(items[1..], id, edit)
  }

  /** `removeItem(id)`: the rows whose id differs, in their original order. */
  function RemoveItem(items: seq<Item>, id: int): (r: seq<Item>)
    ensures forall it :: it in r <==> it in items && it.id != id
    ensures |r| <= |items|
  {
    Filter(items, OtherId(id))
  }

  /** The test `it.id !== id` of `removeItem`. */
  function OtherId(id: int): Item -> bool {
    (it: Item) => it.id != id
  }

  /** The ids of the rows, in order. */
  function Ids(items: seq<Item>): (r: seq<int>)
    ensures |r| == |items|
    ensures forall i :: 0 <= i < |items| ==> r[i] == items[i].id
  {
    if items == [] then [] else [items[0].id] + Ids(items[1..])
  }

  // ---------------------------------------------------------------------
  // Validity, as reported through `onValidityChange`

  /** `prodOk`: the name is non-empty after trimming. */
  predicate NameOk(name: string) {
    Trim(name) != []
  }

  /** `qtyOk`: a finite quantity in [1, 99]; fractions are accepted. */
  predicate QuantityOk(q: JsNumber) {
    IsFinite(q) && 1.0 <= q.value <= 99.0
  }

  /** `priceOK`: a finite, non-negative price. */
  predicate PriceOk(p: JsNumber) {
    IsFinite(p) && p.value >= 0.0
  }

  /** The callback of `items.every`. */
  predicate RowValid(it: Item) {
    NameOk(it.productname) && QuantityOk(it.quantity) && PriceOk(it.unitprice)
  }

  /** `items.every(...)`: walks the rows and stops at the first failing one. */
  predicate Every(items: seq<Item>) {
    items == [] || (RowValid(items[0]) && Every(items[1..]))
  }

  /** `hasAtLeastOne && allRowValid`. */
  predicate ItemsValid(items: seq<Item>) {
    |items| > 0 && Every(items)
  }

  /** `every` holds exactly when each row passes. */
  lemma {:induction false} EveryIffAll(items: seq<Item>)
    ensures Every(items) <==> forall i :: 0 <= i < |items| ==> RowValid(items[i])
  {
    if items != [] {
      EveryIffAll(items[1..]);
      assert forall i :: 1 <= i < |items| ==> items[i] == items[1..][i - 1];
    }
  }

  /** The list is valid exactly when it is non-empty and every row has a
      non-blank name, a finite quantity in [1, 99] and a finite price >= 0. */
  lemma ItemsValidIff(items: seq<Item>)
    ensures ItemsValid(items) <==>
      |items| > 0 &&
      forall i :: 0 <= i < |items| ==>
        !IsBlank(items[i].productname) &&
        items[i].quantity.Finite? && 1.0 <= items[i].quantity.value <= 99.0 &&
        items[i].unitprice.Finite? && items[i].unitprice.value >= 0.0
  {
    EveryIffAll(items);
    forall i | 0 <= i < |items| {
      TrimEmptyIffBlank(items[i].productname);
    }
  }

  /** An empty list is never valid. */
  lemma EmptyInvalid()
    ensures !ItemsValid([])
  {
  }

  /** A list with a freshly added row is invalid: the new row has no name. */
  lemma {:induction false} AddItemInvalidates(items: seq<Item>, freshId: int)
    ensures !ItemsValid(AddItem(items, freshId))
  {
    var r := AddItem(items, freshId);
    EveryIffAll(r);
    assert Trim(r[|items|].productname) == [];
    assert !RowValid(r[|items|]);
  }

  /** After an update, validity depends only on the edited rows and the untouched ones. */
  lemma UpdateItemValidity(items: seq<Item>, id: int, edit: FieldEdit)
    ensures ItemsValid(UpdateItem(items, id, edit)) <==>
      |items| > 0 &&
      forall i :: 0 <= i < |items| ==>
        RowValid(if items[i].id == id then ApplyEdit(items[i], edit) else items[i])
  {
    var r := UpdateItem(items, id, edit);
    EveryIffAll(r);
    assert forall i :: 0 <= i < |items| ==>
      r[i] == if items[i].id == id then ApplyEdit(items[i], edit) else items[i];
  }

  /** Removing rows from a list whose rows all pass leaves a list that is valid when non-empty. */
  lemma RemoveItemKeepsRowsValid(items: seq<Item>, id: int)
    requires forall i :: 0 <= i < |items| ==> RowValid(items[i])
    ensures ItemsValid(RemoveItem(items, id)) <==> RemoveItem(items, id) != []
  {
    var r := RemoveItem(items, id);
    EveryIffAll(r);
    forall j | 0 <= j < |r| ensures RowValid(r[j]) {
      assert r[j] in items;
    }
  }

  // ---------------------------------------------------------------------
  // List-operation properties

  /** Editing keeps every row's id, so the rows stay where they were. */
  lemma UpdateItemKeepsIds(items: seq<Item>, id: int, edit: FieldEdit)
    ensures Ids(UpdateItem(items, id, edit)) == Ids(items)
  {
  }

  /** An edit aimed at an id no row carries changes nothing. */
  lemma UpdateItemAbsentId(items: seq<Item>, id: int, edit: FieldEdit)
    requires id !in Ids(items)
    ensures UpdateItem(items, id, edit) == items
  {
    var r := UpdateItem(items, id, edit);
    forall i | 0 <= i < |items| ensures r[i] == items[i] {
      assert Ids(items)[i] == items[i].id;
    }
  }

  /** Removing a row after editing it is the same as removing it straight away. */
  lemma {:induction false} RemoveAfterUpdate(items: seq<Item>, id: int, edit: FieldEdit)
    ensures RemoveItem(UpdateItem(items, id, edit), id) == RemoveItem(items, id)
  {
    if items != [] {
      RemoveAfterUpdate(items[1..], id, edit);
      var u := UpdateItem(items, id, edit);
      assert u[1..] == UpdateItem(items[1..], id, edit);
      assert OtherId(id)(u[0]) == OtherId(id)(items[0]);
    }
  }

  /** Adding a row and removing it again gives back the list, when the id was fresh. */
  lemma RemoveAfterAdd(items: seq<Item>, freshId: int)
    requires freshId !in Ids(items)
    ensures RemoveItem(AddItem(items, freshId), freshId) == items
  {
    var keep := OtherId(freshId);
    FilterSnoc(items, DefaultItem(freshId), keep);
    forall it | it in items ensures keep(it) {
      var i :| 0 <= i < |items| && items[i] == it;
      assert Ids(items)[i] == it.id;
    }
    FilterKeepsAll(items, keep);
  }

  /** Removing keeps the surviving rows in their original relative order. */
  lemma RemoveItemSnoc(items: seq<Item>, it: Item, id: int)
    ensures RemoveItem(items + [it], id) == RemoveItem(items, id) + (if it.id != id then [it] else [])
  {
    FilterSnoc(items, it, OtherId(id));
  }

  // ---------------------------------------------------------------------
  // Display path: lenient coercion, used only for what a row shows

  const NameErrorText := "Required"
  const QuantityErrorText := "Qty must be 1 - 99"
  const PriceErrorText := "Must be >=0 "

  /** The three error texts of a row; "" means no error. */
  datatype RowErrors = RowErrors(nameError: string, qtyError: string, priceError: string)

  /** `fmt(lineTotal)` before locale formatting: `(Number(q) || 0) * (Number(p) || 0)`, then `|| 0` again. */
  function DisplayedLineTotal(it: Item): (r: JsNumber)
    ensures !r.NaN?
  {
    OrZero(Mul(OrZero(it.quantity), OrZero(it.unitprice)))
  }

  /** With no infinity involved, the displayed total is the product of the
      two values, each non-numeric one counting as 0. */
  lemma DisplayedLineTotalCountsNaNAsZero(it: Item)
    requires !it.quantity.Infinity? && !it.unitprice.Infinity?
    ensures DisplayedLineTotal(it) == Finite(RealOrZero(it.quantity) * RealOrZero(it.unitprice))
  {
    var x, y := RealOrZero(it.quantity), RealOrZero(it.unitprice);
    assert OrZero(it.quantity) == Finite(x);
    assert OrZero(it.unitprice) == Finite(y);
    assert Mul(Finite(x), Finite(y)) == Finite(x * y);
  }

  /** The error texts a row shows, computed from the coerced values. */
  function RowErrorsOf(it: Item): RowErrors {
    var qty := OrZero(it.quantity);
    var price := OrZero(it.unitprice);
    RowErrors(
      if Trim(it.productname) == [] then NameErrorText else "",
      if !IsFinite(qty) || qty.value < 1.0 || qty.value > 99.0 then QuantityErrorText else "",
      if !IsFinite(price) || price.value < 0.0 then PriceErrorText else "")
  }

  /** No error shown on a row */
  predicate ShowsNoError(it: Item) {
    RowErrorsOf(it) == RowErrors("", "", "")
  }

  /** The name and quantity errors appear exactly when the validity rule fails;
      the price error misses only a NaN price, which the display reads as 0. */
  lemma RowErrorsAgreeWithValidity(it: Item)
    ensures RowErrorsOf(it).nameError != "" <==> !NameOk(it.productname)
    ensures RowErrorsOf(it).qtyError != "" <==> !QuantityOk(it.quantity)
    ensures RowErrorsOf(it).priceError != "" <==> !PriceOk(it.unitprice) && !it.unitprice.NaN?
    ensures RowValid(it) <==> ShowsNoError(it) && !it.unitprice.NaN?
  {
  }

  /** A concrete row with a NaN price: it shows no error, yet the list holding it is invalid. */
  lemma NaNPriceShowsNoErrorButIsInvalid()
    ensures var it := Item(1, "Widget", Finite(2.0), NaN);
      ShowsNoError(it) && !ItemsValid([it])
  {
    var name := "Widget";
    assert !IsJsWhitespace(name[0]);
    TrimEmptyIffBlank(name);
  }
}
