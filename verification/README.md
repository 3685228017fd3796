# Invoice management front end: a verified model of its business rules

This project models the logic inside the invoice management single-page
application: the editable line-item table of the invoice form, the form's
field validation and submit gate, the prefill from an existing invoice and
the payload sent to the API, the subtotal of the invoice detail view, and
the view state of the invoices page (selection, mode, modal, delete,
login state). Rendering, styling, routing and the HTTP client are not
modelled.

Modules, one per source file plus shared definitions:

- `JsValues` (`js_values.dfy`): the JavaScript semantics the screens rely on.
  `Number(x)` gives a `JsNumber`: `NaN`, `Infinity(negative)` or
  `Finite(real)`. The module also defines truthiness and `n || 0`,
  `Number.isFinite`, `*` and `+` with NaN and infinity propagation,
  `trim` over ECMAScript whitespace, and `s.split("T")[0]`.
- `Sequences` (`sequences.dfy`): `filter`, shared by `removeItem` and `handleDelete`.
- `Invoices` (`invoices.dfy`): the API's invoice and invoice-item records and the page modes.
- `InvoiceTable` (`invoice_table.dfy`): `InvoiceTable.jsx`, pure functions over a sequence of rows.
- `InvoiceForm` (`invoice_form.dfy`): `InvoiceForm.jsx`. The field rules, prefill and payload
  mapping are functions. The component is a class `Form` whose methods are its handlers and effects.
- `InvoiceDetail` (`invoice_detail.dfy`): `InvoiceDetail.jsx`, the subtotal fold.
- `App` (`app.dfy`): the live `App` component of `App.jsx` as a class `InvoicePage`.

Modelling choices:

- A quantity or price field holds the number `Number(...)` reads from what was typed.
  String parsing is not modelled. Numbers are mathematical reals plus NaN and the two
  infinities, with no rounding and no overflow. Infinity is kept apart from NaN because
  the display coercion `Number(x) || 0` turns NaN into 0 but keeps Infinity.
- React effects are modelled as explicit steps. Every `Form` handler ends in the settled
  state (`Form.Settled`): first the table reports `itemsvalid == ItemsValid(items)`, then the
  validation effect recomputes `errors` and `isvalid`.
- `window.confirm`, the outcome of a network request, the stored token and `Date.now()`
  ids are parameters of the handlers that use them.
- The code accepts any finite quantity in [1, 99], fractions included (1.5 passes), and the
  model follows the code.
- `handleDelete` is split at its `await`: `DeleteStart` captures the list of the render the
  handler belongs to, and `DeleteDone` filters that captured list. Two deletes that overlap,
  or a refetch that lands while a delete is pending, therefore lose an update.
- `Navbar` (`Navbar.jsx:3`) takes no props, so the `onLogout` and `onCreateInvoice` callbacks
  passed to it are never called, and the invoice list selects only view and edit
  (`Invoicelist.jsx:33,36`). Logout and create mode cannot be reached in the shipped screens.
  `InvoicePage.Logout` and `InvoicePage.CreateInvoice` model the callbacks as written.

## Model

| member | source | states |
|---|---|---|
| `JsValues.OrZero` | InvoiceFrontend/src/Components/InvoiceTable.jsx:45-47 | the coercion `Number(v) or 0` never yields NaN, maps NaN to 0 and leaves every other number as it is |
| `JsValues.Mul` | InvoiceFrontend/src/Components/InvoiceTable.jsx:71 | the product is exact on finite numbers, NaN when either side is NaN, and NaN only for NaN or infinity times 0 |
| `JsValues.Add` | InvoiceFrontend/src/Components/InvoiceDetail.jsx:13 | the sum is exact on finite numbers, NaN when either side is NaN, and NaN only for opposite infinities |
| `JsValues.TrimStartSpec` | InvoiceFrontend/src/Components/InvoiceTable.jsx:31 | `trimStart` keeps a suffix, removes only whitespace, and the result starts with a non-whitespace character |
| `JsValues.TrimEndSpec` | InvoiceFrontend/src/Components/InvoiceTable.jsx:31 | `trimEnd` keeps a prefix, removes only whitespace, and the result ends with a non-whitespace character |
| `JsValues.TrimEnds` | InvoiceFrontend/src/Components/InvoiceForm.jsx:24 | a non-empty trimmed string starts and ends with a non-whitespace character |
| `JsValues.TrimEmptyIffBlank` | InvoiceFrontend/src/Components/InvoiceTable.jsx:30-31 | a string trims to "" exactly when every character is whitespace |
| `JsValues.PrefixBefore` | InvoiceFrontend/src/Components/InvoiceForm.jsx:53-55 | `split("T")[0]` is a prefix with no "T", followed by "T" when it is shorter than the input |
| `Sequences.Filter` | InvoiceFrontend/src/Components/InvoiceTable.jsx:22-24 | `filter` keeps exactly the accepted elements, drops no others, and never grows the sequence or its multiset |
| `Sequences.FilterConcat` | InvoiceFrontend/src/App.jsx:291 | filtering a concatenation is the concatenation of the filtered parts, so order is kept |
| `Sequences.FilterKeepsAll` | InvoiceFrontend/src/Components/InvoiceTable.jsx:23 | when every element is accepted, the result is the input |
| `Sequences.FilterIdempotent` | InvoiceFrontend/src/App.jsx:291 | filtering twice with the same test equals filtering once |
| `Sequences.FilterSnoc` | InvoiceFrontend/src/Components/InvoiceTable.jsx:23 | one element appended to the input appears at the end of the result exactly when it is kept |
| `InvoiceTable.AddItem` | InvoiceFrontend/src/Components/InvoiceTable.jsx:4-13 | exactly one row is appended, `{id: fresh, productname: "", quantity: 1, unitprice: 0}`; the earlier rows are unchanged and keep their order |
| `InvoiceTable.ApplyEdit` | InvoiceFrontend/src/Components/InvoiceTable.jsx:17 | the spread update changes only the edited field; the id and the other two fields stay |
| `InvoiceTable.UpdateItem` | InvoiceFrontend/src/Components/InvoiceTable.jsx:15-20 | the length is kept; rows with the id receive the edit; every other row is unchanged |
| `InvoiceTable.RemoveItem` | InvoiceFrontend/src/Components/InvoiceTable.jsx:22-25 | the result holds exactly the rows whose id differs |
| `InvoiceTable.EveryIffAll` | InvoiceFrontend/src/Components/InvoiceTable.jsx:29-37 | the short-circuiting `every` walk holds exactly when every row passes |
| `InvoiceTable.ItemsValidIff` | InvoiceFrontend/src/Components/InvoiceTable.jsx:27-43 | the list is valid exactly when it is non-empty and every row has a non-blank name, a finite quantity in [1, 99] and a finite price >= 0 |
| `InvoiceTable.EmptyInvalid` | InvoiceFrontend/src/Components/InvoiceTable.jsx:28-39 | the empty list is invalid |
| `InvoiceTable.AddItemInvalidates` | InvoiceFrontend/src/Components/InvoiceTable.jsx:5-12 | any list with a freshly added row is invalid, because that row's name is empty |
| `InvoiceTable.UpdateItemValidity` | InvoiceFrontend/src/Components/InvoiceTable.jsx:15-19 | after an edit, validity depends only on the edited rows as edited and on the untouched rows |
| `InvoiceTable.RemoveItemKeepsRowsValid` | InvoiceFrontend/src/Components/InvoiceTable.jsx:22-24 | removing rows from a list whose rows all pass gives a list that is valid exactly when some row remains |
| `InvoiceTable.UpdateItemKeepsIds` | InvoiceFrontend/src/Components/InvoiceTable.jsx:17 | an edit keeps the sequence of row ids |
| `InvoiceTable.UpdateItemAbsentId` | InvoiceFrontend/src/Components/InvoiceTable.jsx:16-18 | an edit aimed at an id no row carries changes nothing |
| `InvoiceTable.RemoveAfterUpdate` | InvoiceFrontend/src/Components/InvoiceTable.jsx:15-24 | editing rows and then removing them equals removing them straight away |
| `InvoiceTable.RemoveAfterAdd` | InvoiceFrontend/src/Components/InvoiceTable.jsx:4-24 | adding a row with a fresh id and then removing that id gives back the original list |
| `InvoiceTable.RemoveItemSnoc` | InvoiceFrontend/src/Components/InvoiceTable.jsx:23 | removal keeps the surviving rows in their original order |
| `InvoiceTable.DisplayedLineTotal` | InvoiceFrontend/src/Components/InvoiceTable.jsx:69-71 | the displayed line total is never NaN |
| `InvoiceTable.DisplayedLineTotalCountsNaNAsZero` | InvoiceFrontend/src/Components/InvoiceTable.jsx:45-47 | with no infinity involved, the displayed total is quantity times price, where a non-numeric value counts as 0 |
| `InvoiceTable.RowErrorsAgreeWithValidity` | InvoiceFrontend/src/Components/InvoiceTable.jsx:73-82 | the name and quantity errors show exactly when their validity rule fails; the price error shows exactly when the price rule fails and the price is not NaN; a row is valid exactly when it shows no error and its price is not NaN |
| `InvoiceTable.NaNPriceShowsNoErrorButIsInvalid` | InvoiceFrontend/src/Components/InvoiceTable.jsx:34-35 | a row named "Widget" with quantity 2 and a NaN price shows no error, yet a list holding it is invalid |
| `InvoiceDetail.LineTotal` | InvoiceFrontend/src/Components/InvoiceDetail.jsx:43 | for finite values, a row's displayed total is exactly Quantity × UnitPrice |
| `InvoiceDetail.SubTotal` | InvoiceFrontend/src/Components/InvoiceDetail.jsx:12-14 | the subtotal is never NaN, and it is 0 when `InvoiceItems` is missing or empty |
| `InvoiceDetail.ReduceSnoc` | InvoiceFrontend/src/Components/InvoiceDetail.jsx:12-13 | folding `xs + [it]` adds `it`'s line total to the fold of `xs`, the same term the row displays |
| `InvoiceDetail.ReduceFinite` | InvoiceFrontend/src/Components/InvoiceDetail.jsx:12-13 | over finite items the fold equals the start value plus the exact sum of quantity × price |
| `InvoiceDetail.SubTotalIsSum` | InvoiceFrontend/src/Components/InvoiceDetail.jsx:12-14 | the subtotal equals the sum over the items of Quantity × UnitPrice |
| `InvoiceDetail.SubTotalSnoc` | InvoiceFrontend/src/Components/InvoiceDetail.jsx:12-14 | one more finite item raises the subtotal by exactly its line total |
| `InvoiceDetail.ReduceNaNAbsorbs` | InvoiceFrontend/src/Components/InvoiceDetail.jsx:13 | once the running sum is NaN, it stays NaN |
| `InvoiceDetail.SubTotalNaNItemShowsZero` | InvoiceFrontend/src/Components/InvoiceDetail.jsx:12-14 | an item with a NaN quantity or price makes the displayed subtotal 0 |
| `InvoiceDetail.ReduceConcat` | InvoiceFrontend/src/Components/InvoiceDetail.jsx:12-13 | folding a concatenation folds the second part from the first part's result |
| `InvoiceForm.ErrorCount` | InvoiceFrontend/src/Components/InvoiceForm.jsx:46 | `Object.keys(newErrors).length` is 0 exactly when no field has an error |
| `InvoiceForm.TextFieldRule` | InvoiceFrontend/src/Components/InvoiceForm.jsx:24-33 | "required" exactly when the value is blank; otherwise "Max 50" exactly when it is longer than 50 characters untrimmed; otherwise no error |
| `InvoiceForm.RequiredBeforeLength` | InvoiceFrontend/src/Components/InvoiceForm.jsx:24-28 | a blank value longer than 50 characters reports "required", not the length |
| `InvoiceForm.ItemsErrorRule` | InvoiceFrontend/src/Components/InvoiceForm.jsx:38-42 | the items error says "required" exactly when the list is empty, "fix errors" exactly when it is non-empty and reported invalid, and is absent otherwise |
| `InvoiceForm.FormValidIff` | InvoiceFrontend/src/Components/InvoiceForm.jsx:21-47 | the form is valid exactly when both text fields pass, the date is non-empty, the list is non-empty and the table reported it valid |
| `InvoiceForm.SettledFormValidIff` | InvoiceFrontend/src/Components/InvoiceForm.jsx:21-47 | once the table has reported, the form is valid exactly when the invoice fields pass and the line-item list is valid |
| `InvoiceForm.PrefillItems` | InvoiceFrontend/src/Components/InvoiceForm.jsx:57-62 | the rows are numbered consecutively from the first id, in order, and carry each item's name, quantity and price |
| `InvoiceForm.PrefillNumbersItems` | InvoiceFrontend/src/Components/InvoiceForm.jsx:56-63 | prefilled rows get ids 1..n in order and carry the invoice's values |
| `InvoiceForm.PrefillDate` | InvoiceFrontend/src/Components/InvoiceForm.jsx:53-55 | the prefilled date is the text before the first "T" of `InvoiceDate` |
| `InvoiceForm.PrefillMissingItems` | InvoiceFrontend/src/Components/InvoiceForm.jsx:56-63 | missing `InvoiceItems` gives one default row, so the list is invalid; an empty array gives no row |
| `InvoiceForm.PrefillNothing` | InvoiceFrontend/src/Components/InvoiceForm.jsx:64-71 | without an invoice, all fields are reset and one default row is started |
| `InvoiceForm.PayloadItems` | InvoiceFrontend/src/Components/InvoiceForm.jsx:91-95 | payload items map one-to-one and in order to `{ProductName, Quantity, UnitPrice}` |
| `InvoiceForm.PayloadOfPrefill` | InvoiceFrontend/src/Components/InvoiceForm.jsx:56-63 | saving untouched prefilled rows sends back exactly the original items |
| `InvoiceForm.PrefillOfPayload` | InvoiceFrontend/src/Components/InvoiceForm.jsx:91-95 | rows numbered 1..n survive a round trip through the payload and a prefill unchanged |
| `InvoiceForm.Form.constructor` | InvoiceFrontend/src/Components/InvoiceForm.jsx:5-72 | mounting prefills the fields from the `invoice` prop and leaves the form settled |
| `InvoiceForm.Form.Validate` | InvoiceFrontend/src/Components/InvoiceForm.jsx:21-47 | the effect fills the errors field by field; the form is valid exactly when no error key is set |
| `InvoiceForm.Form.Settle` | InvoiceFrontend/src/Components/InvoiceForm.jsx:78-80 | after the table's callback and the validation effect, `itemsvalid`, `errors` and `isvalid` agree with the fields |
| `InvoiceForm.Form.SetInvoiceNumber` | InvoiceFrontend/src/Components/InvoiceForm.jsx:181-183 | typing changes only the invoice number and leaves the form settled; the input cannot be used in edit mode |
| `InvoiceForm.Form.SetCustomerName` | InvoiceFrontend/src/Components/InvoiceForm.jsx:149 | typing changes only the customer name and leaves the form settled |
| `InvoiceForm.Form.SetInvoiceDate` | InvoiceFrontend/src/Components/InvoiceForm.jsx:165 | picking a date changes only the date and leaves the form settled |
| `InvoiceForm.Form.ChangeItems` | InvoiceFrontend/src/Components/InvoiceForm.jsx:74-76 | the new list from the table replaces the items, and the form is settled again |
| `InvoiceForm.Form.Clear` | InvoiceFrontend/src/Components/InvoiceForm.jsx:223-230 | Clear empties all fields and starts one default row, so the form is invalid |
| `InvoiceForm.Form.Submit` | InvoiceFrontend/src/Components/InvoiceForm.jsx:82-112 | an invalid form is blocked; edit mode without an invoice throws; otherwise it sends an update when there is an invoice and a create when there is none. The payload carries the fields and mapped items, with the original number in edit mode. A settled form sends nothing unless every field rule and the item list pass |
| `InvoiceForm.Form.SaveSucceeded` | InvoiceFrontend/src/Components/InvoiceForm.jsx:114-123 | after a successful save, a create form is reset and an edit form is unchanged |
| `App.WithoutInvoice` | InvoiceFrontend/src/App.jsx:291 | the list keeps exactly the invoices whose `InvoiceId` differs from the deleted id |
| `App.WithoutInvoiceSnoc` | InvoiceFrontend/src/App.jsx:291 | deletion keeps the surviving invoices in their original order |
| `App.WithoutAbsentInvoice` | InvoiceFrontend/src/App.jsx:291 | deleting an id that no invoice carries leaves the list unchanged |
| `App.WithoutInvoiceIdempotent` | InvoiceFrontend/src/App.jsx:291 | deleting the same id twice equals deleting it once |
| `App.InvoicePage.constructor` | InvoiceFrontend/src/App.jsx:233-247 | initially nothing is selected and the modal is closed; `isAuthenticated` is true exactly when a non-empty token is stored |
| `App.InvoicePage.LoginSuccess` | InvoiceFrontend/src/App.jsx:249-252 | a successful login authenticates the page |
| `App.InvoicePage.Logout` | InvoiceFrontend/src/App.jsx:254-258 | logout sets `isAuthenticated` to false; the navbar never calls it |
| `App.InvoicePage.SelectInvoice` | InvoiceFrontend/src/App.jsx:276-283 | the selection and mode are set; the modal opens only for edit or create, and view mode leaves it unchanged and shows the detail; after an edit selection, the form receives that invoice; edit mode keeps a selection |
| `App.OverlappingDeletesRestoreFirst` | InvoiceFrontend/src/App.jsx:291 | filtering the list [a, b] captured before either delete finished brings a back, while deleting a and then b leaves nothing |
| `App.InvoicePage.InvoicesFetched` | InvoiceFrontend/src/App.jsx:262-263 | a successful fetch replaces the list with the server's answer |
| `App.InvoicePage.DeleteStart` | InvoiceFrontend/src/App.jsx:285-290 | a pending delete exists exactly when the user confirmed; it carries the id and the list of the current render |
| `App.InvoicePage.DeleteDone` | InvoiceFrontend/src/App.jsx:290-296 | a successful request leaves exactly the captured invoices with another id, whatever the list held meanwhile; a failed request changes nothing |
| `App.OverlappingDeletes` | InvoiceFrontend/src/App.jsx:285-297 | two confirmed deletes of a and b started on the list [a, b] before either finished leave [a] on the page |
| `App.InvoicePage.CloseModal` | InvoiceFrontend/src/App.jsx:303-307 | the modal closes, and the mode and the selection are cleared |
| `App.InvoicePage.CreateInvoice` | InvoiceFrontend/src/App.jsx:326-330 | create mode, no selection and an open modal; the form is shown and receives no invoice; the navbar never calls it |
| `App.InvoicePage.SaveSuccess` | InvoiceFrontend/src/App.jsx:361-365 | after a save, the modal is closed and the mode and the selection are cleared |
| `App.InvoicePage.SubmitShownForm` | InvoiceFrontend/src/App.jsx:357-360 | the form mounted with the page's props never throws while edit mode has a selection; in edit mode it only updates the selected invoice, under that invoice's own number; in create mode it only creates |

## Left out

- Rendering: JSX, CSS classes, the modal component, animations, the theme context, the
  navbar, `AuthLayout`, `PasswordInput` and the hard-coded `InvoiceSummary`.
- Network calls: the requests themselves, the `InvoiceService.js` wrappers, and the login,
  register and password screens. A delete or a save reaches the model as a boolean outcome,
  and a successful fetch as the list it returned (`InvoicePage.InvoicesFetched`); a failed
  fetch and the refetch that `onSaveSuccess` starts are not modelled.
- The page's `loading` and `error` state: only `fetchInvoices` writes them.
- The form's `loading` flag: it only disables the button while a request is in flight,
  and `handleSubmit` itself gates on `isvalid` alone.
- Browser APIs: `localStorage` (the token is a parameter), `window.confirm` (a boolean),
  `alert`, `navigate`, `console`. `Date.now()` ids are a parameter (`freshId`).
- Routing: `PrivateRoute` and the redirects.
- `new Date(invoicedate).toISOString()`: the payload carries the date text as entered,
  because the date library's behaviour is not part of this model. The call throws a
  `RangeError` on an unparseable date (`InvoiceForm.jsx:90`, before the `try`);
  `Form.Submit` models only the `TypeError` of line 99 as a throw.
- `toLocaleString` / `toLocaleDateString` currency and date formatting.
- `Number(...)` string parsing, IEEE rounding, overflow and the sign of zero.
- `String.length` counts UTF-16 code units. The model counts characters, so the two
  differ for characters outside the Basic Multilingual Plane.
- A missing `ProductName` on a fetched item is modelled as "". Every check treats it the
  same way, but the payload would send `undefined` where the model sends "".
- Prop changes while the form stays mounted: the model runs the prefill effect at mount
  only, and `invoice` and `mode` are fixed for the form's lifetime. The page unmounts the
  form whenever the modal closes, so each opening is a fresh mount.
- The commented-out earlier `App` at the top of `App.jsx`: it is dead code.
- The search, sort and pagination of the invoice list: the list component only maps over
  the fetched array.
