# TDR-STORE basket and checkout, in Dafny

This project models the storefront of TDR-STORE, a single-shop grocery
ordering page. A customer searches and filters the catalog and adds products
to a basket. They then step through a two-stage checkout (basket, then
delivery details), and the confirmed order goes out as one formatted chat
message. A store manager adds products to the catalog and deletes them.

`App.tsx` holds the logic, and `index.tsx` repeats it almost verbatim, so
the project models it once. The modules follow the component's structure:

- `Text` renders integers in decimal, reads numerals back, lower-cases
  ASCII and searches for substrings. These stand in for the template
  literal, `Number`, `toLowerCase` and `includes`.
- `Domain` has the records of `types.ts`, the checkout step, the product
  form and the shop's constants, with the seven-product seed catalog of
  `constants.ts`. `Seqs` has order-preserving selection (`filter`) and the
  concatenation a `forEach` with `+=` builds.
- `Catalog` has the product filter (`filteredProducts`), product deletion
  and the product built by `addNewProduct`.
- `Basket` has `addToCart`, basket-line deletion and `cartTotal`.
- `OrderMessage` has the exact text `handleConfirmOrder` builds. It is a
  specification function and a method with a loop proved equal to it.
- `Session` has the session state as a value and the reference transition
  `Next` for every user or browser event. It also has `StoreSession`, a
  class whose fields are the component's state variables. Each of its
  handler methods is proved to change those fields exactly as `Next` says
  and to keep the session invariant. The invariant is: distinct basket ids,
  positive quantities, a numeric price text, and a pending return-to-idle
  callback exactly in the success step.

The model follows the code as written:

- Confirming an order checks nothing about name, phone or address
  (`App.tsx:96-105`).
- Moving from the basket to the delivery step needs no check of its own,
  because the button exists only for a non-empty basket (`App.tsx:244`).
- The delivery details are not reset after an order.
- A stored catalog is taken as it is.

## Model

| member | source | states |
|---|---|---|
| Text.IntToStringRoundTrip | App.tsx:113 | an integer rendered in decimal is a numeral and `Number` reads it back as the same integer |
| Text.IntToStringInjective | App.tsx:100-101 | distinct amounts render as distinct texts in the message |
| Text.NatToStringRoundTrip | App.tsx:113 | the decimal digits of a natural number read back as that number |
| Text.NatToStringDigits | App.tsx:100-101 | a rendered natural number is a non-empty run of digits without a leading zero |
| Text.LowerProperties | App.tsx:66 | lower-casing keeps the length, leaves no upper-case letter and is idempotent |
| Text.ContainsAt | App.tsx:66 | `includes` holds exactly when the searched text stands at some position |
| Text.ContainsEmpty | App.tsx:66 | the empty search text is contained in every name |
| Domain.UpdateField | App.tsx:221-229 | typing into one delivery field sets that field and keeps the other two fields and the location |
| Seqs.SelectMembers | App.tsx:65-69 | `filter` keeps exactly the elements that pass, never more than there were |
| Seqs.SelectCount | App.tsx:65-69 | `filter` keeps each passing element exactly as many times as it occurs, and drops every other element |
| Seqs.SelectIsSubsequence | App.tsx:65-69 | `filter` keeps what it keeps in the original order |
| Seqs.SelectAppend | App.tsx:65-69 | filtering a concatenation concatenates the filtered parts |
| Seqs.SelectKeepsAll | App.tsx:65-69 | when every element passes, `filter` returns the same sequence |
| Seqs.SelectDropsAll | App.tsx:65-69 | when no element passes, `filter` returns the empty sequence |
| Seqs.ConcatMapAppend | App.tsx:100 | the `forEach` text of two sequences is the text of each, in order |
| Seqs.ConcatMapSnoc | App.tsx:100 | one more `+=` appends exactly the new element's text |
| Seqs.ConcatMapAt | App.tsx:100 | each element's text stands right after the texts of the elements before it |
| Catalog.Filter | App.tsx:64-70 | a product is shown iff it is in the catalog, its lower-cased name contains the lower-cased search text, and the category is "All" or its own |
| Catalog.FilterIsSubsequence | App.tsx:64-70 | the shown products keep catalog order |
| Catalog.FilterAppend | App.tsx:64-70 | filtering two parts of the catalog and joining them equals filtering the whole |
| Catalog.FilterShowsAll | App.tsx:64-70 | an empty search with "All" shows the whole catalog unchanged |
| Catalog.FilterNoMatch | App.tsx:64-70 | a search that no product matches shows nothing |
| Catalog.RemoveProductSpec | App.tsx:300 | deleting a product keeps, in order, exactly the products with another id, each as often as it occurred; an absent id changes nothing |
| Catalog.NewProductFromForm | App.tsx:108-117 | for any numeral price text (leading zeros included), the saved product has the given id, the form's name, unit and category, the number the text reads as, is in stock, and gets the default image when the image link is empty |
| Catalog.NewProductPrice | App.tsx:113 | a price typed as an integer's decimal rendering is saved as that integer |
| Catalog.AddThenRemove | App.tsx:118 | saving under a fresh id and then deleting that id restores the catalog |
| Basket.Find | App.tsx:76 | `find` by id gives the first line with that id, and nothing exactly when no line has it |
| Basket.AddToCartIds | App.tsx:74-81 | after adding, the basket's ids are the old ids plus the product's id |
| Basket.AddToCartMerges | App.tsx:76-78 | adding an id that has a line keeps the length, raises that line's quantity by exactly one with its stored product unchanged, and leaves every other line alone |
| Basket.AddToCartAppends | App.tsx:79-80 | adding a new id appends the product with quantity 1 after the unchanged lines |
| Basket.AddToCartKeepsInvariant | App.tsx:74-81 | adding keeps basket ids distinct and quantities at least 1 |
| Basket.AddToCartTotal | App.tsx:72-80 | adding raises the total by the price stored on the affected line: its snapshot on a merge, the product's price on an append |
| Basket.MergeTotal | App.tsx:72-78 | merging into line i raises the total by that line's stored price |
| Basket.AppendTotal | App.tsx:72-80 | appending a new product raises the total by its price |
| Basket.CartTotalAppend | App.tsx:72 | the total of two baskets side by side is the sum of their totals |
| Basket.CartTotalSplit | App.tsx:72 | the total is the sum before a line, plus that line's price times quantity, plus the sum after it |
| Basket.CartTotalReplace | App.tsx:72 | replacing one line changes the total by the difference of the two line amounts |
| Basket.AddTimesSingleLine | App.tsx:74-81 | adding a new product n >= 1 times gives one line of quantity n at the end |
| Basket.AppendNewKeepsDistinct | App.tsx:80 | appending a line for an id not yet in the basket keeps ids distinct |
| Basket.RemoveLineSpec | App.tsx:214 | deleting a line keeps the others in order, drops exactly that id, and an absent id changes nothing |
| Basket.RemoveLineAt | App.tsx:214 | with distinct ids, deleting line i's id removes line i and only it |
| Basket.RemoveLineTotal | App.tsx:214 | deleting a line lowers the total by exactly that line's amount |
| Basket.RemoveLineKeepsInvariant | App.tsx:214 | deleting keeps ids distinct and quantities positive |
| Basket.SubsequenceKeepsInvariant | App.tsx:214 | any order-preserving selection of a well-formed basket is well formed, with no new ids |
| OrderMessage.ItemLinesAt | App.tsx:100 | basket line k's item line stands right after the item lines of the lines before it |
| OrderMessage.ItemLinesSnoc | App.tsx:100 | one more basket line adds exactly its item line at the end |
| OrderMessage.AppendItemLines | App.tsx:100 | the `forEach` loop appends exactly one item line per basket line, in basket order |
| OrderMessage.BuildMessage | App.tsx:96-101 | the string `handleConfirmOrder` builds step by step is exactly the order message |
| OrderMessage.MapLineExactlyWithLocation | App.tsx:98 | with a location, the message is the message without one, plus the map line inserted right after the address line |
| OrderMessage.MessageEndsWithTotal | App.tsx:101 | the message ends with the total line, whose numeral reads back as the basket total |
| OrderMessage.RiceLines | App.tsx:100-101 | two Rice at 340 give total 680, item line "- Rice (1kg) x 2 = Rs. 680" and the matching total line |
| OrderMessage.RiceOrderExample | App.tsx:96-101 | adding Rice twice gives one line of quantity 2 and total 680, and Ali's order without a location is exactly the expected message, with no map line |
| Session.FooterButton | App.tsx:244-254 | the footer button exists iff the step is not success and the basket is non-empty; it proceeds only from idle and confirms only from details |
| Session.NextKeepsInvariant | App.tsx:44-56 | every possible event keeps ids distinct, quantities positive, the price text numeric and a callback pending exactly in success |
| Session.StepLegality | App.tsx:244-255 | the step changes only idle to details (footer, non-empty basket, nothing else changes), details to success (footer, basket emptied, the message sent) and success to idle (the callback) |
| Session.OutboxGrowsOnlyOnConfirm | App.tsx:102-103 | exactly a confirmation sends a message, the one for the details and basket at that moment; earlier messages stay |
| Session.ConfirmSendsBasketTotal | App.tsx:96-104 | confirming sends one message for the pre-clear basket, ending with that basket's total; it empties the basket and enters success |
| Session.ProceedOnlyMovesStep | App.tsx:244-251 | proceeding from idle changes only the step; with an empty basket the button is absent and pressing changes nothing |
| Session.SaveFormEffect | App.tsx:107-119 | an empty name or price changes nothing; otherwise exactly one in-stock product is put first and the form is reset |
| Session.LocationOutcome | App.tsx:85-93 | a position sets only the location; a failure changes no delivery detail; both end the locating state |
| Session.RunKeepsInvariant | App.tsx:44-56 | any sequence of possible events keeps the session invariant |
| Session.ReachableSessionsValid | App.tsx:44-56 | every session reachable from the start satisfies the invariant |
| Session.StoreSession.constructor | App.tsx:44-56 | the session starts with the saved catalog or the seed, an empty basket, no search, "All", idle, empty details and form |
| Session.StoreSession.Visible | App.tsx:64-70 | the grid shows exactly the catalog products matching the search text and category |
| Session.StoreSession.SetSearchQuery | App.tsx:149 | typing a search changes only the search text |
| Session.StoreSession.SelectCategory | App.tsx:156-158 | choosing a category changes only the category |
| Session.StoreSession.OpenCart | App.tsx:135 | the basket button only opens the basket |
| Session.StoreSession.CloseCart | App.tsx:201 | the close button only closes the basket |
| Session.StoreSession.AddToCart | App.tsx:74-83 | the basket becomes the merged or appended basket, the basket opens, the invariant holds |
| Session.StoreSession.RemoveCartLine | App.tsx:214 | the basket loses exactly the lines with that id, the invariant holds |
| Session.StoreSession.EditForm | App.tsx:278-284 | typing into the product form changes only the form |
| Session.StoreSession.AddNewProduct | App.tsx:107-120 | it reports acceptance iff name and price are filled in, and the state moves as a form save does |
| Session.StoreSession.RemoveProduct | App.tsx:300 | the catalog loses exactly the products with that id |
| Session.StoreSession.EditDeliveryField | App.tsx:221-229 | typing into a delivery field changes only that field |
| Session.StoreSession.RequestLocation | App.tsx:85-86 | asking for the position only sets the locating flag |
| Session.StoreSession.LocationFound | App.tsx:88-90 | a position sets the location and ends locating |
| Session.StoreSession.LocationFailed | App.tsx:92 | a failure only ends locating |
| Session.StoreSession.ConfirmOrder | App.tsx:96-104 | the built message is sent, the basket emptied, the step set to success and the return scheduled |
| Session.StoreSession.PressFooterButton | App.tsx:250-251 | from idle the button moves to details; from details it confirms the order |
| Session.StoreSession.TimeoutFires | App.tsx:104 | the callback closes the basket and returns to idle |

The same logic is repeated in `index.tsx`, so every row above also
describes these lines there: the filter at lines 123-129, the total at 131,
`addToCart` at 133-142, `getLoc` at 144-153, the confirmation at 155-164,
`addNewProduct` at 166-177, basket-line deletion at 270, the delivery
fields at 276-278, the footer at 292-303 and product deletion at 346.

## Left out

- Rendering, styling, the language toggle, the translation tables and the
  manager panel's open/closed flag are presentation only.
- Browser storage and JSON are not modelled. The constructor takes the saved
  catalog as an optional value and uses the seed catalog when there is none.
  A corrupt stored value is not modelled.
- `index.tsx` has its own two-product seed catalog. Only the seven-product
  catalog of `constants.ts` is modelled.
- Sending the message is not modelled, and neither is the destination number
  in the chat link. `encodeURIComponent` and `window.open`
  are foreign calls; the model appends the unencoded message to an outbox.
- `alert` is not modelled, and neither is the timing of the geolocation
  request or of `setTimeout`. They become events: a position, a failure, and
  the callback firing.
- Only one pending callback is modelled, as a flag. The footer is hidden in
  the success step, so the page cannot schedule a second callback while one
  is pending.
- Product ids from `Date.now()` are not modelled; `AddNewProduct` takes the
  id as a parameter.
- Floating point is not modelled. Prices, quantities and coordinates are
  integers, and amounts are rendered as integer decimals.
- Catalog.NewProductFromForm: `Number` is modelled only on integer numerals.
  The form's price text is assumed to be empty or an integer numeral, as a
  numeric input yields; fractional and exponent forms are out.
- Catalog.Filter: lower-casing is ASCII only; Unicode case mapping is not
  modelled.
- Session.StoreSession.PressFooterButton: it may be pressed only while the
  footer is rendered (basket open, not in success, non-empty basket). `Next`
  treats a press at any other time as a no-op.
- Nothing decreases a quantity: the page has no such control.
