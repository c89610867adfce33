# Cart state engine of the Food-Cart storefront scripts

The storefront has two page scripts, `app.js` and its earlier variant `keep.js`.
Both keep the shopping cart as an ordered array of line items
`{id, name, price, quantity, imageUrl}`. Three operations change that array:

- add one unit of a product;
- delete a product;
- change a product's quantity by a signed amount, removing the product when
  its quantity drops to 0 or below.

After every change the render function recomputes the subtotal and the item
count. `app.js` also writes the cart through to local storage under the key
`"cart"` after each change, reads it back on page load, and tracks which
"add" buttons are disabled: a button is disabled on click and on load, and
re-enabled when its product is deleted.

The Dafny model has five modules:

- `Wrappers` (`wrappers.dfy`): an `Option` type.
- `LineItems` (`line_items.dfy`): the `LineItem` datatype. This module holds
  the meaning of the three operations as functions on `seq<LineItem>`
  (`WithAdded`, `WithDeleted`, `WithQuantityChange`), the `findIndex` scan
  (`FindIndex`, specified by `FirstIndex`), and the render loop
  (`CartTotals`, specified by the recursive ghost `Sum`). Its lemmas cover
  the contents, the order, id uniqueness, positive quantities and the totals.
  Both scripts share this code, because their array logic is the same.
- `Persistence` (`persistence.dfy`): local storage as a `LocalStorage`
  object over a `map<string, StoredValue>`. `JSON.stringify` becomes
  `Encode`, and `JSON.parse(...) || []` with its `catch` becomes `Decode`.
- `AppCart` (`app_cart.dfy`): the `CartStore` class for `app.js`. Its fields
  are the cart, the disabled button ids, the ids that have a button, the
  figures on display, and the storage object.
- `KeepCart` (`keep_cart.dfy`): the `KeepPage` class for `keep.js`. It has no
  storage, and its button state is a set of button references.

Each mutating method is proved against the functions of `LineItems`:
`items == WithAdded(old(items), …)` and the like. The method contracts also
give the new button state, say that the displayed figures equal
`TotalPrice`/`TotalQuantity` of the new cart, and give what storage holds
afterwards. Prices and totals are integer cents.

Points of the code's behaviour that the model keeps as written:

- No add button is re-enabled when `updateItemQuantity` removes an item
  (app.js:171-172). The model keeps the button disabled, and
  `AppCart.RemovedByQuantityStaysDisabled` shows this.
- Prices and ids are never checked, so every operation accepts any id, name,
  price and image.
- The cart is an array searched for the first matching id. A loaded cart can
  therefore hold duplicate ids or non-positive quantities. The operations are
  modelled for any cart. Uniqueness and positivity are proved as properties
  that each operation preserves.
- A load that fails to parse is only logged (app.js:190), and the cart falls
  back to empty.

The `keep.js` properties (keep.js:69-74, keep.js:159-162, keep.js:188-198,
keep.js:84-91) are the same `LineItems` lemmas. `KeepCart.KeepPage`'s methods
are specified by the same functions as `AppCart.CartStore`'s.

## Model

| member | source | states |
|---|---|---|
| `LineItems.FirstIndex` | app.js:135 | the first index whose item has the id, or -1 exactly when no item has it |
| `LineItems.FindIndex` | app.js:135 | the front-to-back scan returns that same first index, or -1 |
| `LineItems.WithAdded` | app.js:60-64 | the array logic of `addItemToCart`: one row more exactly when the id was absent; its contents are given by `AddPresent`, `AddAbsent`, `AddKeepsInvariants` and `AddTotals` |
| `LineItems.WithDeleted` | app.js:135-137 | the array logic of `deleteItemFromCart`: one row fewer exactly when the id was present; its contents are given by `DeletePresent`, `DeleteAbsent`, `DeleteKeepsInvariants` and `DeleteTotals` |
| `LineItems.WithQuantityChange` | app.js:168-173 | the array logic of `updateItemQuantity`: one row fewer exactly when the id is present and its quantity falls to 0 or less, else the same length; its contents are given by `ChangePresent`, `ChangeAbsent`, `ChangeKeepsInvariants` and `ChangeTotals` |
| `LineItems.RemoveAt` | app.js:137 | `splice(i, 1)` leaves one item fewer; items before `i` stay in place and items after it shift down by one |
| `LineItems.AddKeepsInvariants` | app.js:60-65 | after an add, the ids are the old ids plus the added one; uniqueness of ids and positivity of quantities are preserved |
| `LineItems.DeleteKeepsInvariants` | app.js:135-138 | a delete adds no id; with unique ids it removes exactly the deleted id from the id set and keeps ids unique; positive quantities stay positive |
| `LineItems.ChangeKeepsInvariants` | app.js:168-173 | a quantity change never introduces an id; it preserves unique ids and positive quantities, because an item that would reach 0 or less is removed |
| `LineItems.AddPresent` | app.js:60-62 | adding a present id raises that item's quantity by exactly 1; the length and every other item are unchanged |
| `LineItems.AddAbsent` | app.js:63-64 | adding an absent id appends exactly `{id, name, price, quantity: 1, imageUrl}` after the unchanged earlier items |
| `LineItems.DeletePresent` | app.js:135-137 | deleting a present id removes exactly its item; the others keep their relative order |
| `LineItems.DeleteAbsent` | app.js:135-136 | deleting an absent id leaves the cart unchanged |
| `LineItems.ChangePresent` | app.js:168-173 | the item's quantity becomes old + change; when that is 0 or less the item is spliced out and the rest keep their order; nothing else changes |
| `LineItems.ChangeAbsent` | app.js:168-169 | a quantity change for an absent id leaves the cart unchanged |
| `LineItems.ChangeByMinusQuantityRemoves` | app.js:170-172 | lowering an item by its whole quantity removes it, so no item is left with quantity 0 |
| `LineItems.RunKeepsUniqueIds` | app.js:60-173 | covering the add (app.js:60-64), the delete (app.js:135-137) and the quantity change (app.js:168-173): every sequence of adds, deletes and quantity changes keeps unique ids unique, whatever the quantities |
| `LineItems.RunKeepsPositiveQuantities` | app.js:60-173 | covering the same three handlers: every sequence of adds, deletes and quantity changes keeps positive quantities positive, even in a loaded cart with duplicate ids |
| `LineItems.RepeatedAddCounts` | app.js:60-64 | n >= 1 adds of a new id leave exactly one item for it, with quantity n, at the end |
| `LineItems.CartTotals` | app.js:75-82 | the accumulation loop yields `total` = the sum over the cart in order of price times quantity, and `totalItems` = the sum of the quantities |
| `LineItems.TotalQuantityBounds` | app.js:82 | with positive quantities the item count is at least the number of rows, and 0 exactly for the empty cart |
| `LineItems.AddTotals` | app.js:79-82 | an add raises the count by 1; it raises the total by the unit price of the item that got the extra unit |
| `LineItems.DeleteTotals` | app.js:134-142 | deleting a present item lowers the count by its quantity and the total by its subtotal; an absent id changes neither |
| `LineItems.ChangeTotals` | app.js:167-174 | a change that keeps the item moves the count by `change` and the total by price times `change`; a change that removes it lowers them by its quantity and its subtotal |
| `Persistence.Decode` | app.js:186-192 | a stored array loads as exactly that array; a non-empty loaded cart can only come from a stored array, so every other case yields the empty cart |
| `Persistence.Encode` | app.js:181 | `JSON.stringify` of the cart; loading what was saved gives the same items, with the same fields, in the same order |
| `Persistence.DecodeFallback` | app.js:186-192 | a missing key, a falsy JSON value and unparsable data all load as the empty cart |
| `Persistence.LocalStorage.GetItem` | app.js:186 | the stored value under the key, or None when the key is absent |
| `Persistence.LocalStorage.SetItem` | app.js:181 | overwrites that one key and leaves the other keys alone |
| `AppCart.CartStore.constructor` | app.js:8 | the script starts with an empty cart and no disabled button |
| `AppCart.CartStore.Render` | app.js:75-115 | the panel total and the header count become the totals of the current cart; the cart is untouched |
| `AppCart.CartStore.Save` | app.js:180-182 | the `"cart"` key holds the encoded current cart; other keys are unchanged |
| `AppCart.CartStore.ClickAdd` | app.js:36-51 | accepted only on an enabled button; the clicked id joins the disabled set and the cart becomes `WithAdded` of the old cart; figures shown and stored value match the new cart; every carted product with a button stays disabled |
| `AppCart.CartStore.AddItem` | app.js:56-70 | the cart becomes `WithAdded` of the old cart; buttons unchanged; the figures shown and the stored value match the new cart |
| `AppCart.CartStore.EnableAddButton` | app.js:147-154 | the id leaves the disabled set, and a missing button changes nothing |
| `AppCart.CartStore.DeleteItem` | app.js:134-144 | the cart becomes `WithDeleted` of the old cart; the id's button is re-enabled only when the item was found; storage is written in both cases |
| `AppCart.CartStore.UpdateQuantity` | app.js:167-177 | the cart becomes `WithQuantityChange` of the old cart; buttons unchanged; a present id re-renders and saves, an absent id changes neither display nor storage |
| `AppCart.CartStore.Load` | app.js:185-205 | the cart becomes the decoded stored value; every loaded id with a button is disabled; the figures match; storage is not written |
| `AppCart.DeletedProductCanBeAddedAgain` | app.js:134-153 | after add and delete of a product its add button is enabled again and the cart is empty |
| `AppCart.RemovedByQuantityStaysDisabled` | app.js:167-177 | lowering a product's quantity from 1 by 1 empties the cart but leaves its add button disabled |
| `AppCart.ReloadRestoresCart` | app.js:180-200 | a cart built by one add click and one "+" click (app.js:118-122), saved by one page load, is loaded back unchanged by the next, with the add button disabled |
| `AppCart.EnabledClickAppends` | app.js:36-64 | when every carted product's add button is disabled, a click on an enabled add button appends a new item with quantity 1 |
| `AppCart.CorruptStorageLoadsEmpty` | app.js:187-192 | unparsable stored data loads as the empty cart with total and count 0 |
| `KeepCart.KeepPage.constructor` | keep.js:9 | the script starts with an empty cart and no disabled button |
| `KeepCart.KeepPage.Render` | keep.js:84-130 | the panel total and the header count become the totals of the current cart |
| `KeepCart.KeepPage.ClickAdd` | keep.js:45-62 | accepted only on an enabled button; the clicked add button is disabled and the cart becomes `WithAdded` of the old cart |
| `KeepCart.KeepPage.AddItem` | keep.js:67-77 | the cart becomes `WithAdded` of the old cart; the figures shown match |
| `KeepCart.KeepPage.DeleteItem` | keep.js:157-174 | the cart becomes `WithDeleted` of the old cart; the passed button is enabled whether or not the id was found |
| `KeepCart.KeepPage.ClickDelete` | keep.js:119-124 | deleting through a row's DELETE button changes no add button's state |
| `KeepCart.KeepPage.UpdateQuantity` | keep.js:188-198 | the cart becomes `WithQuantityChange` of the old cart; an absent id changes nothing |
| `KeepCart.DeletedProductStaysDisabled` | keep.js:119-168 | after add and delete of a product its add button is still disabled |

## Findings

| source | as written | input that shows it | evidently intended | confidence | as-written member | corrected member |
|---|---|---|---|---|---|---|
| keep.js:119-124 | the DELETE handler passes its own DELETE button, and keep.js:164-168 re-enables that button, so the product's add button stays disabled | click "Add" for `A1`, then DELETE on its row: the cart is empty but `A1` cannot be added again | re-enable the deleted product's add button, as the comment at keep.js:123 says and as app.js:139 does by id | not executed | `KeepCart.DeletedProductStaysDisabled` | `AppCart.CartStore.DeleteItem` |

## Left out

- DOM work has no model: element lookups, `classList` changes, menu and sidebar toggling, `openCart`, the row markup and `appendChild`. Button state is only the set of disabled buttons.
- Event-listener registration has no model. Each handler is a method, such as `ClickAdd` or `ClickDelete`.
- `localStorage` and `JSON.stringify`/`JSON.parse` are foreign calls. Storage is a map held by a `LocalStorage` object, and a stored value is a serialised array, a falsy JSON literal, or unparsable text.
- A stored value that parses to a truthy non-array throws at app.js:194, outside the `try`. It is not modelled, and neither is the `Array.isArray` guard at app.js:57 that would repair it.
- Array elements that are not line-item records are not modelled.
- A `setItem` that throws (quota exceeded) is not modelled: writes always succeed.
- A `getItem` that throws (storage unavailable) is not modelled. The call at app.js:186 sits outside the `try`, so such a throw would abort the load; reads always succeed in the model.
- Writes to the `"cart"` key by another tab or window are not modelled: the page is the only writer of its `LocalStorage`, so storage changes only through `Save`.
- Floating point is not modelled. This covers the `parseFloat` price extraction (app.js:47, keep.js:56-58) and `toFixed(2)` (app.js:101, app.js:114, keep.js:111, keep.js:129). Prices and totals are unbounded integer cents, and quantities are unbounded integers.
- Logging (`console.log`, `console.error`, `console.warn`) is not modelled.
- Line items are values, and a quantity update replaces the item in the sequence. The source mutates the item object in place, and each rendered row's DELETE listener also holds that object (app.js:108-111, keep.js:119-124). The results still agree, because those listeners read only `item.id`, which no operation changes.
- An id that makes a selector invalid (one containing `"`, say) makes `document.querySelector` throw at app.js:149 or app.js:196. This is not modelled: ids are treated as plain text. On delete, that throw would come after the splice and before `updateCartUI` and the save.
- Page markup before the first render is assumed to show an empty cart (total 0, count 0).
- Each DOM element is identified by the id it carries. A row re-rendered later is treated as the same button.
