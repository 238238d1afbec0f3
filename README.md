# Item purchase tool — a Dafny model

This project models the `itemPurchaseTool` Lightning web component, which lets a user on an
account page browse a catalog of items, open an item's details, collect items in a cart and
create a new catalog item with an image looked up by name. The model is module
`PurchaseTool` in `item_purchase_tool.dfy`:

- `ItemPurchaseTool` is a class with the component's instance fields: the `items` cache, the
  `cart`, the `isManager` flag, the three modal flags, `selectedItem`, the filter strings
  (`selectedSearchItem`, `selectedType`, `selectedFamily`), `newItemName`, the last items
  payload `wiredItemsResult` and the wired `account`.
- Each handler is a method whose `modifies` clause names exactly the fields it assigns, so
  the verifier also checks that nothing else changes. The getters are functions that read
  the fields.
- Records are datatypes. `Item` has `Id`, `Name` and the other fields by name. `CartLine` is
  the spread `{ ...item, Quantity: 1 }`, with `item` set to None when the item was `undefined`.
- Results of remote calls are inputs. A wire payload is `Wire(data, error)`, each part
  optional. The image lookup is a function from a name to `Success(url)` or `Failure(error)`.
- `Find` is the reference definition of `items.find(i => i.Id === id)`. `FindById` is the
  linear search itself, proved equal to `Find`, and `FindIsFirstMatch` and `FindAtFirstMatch`
  prove that `Find` gives the first item with the id, or nothing when no item has it.
- `Valid()` is the cart invariant: every line has `Quantity` 1. Only `addToCart` writes the
  cart, and it always writes quantity 1.
- The module-level methods `AddPresentItem`, `AddMissingItem`, `AddSameItemTwice`,
  `ToggleCartTwice` and `ReceiveItems` are clients of the class. Each proves a property
  that holds over one or more handler calls, using only the handlers' contracts.

JavaScript truthiness is written out. A string is truthy when it is defined and non-empty
(`Truthy`). A boolean payload is truthy only when it is `true`. A delivered array is always
truthy, even when it is empty, so an empty list from the items wire still replaces the cache.

`addToCart` with an id no item has still appends a line holding only `Quantity: 1`, then
throws a TypeError reading `item.Name` (itemPurchaseTool.js:116-122). `AddToCart` and
`AddMissingItem` model that outcome; there is no guard that turns it into a no-op.

## Model

| member | source | states |
|---|---|---|
| `PurchaseTool.OrDefault` | force-app/main/default/lwc/itemPurchaseTool/itemPurchaseTool.js:57-67 | JavaScript `or` on a possibly undefined string gives the value when it is defined and non-empty, and the fallback otherwise; the result is never empty |
| `PurchaseTool.Find` | force-app/main/default/lwc/itemPurchaseTool/itemPurchaseTool.js:116 | the reference definition of `items.find(i => i.Id === id)` (also used at line 137): a found item is in the catalog and has the id; `FindIsFirstMatch` and `FindAtFirstMatch` prove it is the first such item, and undefined exactly when there is none |
| `PurchaseTool.FindIsFirstMatch` | force-app/main/default/lwc/itemPurchaseTool/itemPurchaseTool.js:116 | `find` by id gives undefined exactly when no item has the id; otherwise it gives an item that has the id and sits before every other item with that id |
| `PurchaseTool.FindAtFirstMatch` | force-app/main/default/lwc/itemPurchaseTool/itemPurchaseTool.js:137 | when position k holds the first item with the id, `find` gives exactly that item |
| `PurchaseTool.FindById` | force-app/main/default/lwc/itemPurchaseTool/itemPurchaseTool.js:116 | the linear search returns the same result as the reference `Find` |
| `PurchaseTool.ItemPurchaseTool.constructor` | force-app/main/default/lwc/itemPurchaseTool/itemPurchaseTool.js:16-32 | initial state: empty catalog and cart, every flag false, `selectedItem` the empty object, empty strings, no items payload, an account payload with neither data nor error; the cart invariant holds |
| `PurchaseTool.ItemPurchaseTool.WiredAccount` | force-app/main/default/lwc/itemPurchaseTool/itemPurchaseTool.js:34-35 | the account payload is stored in `account` and no other field changes |
| `PurchaseTool.ItemPurchaseTool.WiredManager` | force-app/main/default/lwc/itemPurchaseTool/itemPurchaseTool.js:37-41 | `isManager` becomes true when the payload's data is `true` and is unchanged otherwise, so it never goes from true to false |
| `PurchaseTool.ItemPurchaseTool.WiredItems` | force-app/main/default/lwc/itemPurchaseTool/itemPurchaseTool.js:48-55 | the payload is always kept in `wiredItemsResult`; delivered data becomes `items` exactly; with no data (an error) `items` keeps its previous value |
| `PurchaseTool.ItemPurchaseTool.AccName` | force-app/main/default/lwc/itemPurchaseTool/itemPurchaseTool.js:57-59 | the account's truthy `Name`, otherwise "N/A" (also when no account data arrived); never empty |
| `PurchaseTool.ItemPurchaseTool.AccNumber` | force-app/main/default/lwc/itemPurchaseTool/itemPurchaseTool.js:61-63 | the account's truthy `AccountNumber`, otherwise "No Number"; never empty |
| `PurchaseTool.ItemPurchaseTool.AccIndustry` | force-app/main/default/lwc/itemPurchaseTool/itemPurchaseTool.js:65-67 | the account's truthy `Industry`, otherwise "No Industry"; never empty |
| `PurchaseTool.ItemPurchaseTool.ItemsCount` | force-app/main/default/lwc/itemPurchaseTool/itemPurchaseTool.js:127-129 | the count is the number of cached items; how each kind of items payload changes it is proved in `ReceiveItems` |
| `PurchaseTool.ItemPurchaseTool.HandleSearchChange` | force-app/main/default/lwc/itemPurchaseTool/itemPurchaseTool.js:72-74 | `selectedSearchItem` becomes the typed value and no other field changes |
| `PurchaseTool.ItemPurchaseTool.HandleCreateItem` | force-app/main/default/lwc/itemPurchaseTool/itemPurchaseTool.js:76-78 | the create modal is open and no other field changes |
| `PurchaseTool.ItemPurchaseTool.CloseCreateModal` | force-app/main/default/lwc/itemPurchaseTool/itemPurchaseTool.js:80-82 | the create modal is closed and no other field changes |
| `PurchaseTool.ItemPurchaseTool.HandleNameChange` | force-app/main/default/lwc/itemPurchaseTool/itemPurchaseTool.js:84-86 | `newItemName` becomes the typed value and no other field changes |
| `PurchaseTool.ItemPurchaseTool.HandleBeforeSubmit` | force-app/main/default/lwc/itemPurchaseTool/itemPurchaseTool.js:88-101 | with a non-empty name and a successful lookup of that name, the submitted fields are the input fields plus `Image__c` set to the URL; with an empty name or a failed lookup they are the input fields unchanged; every other field is always kept; the component state is not changed |
| `PurchaseTool.ItemPurchaseTool.HandleCreateSuccess` | force-app/main/default/lwc/itemPurchaseTool/itemPurchaseTool.js:102-112 | the create modal is closed and no other field changes |
| `PurchaseTool.ItemPurchaseTool.AddToCart` | force-app/main/default/lwc/itemPurchaseTool/itemPurchaseTool.js:114-125 | the cart grows by exactly one line, the first item with the id at quantity 1 (or an item-less line when none has it), after the unchanged earlier lines; the outcome is the toast message "<Name> added to cart", or the TypeError when no item matched; only the cart changes and the quantity-1 invariant is kept |
| `PurchaseTool.ItemPurchaseTool.ToggleCart` | force-app/main/default/lwc/itemPurchaseTool/itemPurchaseTool.js:131-133 | the cart modal flag is negated and no other field changes |
| `PurchaseTool.ItemPurchaseTool.HandleDetails` | force-app/main/default/lwc/itemPurchaseTool/itemPurchaseTool.js:135-139 | `selectedItem` is the lookup result for the id and the details modal is open; the cart and the catalog do not change |
| `PurchaseTool.ItemPurchaseTool.CloseDetailsModal` | force-app/main/default/lwc/itemPurchaseTool/itemPurchaseTool.js:141-143 | the details modal is closed and no other field changes |
| `PurchaseTool.AddPresentItem` | force-app/main/default/lwc/itemPurchaseTool/itemPurchaseTool.js:114-118 | with a matching item, the cart becomes exactly one longer, the earlier lines stay unchanged and in order, the new last line is the first matching item at quantity 1, and the catalog is unchanged |
| `PurchaseTool.AddMissingItem` | force-app/main/default/lwc/itemPurchaseTool/itemPurchaseTool.js:116-122 | with no matching item, the cart still grows by a line holding only quantity 1, and the handler throws |
| `PurchaseTool.AddSameItemTwice` | force-app/main/default/lwc/itemPurchaseTool/itemPurchaseTool.js:118 | two adds of one id give two separate equal lines of quantity 1, no line of the cart has quantity 2, and the catalog is unchanged |
| `PurchaseTool.ToggleCartTwice` | force-app/main/default/lwc/itemPurchaseTool/itemPurchaseTool.js:131-133 | toggling the cart twice restores the original flag |
| `PurchaseTool.ReceiveItems` | force-app/main/default/lwc/itemPurchaseTool/itemPurchaseTool.js:48-55 | after an error-only payload the item count is what it was (the cache is never cleared on error); after a data payload it is the length of the delivered list |

## Left out

- When the handlers run: the `@wire` adapters and the re-invocation of `getItems` whenever a
  `$`-parameter changes are framework scheduling. The handlers are methods called with a payload.
- The Apex calls `getAccountData`, `isUserManager`, `getItems` and `getUnsplashImageUrl` are
  remote and opaque. Their results are method parameters, and the `await` suspension in
  `handleBeforeSubmit` is not modelled.
- `createPurchaseItems` is imported but never called, and the component extends
  `NavigationMixin` but never navigates, so there is no checkout and no navigation to model.
- Toast events, `refreshApex` in `handleCreateSuccess`, `console.error`,
  `event.preventDefault` and the form's `submit(fields)` are UI and I/O side effects.
  `HandleBeforeSubmit` returns the fields that would be submitted.
- `typeOptions` and `familyOptions` are fixed mock lists, and no handler writes
  `selectedType` or `selectedFamily`. These fields stay at their initial empty value and
  are not modelled further.
- `recordId` is only a wire parameter, so it is not a field of the model.
- Item field values are modelled as text. The component never inspects them except for
  `Id` and `Name`.
- The component has no checkout, cart clearing, cart total, picklist resolution or request-generation
  counter, so none of these is modelled.
- Out-of-order wire deliveries are not modelled: the component has no ordering or generation
  logic of its own.
