# RocketShoes cart manager, modelled in Dafny

This project models the shopping-cart manager of the RocketShoes storefront
(`CartProvider` in `src/hooks/useCart.tsx`). The cart is an ordered list of
products. Each entry has a product id, the product's metadata and a quantity
(`amount`). Three operations change the cart:

- `addProduct` adds one unit of a product. It fails with "out of stock" when the new quantity would exceed the stock.
- `removeProduct` splices a product's entry out.
- `updateProductAmount` overwrites a product's quantity. A non-positive amount is ignored. An amount above the stock is refused.

After each accepted change the whole cart is written to local storage, and at
start-up the cart is reloaded from there.

Layout:

- `cart_items.dfy` (module `CartItems`): the entry and outcome datatypes and the sequence edits the operations perform (lookup by id, overwrite a quantity, splice an entry out, append a new entry). It also holds the lemmas about these edits: the cart invariant is kept, lookups land where expected, and the edits undo each other.
- `use_cart.dfy` (module `UseCart`): class `CartProvider` with fields `cart` (the state the UI renders) and `persisted` (the stored snapshot). It has the start-up constructor and the three operations as methods with `modifies this`, written step by step as the source does: copy the cart, look the id up, check the stock, edit the copy, set the cart, write the snapshot.
- `cart_scenarios.dfy` (module `CartScenarios`): verified client methods that make fixed call sequences and state their results from the contracts alone.

The collaborators are inputs of each operation:

- The stock the inventory service reports is `stock: Option<int>`. `None` means the request failed.
- The product metadata is `info: Option<ProductInfo>`. `None` means the request failed.
- The storage write is `storageOk: bool`.
- The error notifications are the returned `Outcome`: `Ok`, `OutOfStock`, `AddFailed`, `RemoveFailed`, `UpdateFailed`, or `Ignored` for the silent case.

The cart invariant `WellFormed` says two things: ids are unique, and every quantity is at least 1.

## Behaviour of the code worth noting

- Updates are not all-or-nothing. `setCart(updated)` runs before `localStorage.setItem` (`src/hooks/useCart.tsx` lines 62-63, 79-80 and 111-112). A write that throws is caught and reported as the operation's generic error, but the in-memory cart has already advanced and the stored snapshot is stale. The model keeps this order: on a storage failure `cart` advances, `persisted` does not, and the outcome is the operation's generic error (`CartScenarios.StorageFailureLeavesSnapshotStale`).
- `updateProductAmount` queries the stock before it looks the product up (lines 99-107). So an absent product with an amount above the stock reports "out of stock", not "update failed".
- A new entry takes its id from the metadata response (`{ ...response.data, amount: 1 }`, lines 54-58), not from the requested id. Unique ids are therefore preserved only when the metadata is the requested product's. The contracts state that condition explicitly.
- `JSON.parse` (line 29) is outside any `try`, so a malformed stored value throws at start-up. JSON is not modelled (see below), so this case is not represented.

## Model

| member | source | states |
|---|---|---|
| CartItems.FindIndex | src/hooks/useCart.tsx:75 | the result is -1 exactly when no entry has the id; otherwise it is the position of the FIRST entry with that id |
| CartItems.FindIndexSameIds | src/hooks/useCart.tsx:107-110 | an edit that keeps every id in place does not move any lookup |
| CartItems.FindIndexAppend | src/hooks/useCart.tsx:53-59 | after an append, lookups find the old entries where they were; the new entry is found at the end only if its id was absent before |
| CartItems.SetAmountFindsSame | src/hooks/useCart.tsx:51-52 | `SetAmount` (the overwrite `alreadyExists.amount = amount`) moves no lookup; with `CurrentAmount` (line 43, the quantity found by id, 0 when absent), overwriting a quantity moves no lookup, and the product at that position then has exactly the new quantity |
| CartItems.SetAmountKeepsWellFormed | src/hooks/useCart.tsx:106-110 | `SetAmount` overwriting a quantity with a positive value keeps ids unique and quantities at least 1 |
| CartItems.SetAmountUndo | src/hooks/useCart.tsx:110 | writing back the previous quantity restores the cart (inverse of an overwrite) |
| CartItems.AppendKeepsWellFormed | src/hooks/useCart.tsx:53-59 | appending `NewEntry` (`{ ...response.data, amount: 1 }`, lines 55-58), a quantity-1 entry for an absent id keeps the invariant; the product is then found at the end with quantity 1 |
| CartItems.RemoveAtShape | src/hooks/useCart.tsx:78 | `RemoveAt`, the splice, drops exactly one entry: earlier entries stay, later ones move up by one in the same order, and the multiset loses only that entry |
| CartItems.RemoveAtKeepsWellFormed | src/hooks/useCart.tsx:74-78 | removing from a well-formed cart keeps it well formed, and the removed id no longer occurs |
| CartItems.RemoveUndoesAppend | src/hooks/useCart.tsx:53-80 | removing a product that was just appended gives back the previous cart (inverse of the append) |
| UseCart.CartProvider.constructor | src/hooks/useCart.tsx:25-33 | a stored snapshot becomes the cart, and the two are then in sync; with nothing stored the cart is empty |
| UseCart.CartProvider.Commit | src/hooks/useCart.tsx:62-63 | the cart always becomes the updated list; the snapshot becomes it only when the storage write succeeds, and otherwise the given error is reported |
| UseCart.CartProvider.AddProduct | src/hooks/useCart.tsx:35-69 | a failed stock request gives add-failed and no change; current+1 above stock gives out-of-stock and no change; a present product is incremented in place; an absent product gets a new quantity-1 entry at the end, or add-failed if its metadata cannot be fetched. Only Ok syncs the snapshot. The invariant is kept, and the product's quantity rises by exactly one within the stock |
| UseCart.CartProvider.RemoveProduct | src/hooks/useCart.tsx:71-88 | an absent id gives remove-failed and no change; a present id splices out exactly its first entry (length drops by one). Only Ok syncs the snapshot. The invariant is kept, and the id is gone afterwards |
| UseCart.CartProvider.UpdateProductAmount | src/hooks/useCart.tsx:90-120 | amount <= 0 is ignored silently; a failed stock request gives update-failed; amount above stock gives out-of-stock (checked before the lookup); an absent id gives update-failed; otherwise the entry's quantity becomes exactly amount. Only Ok syncs the snapshot, and the invariant is kept |
| CartScenarios.AddUntilOutOfStock | src/hooks/useCart.tsx:35-69 | from an empty cart with stock 3, three adds of product 5 give one entry with quantity 3; a fourth reports out-of-stock; reloading from the snapshot gives the same cart |
| CartScenarios.RejectedUpdates | src/hooks/useCart.tsx:71-120 | amounts 0 and -1 are ignored, 11 over a stock of 10 is out of stock, an unknown product fails to update and to remove, and a valid update sets the quantity to 4 |
| CartScenarios.StorageFailureLeavesSnapshotStale | src/hooks/useCart.tsx:59-67 | a storage failure after an accepted add reports add-failed while the cart already holds the new entry and the snapshot is still the old one |

## Left out

- The React context, the provider component and the `useCart` hook (`src/hooks/useCart.tsx:1-24`, `122-135`) are UI wiring.
- The HTTP calls (`api.get` for `/stock/:id` and `products/:id`) are replaced by the `stock` and `info` parameters. A failed request is the `None` value. A response without an `amount` field is not modelled: JavaScript's `amount > undefined` is false, so the code would accept the change.
- `localStorage` and `JSON.parse`/`JSON.stringify` are left out. The store is the `persisted` field, holding the list itself. `None` means no value was stored, which covers an absent key and an empty string. No JSON text and no parse round-trip is modelled, and so neither is a parse failure at start-up.
- `toast.error` is not called. Its message is the returned `Outcome`.
- Quantities and stock are integers. A fractional `amount` passed to `updateProductAmount` is not modelled. Prices are `real`, and JavaScript's floating-point numbers are not modelled.
- Concurrent calls are left out. React state is read through a closure, so two interleaved async calls can each work from the same stale cart. The code does not guard against this, and the model runs one call at a time.
- The code copies the array shallowly and then assigns `alreadyExists.amount`, which also changes the entry object shared with the previous state. The model uses value semantics: it builds a new list and does not reproduce that aliasing.
- `src/types` (the `Product` and `Stock` types) is not part of this model. The entry's fields follow the stored format: id, name, price, imageUrl and amount.
