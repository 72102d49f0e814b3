# Shopping-cart reconciliation, modelled in Dafny

This project models the cart state kept by `CartProvider` in
`src/hooks/useCart.tsx` (lines 24-114) of a shoe-shop front-end. The cart is
an ordered sequence of product records, each with an `id` and an `amount`.
It is mirrored to a browser-storage slot. Three operations change it:

- `addProduct` merges or inserts. A product already in the cart gets its
  amount plus one, through `updateProductAmount`. Otherwise the catalog's
  record is appended with amount 1.
- `removeProduct` filters the product out, or fails when it is absent.
- `updateProductAmount` rejects a missing product or amount 0. It then asks
  the stock service and rejects an amount above the stock. Otherwise it sets
  the amount of that product.

Each successful operation writes the new cart to the slot and then makes it
the in-memory cart. Each failure changes neither.

Files:

- `cart_items.dfy`, module `CartItems`: the product and stock records, and
  the pure functions that build each new cart. `FindIndex` is `find`,
  `Without` is `filter` and `WithAmount` is `map`. The lemmas state the
  order and counts `filter` keeps for any cart, and what each function gives
  when ids are unique.
- `cart_store.dfy`, module `CartProvider`: the guard chain of the amount
  update (`UpdateCheck`), and the class `CartStore`. Its fields are `cart`
  and `persisted` (the storage slot, `None` when nothing is stored). Its
  methods model the three operations. `Valid()` says that reloading from the
  slot gives back the in-memory cart, and every method keeps it.
- `cart_scenarios.dfy`, module `CartScenarios`: client methods that replay
  the cart's example scenarios using only the contracts.

The remote requests are parameters of the methods. `fetched: Option<Product>`
is the product request's answer, `None` when the request fails.
`stock: Option<Stock>` is the stock request's answer, `None` when it fails.
Each method uses only the parameter for the path it takes. So the model states
"fails before any stock request" as "the outcome is the same for every
`stock`" (`UpdateCheck`'s second ensures). The notifications become a
returned `Outcome`, with one `CartError` per error message of the source.

Where the cart's intended behaviour and the code disagree, the model follows
the code:

- The cart is meant to hold only amounts of at least 1. Line 86 rejects
  only amount 0. A negative amount passes the stock check at line 93 whenever
  the stock is at least that amount, and it is stored.
  `CartProvider.NegativeAmountAccepted` and the scenario
  `NegativeAmountStored` show this. Nothing in the model assumes
  `amount >= 1`.
- A failed stock request (line 90 has no `.catch`) is reported with the
  request's own error. The model gives it its own error, `StockRequestFailed`.
- `filter` and `map` act on every product with the id, while `find` returns
  the first one. The model keeps that. The lemmas show that, with unique ids,
  exactly one position is removed or changed.
- `addProduct` appends the catalog's record with the catalog's own id. The
  cart stays free of duplicate ids when that id is the requested one. That is
  the hypothesis of `AddProduct`'s uniqueness postcondition.

## Model

| member | source | states |
|---|---|---|
| `CartItems.FindIndex` | src/hooks/useCart.tsx:38 | `find` gives None exactly when no product has the id; otherwise it gives a position holding that id, and no earlier position holds it |
| `CartItems.Without` | src/hooks/useCart.tsx:68 | the filtered cart holds exactly the products of the old cart whose id differs, and it is no longer |
| `CartItems.WithoutCounts` | src/hooks/useCart.tsx:68 | filtering keeps each product whose id differs exactly as many times as the cart holds it, and none with the id |
| `CartItems.WithoutAppend` | src/hooks/useCart.tsx:68-71 | filtering a concatenation is filtering each part, in the same order; with WithoutAbsent it fixes the order of the removed-from cart for any cart, repeated ids included |
| `CartItems.WithAmount` | src/hooks/useCart.tsx:97-102 | the mapped cart has the same length; each position with the id has its amount replaced, and every other position is unchanged |
| `CartItems.WithoutAbsent` | src/hooks/useCart.tsx:63-68 | filtering an id that is not in the cart leaves the cart unchanged |
| `CartItems.WithoutSplice` | src/hooks/useCart.tsx:68-71 | with unique ids, removing the id at position k gives the old cart without that position, the rest in their original order |
| `CartItems.WithoutKeepsUnique` | src/hooks/useCart.tsx:68 | removal keeps ids unique |
| `CartItems.WithAmountSplice` | src/hooks/useCart.tsx:97-105 | with unique ids, setting the amount of the item at position k keeps length, order and every other item, and only that item's amount becomes the new value |
| `CartItems.WithAmountKeepsUnique` | src/hooks/useCart.tsx:97-102 | setting an amount keeps ids unique |
| `CartItems.AppendKeepsUnique` | src/hooks/useCart.tsx:50 | appending a product whose id is not in the cart keeps ids unique |
| `CartProvider.UpdateCheck` | src/hooks/useCart.tsx:84-95 | the update succeeds exactly when the id is present, the amount is not 0, the stock request succeeds and the stock holds the amount; a missing id or amount 0 fails whatever the stock; a failed stock request fails as such; a stock below the amount fails as out of stock |
| `CartProvider.NegativeAmountAccepted` | src/hooks/useCart.tsx:86-102 | in any cart, a negative amount at or below the stock passes every check and is stored at that position |
| `CartProvider.CartStore.constructor` | src/hooks/useCart.tsx:25-33 | the cart starts as `Restore` of the slot (the branch at lines 28-32): the stored cart, or empty when nothing is stored; the slot is not written, and reloading gives the same cart |
| `CartProvider.CartStore.RemoveProduct` | src/hooks/useCart.tsx:61-76 | an absent id fails and changes neither the cart nor the slot; a present id succeeds, the cart becomes the filtered cart and the slot holds it; ids stay unique |
| `CartProvider.CartStore.UpdateProductAmount` | src/hooks/useCart.tsx:78-114 | the outcome is UpdateCheck's; on success the cart becomes the mapped cart and the slot holds it, and on failure neither changes; ids stay unique |
| `CartProvider.CartStore.AddProduct` | src/hooks/useCart.tsx:35-59 | a present id with amount n behaves as UpdateProductAmount with n + 1, stock check included; an absent id with a fetched record appends it with amount 1, and a failed fetch changes nothing; on success the slot holds the new cart; ids stay unique when the catalog returns the requested id |

## Left out

- The React context, provider and hook plumbing (lines 22, 116-129). It is UI wiring.
- The toast notifications. The model returns an `Outcome` instead, and the
  message texts are not modelled.
- The HTTP requests at lines 45 and 90. They are network I/O. Their answers
  are method parameters.
- `localStorage` with `JSON.stringify`/`JSON.parse`. The slot is a field
  holding the cart value itself. The JSON round trip, the falsy
  empty-string slot and the unhandled parse failure at line 29 are not modelled.
- The `Product` and `Stock` types of `src/types` are not part of this model.
  The record fields (id, title, price, image, amount) are assumed.
- Integer width. JavaScript numbers are doubles. The model uses unbounded
  integers for ids and amounts, so `amount + 1` at line 41 never loses
  precision.
- `CartProvider.CartStore.UpdateProductAmount`: the in-place write
  `product.amount = amount` at line 99 changes records shared with the old
  cart array. The model builds a new sequence of values, so it does not
  capture this aliasing. The old array is replaced right after the write.
- The interleaving of async operations and stale closures. These are
  concurrency, and the code guarantees nothing about them.
- The fall-through at lines 92 and 110. `found` is always truthy there, so
  it cannot be reached.
