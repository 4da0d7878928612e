# UC Metro Royale store: cart model

A Dafny model of the shopping cart of the single-page UC store (`src/pages/Index.tsx`):
the `Product` record and the six-bundle catalog, the cart held in component state,
the `addToCart` and `removeFromCart` handlers, the derived `totalPrice` and `totalUC`
folds, and the parts of the cart sheet and cart button that depend on the cart.

- `products.dfy` (module `Products`): `Product`, with `uc` and `price` as `nat` and the
  optional `bonus`/`popular` fields as `Option`; the constant `Catalog`; the predicates
  `IsBargain` and `FromCatalog`.
- `cart_updates.dfy` (module `CartUpdates`): the two ways a new cart value is built.
  `Appended` is the spread append. `WithoutIndex` is the index filter, written as the
  fold it performs.
- `totals.dfy` (module `Totals`): one left fold `Sum` over a selected field. `TotalPrice`
  and `TotalUC` are its two instances.
- `cart_store.dfy` (module `CartStore`): class `Cart`, whose `items` field the two handler
  methods replace; the badge and sheet-body view functions.

Every handler is proved against the pure functions. The lemmas about those functions
carry the promises: append and positional removal, totals that track both, order
independence, and the catalog's UC-over-price guarantee.

## Model

| member | source | states |
|---|---|---|
| Products.CatalogIds | src/pages/Index.tsx:26-33 | the constant `Catalog` (the `products` array) has six bundles with ids 1 to 6 in order, so ids are pairwise distinct |
| Products.CatalogBargains | src/pages/Index.tsx:26-33 | every catalog bundle has price > 0 and grants strictly more UC than its price |
| CartUpdates.Appended | src/pages/Index.tsx:47 | the spread append gives a cart one longer, with every earlier entry unchanged in place and the new product last |
| CartUpdates.WithoutIndex | src/pages/Index.tsx:51 | the index filter keeps every entry whose position differs from `index`; the result is exactly one entry shorter for a valid index and keeps the cart's length otherwise. Its full meaning is proved in `WithoutIndexIsSlice` and `WithoutIndexMultiset` |
| CartUpdates.WithoutIndexIsSlice | src/pages/Index.tsx:50-52 | filtering out position `index` equals `cart[..index] + cart[index+1..]` when `index` is a position of the cart; it equals the cart unchanged for a negative or too-large index |
| CartUpdates.WithoutIndexMultiset | src/pages/Index.tsx:51 | a valid removal takes out exactly one occurrence of the entry at that position and keeps every duplicate elsewhere |
| CartUpdates.AppendedFromCatalog | src/pages/Index.tsx:46-48 | appending a catalog bundle to a catalog-only cart keeps it catalog-only |
| CartUpdates.WithoutIndexFromCatalog | src/pages/Index.tsx:50-52 | removing any index from a catalog-only cart keeps it catalog-only |
| Totals.Sum | src/pages/Index.tsx:54-55 | the `reduce` from 0 over one field: 0 for the empty cart, and never less than any single entry's amount. Its behaviour under the handlers is proved in `SumAppended`, `SumWithoutIndex`, `SumConcat` and `SumPermutation` |
| Totals.TotalPrice | src/pages/Index.tsx:54 | `totalPrice`, the fold of `price`: 0 for the empty cart and at least the price of every entry |
| Totals.TotalUC | src/pages/Index.tsx:55 | `totalUC`, the fold of `uc`: 0 for the empty cart and at least the UC of every entry |
| Totals.SumZero | src/pages/Index.tsx:54-55 | the empty cart totals 0; a cart containing an entry with a positive amount has a positive total |
| Totals.SumAppended | src/pages/Index.tsx:54-55 | appending a product raises a total by exactly that product's price or UC, duplicates included |
| Totals.SumConcat | src/pages/Index.tsx:54-55 | both totals are additive over concatenation: Total(a + b) = Total(a) + Total(b) |
| Totals.SumWithoutIndex | src/pages/Index.tsx:54-55 | a valid removal lowers a total by exactly the removed entry's amount; an invalid index leaves it unchanged |
| Totals.SumPermutation | src/pages/Index.tsx:54-55 | two carts with the same entries (as a multiset) have the same totals, whatever the order of adding |
| Totals.CatalogCartTotals | src/pages/Index.tsx:26-33 | a catalog-only cart has totalPrice plus its number of entries <= totalUC, so totalUC > totalPrice when it is non-empty |
| Totals.StarterAndBasicTotals | src/pages/Index.tsx:27-28 | worked example, not a general property: the starter and basic bundles together total 385 UC and 358 roubles |
| CartStore.Cart.constructor | src/pages/Index.tsx:43 | the cart starts empty, with both totals 0 |
| CartStore.Cart.AddToCart | src/pages/Index.tsx:46-48 | the new cart is the old one with the product appended; totalPrice grows by its price and totalUC by its UC; a catalog-only cart stays so when a catalog bundle is added |
| CartStore.Cart.RemoveFromCart | src/pages/Index.tsx:50-52 | the new cart is the old one filtered by position. For a valid index it is the old cart without that slot, and the totals drop by that entry's price and UC. For any other index nothing changes |
| CartStore.Badge | src/pages/Index.tsx:95-98 | the badge is shown exactly when the cart is non-empty, and then shows the number of entries |
| CartStore.Sheet | src/pages/Index.tsx:107-140 | the sheet shows the empty notice exactly when the cart is empty; otherwise one row per entry in cart order, each row's button bound to its own index, then totalUC and totalPrice |
| CartStore.BadgeOrEmptyNotice | src/pages/Index.tsx:95-108 | exactly one of the badge and the empty notice is shown, and two carts with the same number of entries make the same choice for both |
| CartStore.RowRemovesItself | src/pages/Index.tsx:111-127 | each row's trash button removes exactly that row's entry; the sheet's totals then fall by the UC and price the row shows |

## Left out

- JSX rendering, styling and the UI library components (sheet, accordion, card, badge, icons): presentation only. Only the shown/hidden decisions and the contents of the cart sheet are modelled.
- `activeSection` and `scrollToSection`: browser DOM scrolling, which is I/O.
- The `reviews` data and star rendering: display-only constants with no computation.
- The checkout button: it has no handler, so it has no behaviour.
- Discounts, VIP tiers, login/registration and a custom-bundle UC/price calculator: this source file contains none of them, so they are not modelled.
- React state semantics: each handler is an atomic replacement of the latest cart value. The source's handlers close over the `cart` of the last render. So two clicks that land before a re-render would both start from the same value. That is not modelled.
- JavaScript `number`: `uc`, `price` and the totals are unbounded naturals, and ids and indices are integers. Floating-point rounding past 2^53, and a fractional or NaN index passed to `removeFromCart`, are not modelled.
- Product names and bonus strings are carried as data only; they have no effect on any computation.
