# Shopping cart: a Dafny model

This project models a small in-memory shopping cart written in TypeScript.
The model has two parts:

- **The catalog** (`typescript/src/product.ts`). A static table maps the three
  product codes `grape`, `apple` and `orange` to a display name and a unit
  price: 100, 50 and 70. Constructing a `Product` looks up its code and copies
  the name and price. A string that is not one of the table's own keys
  throws.
- **The cart** (`typescript/src/shoppingCart.ts`). A mutable dictionary maps
  each code to a `Stock` (a product and a count). It has three operations:
  - `add` grows an existing entry's count or creates a new entry.
  - `remove` (count 1 by default) shrinks an entry. It deletes the entry only
    when the count becomes exactly 0. On an absent code it is a no-op that
    returns 0.
  - `order` throws on an empty cart. Otherwise it sums the counts and the
    `price * count` of every entry.

## Layout

- `results.dfy`: module `Results`, with `Option` and `Result`. These stand in
  for the source's exceptions.
- `catalog.dfy`: module `Catalog`, pure functions over the static table.
  - `ProductCode` is the closed code type.
  - `Lookup` gives a code's row.
  - `ProductsInfo` is the string-keyed table.
  - `NewProduct` is `new Product(code)` for a code of the closed type, as the
    cart calls it.
  - `NewProductFromKey` is the constructor called with a runtime string,
    including its error path. `NewProductMatchesKey` proves the two agree.
- `shopping_cart.dfy`: module `Cart`. It holds:
  - the `ShoppingCart` class, whose `products` field is a
    `map<ProductCode, Stock>` that the methods reassign in place;
  - the functions `Added` and `Removed`, which specify the new map after each
    method;
  - `Totals`, the sum over all entries taken in an arbitrary key order, and
    the lemmas about these functions.
- `cart_scenarios.dfy`: module `CartScenarios`. These are the concrete
  scenarios of `typescript/src/shoppingCart.spec.ts`, written as methods on
  the class whose postconditions give the expected values.

### Modelling notes

- The cart does no quantity validation. Neither `add` nor `remove` checks the
  sign of the count (shoppingCart.ts:26-41, 61-78), so both take any integer,
  including zero and negative counts.
- `remove` deletes an entry only when its count becomes exactly 0. Taking out
  more than is stored leaves an entry with a negative count, and `remove`
  returns that negative count. So "every count is positive" is not an
  invariant of the class. `Cart.AddedPositive` and `Cart.RemovedPositive`
  state exactly when it is preserved.
- The class invariant `Valid()` says something weaker: every entry holds the
  catalog product of its own code.
- `calcOrder` iterates over `Object.values(products)` in the dictionary's own
  order. `CalcOrder` visits the keys in an arbitrary order (`:|`).
  `Cart.TotalsAnyKey` proves that the result does not depend on that order.

## Model

| member | source | states |
|---|---|---|
| `Catalog.Lookup` | typescript/src/product.ts:22-26 | every code has a row, and every catalog price is positive |
| `Catalog.CatalogRows` | typescript/src/product.ts:22-26 | the table has exactly three keys, `grape`, `apple` and `orange`; their prices are 100, 50 and 70; each key's row is the code's row |
| `Catalog.ParseCode` | typescript/src/product.ts:2 | a string is a valid code exactly when it is a key of the table, and the code it reads as has that string as its key |
| `Catalog.CodesAreCatalogKeys` | typescript/src/product.ts:2 | the valid code set is exactly the table's keys: every code's key is in the table and reads back as that code; a string is in the table iff some code has it as key |
| `Catalog.NewProductMatchesKey` | typescript/src/product.ts:28-35 | `new Product(code)` for a code of the closed type, as the cart calls it, is exactly the successful string-keyed construction from that code's key: same code, and the name and price of its table row |
| `Catalog.NewProductFromKey` | typescript/src/product.ts:28-35 | construction fails with an unknown-product error exactly when the key is not in the table, and then no product is produced; otherwise the product's code is the argument and its name and price are that key's row |
| `Catalog.LineTotalNonNegative` | typescript/src/product.ts:23-25 | with a non-negative count, `price * count` is non-negative for every code |
| `Cart.Added` | typescript/src/shoppingCart.ts:26-41 | after `add`, the code is present; its count is the old count plus `count`, or `count` if it was absent; every other code keeps its entry, or stays absent; well-formedness is kept |
| `Cart.Removed` | typescript/src/shoppingCart.ts:61-78 | for an absent code, the map is unchanged and no entry is created; for a present code, the entry goes exactly when `old - count == 0`, and otherwise holds `old - count`, negative or not; every other code keeps its entry |
| `Cart.TotalsAnyKey` | typescript/src/shoppingCart.ts:118-125 | the order sum is the same whichever entry is taken first, so it does not depend on iteration order |
| `Cart.TotalsAgree` | typescript/src/shoppingCart.ts:118-125 | the order sum over the map equals a code-by-code reference sum over grape, apple and orange |
| `Cart.TotalsOfPositive` | typescript/src/shoppingCart.ts:118-125 | when every count is positive, the item count is at least the number of entries and the total is non-negative |
| `Cart.AddedTotals` | typescript/src/shoppingCart.ts:30-41 | after `add(code, n)` the order has `n` more items and `price * n` more total, where `price` is the code's catalog price |
| `Cart.RemovedTotals` | typescript/src/shoppingCart.ts:65-78 | after `remove(code, n)` on a present code, the order has `n` fewer items and `price * n` less total, whether or not the entry was deleted |
| `Cart.AddedPositive` | typescript/src/shoppingCart.ts:26-41 | given positive counts, `add` keeps them positive iff the code's new count is positive: `stored + count > 0` for a present code, `count > 0` for a new one; otherwise the entry is left at zero or below and never deleted, because nothing is validated |
| `Cart.RemovedPositive` | typescript/src/shoppingCart.ts:61-78 | given positive counts, `remove` keeps them positive iff the code is absent or `count <= stored`; removing more leaves a non-positive entry |
| `Cart.RemoveUndoesAdd` | typescript/src/shoppingCart.ts:26-78 | `remove(code, n)` right after `add(code, n)` restores the cart, except when the code was stored with count 0; that entry is then deleted |
| `Cart.ShoppingCart.constructor` | typescript/src/shoppingCart.ts:16-18 | a new cart is empty |
| `Cart.ShoppingCart.Add` | typescript/src/shoppingCart.ts:26-41 | the new map is `Added(old map, code, count)`, and the result is the code's new stored count |
| `Cart.ShoppingCart.Remove` | typescript/src/shoppingCart.ts:61-78 | the count defaults to 1; the new map is `Removed(old map, code, count)`; the result is the code's remaining count, or 0 if the code is absent or its entry was deleted |
| `Cart.ShoppingCart.PlaceOrder` | typescript/src/shoppingCart.ts:100-105 | fails with the empty-cart error exactly when the cart has no entry; otherwise returns the sum of counts and of `price * count` over all entries; the cart is not modified |
| `Cart.ShoppingCart.CalcOrder` | typescript/src/shoppingCart.ts:118-125 | the loop, visiting entries in any order, returns the sum of counts and of `price * count` over all entries |
| `CartScenarios.AddThenRemove` | typescript/src/shoppingCart.spec.ts:11-27 | on a fresh cart, `add(code, a)` returns `a`; then `remove(code, r)` returns `a - r` (rows (2,1)→1, (3,3)→0, (10,5)→5), and the entry is gone exactly when `a == r` |
| `CartScenarios.RemoveDefaultsToOne` | typescript/src/shoppingCart.ts:61 | `remove` with no count after adding 2 leaves 1 |
| `CartScenarios.OrderEmpty` | typescript/src/shoppingCart.ts:101-103 | ordering from a fresh cart fails with the empty-cart error |
| `CartScenarios.OrderApples` | typescript/src/shoppingCart.spec.ts:30-37 | apple 3 three times orders {9, 450} |
| `CartScenarios.OrderMixed` | typescript/src/shoppingCart.spec.ts:38-45 | apple 20, grape 4, orange 8 orders {32, 1960} |
| `CartScenarios.OrderGrapesAndOranges` | typescript/src/shoppingCart.spec.ts:46-52 | grape 3, orange 9 orders {12, 930} |
| `CartScenarios.OrderAfterRemovingAll` | typescript/src/shoppingCart.ts:70-75 | an entry removed down to exactly 0 is deleted and not counted by a later order |

## Left out

- Quantity validation: the cart code has none, so the model has none. Zero
  and negative counts are accepted by `add` and `remove`, as in the source.
- The unknown-code error at the cart level: the cart takes the closed code
  type, so `add` cannot reach the constructor's error. That error is modelled
  once, on the string-keyed `Catalog.NewProductFromKey`.
- Aliasing of `Stock` objects: the source mutates the `Stock` object stored in
  the public `products` dictionary (`count +=`, `count -=`). The model stores
  `Stock` as a value and replaces the map entry. A caller holding a reference
  to a `Stock` object would see the change in the source; the model does not
  capture this.
- Iteration order of `Object.values`: modelled as an arbitrary order, which
  the sums provably do not depend on.
- Catalog.NewProductFromKey: inherited object keys are not modelled. In the
  source, `Product.productsInfo[code]` also finds members of
  `Object.prototype` ("toString", "constructor", "valueOf", "hasOwnProperty",
  "__proto__"); for those keys nothing is thrown and the product gets an
  undefined price. The model treats every string outside the table's own
  keys as unknown and returns the unknown-product error.
- JavaScript `number` semantics (floating point, precision loss on very large
  values): counts and prices are unbounded integers.
- Display names and error message text: the names are kept as opaque strings,
  and the errors are constructors of a `Result`.
- The commented-out earlier versions of `add`, `remove` and the inline sum in
  `order`: dead code that duplicates the live logic.
