# Cart aggregate of ecommerce-go, in Dafny

This project models the shopping-cart core of the ecommerce-go backend. The
core has two layers.

- **The MySQL cart repository.** It keeps a Cart table (id, user, stored total,
  active flag) and a CartItem table (id, cart, product, quantity, unit price).
  Its methods are CreateCart, GetCartByUserID, AddItemToCart, RemoveItemFromCart,
  UpdateCartItem, GetCartItems, ClearCart, DeleteCart and UpdateCartTotal.
- **The cart HTTP handlers.** They validate a parsed request, call the
  repository, read the cart back, and project it into a response with
  `buildCartResponse`.

The database is an immutable value (`CartStore.Store`). It holds both tables,
each as a sequence of rows in insertion order, and the next identity each
auto-increment column hands out.
Each SQL statement is given its row-level meaning:

- A `WHERE` clause is data (`Key`). One `Filter` serves as `SELECT` (rows kept)
  and as `DELETE` (rows left behind).
- None of the repository's queries has an `ORDER BY`, so SQL leaves the row
  order open. The model fixes one: a query returns rows in insertion order, and
  a single-row query reads the first matching row in that order (`Find`,
  `FindActive`).
- `SUM(Quantity*Price)` is a one-pass aggregate (`SumWhere`).
- "Rows affected" is the number of rows matched.

Each repository method is a pure function from a store and its arguments to a
result or an error, together with the store it leaves (`Outcome`). Each
handler maps a store and a parsed request to a reply (status code plus the
response or the error text) and the store it leaves.

Money is integer cents, so every sum is exact.

The central invariant is `Consistent`. A store is consistent when:

- identities are below their counters;
- a cart holds at most one line per product;
- quantities are positive;
- every line belongs to an existing cart;
- every stored total equals quantity × price summed over the cart's lines.

Every handler preserves this invariant. So every store reachable from an empty
database by any sequence of requests is consistent (`ReachableStoresAreConsistent`).

Modules and files:

- `wrappers.dfy`: `Option` and `Result`.
- `domain.dfy`: the `Cart` and `CartItem` records, with line subtotals, amounts
  and unit counts.
- `store.dfy`: the two tables and the meaning of each SQL statement.
- `repository.dfy`: the repository methods.
- `properties.dfy`: invariant preservation, idempotence, read-after-write, and
  merge-on-add over any number of adds.
- `handler.dfy`: the request guards, the response projection and the six handlers.
- `service_properties.dfy`: properties of responses, handler success
  conditions, sequences of requests, and a worked two-add example.

Three behaviours of the code are worth stating plainly:

- The repository's `AddItemToCart` validates neither quantity nor price. Only
  the add handler's guard (cart_handler.go:136) does. So `AddItemToCart`
  accepts any quantity, and it fails only when a merge yields a non-positive
  quantity, through `UpdateCartItem`.
- The remove and update handlers answer a missing line with 400
  (cart_handler.go:200 and :248), and a missing cart with 404 and the text
  "Cart not found".
- `CreateCart` makes no uniqueness check for active carts, so a user may own
  several. `GetCartByUserID` then reads one of them, and SQL does not say
  which; the model takes the earliest inserted.

## Model

| member | source | states |
|---|---|---|
| CartStore.Filter | infrastructure/mysql/cartRepository.go:179-202 | A row is selected exactly when it is in the table and its match against the clause equals `keep`. When every row has that match, the result is the whole table unchanged. |
| CartStore.FilterAppend | infrastructure/mysql/cartRepository.go:187-195 | In the model's insertion order, appending one row extends the selection by that row exactly when it matches, and leaves the earlier selection as it was. |
| CartStore.Find | infrastructure/mysql/cartRepository.go:81-85 | The single-row query reads a matching row, taken as the first in insertion order. It reads nothing exactly when no row matches. |
| CartStore.SetQuantity | infrastructure/mysql/cartRepository.go:149-150 | `UPDATE ... SET Quantity` changes the quantity of every matching row. It leaves every other field and every other row as it was. |
| CartStore.SumWhere | infrastructure/mysql/cartRepository.go:247-251 | The `COALESCE(SUM(Quantity*Price),0)` aggregate equals quantity × price summed over the rows the same clause selects. It is 0 when none match. |
| CartStore.FindActive | infrastructure/mysql/cartRepository.go:58-59 | Gives a cart row of the user with IsActive set, taken as the first in insertion order. It gives none exactly when the user has no active row. |
| CartStore.SetTotal | infrastructure/mysql/cartRepository.go:256-257 | Only the rows with the given id get the new total. Every other row is unchanged. |
| CartStore.DropCart | infrastructure/mysql/cartRepository.go:228-229 | Exactly the rows with the given id are deleted. The table keeps its length exactly when no row had that id. |
| CartStore.DropCartAppend | infrastructure/mysql/cartRepository.go:228-229 | The rows left behind keep their order and multiplicity: with one more row at the end, the survivors are the earlier survivors followed by that row exactly when its id differs. |
| CartRepository.CreateCart | infrastructure/mysql/cartRepository.go:33-51 | Appends exactly one row: active, total 0, with the identity the auto-increment counter hands out, which then advances by one. The returned cart has no items. Items and other rows are unchanged. No check is made against another active cart of the user. |
| CartRepository.GetCartItems | infrastructure/mysql/cartRepository.go:179-202 | Returns exactly the lines whose cart id is the given one, each once, as the `WHERE CartID = ?` selection in insertion order. |
| CartRepository.GetCartByUserID | infrastructure/mysql/cartRepository.go:55-76 | Fails with "cart not found" exactly when the user has no active cart. Otherwise returns the user's first active row in insertion order, with that cart's lines exactly as `GetCartItems` reads them. |
| CartRepository.UpdateCartTotal | infrastructure/mysql/cartRepository.go:247-259 | Only the target cart's total changes, to the sum over its current lines. Lines and counters are unchanged. |
| CartRepository.UpdateCartItem | infrastructure/mysql/cartRepository.go:144-176 | A quantity ≤ 0 fails, leaving the store unchanged. A missing line fails with "item not found in cart", leaving the store unchanged. Otherwise only the matching line's quantity changes; the line comes back with its id, product and price intact, and the total is recomputed. |
| CartRepository.AddItemToCart | infrastructure/mysql/cartRepository.go:79-118 | A product not yet in the cart is appended as a new line with the given quantity, price and next id. A present product gets quantity existing + q with its stored price kept and the supplied price ignored. Either way the total is recomputed. A merge to a quantity ≤ 0 fails and changes nothing. |
| CartRepository.RemoveItemFromCart | infrastructure/mysql/cartRepository.go:121-141 | Fails with "item not found in cart", changing nothing, exactly when no line matches. Otherwise the lines left are exactly the non-matching ones, in their order, and the total is recomputed. |
| CartRepository.ClearCart | infrastructure/mysql/cartRepository.go:205-216 | Deletes exactly the cart's lines, leaving every other line in its order, and sets that cart's total to 0. Every other row is untouched. |
| CartRepository.DeleteCart | infrastructure/mysql/cartRepository.go:219-244 | In both outcomes, the cart's lines and its row are gone, and every other line and cart row remains in its order. It fails with "cart not found" exactly when no row had the id; by then the lines are already purged. |
| CartProperties.CreateCartIsFresh | infrastructure/mysql/cartRepository.go:33-51 | In a consistent store, the new cart's identity differs from every existing cart's, and no line refers to it. |
| CartProperties.CreateCartKeepsConsistent | infrastructure/mysql/cartRepository.go:33-51 | Creating a cart preserves the store invariant. |
| CartProperties.CreateThenGet | infrastructure/mysql/cartRepository.go:33-76 | A user without an active cart who creates one then reads back exactly that cart: empty, total 0, active. |
| CartProperties.ReadTotalIsRecomputed | infrastructure/mysql/cartRepository.go:55-76 | In a consistent store, the total read with a cart equals quantity × price summed over the lines read with it. |
| CartProperties.AddItemKeepsOneLine | infrastructure/mysql/cartRepository.go:81-98 | An add never creates a second line for a (cart, product) pair. |
| CartProperties.AddItemKeepsConsistent | infrastructure/mysql/cartRepository.go:79-118 | Adding a positive quantity to an existing cart preserves the store invariant. This includes the recomputed total of the cart. |
| CartProperties.UpdateCartItemKeepsConsistent | infrastructure/mysql/cartRepository.go:144-176 | Setting a line's quantity, or failing to, preserves the store invariant. |
| CartProperties.RemoveItemKeepsConsistent | infrastructure/mysql/cartRepository.go:121-141 | Removing a line, or failing to, preserves the store invariant. |
| CartProperties.RemoveDeletesOneLine | infrastructure/mysql/cartRepository.go:121-141 | With one line per product, a successful removal deletes exactly one row. |
| CartProperties.UpdateCartTotalKeepsConsistent | infrastructure/mysql/cartRepository.go:247-259 | Recomputing a total preserves the store invariant. |
| CartProperties.ClearCartKeepsConsistent | infrastructure/mysql/cartRepository.go:205-216 | Clearing a cart preserves the store invariant. |
| CartProperties.DeleteCartKeepsConsistent | infrastructure/mysql/cartRepository.go:219-244 | Deleting a cart, whether or not its row existed, preserves the store invariant. |
| CartProperties.ClearCartIdempotent | infrastructure/mysql/cartRepository.go:205-216 | Clearing a cart twice leaves the same store as clearing it once. |
| CartProperties.ClearThenGet | infrastructure/mysql/cartRepository.go:205-216 | After the reader's cart is cleared, it reads back as the same cart with no lines and total 0. |
| CartProperties.AddNewProductGrowsCart | infrastructure/mysql/cartRepository.go:95-109 | When the stored totals are current, adding a product the cart does not hold raises the cart's stored total by quantity × price and its units by the quantity. |
| CartProperties.MergeAccumulates | infrastructure/mysql/cartRepository.go:85-89 | Once a line exists, any number of positive adds leave it at the same position and add up their quantities into it. Its price never changes. |
| CartProperties.RepeatedAddsMerge | infrastructure/mysql/cartRepository.go:79-118 | Adding one product n ≥ 1 times to a cart without it leaves exactly one first-matching line. That line has the first add's identity and price and the sum of all the quantities. |
| CartHandler.BuildLoop | application/cart/cart_handler.go:318-327 | After the loop, the lines built so far come first, followed by one response line per remaining item in order. The unit counter has grown by the remaining quantities. |
| CartHandler.BuildCartResponse | application/cart/cart_handler.go:314-336 | The response has one line per item, in order, with id, product, quantity and price copied and subtotal quantity × price. TotalAmount is copied from the cart, not recomputed. TotalItems is the sum of the quantities. |
| CartHandler.CreateCartHandler | application/cart/cart_handler.go:46-84 | Always answers 201 with an empty cart of the user: the id of the cart just created, no lines, total 0, 0 units. |
| CartHandler.GetCartHandler | application/cart/cart_handler.go:87-119 | Never changes the store. Answers 404 "cart not found" exactly when the user has no active cart. Otherwise it answers 200 with the response built from the cart read. |
| CartHandler.AddToCartHandler | application/cart/cart_handler.go:122-168 | `ValidAdd` is the guard at :136. A request with a zero id, quantity ≤ 0 or price ≤ 0 is refused with 400 before the store is touched. A user without a cart gets 404 and an unchanged store. Otherwise the store is the one the add leaves. A 200 answer carries the response built from the user's cart as read back from that store. |
| CartHandler.RemoveFromCartHandler | application/cart/cart_handler.go:171-216 | `ValidRemove` is the guard at :185. A request with a zero id is refused with 400 before the store is touched. A missing cart gets 404 and a missing line gets 400; in both cases the store is unchanged. A 200 answer carries the response built from the user's cart as read back after the removal. |
| CartHandler.UpdateCartItemHandler | application/cart/cart_handler.go:219-264 | `ValidUpdate` is the guard at :233. A request with a zero id or quantity ≤ 0 is refused with 400 before the store is touched. A missing cart gets 404 and a missing line gets 400; in both cases the store is unchanged. A 200 answer carries the response built from the user's cart as read back after the update. |
| CartHandler.ClearCartHandler | application/cart/cart_handler.go:267-311 | Answers 404 exactly when the user has no active cart, and then changes nothing. Otherwise it clears that cart and always answers with no lines, total 0 and 0 units. |
| ServiceProperties.TotalItemsCountsUnits | application/cart/cart_handler.go:316-326 | With positive quantities, TotalItems is at least the number of lines. It equals that number exactly when every line holds one unit. |
| ServiceProperties.SubtotalsAddUp | application/cart/cart_handler.go:318-325 | The subtotals shown on a response add up to quantity × price over the cart's lines. |
| ServiceProperties.ReadBackTotalsAgree | application/cart/cart_handler.go:107-114 | Read from a consistent store, a cart response's total equals the sum of the subtotals it shows. |
| ServiceProperties.AddToCartHandlerKeepsConsistent | application/cart/cart_handler.go:122-168 | The add handler preserves the store invariant for every request. |
| ServiceProperties.RemoveFromCartHandlerKeepsConsistent | application/cart/cart_handler.go:171-216 | The remove handler preserves the store invariant for every request. |
| ServiceProperties.UpdateCartItemHandlerKeepsConsistent | application/cart/cart_handler.go:219-264 | The update handler preserves the store invariant for every request. |
| ServiceProperties.ClearCartHandlerKeepsConsistent | application/cart/cart_handler.go:267-311 | The clear handler preserves the store invariant for every request. |
| ServiceProperties.GuardedAddLands | application/cart/cart_handler.go:136-155 | With positive stored quantities, every request past the add guard succeeds in the repository, on the line of that cart and product, which then holds at least the units asked for. |
| ServiceProperties.GuardedUpdateMissesOnlyLines | application/cart/cart_handler.go:233-250 | Past the update guard, the repository refuses an update only when the cart holds no line for the product. |
| ServiceProperties.AddToCartSucceeds | application/cart/cart_handler.go:141-166 | On a consistent store, a valid add for a user with a cart always answers 200 with that cart, and its total equals the sum of its subtotals. |
| ServiceProperties.UpdateSucceedsIffLineExists | application/cart/cart_handler.go:238-257 | For a valid update of a user with a cart, the answer is 200 exactly when the cart holds a line for the product. |
| ServiceProperties.RemoveSucceedsIffLineExists | application/cart/cart_handler.go:190-209 | For a valid removal of a user with a cart, the answer is 200 exactly when the cart holds a line for the product. |
| ServiceProperties.TwoAddsExample | application/cart/cart_handler.go:141-166 | From an empty database, user 7 creates a cart, then adds 2 × product 10 at 9.99 and 3 × product 10 at 5.00. The second add answers with one line: quantity 5, price 9.99, subtotal 49.95, total 49.95, 5 units. |
| ServiceProperties.HandleKeepsConsistent | application/cart/cart_handler.go:46-311 | Every kind of request preserves the store invariant. |
| ServiceProperties.ServeKeepsConsistent | application/cart/cart_handler.go:46-311 | Any sequence of requests, served one at a time, preserves the store invariant. |
| ServiceProperties.ReachableStoresAreConsistent | infrastructure/mysql/cartRepository.go:247-259 | In every store reachable from an empty database, each stored total equals its recomputed sum. No cart has two lines for one product, and no line outlives its cart. |

## Left out

- HTTP method checks, query-string and JSON decoding and encoding, and headers are not modelled. A handler takes an already parsed request, and the errors raised while parsing (400 "Invalid request", "User ID required", "Invalid user ID", 405) are left out.
- Storage failures are not modelled: the store is infallible. So the storage-error branches of every repository method are absent, and so is the error `UpdateCartTotal` returns but its callers ignore.
- Prices and totals are `float64` in the source and integer cents here, so sums are exact. Float rounding is not modelled.
- Go's 64-bit integers become unbounded integers. Overflow of ids, quantities or the units counter is not modelled.
- Concurrency is not modelled, and neither is the lack of transactions around read-then-write: requests are served one at a time.
- `RowsAffected` is modelled as the number of matched rows. MySQL's default is changed rows. Under that default, an update that writes a line's existing quantity back reports 0 rows and fails with "item not found in cart"; the model does not capture that.
- None of the queries has an `ORDER BY`. Queries are modelled as returning rows in insertion order, and single-row queries as reading the first of them. Another row order, or a different choice among a user's several active carts, is not modelled.
- No foreign-key constraint between CartItem and Cart is modelled, since the schema is not part of this model. So `AddItemToCart` on an unknown cart inserts an orphan line.
- CartProperties.AddItemKeepsConsistent: assumes the cart exists and the quantity is positive, because without a foreign key an add can insert an orphan or non-positive line. The add handler guarantees both conditions, and `ServiceProperties.AddToCartHandlerKeepsConsistent` holds for every request.
- `DeleteCart` is modelled and proved, but no handler calls it, so no request sequence reaches it.
- The user, product, login, configuration, connection and server-wiring files are not part of this model.
