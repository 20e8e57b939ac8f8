# Cart-to-order checkout, modelled in Dafny

This project models the checkout workflow of the e-commerce backend. A user
keeps one cart of line items. Checkout turns a non-empty cart into a PENDING
order and then empties the cart. A payment whose amount equals the order's
frozen total moves a PENDING order to PROCESSING.

The state is the `Store.Db` class. It holds the users, the product catalog
(product id to current price), one `Carts.Cart` object per user that has a
cart, the orders keyed by id, and the identity generators of the cart and
order tables. Its `Valid()` invariant says:
- each cart is filed under its own owner, so there is at most one cart per user;
- cart ids are distinct;
- inside a cart there is at most one line per product, and every quantity is at least one;
- every order's frozen total equals the sum of its items' subtotals.

Every service call is a method over `Db`, or a read-only function of it,
and is one atomic step. A call that
fails changes nothing, because the service methods are transactional and roll
back. Money is a Dafny `real`: `BigDecimal` arithmetic is exact and
`compareTo` compares numeric value.

Modules:
- `Common` holds identifiers, money, the Java `int` range, `Option`, `Error` and `Result`.
- `CartItems` holds the line item, its subtotal, the product search and the total.
- `Carts` holds the cart entity and its lifecycle hooks.
- `Orders` holds the order status, orders and their projections.
- `Store` holds the database.
- `CartService` and `OrderService` hold the two services.

The cart mutators are specified by pure functions on a cart's line items
(`WithAdded`, `Removed`, `Requantified`). Lemmas prove what the service
promises about those edits. The methods make the edits in place on the `Cart`
object and are proved to produce exactly those line items.

Adding a product fails with CartNotFound when the user has no cart, and
adding never creates a cart (src/main/java/com/kayllanne/ecommerce/service/CartService.java:59-60).

## Model

| member | source | states |
|---|---|---|
| `Store.Db.Valid` | src/main/java/com/kayllanne/ecommerce/entity/Cart.java:23-25 | the store invariant: each cart is filed under its owner (one cart per user), cart ids are distinct, each cart has one line per product (the composite key of src/main/java/com/kayllanne/ecommerce/entity/CartItem.java:16-27) with quantities of at least one, and every order's stored total equals the sum of its items' subtotals |
| `Carts.Cart.constructor` | src/main/java/com/kayllanne/ecommerce/entity/Cart.java:34-36 | a newly built cart belongs to the given user, has no line items, has createdAt = now and has no updatedAt yet |
| `Carts.Cart.OnCreate` | src/main/java/com/kayllanne/ecommerce/entity/Cart.java:37-43 | on first persist, createdAt becomes the current time; the items and updatedAt are left as they were |
| `Carts.Cart.OnUpdate` | src/main/java/com/kayllanne/ecommerce/entity/Cart.java:44-47 | on every update, updatedAt becomes the current time; the items and createdAt are left as they were |
| `Carts.Cart.Clear` | src/main/java/com/kayllanne/ecommerce/service/OrderService.java:85-86 | emptying the cart at checkout leaves it with no lines and keeps both timestamps |
| `CartItems.Subtotal` | src/main/java/com/kayllanne/ecommerce/entity/CartItem.java:42-44 | a line's subtotal is its stored price times its quantity; every total in the model is a sum of these |
| `CartItems.Find` | src/main/java/com/kayllanne/ecommerce/service/CartService.java:66-68 | the search finds a line for the product with no earlier line for it, and finds nothing exactly when no line holds the product |
| `CartItems.Total` | src/main/java/com/kayllanne/ecommerce/service/OrderService.java:55-57 | the cart total is the left fold of the line subtotals from zero, so an empty cart totals 0 |
| `CartItems.TotalPositive` | src/main/java/com/kayllanne/ecommerce/service/OrderService.java:55-57 | when every price is positive (the catalog requires at least 0.01) and every quantity is at least one, a cart with lines has a positive total |
| `CartService.ItemView` | src/main/java/com/kayllanne/ecommerce/service/CartService.java:164-173 | a line's view carries the line's product, quantity and stored price, and a subtotal equal to price × quantity |
| `CartService.ViewsTotalIsTotal` | src/main/java/com/kayllanne/ecommerce/service/CartService.java:151-153 | summing the views' subtotals gives the sum of price × quantity over the lines the views came from |
| `CartService.CartResponse` | src/main/java/com/kayllanne/ecommerce/service/CartService.java:146-163 | the cart view has one item per line, in order, and a total equal to the sum of the line subtotals, which is 0 for an empty cart |
| `CartService.WithAdded` | src/main/java/com/kayllanne/ecommerce/service/CartService.java:66-84 | the add edit: the found line gets quantity old + requested and the current price, otherwise a line is appended, so the line count stays the same or grows by exactly one (the lemmas below state the rest) |
| `CartService.AddExistingIncrements` | src/main/java/com/kayllanne/ecommerce/service/CartService.java:66-74 | adding a product already in the cart sets its quantity to old + requested and its price to the current price; the line count and all other lines are unchanged, and the total changes by the difference of the two subtotals |
| `CartService.AddNewInserts` | src/main/java/com/kayllanne/ecommerce/service/CartService.java:75-84 | adding a product not in the cart appends exactly one line with the requested quantity, the current price and addedAt = now; no other product's line changes, and the total grows by price × quantity |
| `CartService.AddPreservesWellFormed` | src/main/java/com/kayllanne/ecommerce/entity/CartItem.java:16-33 | after an add, the cart still has one line per product and every quantity is at least one |
| `CartService.Removed` | src/main/java/com/kayllanne/ecommerce/service/CartService.java:100-105 | the remove edit: the found line is dropped, so the line count shrinks by exactly one when the product has a line |
| `CartService.RemovedDeletesOnly` | src/main/java/com/kayllanne/ecommerce/service/CartService.java:100-107 | removal deletes exactly the product's line: one line fewer, the product is no longer found, every other line is unchanged, and the total drops by the removed subtotal |
| `CartService.RemovedPreservesWellFormed` | src/main/java/com/kayllanne/ecommerce/service/CartService.java:105 | after a removal, the cart still has one line per product with positive quantities |
| `CartService.Requantified` | src/main/java/com/kayllanne/ecommerce/service/CartService.java:124-130 | the set-quantity edit: the found line gets the new quantity and the current price in place, so the line count is unchanged |
| `CartService.RequantifiedSetsExactly` | src/main/java/com/kayllanne/ecommerce/service/CartService.java:124-132 | setting a positive quantity makes it exactly the new value (not an increment) and re-prices the line from the product; other lines are unchanged, and the total changes by the difference of the old and new subtotals |
| `CartService.RequantifiedPreservesWellFormed` | src/main/java/com/kayllanne/ecommerce/service/CartService.java:124-130 | setting a quantity of at least one keeps one line per product and every quantity at least one |
| `CartService.AddTwiceAccumulates` | src/main/java/com/kayllanne/ecommerce/service/CartService.java:66-84 | adding q1 and then q2 of a product that was not in the cart leaves one line with quantity q1 + q2 and the price seen by the second add |
| `CartService.JavaIntAdd` | src/main/java/com/kayllanne/ecommerce/service/CartService.java:73 | Java `int` addition equals the exact sum when the sum fits in 32 bits, and wraps by 2^32 when it does not |
| `CartService.IncrementAsWrittenOverflows` | src/main/java/com/kayllanne/ecommerce/service/CartService.java:73 | the source's increment turns a line with quantity 2147483647, when 1 more is added, into quantity -2147483648 with a negative subtotal |
| `CartService.GetOrCreateCart` | src/main/java/com/kayllanne/ecommerce/service/CartService.java:36-51 | an unknown user gives NotFound and changes nothing; an existing cart is returned unchanged; otherwise a fresh empty cart with a new id and createdAt = now is filed under the user |
| `CartService.GetOrCreateCartTwice` | src/main/java/com/kayllanne/ecommerce/service/CartService.java:41-49 | two calls in a row for a registered user both succeed and return the same cart id |
| `CartService.AddProductToCart` | src/main/java/com/kayllanne/ecommerce/service/CartService.java:54-89 | NotFound for a missing user, cart or product, in that order, with nothing changed and no cart created; otherwise the cart's lines become `WithAdded` with the current price, updatedAt = now, the view of the resulting line is returned, and other carts are untouched |
| `CartService.AddLine` | src/main/java/com/kayllanne/ecommerce/service/CartService.java:66-87 | the in-place edit on the cart object produces exactly `WithAdded`, keeps one line per product with positive quantities, returns the resulting line and stamps updatedAt = now |
| `CartService.RemoveProductFromCart` | src/main/java/com/kayllanne/ecommerce/service/CartService.java:92-108 | NotFound for a missing user, cart or line, with nothing changed; otherwise the lines become `Removed` and updatedAt = now, and other carts are untouched |
| `CartService.RemoveLine` | src/main/java/com/kayllanne/ecommerce/service/CartService.java:105-107 | the in-place removal produces exactly `Removed`, keeps the cart well formed and stamps updatedAt = now |
| `CartService.UpdateCartItemQuantity` | src/main/java/com/kayllanne/ecommerce/service/CartService.java:111-134 | a quantity ≤ 0 has exactly removeProductFromCart's outcomes and returns no line; a positive quantity fails on a missing user, cart or line, and otherwise the lines become `Requantified` with that exact quantity and the current price |
| `CartService.SetLine` | src/main/java/com/kayllanne/ecommerce/service/CartService.java:129-132 | the in-place overwrite produces exactly `Requantified`, keeps the cart well formed, returns the resulting line and stamps updatedAt = now |
| `CartService.GetCart` | src/main/java/com/kayllanne/ecommerce/service/CartService.java:136-145 | NotFound for a missing user or cart; otherwise the view of the cart, whose total is the sum of its line subtotals; reading changes nothing |
| `Orders.ItemResponse` | src/main/java/com/kayllanne/ecommerce/service/OrderService.java:178-188 | an order item's view carries its product, quantity and price, and a subtotal equal to price × quantity |
| `Orders.OrderResponse` | src/main/java/com/kayllanne/ecommerce/service/OrderService.java:163-176 | the order view reports the stored total and status without recomputing them, and has one item view per order item |
| `OrderService.SnapshotItems` | src/main/java/com/kayllanne/ecommerce/service/OrderService.java:68-80 | succeeds exactly when every line's product is still in the catalog, and then returns one order item per line with that line's quantity and stored price; otherwise it reports the first missing product |
| `OrderService.ToOrderItem` | src/main/java/com/kayllanne/ecommerce/service/OrderService.java:74-79 | an order item copies its cart line's product and quantity, and its subtotal equals the line's subtotal, because the stored cart price is copied rather than the current catalog price |
| `OrderService.SnapshotTotal` | src/main/java/com/kayllanne/ecommerce/service/OrderService.java:55-80 | the order items copied from a cart add up to the cart total that the order freezes |
| `OrderService.CreateOrderFromCart` | src/main/java/com/kayllanne/ecommerce/service/OrderService.java:43-89 | NotFound for a missing user or cart, an empty-cart error, or NotFound for a vanished product, each with nothing changed; otherwise a PENDING order for the user under a fresh id, total = cart total, items copied from the lines; the cart is kept with no lines, and other carts and existing orders are unchanged |
| `OrderService.InsertOrder` | src/main/java/com/kayllanne/ecommerce/service/OrderService.java:59-66 | saving an order stores it under the next identity value, which was unused, advances the generator, and changes nothing else |
| `OrderService.GetOrderById` | src/main/java/com/kayllanne/ecommerce/service/OrderService.java:90-95 | succeeds exactly when the id is stored, and then reports that order's owner, total and status |
| `OrderService.OrdersIn` | src/main/java/com/kayllanne/ecommerce/service/OrderService.java:96-111 | lists exactly the orders in the id range that belong to the requested owner, by increasing id, each once |
| `OrderService.GetUserOrders` | src/main/java/com/kayllanne/ecommerce/service/OrderService.java:96-104 | NotFound for an unknown user; otherwise every order of that user appears, once each, and nothing else appears |
| `OrderService.GetAllOrders` | src/main/java/com/kayllanne/ecommerce/service/OrderService.java:105-111 | every stored order appears, once each |
| `OrderService.UpdateOrderStatus` | src/main/java/com/kayllanne/ecommerce/service/OrderService.java:112-119 | NotFound for an unknown id, with nothing changed; otherwise the status becomes the requested value whatever it was, and total, items, owner and date are untouched |
| `OrderService.Reconcile` | src/main/java/com/kayllanne/ecommerce/service/OrderService.java:120-162 | SUCCESS exactly when the amount equals the stored total and the order is PENDING, in which case the new status is PROCESSING and a transaction id is returned; a mismatched amount fails with no transaction id; any failure leaves the status as it was |
| `OrderService.RetryAfterSuccessFails` | src/main/java/com/kayllanne/ecommerce/service/OrderService.java:137-151 | repeating a successful payment fails, reporting that the order is no longer PENDING |
| `OrderService.ProcessPayment` | src/main/java/com/kayllanne/ecommerce/service/OrderService.java:120-162 | NotFound for an unknown order, with nothing changed; otherwise the reply is `Reconcile` of the stored order, the stored status becomes the reply's new status, and a FAILED reply changes no order |
| `OrderService.PayTwice` | src/main/java/com/kayllanne/ecommerce/service/OrderService.java:137-151 | of two payment attempts on one order, made one after the other, at most one succeeds |

## Findings

| source | as written | input that shows it | evidently intended | confidence | as-written member | corrected member |
|---|---|---|---|---|---|---|
| src/main/java/com/kayllanne/ecommerce/service/CartService.java:73 | the existing quantity and the requested quantity are added as Java `int`s, which wrap past 2147483647 | a line holding 2147483647 units, then add 1 more: the stored quantity becomes -2147483648 and the line's subtotal and the cart total turn negative | the quantity becomes the exact sum, so it stays at least one | not executed; high | `CartService.IncrementAsWrittenOverflows` | `CartService.AddExistingIncrements` |

The rest of the model uses the exact sum: `WithAdded` adds unbounded
integers, and `AddPreservesWellFormed` proves that every quantity stays at
least one.

## Left out

- Product name and image URL are not in the line and order-item views. They come from the catalog entity, and the model's catalog keeps only prices.
- Order-item ids are not modelled. Orders and their items are values in the `Db.orders` map.
- Order.java, OrderItem.java, Product.java and the exception classes are not part of this model. Their fields are taken from how OrderService uses them, and an order item's subtotal is taken to be price × quantity, like a cart line's.
- Clock readings and the UUID transaction id are parameters (`now`, `transactionId`). Each call reads one clock value, so the explicit `setUpdatedAt` and the `@PreUpdate` hook store the same time.
- The payment method is passed through unchanged. The card details are not used, and their 255-character limit and the non-blank payment-method rule are not modelled.
- Concurrency and isolation are not modelled. Each service method is one atomic step, and `PayTwice` shows the sequential case only.
- Each cart's hash set of line items is a sequence, and a new line is appended at the end. The set's iteration order, and so the order of views and order items, is unspecified in the source.
- A line item is a value that the mutators replace inside its cart's sequence, where the source calls `setQuantity`/`setPrice` on the entity. Each line belongs to exactly one cart, so no aliasing is lost.
- `Carts.Cart.OnCreate`: the null-guard on the item set is not modelled. A sequence cannot be null, and the builder already supplies an empty set.
- `CartService.UpdateCartItemQuantity`: the source re-reads the price through the line's product reference. When that product is no longer in the catalog map, the model returns ProductNotFound. This stands in for the persistence layer's failure on a dangling reference.
- `OrderService.CreateOrderFromCart`: the cart's updatedAt is left as it was. The code sets it nowhere, and whether clearing the mapped-by item collection fires `@PreUpdate` is persistence-provider behaviour.
- `OrderService.CreateOrderFromCart`: the source saves the order before the product checks and relies on rollback. The model runs the checks first and writes only on success, which is observably the same. Identity values used up by a rolled-back insert are not modelled.
- Failure messages are the datatypes `Error` and `PaymentMessage`, not the source's text.
- Controllers, authentication, the exception-to-HTTP mapping, and the product, category and user services are outside this model. Users are a set of names, and the catalog is a map that the catalog subsystem may change between calls.
