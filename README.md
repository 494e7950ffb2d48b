# Shop backend services: carts, checkout, cancellation and the catalogue

This project models the business core of a small shop backend: the three Spring
services `OrderService`, `CartService` and `ProductService`. They work over five keyed
tables (products, carts, cart items, orders, order items).

The model's parts:

- **`Entities`** (`entities.dfy`): the records, the error kinds the services throw,
  `Option` for Java's nullable references, and `Result` for "returns a value or throws".
- **`Store`** (`store.dfy`): the database as one class `Db`.
  - Each table is a map from id to row, and the id generators are counters.
  - The DAO calls are methods that report affected row counts, or throw when a
    constraint is broken: the product primary key, the cart session key, the cart-line
    (cart, product) key, the cart-line quantity check and the cart-line foreign key.
  - `refused` names the tables whose inserts and updates report zero rows. This is the
    failing-DAO situation the services guard against.
  - A service call is one transaction. It snapshots the tables and puts them back
    (`Rollback`) when it fails.
- **`Carts`** (`cart_service.dfy`): `CartService`.
- **`Orders`** (`order_service.dfy`): `OrderService`.
  - The checkout loop of `createOrderFromCart` is specified by the left fold `Price`.
  - The restock loop of `cancelOrder` is specified by the left fold `Restock`.
  - The imperative methods are proved equal to these folds. Lemmas then state what the
    folds compute: price snapshots, subtotals, the total, exact stock decrements and
    increments, success conditions, and that a cancel right after a checkout restores
    every stock.
- **`Products`** (`product_service.dfy`): `ProductService`.
  - It includes `String.trim` (strips every character up to U+0020) and the create-time
    validation.

`LocalDateTime.now()` is a `now: Timestamp` parameter of every operation that reads
the clock.

## Model

| member | source | states |
|---|---|---|
| Store.Db.Rollback | backend/src/main/java/com/example/ecbackend/service/OrderService.java:23 | restores every table to the snapshot taken at the start of a transactional call, keeping the store coherent; id counters are not rolled back |
| Store.Db.SelectAllProducts | backend/src/main/java/com/example/ecbackend/dao/ProductDao.java:16-17 | returns exactly the stored products, each the row stored under its id, in strictly ascending id order |
| Store.Db.InsertProduct | backend/src/main/java/com/example/ecbackend/dao/ProductDao.java:22-23 | a null or already used id violates the primary key (nothing stored); a refusing table reports 0 rows; otherwise the row is stored under its id and 1 row is reported |
| Store.Db.UpdateProduct | backend/src/test/java/com/example/ecbackend/dao/ProductDaoTest.java:228-243 | reports 1 row and rewrites the row exactly when a row with that id exists and the table accepts writes; otherwise 0 rows and no change |
| Store.Db.CartOfSessionExact | backend/src/main/java/com/example/ecbackend/dao/CartDao.java:14-15 | the session lookup finds a cart of that session when there is one, and none exactly when no cart has that session id |
| Store.Db.InsertCart | backend/src/test/java/com/example/ecbackend/dao/CartDaoTest.java:81-100 | a second cart for a session is rejected by the unique key with nothing stored; otherwise a cart with a fresh id is stored and the session lookup finds it |
| Store.Db.LinesOfExact | backend/src/main/java/com/example/ecbackend/dao/CartItemDao.java:20-21 | the cart-id query returns exactly the stored lines of that cart, in ascending id order |
| Store.Db.LinesOfSessionExact | backend/src/main/java/com/example/ecbackend/service/CartService.java:25-31 | the lines of a session are exactly the stored lines of its cart, none without a cart, in ascending id order |
| Store.Db.NoLinesOfFreshCart | backend/src/main/java/com/example/ecbackend/service/CartService.java:34-40 | a freshly created cart has no lines |
| Store.Db.AcceptsNewLine | backend/src/test/java/com/example/ecbackend/dao/CartItemDaoTest.java:115-146 | a new line for an existing cart passes the store constraints exactly when its quantity is positive and the cart holds no line for that product |
| Store.Db.InsertCartItem | backend/src/main/java/com/example/ecbackend/dao/CartItemDao.java:26-27 | a line violating the quantity check, the cart foreign key or the (cart, product) key is rejected with nothing stored; otherwise it is stored under a fresh id and appended to its cart's query result |
| Store.Db.UpdateCartItem | backend/src/test/java/com/example/ecbackend/dao/CartItemDaoTest.java:267-293 | an unknown id reports 0 rows; a constraint violation is rejected with no change; otherwise the line is rewritten and 1 row reported |
| Store.Db.DeleteCartItem | backend/src/test/java/com/example/ecbackend/dao/CartItemDaoTest.java:321-332 | removes the line with that id and reports 1 row, or reports 0 when there is none |
| Store.Db.OrdersOfExact | backend/src/main/java/com/example/ecbackend/dao/OrderDao.java:42 | the user-id query returns exactly the stored orders of that user, in ascending id order |
| Store.Db.ItemsOfExact | backend/src/main/java/com/example/ecbackend/dao/OrderItemDao.java:34 | the order-id query returns exactly the stored lines of that order, in ascending id order |
| Store.Db.InsertOrder | backend/src/main/java/com/example/ecbackend/dao/OrderDao.java:18 | a refusing table reports 0 rows and stores nothing; otherwise the header is stored under a fresh id, with no items attached |
| Store.Db.UpdateOrder | backend/src/main/java/com/example/ecbackend/dao/OrderDao.java:26 | reports 1 row and rewrites the header exactly when it exists and the table accepts writes; otherwise 0 rows and no change |
| Store.Db.InsertOrderItem | backend/src/main/java/com/example/ecbackend/dao/OrderItemDao.java:18 | a refusing table reports 0 rows and stores nothing; otherwise the line is stored under a fresh id |
| Store.CartWithSessionExact | backend/src/main/java/com/example/ecbackend/dao/CartDao.java:14-15 | the bounded session scan finds a cart with that session id exactly when one exists below the bound |
| Store.LinesOfCartExact | backend/src/main/java/com/example/ecbackend/dao/CartItemDao.java:20-21 | the bounded cart-id scan returns exactly the lines of that cart below the bound, in ascending id order |
| Store.LinesOfCartAgree | backend/src/main/java/com/example/ecbackend/dao/CartItemDao.java:20-21 | the cart-id query depends only on the rows below its bound |
| Store.LinesOfCartAppend | backend/src/main/java/com/example/ecbackend/service/CartService.java:42-46 | storing a line under the next free id appends it to its own cart's query result and leaves other carts' results unchanged |
| Store.LinesOfCartNone | backend/src/main/java/com/example/ecbackend/service/CartService.java:91-93 | the cart-id query is empty once no line refers to the cart |
| Store.LinesOfOrderExact | backend/src/main/java/com/example/ecbackend/dao/OrderItemDao.java:34 | the bounded order-id scan returns exactly the lines of that order below the bound, in ascending id order |
| Store.LinesOfOrderAgree | backend/src/main/java/com/example/ecbackend/dao/OrderItemDao.java:34 | the order-id query depends only on the rows below its bound |
| Store.LinesOfOrderNone | backend/src/main/java/com/example/ecbackend/dao/OrderItemDao.java:34 | the order-id query is empty when no line refers to the order |
| Store.Tagged | backend/src/main/java/com/example/ecbackend/service/OrderService.java:103-105 | tagging the checkout lines with their order id and consecutive fresh ids keeps one stored line per checkout line |
| Store.TaggedAt | backend/src/main/java/com/example/ecbackend/service/OrderService.java:103-105 | stored line i is checkout line i with id first + i and the order's id |
| Store.LinesOfFiled | backend/src/main/java/com/example/ecbackend/service/OrderService.java:103-109 | after the lines of a new order are stored under fresh ids, the order-id query returns exactly those lines in checkout order |
| Store.FiledBelow | backend/src/main/java/com/example/ecbackend/service/OrderService.java:103-109 | storing the lines under consecutive ids keeps every key below the advanced counter |
| Store.OrdersOfUserExact | backend/src/main/java/com/example/ecbackend/dao/OrderDao.java:42 | the bounded user-id scan returns exactly the orders of that user below the bound, in ascending id order |
| Carts.CartService.GetCartItems | backend/src/main/java/com/example/ecbackend/service/CartService.java:25-31 | no cart gives no lines; otherwise exactly the stored lines whose cart is the session's cart, in id order |
| Carts.CartService.AddToCart | backend/src/main/java/com/example/ecbackend/service/CartService.java:33-48 | reuses the session's cart or creates exactly one; succeeds iff the quantity is positive and the cart has no line for the product; the new line carries the cart, product and quantity and is appended to the session's lines; a failure leaves every table unchanged |
| Carts.CartService.UpdateCartItem | backend/src/main/java/com/example/ecbackend/service/CartService.java:50-63 | fails, in order, with cart not found, item not found, not in this cart, or the store's quantity check, leaving everything unchanged; otherwise only that line's quantity changes |
| Carts.CartService.RemoveFromCart | backend/src/main/java/com/example/ecbackend/service/CartService.java:65-77 | the same three guards in the same order, leaving everything unchanged; otherwise exactly that one line is deleted |
| Carts.CartService.ClearCart | backend/src/main/java/com/example/ecbackend/service/CartService.java:84-95 | no-op without a cart; otherwise deletes every line of the session's cart, keeps the lines of other carts, and leaves the session with no lines |
| Carts.CartService.DeleteLines | backend/src/main/java/com/example/ecbackend/service/CartService.java:91-93 | deletes exactly the lines with the given ids and nothing else |
| Carts.ClearedAll | backend/src/main/java/com/example/ecbackend/service/CartService.java:84-95 | deleting every line a complete cart query returned leaves exactly the lines of the other carts |
| Orders.UnmentionedQty | backend/src/main/java/com/example/ecbackend/service/OrderService.java:68-92 | a product no cart line asks for is asked for in quantity zero |
| Orders.PriceLine | backend/src/main/java/com/example/ecbackend/service/OrderService.java:69-91 | one checkout turn that succeeds adds exactly one order line |
| Orders.Price | backend/src/main/java/com/example/ecbackend/service/OrderService.java:68-92 | a successful checkout has one order line per cart line, and changes no product when the product table ignores writes |
| Orders.PriceKeepsRows | backend/src/main/java/com/example/ecbackend/service/OrderService.java:90-91 | the checkout keeps the same products and rewrites nothing but their stock |
| Orders.PriceStops | backend/src/main/java/com/example/ecbackend/service/OrderService.java:68-77 | the first failing cart line decides the error of the whole checkout |
| Orders.PriceTotal | backend/src/main/java/com/example/ecbackend/service/OrderService.java:87-94 | the order total is the sum of the line subtotals |
| Orders.PriceItems | backend/src/main/java/com/example/ecbackend/service/OrderService.java:80-86 | order line i is for cart line i's product and quantity, its unit price is the product's price and its subtotal is price times quantity |
| Orders.PricePrices | backend/src/main/java/com/example/ecbackend/service/OrderService.java:89-91 | the checkout never changes a price and never adds or removes a product |
| Orders.PriceStock | backend/src/main/java/com/example/ecbackend/service/OrderService.java:75-91 | a successful checkout takes off each product exactly the total quantity the cart asks for, never more than its stock, and leaves other products unchanged |
| Orders.PriceOkIff | backend/src/main/java/com/example/ecbackend/service/OrderService.java:68-92 | for non-negative quantities the checkout succeeds exactly when every product asked for exists, is priced and has stock for its total quantity |
| Orders.MentionsAt | backend/src/main/java/com/example/ecbackend/service/OrderService.java:68-92 | the product of every cart line is one the cart asks for |
| Orders.Restock | backend/src/main/java/com/example/ecbackend/service/OrderService.java:176-182 | the restock can fail only by unboxing a null stock; it changes nothing when the product table ignores writes |
| Orders.RestockKeepsRows | backend/src/main/java/com/example/ecbackend/service/OrderService.java:177-181 | the restock keeps the same products and rewrites nothing but their stock |
| Orders.RestockStops | backend/src/main/java/com/example/ecbackend/service/OrderService.java:176-182 | the first failing order line decides the error of the whole restock |
| Orders.RestockOkIff | backend/src/main/java/com/example/ecbackend/service/OrderService.java:176-182 | the restock succeeds exactly when every order line whose product still exists finds that product with a stock |
| Orders.RestockStock | backend/src/main/java/com/example/ecbackend/service/OrderService.java:176-182 | a successful restock adds back to each existing product exactly the quantity the order holds of it, skips missing products, and leaves others unchanged |
| Orders.UnmentionedItemQty | backend/src/main/java/com/example/ecbackend/service/OrderService.java:176-182 | a product no order line holds is held in quantity zero |
| Orders.RestockCommutes | backend/src/main/java/com/example/ecbackend/service/OrderService.java:176-182 | taking stock off a product commutes with a restock |
| Orders.CancelUndoesCheckout | backend/src/main/java/com/example/ecbackend/service/OrderService.java:158-183 | restocking the lines a checkout produced, on the products it left, returns exactly the products as they were before the checkout |
| Orders.RestockTagged | backend/src/main/java/com/example/ecbackend/service/OrderService.java:176-182 | the restock reads only each line's product and quantity, so the lines as stored under an order, with an order id and fresh ids, restock exactly as the checkout lines do |
| Orders.CancelUndoesOrder | backend/src/main/java/com/example/ecbackend/service/OrderService.java:158-183 | restocking the lines of the order a checkout stored, on the products that checkout left, returns exactly the products as they were before the checkout |
| Orders.PutBack | backend/src/main/java/com/example/ecbackend/service/OrderService.java:179 | putting a line's quantity back on the stock it was taken from restores that product |
| Orders.PriceTurn | backend/src/main/java/com/example/ecbackend/service/OrderService.java:68-92 | one more checkout turn after a successful prefix is the fold over the longer prefix |
| Orders.PriceFailsAt | backend/src/main/java/com/example/ecbackend/service/OrderService.java:68-77 | a failing checkout turn after a successful prefix is the result of the whole checkout |
| Orders.RestockTurn | backend/src/main/java/com/example/ecbackend/service/OrderService.java:176-182 | one more restock turn after a successful prefix is the fold over the longer prefix |
| Orders.RestockFailsAt | backend/src/main/java/com/example/ecbackend/service/OrderService.java:176-182 | a failing restock turn after a successful prefix is the result of the whole restock |
| Orders.FiledNext | backend/src/main/java/com/example/ecbackend/service/OrderService.java:103-109 | storing one more order line stores it under the next id with the order's id |
| Orders.OrderService.Reserve | backend/src/main/java/com/example/ecbackend/service/OrderService.java:68-92 | the checkout loop returns exactly the checkout fold over the cart lines and leaves the products as the fold rewrote them |
| Orders.OrderService.ReserveLine | backend/src/main/java/com/example/ecbackend/service/OrderService.java:69-91 | one turn of the checkout loop fails exactly when the fold's turn does, with the same error, and otherwise yields the same order line, total and stock update |
| Orders.OrderService.File | backend/src/main/java/com/example/ecbackend/service/OrderService.java:103-109 | the item insert loop succeeds iff there are no lines or the table accepts writes; on success the lines are stored under consecutive fresh ids with the order's id |
| Orders.OrderService.Record | backend/src/main/java/com/example/ecbackend/service/OrderService.java:94-109 | a refused header insert fails with failed-to-create-order before any line is stored; a refused line insert fails with failed-to-create-order-item; otherwise a PENDING header with the given user, address, payment and total is stored and its lines are exactly the tagged checkout lines |
| Orders.OrderService.CreateOrderFromCart | backend/src/main/java/com/example/ecbackend/service/OrderService.java:48-115 | an empty cart fails, a checkout error is passed through, a refused header or line insert fails, all with every table unchanged; on success product stock is as the checkout computed, the order and its lines are stored, other carts keep their lines and the session's cart is empty; and cancelling the new order right away would restock every product to exactly its stock before the checkout |
| Orders.OrderService.GetOrderHistory | backend/src/main/java/com/example/ecbackend/service/OrderService.java:123-129 | a null user id fails; otherwise exactly the orders of that user in id order |
| Orders.OrderService.GetOrderById | backend/src/main/java/com/example/ecbackend/service/OrderService.java:138-149 | a missing id fails with order-not-found; otherwise the stored header with exactly its stored lines attached, in id order |
| Orders.OrderService.CancelOrder | backend/src/main/java/com/example/ecbackend/service/OrderService.java:158-183 | fails with order-not-found, not-cancellable for any status but PENDING or PROCESSING, failed-to-cancel when the update reports 0 rows, or a null stock during restock, always with every table unchanged; on success the order becomes CANCELLED with the cancel time and product stock is as the restock fold computes |
| Orders.OrderService.Restore | backend/src/main/java/com/example/ecbackend/service/OrderService.java:176-182 | the restock loop succeeds exactly when the restock fold does, with the same error, and leaves the products the fold computes |
| Products.TrimStart | backend/src/main/java/com/example/ecbackend/service/ProductService.java:95 | drops exactly a leading run of characters up to U+0020, leaving a suffix that is empty or starts with a kept character |
| Products.TrimEnd | backend/src/main/java/com/example/ecbackend/service/ProductService.java:95 | drops exactly a trailing run of characters up to U+0020, leaving a prefix that is empty or ends with a kept character |
| Products.TrimBlank | backend/src/main/java/com/example/ecbackend/service/ProductService.java:95 | a name is empty after trimming exactly when every character of it is at most U+0020 |
| Products.TrimSlice | backend/src/main/java/com/example/ecbackend/service/ProductService.java:95 | the trimmed name is a slice of the original that starts and ends with a kept character, and everything cut off is at most U+0020 |
| Products.TrimIdempotent | backend/src/main/java/com/example/ecbackend/service/ProductService.java:95 | trimming twice gives what trimming once gives |
| Products.CreateCheck | backend/src/main/java/com/example/ecbackend/service/ProductService.java:92-100 | no error exactly when the product is present, its name not blank and its price present and non-negative; otherwise the first failing check: null product, then a null or blank name, then a null or negative price |
| Products.Updated | backend/src/main/java/com/example/ecbackend/service/ProductService.java:68-73 | keeps the id and createdAt, sets updatedAt to now, and copies name, description, price, stock and imageUrl from the argument |
| Products.ProductService.GetAllProducts | backend/src/main/java/com/example/ecbackend/service/ProductService.java:29-31 | exactly the stored products, each under its own id, in ascending id order |
| Products.ProductService.GetProductById | backend/src/main/java/com/example/ecbackend/service/ProductService.java:40-46 | product-not-found for a missing id; otherwise the stored product, which carries that id |
| Products.ProductService.UpdateProduct | backend/src/main/java/com/example/ecbackend/service/ProductService.java:56-82 | fails with null product, null id, product-not-found, or failed-to-update when 0 rows are written, each with every table unchanged; otherwise stores and returns the copied-over product |
| Products.ProductService.CreateProduct | backend/src/main/java/com/example/ecbackend/service/ProductService.java:91-114 | fails first with the validation error, then with the store's key violation for a null or used id, then with failed-to-create when 0 rows are written, each with every table unchanged; otherwise stores and returns the product with createdAt and updatedAt both now |

## Left out

- Java `int` overflow in `price * quantity`, in the running total and in stock arithmetic: integers are unbounded, and the code does not guard against overflow.
- Concurrency and isolation. `@Transactional` is modelled as rollback-on-error for one sequential caller. Id generators are not rolled back, as database sequences are not transactional.
- The SQL behind the Doma DAO interfaces. Each table is a map. The list queries return rows in ascending id order, which is the order of generated identity ids; the repository has no SQL files that fix another order.
- Exception messages. Each exception is an `Error` constructor that carries the value its message shows (product id, product name, status).
- Controllers, the exception handler, `Result.java`, the Doma configuration, the generated DAO and entity code, and `CsvString`: these are HTTP and ORM plumbing.
- Timestamps of carts, cart lines, orders and order lines: the services never set them.
- Null inputs the services pass through unchecked are not modelled. The status of an order is never null, because the services only write the constants. Three inputs that can really be null are dropped:
  - the shipping address and payment method of `createOrderFromCart` are `String` parameters copied onto the order (`OrderService.java:60-61`); here they are plain strings;
  - the `Long productId` of `addToCart`, which comes from the request body; here it is a plain `int`.
- Entity shape. `Product.java` declares only `id`, `name`, `description` and `price`, but the services and the entity tests read and write `stock`, `imageUrl`, `createdAt` and `updatedAt`; the generated `_Product.java` declares the same four. The model's `Product` has all eight fields. `Cart.java` and `CartItem.java` are declared immutable, with final fields and no setters, but `CartService` builds them with no-argument constructors and setters, and it relies on the generated cart id being written back into the new cart. The model follows the services: carts and lines are values that the store creates with their fresh ids, and a line's quantity is rewritten by storing a changed copy.
- Orders.OrderService.GetOrderById: the order id is a plain `int`, so a null `Long` id is not modelled.
- Orders.OrderService.CreateOrderFromCart: the stored and returned order has `items` None, because the code never attaches the built lines to the order it returns. The model follows the code.
- Orders.OrderService.ReserveLine: the order line takes its product id from the cart line rather than from the loaded product. The two are equal because every stored product carries its own key.
- Store.Db.InsertProduct: there is no generated product id. A product whose id is null or already used is rejected as a key violation.
- Store.Db.InsertOrderItem: the order-line foreign key is a precondition. The services only insert lines of an order they have just stored.
- Products.ProductService.CreateProduct: Java stamps the timestamps on the caller's own object and returns it. The model returns the stamped value, so the aliasing is not modelled.
- Products.ProductService.UpdateProduct: the service rewrites the fetched entity in place. The model builds the updated value with `Updated` and stores it.
