/** Records of the shop backend (products, carts, orders), the error kinds the
    services raise, and the two wrapper types used for Java's nullable values
    and thrown exceptions. */
module Entities {

  /** A Java reference that may be null. */
  datatype Option<+T> = None | Some(value: T)

  /** The outcome of a service or store call: a value, or the exception it throws. */
  datatype Result<+T> = Ok(value: T) | Err(error: Error)

  /** An instant as produced by `LocalDateTime.now()`; the clock is an input of every
      operation that reads it. */
  type Timestamp = int

  /** The exceptions the core throws, one constructor per distinct condition. */
  datatype Error =
    // OrderService
    | EmptyCart                          // "Cannot create order from empty cart"
    | ProductNotFound(productId: int)    // "Product not found with id: N"
    | InsufficientStock(name: Option<string>)  // "Insufficient stock for product: NAME"
    | CreateOrderFailed                  // "Failed to create order"
    | CreateOrderItemFailed              // "Failed to create order item"
    | NullUserId                         // "User ID cannot be null"
    | OrderNotFound(orderId: int)        // "Order not found with id: N"
    | NotCancellable(status: string)     // "Cannot cancel order with status: S"
    | CancelFailed                       // "Failed to cancel order"
    // CartService
    | CartNotFound                       // "Cart not found"
    | CartItemNotFound                   // "Cart item not found"
    | NotInCart                          // "Cart item does not belong to this cart"
    // ProductService
    | NullProduct                        // "Product cannot be null"
    | NullProductId                      // "Product ID cannot be null"
    | BlankName                          // "Product name cannot be empty"
    | InvalidPrice                       // "Product price must be a non-negative value"
    | UpdateProductFailed(productId: int) // "Failed to update product with id: N"
    | CreateProductFailed                // "Failed to create product"
    // raised below the services
    | NullValue                          // NullPointerException: a null Integer is unboxed
    | IntegrityViolation                 // the store rejects a row (unique, foreign key, check)

  /** A catalogue entry. Every field is a nullable Java object; `stock` and
      `imageUrl` are the columns the services and entity tests use. */
  datatype Product = Product(
    id: Option<int>,
    name: Option<string>,
    description: Option<string>,
    price: Option<int>,
    stock: Option<int>,
    imageUrl: Option<string>,
    createdAt: Option<Timestamp>,
    updatedAt: Option<Timestamp>)

  /** The one cart of a browser session. */
  datatype Cart = Cart(id: int, sessionId: string)

  /** One line of a cart. */
  datatype CartItem = CartItem(id: int, cartId: int, productId: int, quantity: int)

  /** One line of an order: a price snapshot taken at checkout. `id` and `orderId`
      are 0 until the line is stored. */
  datatype OrderItem = OrderItem(
    id: int,
    orderId: int,
    productId: int,
    quantity: int,
    unitPrice: int,
    subtotal: int)

  /** An order header. `items` is the list attached by a detail lookup; it is not
      a column and is None on stored rows. `id` is 0 until the header is stored. */
  datatype Order = Order(
    id: int,
    userId: Option<int>,
    orderDate: Timestamp,
    status: string,
    totalAmount: int,
    shippingAddress: string,
    paymentMethod: string,
    cancelledAt: Option<Timestamp>,
    items: Option<seq<OrderItem>>)

  // The status strings the order engine writes or compares against.
  const PENDING: string := "PENDING"
  const PROCESSING: string := "PROCESSING"
  const CANCELLED: string := "CANCELLED"

  /** Only an order that no one has started shipping may be cancelled. */
  predicate Cancellable(status: string) {
    status == PENDING || status == PROCESSING
  }
}
