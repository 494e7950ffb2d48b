/** The relational store behind the services: one keyed map per table, the
    identity generators, and the data-access operations the services call, each
    reporting the number of rows it affected. */
module Store {
  import opened Entities

  /** The tables whose writes the services check by their affected-row count. */
  datatype Table = ProductTable | OrderTable | OrderItemTable

  /** The rows of every table: what a rolled-back transaction restores. */
  datatype Tables = Tables(
    products: map<int, Product>,
    carts: map<int, Cart>,
    cartItems: map<int, CartItem>,
    orders: map<int, Order>,
    orderItems: map<int, OrderItem>)

  /** The id each identity column hands out next. Database sequences are not
      transactional, so a rollback does not give these back. */
  datatype Counters = Counters(cart: nat, cartItem: nat, order: nat, orderItem: nat) {
    predicate Le(later: Counters) {
      cart <= later.cart && cartItem <= later.cartItem && order <= later.order && orderItem <= later.orderItem
    }
  }

  /** The unique key on a cart's session. */
  ghost predicate OneCartPerSession(carts: map<int, Cart>) {
    forall a, b :: a in carts && b in carts && carts[a].sessionId == carts[b].sessionId ==> a == b
  }

  /** The unique key on a cart line's (cart, product). */
  ghost predicate OneLinePerProduct(cartItems: map<int, CartItem>) {
    forall a, b :: (a in cartItems && b in cartItems
      && cartItems[a].cartId == cartItems[b].cartId
      && cartItems[a].productId == cartItems[b].productId) ==> a == b
  }

  /** The integrity constraints of the schema, and every generated id lying in 1..next-1. */
  ghost predicate Coherent(t: Tables, next: Counters) {
    && 0 < next.cart && 0 < next.cartItem && 0 < next.order && 0 < next.orderItem
    && ProductsKeyed(t.products)
    && CartsKeyed(t.carts, next.cart) && OneCartPerSession(t.carts)
    && LinesKeyed(t.cartItems, t.carts, next.cartItem) && OneLinePerProduct(t.cartItems)
    && OrdersKeyed(t.orders, next.order)
    && ItemsKeyed(t.orderItems, t.orders, next.orderItem)
  }

  /** Every product is stored under its own id. */
  ghost predicate ProductsKeyed(products: map<int, Product>) {
    forall k :: k in products ==> products[k].id == Some(k)
  }

  /** Every cart is stored under its own generated id. */
  ghost predicate CartsKeyed(carts: map<int, Cart>, next: nat) {
    forall k :: k in carts ==> carts[k].id == k && 0 < k < next
  }

  /** Every cart line is stored under its own generated id, has a positive quantity
      and belongs to a stored cart. */
  ghost predicate LinesKeyed(cartItems: map<int, CartItem>, carts: map<int, Cart>, next: nat) {
    forall k :: k in cartItems ==>
      cartItems[k].id == k && 0 < k < next && cartItems[k].quantity > 0 && cartItems[k].cartId in carts
  }

  /** Every order header is stored under its own generated id, without a line list. */
  ghost predicate OrdersKeyed(orders: map<int, Order>, next: nat) {
    forall k :: k in orders ==> orders[k].id == k && 0 < k < next && orders[k].items.None?
  }

  /** Every order line is stored under its own generated id and belongs to a stored order. */
  ghost predicate ItemsKeyed(orderItems: map<int, OrderItem>, orders: map<int, Order>, next: nat) {
    forall k :: k in orderItems ==> orderItems[k].id == k && 0 < k < next && orderItems[k].orderId in orders
  }

  // ---------------------------------------------------------------------------
  // Queries over one table. Rows come back in ascending id order, which is the
  // order of insertion since ids are generated.

  /** `CartDao.findBySessionId` over the carts with ids below `n`. */
  function CartWithSession(m: map<int, Cart>, sessionId: string, n: nat): Option<Cart>
  {
    if n == 0 then None
    else if n - 1 in m && m[n - 1].sessionId == sessionId then Some(m[n - 1])
    else CartWithSession(m, sessionId, n - 1)
  }

  lemma {:induction false} CartWithSessionExact(m: map<int, Cart>, sessionId: string, n: nat)
    requires forall k :: k in m ==> m[k].id == k
    ensures var r := CartWithSession(m, sessionId, n);
      && (r.Some? ==> r.value.id < n && r.value.id in m && m[r.value.id] == r.value && r.value.sessionId == sessionId)
      && (r.None? ==> forall k :: 0 <= k < n && k in m ==> m[k].sessionId != sessionId)
  {
    if n > 0 { CartWithSessionExact(m, sessionId, n - 1); }
  }

  /** `CartItemDao.findByCartId` over the lines with ids below `n`. */
  function LinesOfCart(m: map<int, CartItem>, cartId: int, n: nat): seq<CartItem>
  {
    if n == 0 then []
    else LinesOfCart(m, cartId, n - 1) + (if n - 1 in m && m[n - 1].cartId == cartId then [m[n - 1]] else [])
  }

  lemma {:induction false} LinesOfCartExact(m: map<int, CartItem>, cartId: int, n: nat)
    requires forall k :: k in m ==> m[k].id == k
    ensures forall i :: 0 <= i < |LinesOfCart(m, cartId, n)| ==>
              var x := LinesOfCart(m, cartId, n)[i]; 0 <= x.id < n && x.id in m && m[x.id] == x && x.cartId == cartId
    ensures forall k :: 0 <= k < n && k in m && m[k].cartId == cartId ==> m[k] in LinesOfCart(m, cartId, n)
    ensures forall i, j :: 0 <= i < j < |LinesOfCart(m, cartId, n)| ==>
              LinesOfCart(m, cartId, n)[i].id < LinesOfCart(m, cartId, n)[j].id
  {
    if n > 0 {
      LinesOfCartExact(m, cartId, n - 1);
      var before := LinesOfCart(m, cartId, n - 1);
      var r := LinesOfCart(m, cartId, n);
      if n - 1 in m && m[n - 1].cartId == cartId {
        assert r == before + [m[n - 1]];
        forall i | 0 <= i < |r| ensures 0 <= r[i].id < n && r[i].id in m && m[r[i].id] == r[i] && r[i].cartId == cartId {
          if i < |before| { assert r[i] == before[i]; } else { assert r[i] == m[n - 1]; }
        }
        forall i, j | 0 <= i < j < |r| ensures r[i].id < r[j].id {
          assert r[i] == before[i];
          if j < |before| { assert r[j] == before[j]; } else { assert r[j] == m[n - 1]; }
        }
        forall k | 0 <= k < n && k in m && m[k].cartId == cartId ensures m[k] in r {
          if k < n - 1 { assert m[k] in before; } else { assert r[|before|] == m[k]; }
        }
      } else {
        assert r == before;
        forall k | 0 <= k < n && k in m && m[k].cartId == cartId ensures m[k] in r {
          assert k < n - 1;
        }
      }
    }
  }

  /** The cart-id query below `n` depends only on the rows with ids below `n`. */
  lemma {:induction false} LinesOfCartAgree(m1: map<int, CartItem>, m2: map<int, CartItem>, cartId: int, n: nat)
    requires forall k :: 0 <= k < n ==> (k in m1 <==> k in m2)
    requires forall k :: 0 <= k < n && k in m1 ==> m1[k] == m2[k]
    ensures LinesOfCart(m1, cartId, n) == LinesOfCart(m2, cartId, n)
  {
    if n > 0 {
      LinesOfCartAgree(m1, m2, cartId, n - 1);
    }
  }

  /** Storing a line under the next free id appends it to the query result of its cart
      and leaves every other cart's result as it was. */
  lemma LinesOfCartAppend(m: map<int, CartItem>, x: CartItem, cartId: int, n: nat)
    requires forall k :: k in m ==> k < n
    ensures LinesOfCart(m[n := x], cartId, n + 1)
              == LinesOfCart(m, cartId, n) + (if x.cartId == cartId then [x] else [])
  {
    LinesOfCartAgree(m[n := x], m, cartId, n);
  }

  /** The cart-id query is empty when no row refers to that cart. */
  lemma {:induction false} LinesOfCartNone(m: map<int, CartItem>, cartId: int, n: nat)
    requires forall k :: k in m ==> m[k].cartId != cartId
    ensures LinesOfCart(m, cartId, n) == []
  {
    if n > 0 {
      LinesOfCartNone(m, cartId, n - 1);
    }
  }

  /** `OrderItemDao.findByOrderId` over the order lines with ids below `n`. */
  function LinesOfOrder(m: map<int, OrderItem>, orderId: int, n: nat): seq<OrderItem>
  {
    if n == 0 then []
    else LinesOfOrder(m, orderId, n - 1) + (if n - 1 in m && m[n - 1].orderId == orderId then [m[n - 1]] else [])
  }

  lemma {:induction false} LinesOfOrderExact(m: map<int, OrderItem>, orderId: int, n: nat)
    requires forall k :: k in m ==> m[k].id == k
    ensures forall i :: 0 <= i < |LinesOfOrder(m, orderId, n)| ==>
              var x := LinesOfOrder(m, orderId, n)[i]; 0 <= x.id < n && x.id in m && m[x.id] == x && x.orderId == orderId
    ensures forall k :: 0 <= k < n && k in m && m[k].orderId == orderId ==> m[k] in LinesOfOrder(m, orderId, n)
    ensures forall i, j :: 0 <= i < j < |LinesOfOrder(m, orderId, n)| ==>
              LinesOfOrder(m, orderId, n)[i].id < LinesOfOrder(m, orderId, n)[j].id
  {
    if n > 0 {
      LinesOfOrderExact(m, orderId, n - 1);
      var before := LinesOfOrder(m, orderId, n - 1);
      var r := LinesOfOrder(m, orderId, n);
      if n - 1 in m && m[n - 1].orderId == orderId {
        assert r == before + [m[n - 1]];
        forall i | 0 <= i < |r| ensures 0 <= r[i].id < n && r[i].id in m && m[r[i].id] == r[i] && r[i].orderId == orderId {
          if i < |before| { assert r[i] == before[i]; } else { assert r[i] == m[n - 1]; }
        }
        forall i, j | 0 <= i < j < |r| ensures r[i].id < r[j].id {
          assert r[i] == before[i];
          if j < |before| { assert r[j] == before[j]; } else { assert r[j] == m[n - 1]; }
        }
        forall k | 0 <= k < n && k in m && m[k].orderId == orderId ensures m[k] in r {
          if k < n - 1 { assert m[k] in before; } else { assert r[|before|] == m[k]; }
        }
      } else {
        assert r == before;
        forall k | 0 <= k < n && k in m && m[k].orderId == orderId ensures m[k] in r {
          assert k < n - 1;
        }
      }
    }
  }

  /** The order-id query below `n` depends only on the rows with ids below `n`. */
  lemma {:induction false} LinesOfOrderAgree(m1: map<int, OrderItem>, m2: map<int, OrderItem>, orderId: int, n: nat)
    requires forall k :: 0 <= k < n ==> (k in m1 <==> k in m2)
    requires forall k :: 0 <= k < n && k in m1 ==> m1[k] == m2[k]
    ensures LinesOfOrder(m1, orderId, n) == LinesOfOrder(m2, orderId, n)
  {
    if n > 0 {
      LinesOfOrderAgree(m1, m2, orderId, n - 1);
    }
  }

  /** The order-id query is empty when no row refers to that order. */
  lemma {:induction false} LinesOfOrderNone(m: map<int, OrderItem>, orderId: int, n: nat)
    requires forall k :: k in m ==> m[k].orderId != orderId
    ensures LinesOfOrder(m, orderId, n) == []
  {
    if n > 0 {
      LinesOfOrderNone(m, orderId, n - 1);
    }
  }

  /** The order lines `items` as stored for order `orderId` under the consecutive ids
      from `first` on. */
  function Tagged(items: seq<OrderItem>, orderId: int, first: int): (r: seq<OrderItem>)
    ensures |r| == |items|
  {
    if items == [] then []
    else Tagged(items[..|items| - 1], orderId, first)
           + [items[|items| - 1].(id := first + |items| - 1, orderId := orderId)]
  }

  /** Line `i` of the stored lines is line `i` of the order, with its id and order id set. */
  lemma {:induction false} TaggedAt(items: seq<OrderItem>, orderId: int, first: int, i: int)
    requires 0 <= i < |items|
    ensures Tagged(items, orderId, first)[i] == items[i].(id := first + i, orderId := orderId)
    decreases |items|
  {
    if i < |items| - 1 {
      assert items[..|items| - 1][i] == items[i];
      TaggedAt(items[..|items| - 1], orderId, first, i);
    }
  }

  /** `m` with every row of `rows` stored under its own id, in order. */
  function Filed(m: map<int, OrderItem>, rows: seq<OrderItem>): map<int, OrderItem>
  {
    if rows == [] then m else Filed(m, rows[..|rows| - 1])[rows[|rows| - 1].id := rows[|rows| - 1]]
  }

  /** Filing the lines of a fresh order under fresh ids makes the order-id query return
      exactly those lines, in order. */
  lemma {:induction false} LinesOfFiled(m: map<int, OrderItem>, items: seq<OrderItem>, orderId: int, first: nat)
    requires forall k :: k in m ==> k < first && m[k].orderId != orderId
    ensures LinesOfOrder(Filed(m, Tagged(items, orderId, first)), orderId, first + |items|)
              == Tagged(items, orderId, first)
  {
    if items == [] {
      LinesOfOrderNone(m, orderId, first);
    } else {
      var pre := items[..|items| - 1];
      var x := items[|items| - 1].(id := first + |pre|, orderId := orderId);
      LinesOfFiled(m, pre, orderId, first);
      var before := Filed(m, Tagged(pre, orderId, first));
      FiledBelow(m, pre, orderId, first);
      assert Filed(m, Tagged(items, orderId, first)) == before[first + |pre| := x];
      LinesOfOrderAgree(before[first + |pre| := x], before, orderId, first + |pre|);
    }
  }

  /** Filing below `first + |items|` keeps every key below that bound. */
  lemma {:induction false} FiledBelow(m: map<int, OrderItem>, items: seq<OrderItem>, orderId: int, first: nat)
    requires forall k :: k in m ==> k < first
    ensures forall k :: k in Filed(m, Tagged(items, orderId, first)) ==> k < first + |items|
  {
    if items != [] {
      FiledBelow(m, items[..|items| - 1], orderId, first);
    }
  }

  /** `OrderDao.findByUserId` over the orders with ids below `n`. */
  function OrdersOfUser(m: map<int, Order>, userId: int, n: nat): seq<Order>
  {
    if n == 0 then []
    else OrdersOfUser(m, userId, n - 1) + (if n - 1 in m && m[n - 1].userId == Some(userId) then [m[n - 1]] else [])
  }

  lemma {:induction false} OrdersOfUserExact(m: map<int, Order>, userId: int, n: nat)
    requires forall k :: k in m ==> m[k].id == k
    ensures forall i :: 0 <= i < |OrdersOfUser(m, userId, n)| ==>
              var x := OrdersOfUser(m, userId, n)[i]; 0 <= x.id < n && x.id in m && m[x.id] == x && x.userId == Some(userId)
    ensures forall k :: 0 <= k < n && k in m && m[k].userId == Some(userId) ==> m[k] in OrdersOfUser(m, userId, n)
    ensures forall i, j :: 0 <= i < j < |OrdersOfUser(m, userId, n)| ==>
              OrdersOfUser(m, userId, n)[i].id < OrdersOfUser(m, userId, n)[j].id
  {
    if n > 0 {
      OrdersOfUserExact(m, userId, n - 1);
      var before := OrdersOfUser(m, userId, n - 1);
      var r := OrdersOfUser(m, userId, n);
      if n - 1 in m && m[n - 1].userId == Some(userId) {
        assert r == before + [m[n - 1]];
        forall i | 0 <= i < |r| ensures 0 <= r[i].id < n && r[i].id in m && m[r[i].id] == r[i] && r[i].userId == Some(userId) {
          if i < |before| { assert r[i] == before[i]; } else { assert r[i] == m[n - 1]; }
        }
        forall i, j | 0 <= i < j < |r| ensures r[i].id < r[j].id {
          assert r[i] == before[i];
          if j < |before| { assert r[j] == before[j]; } else { assert r[j] == m[n - 1]; }
        }
        forall k | 0 <= k < n && k in m && m[k].userId == Some(userId) ensures m[k] in r {
          if k < n - 1 { assert m[k] in before; } else { assert r[|before|] == m[k]; }
        }
      } else {
        assert r == before;
        forall k | 0 <= k < n && k in m && m[k].userId == Some(userId) ensures m[k] in r {
          assert k < n - 1;
        }
      }
    }
  }

  /** Every non-empty finite set of ids has a least member. */
  lemma {:induction false} Least(s: set<int>) returns (x: int)
    requires s != {}
    ensures x in s && forall y :: y in s ==> x <= y
    decreases |s|
  {
    assert exists e :: e in s by {
      if forall e :: e !in s { assert false; }
    }
    var a :| a in s;
    if s == {a} {
      x := a;
    } else {
      var z := Least(s - {a});
      x := if a < z then a else z;
      forall y | y in s ensures x <= y {
        if y != a { assert y in s - {a}; }
      }
    }
  }

  // ---------------------------------------------------------------------------

  /** The database, shared by the three services. */
  class Db {
    var products: map<int, Product>
    var carts: map<int, Cart>
    var cartItems: map<int, CartItem>
    var orders: map<int, Order>
    var orderItems: map<int, OrderItem>
    var next: Counters
    /** Tables whose inserts and updates report zero affected rows, as the failing
        data-access objects of the service tests do. */
    const refused: set<Table>

    function State(): Tables
      reads this
    {
      Tables(products, carts, cartItems, orders, orderItems)
    }

    ghost predicate Valid()
      reads this
    {
      Coherent(State(), next)
    }

    /** An empty database whose product catalogue is `catalogue`. */
    constructor (catalogue: map<int, Product>, refused: set<Table>)
      requires forall k :: k in catalogue ==> catalogue[k].id == Some(k)
      ensures Valid() && this.refused == refused
      ensures State() == Tables(catalogue, map[], map[], map[], map[])
    {
      products, carts, cartItems, orders, orderItems := catalogue, map[], map[], map[], map[];
      next := Counters(1, 1, 1, 1);
      this.refused := refused;
    }

    /** Puts back the rows of `saved`, taken when the counters stood at `at`. */
    method Rollback(saved: Tables, ghost at: Counters)
      requires Coherent(saved, at) && at.Le(next)
      modifies this`products, this`carts, this`cartItems, this`orders, this`orderItems
      ensures Valid() && State() == saved
    {
      products, carts, cartItems, orders, orderItems :=
        saved.products, saved.carts, saved.cartItems, saved.orders, saved.orderItems;
    }

    // ---- products

    /** `ProductDao.selectById`. */
    function ProductById(id: int): Option<Product>
      reads this
    {
      if id in products then Some(products[id]) else None
    }

    /** `ProductDao.selectAll`: every product, in ascending id order. */
    method SelectAllProducts() returns (ps: seq<Product>)
      requires Valid()
      ensures forall i :: 0 <= i < |ps| ==> ps[i].id.Some? && ps[i].id.value in products && products[ps[i].id.value] == ps[i]
      ensures forall k :: k in products ==> products[k] in ps
      ensures forall i, j :: 0 <= i < j < |ps| ==> ps[i].id.value < ps[j].id.value
    {
      var m := products;
      assert ProductsKeyed(m);
      ps := [];
      var rest := m.Keys;
      while rest != {}
        invariant rest <= m.Keys
        invariant forall i :: 0 <= i < |ps| ==> ps[i].id.Some? && ps[i].id.value in m && m[ps[i].id.value] == ps[i]
        invariant forall k :: k in m && k !in rest ==> m[k] in ps
        invariant forall i, k :: 0 <= i < |ps| && k in rest ==> ps[i].id.value < k
        invariant forall i, j :: 0 <= i < j < |ps| ==> ps[i].id.value < ps[j].id.value
        decreases rest
      {
        ghost var least := Least(rest);
        var k :| k in rest && forall y :: y in rest ==> k <= y;
        ps := ps + [m[k]];
        rest := rest - {k};
      }
    }

    /** `ProductDao.insert`: the id is the primary key and must be present and new. */
    method InsertProduct(p: Product) returns (r: Result<nat>)
      requires Valid()
      modifies this`products
      ensures Valid()
      ensures p.id.None? || p.id.value in old(products) ==> r == Err(IntegrityViolation) && products == old(products)
      ensures p.id.Some? && p.id.value !in old(products) && ProductTable in refused ==> r == Ok(0) && products == old(products)
      ensures p.id.Some? && p.id.value !in old(products) && ProductTable !in refused ==>
                r == Ok(1) && products == old(products)[p.id.value := p]
    {
      if p.id.None? || p.id.value in products {
        r := Err(IntegrityViolation);
      } else if ProductTable in refused {
        r := Ok(0);
      } else {
        products := products[p.id.value := p];
        r := Ok(1);
      }
    }

    /** `ProductDao.update`: rewrites the row with `p`'s id; zero rows when there is none. */
    method UpdateProduct(p: Product) returns (rows: nat)
      requires Valid()
      modifies this`products
      ensures Valid()
      ensures rows == (if p.id.Some? && p.id.value in old(products) && ProductTable !in refused then 1 else 0)
      ensures products == if rows == 1 then old(products)[p.id.value := p] else old(products)
    {
      if p.id.Some? && p.id.value in products && ProductTable !in refused {
        products := products[p.id.value := p];
        rows := 1;
      } else {
        rows := 0;
      }
    }

    // ---- carts

    /** `CartDao.findBySessionId`. */
    function CartOfSession(sessionId: string): Option<Cart>
      reads this
    {
      CartWithSession(carts, sessionId, next.cart)
    }

    /** The session lookup finds the one cart of that session, and only when there is one. */
    lemma CartOfSessionExact(sessionId: string)
      requires Valid()
      ensures CartOfSession(sessionId).Some? ==>
                var c := CartOfSession(sessionId).value; c.id in carts && carts[c.id] == c && c.sessionId == sessionId
      ensures CartOfSession(sessionId).None? <==> forall k :: k in carts ==> carts[k].sessionId != sessionId
    {
      CartWithSessionExact(carts, sessionId, next.cart);
    }

    /** `CartDao.insert` of a new cart for `sessionId`; sessions are unique. */
    method InsertCart(sessionId: string) returns (r: Result<Cart>)
      requires Valid()
      modifies this`carts, this`next
      ensures Valid() && old(next).Le(next)
      ensures old(CartOfSession(sessionId)).Some? ==>
                r == Err(IntegrityViolation) && carts == old(carts) && next == old(next)
      ensures old(CartOfSession(sessionId)).None? ==>
                && r == Ok(Cart(old(next.cart), sessionId))
                && carts == old(carts)[old(next.cart) := r.value]
                && next == old(next).(cart := old(next.cart) + 1)
                && CartOfSession(sessionId) == Some(r.value)
                && LinesOf(r.value.id) == []
    {
      CartOfSessionExact(sessionId);
      NoLinesOfFreshCart();
      if CartOfSession(sessionId).Some? {
        r := Err(IntegrityViolation);
      } else {
        var c := Cart(next.cart, sessionId);
        carts := carts[c.id := c];
        next := next.(cart := next.cart + 1);
        r := Ok(c);
      }
    }

    // ---- cart items

    /** `CartItemDao.findById`. */
    function CartItemById(id: int): Option<CartItem>
      reads this
    {
      if id in cartItems then Some(cartItems[id]) else None
    }

    /** `CartItemDao.findByCartId`. */
    function LinesOf(cartId: int): seq<CartItem>
      reads this
    {
      LinesOfCart(cartItems, cartId, next.cartItem)
    }

    /** The cart-id query returns exactly the lines of that cart, in ascending id order. */
    lemma LinesOfExact(cartId: int)
      requires Valid()
      ensures var r := LinesOf(cartId);
        && (forall i :: 0 <= i < |r| ==> r[i].id in cartItems && cartItems[r[i].id] == r[i] && r[i].cartId == cartId)
        && (forall k :: k in cartItems && cartItems[k].cartId == cartId ==> cartItems[k] in r)
        && (forall i, j :: 0 <= i < j < |r| ==> r[i].id < r[j].id)
    {
      assert forall k :: k in cartItems ==> cartItems[k].id == k;
      LinesOfCartExact(cartItems, cartId, next.cartItem);
      assert forall k :: k in cartItems ==> 0 <= k < next.cartItem;
    }

    /** The lines of the cart of `sessionId`; none when the session has no cart. */
    function LinesOfSession(sessionId: string): seq<CartItem>
      reads this
    {
      match CartOfSession(sessionId)
      case None => []
      case Some(c) => LinesOf(c.id)
    }

    /** The cart lines left once every line of the cart of `sessionId` is deleted. */
    function Cleared(sessionId: string): map<int, CartItem>
      reads this
    {
      match CartOfSession(sessionId)
      case None => cartItems
      case Some(c) => map k | k in cartItems && cartItems[k].cartId != c.id :: cartItems[k]
    }

    /** No line refers to the id the next cart will get. */
    lemma NoLinesOfFreshCart()
      requires Valid()
      ensures LinesOf(next.cart) == []
    {
      LinesOfCartNone(cartItems, next.cart, next.cartItem);
    }

    /** The session query returns exactly the lines of the session's cart, in id order. */
    lemma LinesOfSessionExact(sessionId: string)
      requires Valid()
      ensures forall x :: x in LinesOfSession(sessionId) <==>
                x.id in cartItems && cartItems[x.id] == x && CartOfSession(sessionId).Some?
                && x.cartId == CartOfSession(sessionId).value.id
      ensures forall i, j :: 0 <= i < j < |LinesOfSession(sessionId)| ==>
                LinesOfSession(sessionId)[i].id < LinesOfSession(sessionId)[j].id
    {
      var cart := CartOfSession(sessionId);
      if cart.Some? {
        var lines := LinesOf(cart.value.id);
        LinesOfExact(cart.value.id);
        forall x | x in lines
          ensures x.id in cartItems && cartItems[x.id] == x && x.cartId == cart.value.id
        {
          var i :| 0 <= i < |lines| && lines[i] == x;
        }
      }
    }

    /** A new line for an existing cart meets the constraints exactly when its quantity is
        positive and the cart has no line for the same product yet. */
    lemma AcceptsNewLine(cartId: int, productId: int, quantity: int)
      requires Valid() && cartId in carts
      ensures AcceptsLine(CartItem(next.cartItem, cartId, productId, quantity)) <==>
                quantity > 0 && forall x :: x in LinesOf(cartId) ==> x.productId != productId
    {
      var lines := LinesOf(cartId);
      LinesOfExact(cartId);
      if quantity > 0 && forall x :: x in lines ==> x.productId != productId {
        forall k | k in cartItems && k != next.cartItem
          ensures !(cartItems[k].cartId == cartId && cartItems[k].productId == productId)
        {
          if cartItems[k].cartId == cartId {
            assert cartItems[k] in lines;
          }
        }
      }
      if AcceptsLine(CartItem(next.cartItem, cartId, productId, quantity)) {
        forall x | x in lines
          ensures x.productId != productId
        {
          var i :| 0 <= i < |lines| && lines[i] == x;
          assert lines[i].id in cartItems;
        }
      }
    }

    /** The check (`quantity > 0`), foreign-key (the cart exists) and unique
        (`cartId`, `productId`) constraints on a cart line stored under `x.id`. */
    predicate AcceptsLine(x: CartItem)
      reads this
    {
      && x.quantity > 0
      && x.cartId in carts
      && forall k :: k in cartItems && k != x.id ==>
           !(cartItems[k].cartId == x.cartId && cartItems[k].productId == x.productId)
    }

    /** `CartItemDao.insert`: a violated constraint throws; otherwise one row with a new id. */
    method InsertCartItem(cartId: int, productId: int, quantity: int) returns (r: Result<CartItem>)
      requires Valid()
      modifies this`cartItems, this`next
      ensures Valid() && old(next).Le(next)
      ensures var x := CartItem(old(next.cartItem), cartId, productId, quantity);
        if old(AcceptsLine(x)) then
          && r == Ok(x) && cartItems == old(cartItems)[x.id := x] && next == old(next).(cartItem := x.id + 1)
          && LinesOf(cartId) == old(LinesOf(cartId)) + [x]
        else
          r == Err(IntegrityViolation) && cartItems == old(cartItems) && next == old(next)
    {
      var x := CartItem(next.cartItem, cartId, productId, quantity);
      if AcceptsLine(x) {
        LinesOfCartAppend(cartItems, x, cartId, x.id);
        cartItems := cartItems[x.id := x];
        next := next.(cartItem := x.id + 1);
        r := Ok(x);
      } else {
        r := Err(IntegrityViolation);
      }
    }

    /** `CartItemDao.update`: zero rows when the id is unknown; a violated constraint throws. */
    method UpdateCartItem(x: CartItem) returns (r: Result<nat>)
      requires Valid()
      modifies this`cartItems
      ensures Valid()
      ensures x.id !in old(cartItems) ==> r == Ok(0) && cartItems == old(cartItems)
      ensures x.id in old(cartItems) && !old(AcceptsLine(x)) ==> r == Err(IntegrityViolation) && cartItems == old(cartItems)
      ensures x.id in old(cartItems) && old(AcceptsLine(x)) ==> r == Ok(1) && cartItems == old(cartItems)[x.id := x]
    {
      if x.id !in cartItems {
        r := Ok(0);
      } else if !AcceptsLine(x) {
        r := Err(IntegrityViolation);
      } else {
        cartItems := cartItems[x.id := x];
        r := Ok(1);
      }
    }

    /** `CartItemDao.delete`: zero rows when the id is unknown. */
    method DeleteCartItem(x: CartItem) returns (rows: nat)
      requires Valid()
      modifies this`cartItems
      ensures Valid()
      ensures rows == (if x.id in old(cartItems) then 1 else 0)
      ensures cartItems == old(cartItems) - {x.id}
    {
      rows := if x.id in cartItems then 1 else 0;
      cartItems := cartItems - {x.id};
    }

    // ---- orders

    /** `OrderDao.findById`. */
    function OrderById(id: int): Option<Order>
      reads this
    {
      if id in orders then Some(orders[id]) else None
    }

    /** `OrderDao.findByUserId`. */
    function OrdersOf(userId: int): seq<Order>
      reads this
    {
      OrdersOfUser(orders, userId, next.order)
    }

    /** `OrderItemDao.findByOrderId`. */
    function ItemsOf(orderId: int): seq<OrderItem>
      reads this
    {
      LinesOfOrder(orderItems, orderId, next.orderItem)
    }

    /** The user-id query returns exactly the orders of that user, in ascending id order. */
    lemma OrdersOfExact(userId: int)
      requires Valid()
      ensures forall o :: o in OrdersOf(userId) <==> o.id in orders && orders[o.id] == o && o.userId == Some(userId)
      ensures forall i, j :: 0 <= i < j < |OrdersOf(userId)| ==> OrdersOf(userId)[i].id < OrdersOf(userId)[j].id
    {
      var r := OrdersOf(userId);
      OrdersOfUserExact(orders, userId, next.order);
      forall o | o in r
        ensures o.id in orders && orders[o.id] == o && o.userId == Some(userId)
      {
        var i :| 0 <= i < |r| && r[i] == o;
      }
      forall o: Order | o.id in orders && orders[o.id] == o && o.userId == Some(userId)
        ensures o in r
      {
        assert 0 <= o.id < next.order;
      }
    }

    /** The order-id query returns exactly the lines of that order, in ascending id order. */
    lemma ItemsOfExact(orderId: int)
      requires Valid()
      ensures forall x :: x in ItemsOf(orderId) <==> x.id in orderItems && orderItems[x.id] == x && x.orderId == orderId
      ensures forall i, j :: 0 <= i < j < |ItemsOf(orderId)| ==> ItemsOf(orderId)[i].id < ItemsOf(orderId)[j].id
    {
      var r := ItemsOf(orderId);
      LinesOfOrderExact(orderItems, orderId, next.orderItem);
      forall x | x in r
        ensures x.id in orderItems && orderItems[x.id] == x && x.orderId == orderId
      {
        var i :| 0 <= i < |r| && r[i] == x;
      }
      forall x: OrderItem | x.id in orderItems && orderItems[x.id] == x && x.orderId == orderId
        ensures x in r
      {
        assert 0 <= x.id < next.orderItem;
      }
    }

    /** `OrderDao.insert`: stores the header under a new id. */
    method InsertOrder(o: Order) returns (rows: nat, id: int)
      requires Valid()
      modifies this`orders, this`next
      ensures Valid() && old(next).Le(next)
      ensures OrderTable in refused ==> rows == 0 && orders == old(orders) && next == old(next)
      ensures OrderTable !in refused ==>
                && rows == 1 && id == old(next.order)
                && orders == old(orders)[id := o.(id := id, items := None)]
                && next == old(next).(order := id + 1)
    {
      if OrderTable in refused {
        rows, id := 0, o.id;
      } else {
        id := next.order;
        orders := orders[id := o.(id := id, items := None)];
        next := next.(order := id + 1);
        rows := 1;
      }
    }

    /** `OrderDao.update`: rewrites the header with `o`'s id; zero rows when there is none. */
    method UpdateOrder(o: Order) returns (rows: nat)
      requires Valid()
      modifies this`orders
      ensures Valid()
      ensures rows == (if o.id in old(orders) && OrderTable !in refused then 1 else 0)
      ensures orders == if rows == 1 then old(orders)[o.id := o.(items := None)] else old(orders)
    {
      if o.id in orders && OrderTable !in refused {
        orders := orders[o.id := o.(items := None)];
        rows := 1;
      } else {
        rows := 0;
      }
    }

    /** `OrderItemDao.insert`: stores the line under a new id. */
    method InsertOrderItem(x: OrderItem) returns (rows: nat, id: int)
      requires Valid()
      modifies this`orderItems, this`next
      requires x.orderId in orders
      ensures Valid() && old(next).Le(next)
      ensures OrderItemTable in refused ==> rows == 0 && orderItems == old(orderItems) && next == old(next)
      ensures OrderItemTable !in refused ==>
                && rows == 1 && id == old(next.orderItem)
                && orderItems == old(orderItems)[id := x.(id := id)]
                && next == old(next).(orderItem := id + 1)
    {
      if OrderItemTable in refused {
        rows, id := 0, x.id;
      } else {
        id := next.orderItem;
        orderItems := orderItems[id := x.(id := id)];
        next := next.(orderItem := id + 1);
        rows := 1;
      }
    }
  }
}
