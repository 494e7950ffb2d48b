/** `OrderService`: checkout of a session cart into an order, order lookups, and
    cancellation with stock restore. Every operation runs in one transaction: when
    it fails, the rows it wrote are put back.

    The checkout loop and the restock loop are specified by the left folds `Price`
    and `Restock` over the lines they visit; the lemmas below say what those folds
    compute. */
module Orders {
  import opened Entities
  import opened Store
  import opened Carts

  // ---------------------------------------------------------------------------
  // Quantities per product

  /** The quantity the cart lines ask for product `k`. */
  function QtyOf(lines: seq<CartItem>, k: int): int
  {
    if lines == [] then 0
    else QtyOf(lines[..|lines| - 1], k) + (if lines[|lines| - 1].productId == k then lines[|lines| - 1].quantity else 0)
  }

  /** Some cart line asks for product `k`. */
  predicate Mentions(lines: seq<CartItem>, k: int)
  {
    lines != [] && (lines[|lines| - 1].productId == k || Mentions(lines[..|lines| - 1], k))
  }

  /** The quantity the order lines hold of product `k`. */
  function ItemQty(items: seq<OrderItem>, k: int): int
  {
    if items == [] then 0
    else ItemQty(items[..|items| - 1], k) + (if items[|items| - 1].productId == k then items[|items| - 1].quantity else 0)
  }

  /** Some order line holds product `k`. */
  predicate ItemMentions(items: seq<OrderItem>, k: int)
  {
    items != [] && (items[|items| - 1].productId == k || ItemMentions(items[..|items| - 1], k))
  }

  /** The sum of the line subtotals. */
  function SubtotalSum(items: seq<OrderItem>): int
  {
    if items == [] then 0 else SubtotalSum(items[..|items| - 1]) + items[|items| - 1].subtotal
  }

  /** A product no line asks for is asked for in quantity zero. */
  lemma {:induction false} UnmentionedQty(lines: seq<CartItem>, k: int)
    requires !Mentions(lines, k)
    ensures QtyOf(lines, k) == 0
  {
    if lines != [] {
      UnmentionedQty(lines[..|lines| - 1], k);
    }
  }

  // ---------------------------------------------------------------------------
  // Checkout: the first loop of `createOrderFromCart`

  /** What the checkout loop has built so far: the order lines, the running total
      and the product rows as the loop has rewritten them. */
  datatype Draft = Draft(items: seq<OrderItem>, total: int, products: map<int, Product>)

  /** One turn of the checkout loop for cart line `c`: look the product up, check
      its stock, snapshot its price into an order line, add the subtotal, and take
      the quantity off the stock. `write` is false when the product table ignores
      updates, so the stock stays as it was. */
  function PriceLine(d: Draft, c: CartItem, write: bool): (r: Result<Draft>)
    ensures r.Ok? ==> |r.value.items| == |d.items| + 1
  {
    if c.productId !in d.products then Err(ProductNotFound(c.productId))
    else
      var p := d.products[c.productId];
      if p.stock.None? then Err(NullValue)
      else if p.stock.value < c.quantity then Err(InsufficientStock(p.name))
      else if p.price.None? then Err(NullValue)
      else
        var item := OrderItem(0, 0, c.productId, c.quantity, p.price.value, p.price.value * c.quantity);
        Ok(Draft(d.items + [item], d.total + item.subtotal,
                 if write then d.products[c.productId := p.(stock := Some(p.stock.value - c.quantity))]
                 else d.products))
  }

  /** The checkout loop over `lines`, stopping at the first line that fails. Only
      stock is ever rewritten, and there is one order line per cart line. */
  function Price(lines: seq<CartItem>, products: map<int, Product>, write: bool): (r: Result<Draft>)
    ensures r.Ok? ==> |r.value.items| == |lines|
    ensures r.Ok? && !write ==> r.value.products == products
  {
    if lines == [] then Ok(Draft([], 0, products))
    else
      match Price(lines[..|lines| - 1], products, write)
      case Err(e) => Err(e)
      case Ok(d) => PriceLine(d, lines[|lines| - 1], write)
  }

  /** The checkout rewrites nothing but stock, and a product keeps having a stock or
      having none. */
  lemma {:induction false} PriceKeepsRows(lines: seq<CartItem>, products: map<int, Product>, write: bool)
    requires Price(lines, products, write).Ok?
    ensures forall k :: k in Price(lines, products, write).value.products <==> k in products
    ensures forall k :: k in products ==>
              && Price(lines, products, write).value.products[k]
                   == products[k].(stock := Price(lines, products, write).value.products[k].stock)
              && (Price(lines, products, write).value.products[k].stock.Some? <==> products[k].stock.Some?)
  {
    if lines != [] {
      PriceKeepsRows(lines[..|lines| - 1], products, write);
    }
  }

  /** Once a prefix of the lines fails, the whole checkout fails with that error. */
  lemma {:induction false} PriceStops(lines: seq<CartItem>, products: map<int, Product>, write: bool, n: nat)
    requires n <= |lines| && Price(lines[..n], products, write).Err?
    ensures Price(lines, products, write) == Price(lines[..n], products, write)
    decreases |lines| - n
  {
    if n < |lines| {
      assert lines[..n + 1][..n] == lines[..n];
      PriceStops(lines, products, write, n + 1);
    } else {
      assert lines[..n] == lines;
    }
  }

  /** The order total is the sum of the line subtotals. */
  lemma {:induction false} PriceTotal(lines: seq<CartItem>, products: map<int, Product>, write: bool)
    requires Price(lines, products, write).Ok?
    ensures Price(lines, products, write).value.total == SubtotalSum(Price(lines, products, write).value.items)
  {
    if lines != [] {
      var pre := lines[..|lines| - 1];
      PriceTotal(pre, products, write);
      var d0 := Price(pre, products, write).value;
      var d := Price(lines, products, write).value;
      assert d == PriceLine(d0, lines[|lines| - 1], write).value;
      assert d.items[..|d.items| - 1] == d0.items;
    }
  }

  /** Each order line snapshots the product's price at checkout, and its subtotal is
      that price times the quantity. */
  lemma {:induction false} PriceItems(lines: seq<CartItem>, products: map<int, Product>, write: bool)
    requires Price(lines, products, write).Ok?
    ensures forall i :: 0 <= i < |lines| ==>
              && lines[i].productId in products && products[lines[i].productId].price.Some?
              && Price(lines, products, write).value.items[i]
                   == OrderItem(0, 0, lines[i].productId, lines[i].quantity,
                                products[lines[i].productId].price.value,
                                products[lines[i].productId].price.value * lines[i].quantity)
  {
    if lines != [] {
      var pre := lines[..|lines| - 1];
      var c := lines[|lines| - 1];
      PriceItems(pre, products, write);
      PricePrices(pre, products, write);
      var d0 := Price(pre, products, write).value;
      var d := Price(lines, products, write).value;
      assert d == PriceLine(d0, c, write).value;
      assert c.productId in products;
      assert d.items == d0.items + [d.items[|pre|]];
      forall i | 0 <= i < |pre|
        ensures lines[i] == pre[i] && d.items[i] == d0.items[i]
      {
      }
    }
  }

  /** The checkout never rewrites a price, and never adds or removes a product. */
  lemma {:induction false} PricePrices(lines: seq<CartItem>, products: map<int, Product>, write: bool)
    requires Price(lines, products, write).Ok?
    ensures forall k :: k in Price(lines, products, write).value.products <==> k in products
    ensures forall k :: k in products ==>
              Price(lines, products, write).value.products[k].price == products[k].price
  {
    PriceKeepsRows(lines, products, write);
  }

  /** A successful checkout takes from every product exactly the quantity the cart
      asks for, never more than it had, and touches no other product. */
  lemma {:induction false} PriceStock(lines: seq<CartItem>, products: map<int, Product>)
    requires Price(lines, products, true).Ok?
    ensures forall k :: k in Price(lines, products, true).value.products <==> k in products
    ensures forall k :: Mentions(lines, k) ==> k in products
    ensures forall k :: k in products && Mentions(lines, k) ==>
              && products[k].stock.Some? && QtyOf(lines, k) <= products[k].stock.value
              && Price(lines, products, true).value.products[k]
                   == products[k].(stock := Some(products[k].stock.value - QtyOf(lines, k)))
    ensures forall k :: k in products && !Mentions(lines, k) ==>
              Price(lines, products, true).value.products[k] == products[k]
  {
    if lines != [] {
      var pre := lines[..|lines| - 1];
      var c := lines[|lines| - 1];
      PriceStock(pre, products);
      if !Mentions(pre, c.productId) {
        UnmentionedQty(pre, c.productId);
      }
    }
  }

  /** Every product the cart asks for exists, is priced and has stock for the total
      quantity asked for it. */
  ghost predicate Affordable(lines: seq<CartItem>, products: map<int, Product>)
  {
    forall i :: 0 <= i < |lines| ==>
      var k := lines[i].productId;
      k in products && products[k].stock.Some? && products[k].price.Some? && QtyOf(lines, k) <= products[k].stock.value
  }

  /** A checkout whose quantities are not negative succeeds exactly when the cart is
      affordable. */
  lemma {:induction false} PriceOkIff(lines: seq<CartItem>, products: map<int, Product>)
    requires forall i :: 0 <= i < |lines| ==> lines[i].quantity >= 0
    ensures Price(lines, products, true).Ok? <==> Affordable(lines, products)
  {
    if Price(lines, products, true).Ok? {
      PriceItems(lines, products, true);
      PriceStock(lines, products);
      forall i | 0 <= i < |lines|
        ensures Mentions(lines, lines[i].productId)
      {
        MentionsAt(lines, i);
      }
    }
    if lines != [] && Affordable(lines, products) {
      var pre := lines[..|lines| - 1];
      var c := lines[|lines| - 1];
      forall i | 0 <= i < |pre|
        ensures var k := pre[i].productId;
          k in products && products[k].stock.Some? && products[k].price.Some? && QtyOf(pre, k) <= products[k].stock.value
      {
        assert pre[i] == lines[i];
      }
      PriceOkIff(pre, products);
      PriceStock(pre, products);
      if !Mentions(pre, c.productId) {
        UnmentionedQty(pre, c.productId);
      }
      assert Affordable(lines, products) ==> QtyOf(lines, c.productId) <= products[c.productId].stock.value;
    }
  }

  /** The product of every line is mentioned. */
  lemma {:induction false} MentionsAt(lines: seq<CartItem>, i: int)
    requires 0 <= i < |lines|
    ensures Mentions(lines, lines[i].productId)
    decreases |lines|
  {
    if i < |lines| - 1 {
      assert lines[..|lines| - 1][i] == lines[i];
      MentionsAt(lines[..|lines| - 1], i);
    }
  }

  // ---------------------------------------------------------------------------
  // Restock: the loop of `cancelOrder`

  /** One turn of the restock loop: a product that no longer exists is skipped;
      otherwise the line's quantity goes back on its stock. */
  function RestockLine(products: map<int, Product>, x: OrderItem, write: bool): (r: Result<map<int, Product>>)
  {
    if x.productId !in products then Ok(products)
    else
      var p := products[x.productId];
      if p.stock.None? then Err(NullValue)
      else Ok(if write then products[x.productId := p.(stock := Some(p.stock.value + x.quantity))] else products)
  }

  /** The restock loop over `items`, stopping at the first line that fails. Only
      stock is ever rewritten, and a product keeps having a stock or having none. */
  function Restock(items: seq<OrderItem>, products: map<int, Product>, write: bool): (r: Result<map<int, Product>>)
    ensures r.Err? ==> r.error == NullValue
    ensures r.Ok? && !write ==> r.value == products
  {
    if items == [] then Ok(products)
    else
      match Restock(items[..|items| - 1], products, write)
      case Err(e) => Err(e)
      case Ok(m) => RestockLine(m, items[|items| - 1], write)
  }

  /** The restock rewrites nothing but stock, and a product keeps having a stock or
      having none. */
  lemma {:induction false} RestockKeepsRows(items: seq<OrderItem>, products: map<int, Product>, write: bool)
    requires Restock(items, products, write).Ok?
    ensures forall k :: k in Restock(items, products, write).value <==> k in products
    ensures forall k :: k in products ==>
              && Restock(items, products, write).value[k]
                   == products[k].(stock := Restock(items, products, write).value[k].stock)
              && (Restock(items, products, write).value[k].stock.Some? <==> products[k].stock.Some?)
  {
    if items != [] {
      RestockKeepsRows(items[..|items| - 1], products, write);
    }
  }

  /** Once a prefix of the lines fails, the whole restock fails with that error. */
  lemma {:induction false} RestockStops(items: seq<OrderItem>, products: map<int, Product>, write: bool, n: nat)
    requires n <= |items| && Restock(items[..n], products, write).Err?
    ensures Restock(items, products, write) == Restock(items[..n], products, write)
    decreases |items| - n
  {
    if n < |items| {
      assert items[..n + 1][..n] == items[..n];
      RestockStops(items, products, write, n + 1);
    } else {
      assert items[..n] == items;
    }
  }

  /** The restock fails exactly when some line's product exists without a stock. */
  lemma {:induction false} RestockOkIff(items: seq<OrderItem>, products: map<int, Product>, write: bool)
    ensures Restock(items, products, write).Ok? <==>
              forall i :: 0 <= i < |items| && items[i].productId in products ==> products[items[i].productId].stock.Some?
  {
    if items != [] {
      var pre := items[..|items| - 1];
      RestockOkIff(pre, products, write);
      if Restock(pre, products, write).Ok? {
        RestockKeepsRows(pre, products, write);
      }
      forall i | 0 <= i < |pre|
        ensures pre[i] == items[i]
      {
      }
    }
  }

  /** A successful restock puts back on every product exactly the quantity the order
      holds of it, and touches no other product. */
  lemma {:induction false} RestockStock(items: seq<OrderItem>, products: map<int, Product>)
    requires Restock(items, products, true).Ok?
    ensures forall k :: k in Restock(items, products, true).value <==> k in products
    ensures forall k :: k in products && ItemMentions(items, k) && products[k].stock.Some? ==>
              Restock(items, products, true).value[k]
                == products[k].(stock := Some(products[k].stock.value + ItemQty(items, k)))
    ensures forall k :: k in products && !ItemMentions(items, k) ==>
              Restock(items, products, true).value[k] == products[k]
  {
    if items != [] {
      var pre := items[..|items| - 1];
      RestockStock(pre, products);
      if !ItemMentions(pre, items[|items| - 1].productId) {
        UnmentionedItemQty(pre, items[|items| - 1].productId);
      }
    }
  }

  /** A product no order line holds is held in quantity zero. */
  lemma {:induction false} UnmentionedItemQty(items: seq<OrderItem>, k: int)
    requires !ItemMentions(items, k)
    ensures ItemQty(items, k) == 0
  {
    if items != [] {
      UnmentionedItemQty(items[..|items| - 1], k);
    }
  }

  /** `m` with `q` taken off the stock of product `k`, when it has one. */
  function TakeStock(m: map<int, Product>, k: int, q: int): map<int, Product>
  {
    if k in m && m[k].stock.Some? then m[k := m[k].(stock := Some(m[k].stock.value - q))] else m
  }

  /** Taking stock off one product before a restock gives what taking it off after
      the restock gives: the two kinds of stock update commute. */
  lemma {:induction false} RestockCommutes(items: seq<OrderItem>, m: map<int, Product>, k: int, q: int)
    requires Restock(items, m, true).Ok?
    ensures Restock(items, TakeStock(m, k, q), true) == Ok(TakeStock(Restock(items, m, true).value, k, q))
  {
    if items != [] {
      var pre := items[..|items| - 1];
      var x := items[|items| - 1];
      RestockCommutes(pre, m, k, q);
      var before := Restock(pre, m, true).value;
      var after := Restock(items, m, true).value;
      assert after == RestockLine(before, x, true).value;
      assert Restock(items, TakeStock(m, k, q), true) == RestockLine(TakeStock(before, k, q), x, true);
      if x.productId in before && x.productId != k && k in before && before[k].stock.Some? {
        var p := before[x.productId];
        var p' := p.(stock := Some(p.stock.value + x.quantity));
        var t := before[k].(stock := Some(before[k].stock.value - q));
        assert TakeStock(before, k, q) == before[k := t];
        assert Restock(items, TakeStock(m, k, q), true) == Ok(before[k := t][x.productId := p']);
        assert after == before[x.productId := p'];
        assert TakeStock(after, k, q) == before[x.productId := p'][k := t];
        assert before[k := t][x.productId := p'] == before[x.productId := p'][k := t];
      } else if x.productId in before && x.productId == k {
        var p := before[k];
        var t := p.(stock := Some(p.stock.value - q));
        var u := p.(stock := Some(p.stock.value - q + x.quantity));
        assert TakeStock(before, k, q) == before[k := t];
        assert RestockLine(before[k := t], x, true) == Ok(before[k := t][k := u]);
        assert before[k := t][k := u] == before[k := u];
        var p2 := p.(stock := Some(p.stock.value + x.quantity));
        assert after == before[k := p2];
        assert TakeStock(after, k, q) == before[k := p2][k := u];
        assert before[k := p2][k := u] == before[k := u];
      } else if x.productId in before {
        if k in before {
          assert after[k] == before[k];
        }
        assert TakeStock(before, k, q) == before;
        assert TakeStock(after, k, q) == after;
      } else {
        assert after == before;
      }
    }
  }

  /** Cancelling an order right after its checkout cannot fail on stock and gives every
      product back exactly the stock it had before the checkout. */
  lemma {:induction false} CancelUndoesCheckout(lines: seq<CartItem>, products: map<int, Product>, write: bool)
    requires Price(lines, products, write).Ok?
    ensures var d := Price(lines, products, write).value; Restock(d.items, d.products, write) == Ok(products)
  {
    if lines != [] {
      var pre := lines[..|lines| - 1];
      var c := lines[|lines| - 1];
      CancelUndoesCheckout(pre, products, write);
      PriceKeepsRows(pre, products, write);
      var d0 := Price(pre, products, write).value;
      var d := Price(lines, products, write).value;
      assert d == PriceLine(d0, c, write).value;
      assert d.items[..|d.items| - 1] == d0.items;
      var item := d.items[|d.items| - 1];
      assert item.productId == c.productId && item.quantity == c.quantity;
      if write {
        assert d.products == TakeStock(d0.products, c.productId, c.quantity);
        RestockCommutes(d0.items, d0.products, c.productId, c.quantity);
        assert Restock(d.items, d.products, true) == RestockLine(TakeStock(products, c.productId, c.quantity), item, true);
        PutBack(products, item);
      } else {
        assert Restock(d.items, d.products, false) == RestockLine(products, item, false);
      }
    }
  }

  /** The restock reads only the product and quantity of each line, so storing the
      lines under an order and fresh ids does not change what it does. */
  lemma {:induction false} RestockTagged(items: seq<OrderItem>, products: map<int, Product>, write: bool,
                                         orderId: int, first: int)
    ensures Restock(Tagged(items, orderId, first), products, write) == Restock(items, products, write)
  {
    if items != [] {
      var pre := items[..|items| - 1];
      var t := Tagged(items, orderId, first);
      assert t[..|t| - 1] == Tagged(pre, orderId, first);
      RestockTagged(pre, products, write, orderId, first);
    }
  }

  /** Cancelling the order a checkout stored, with its lines under any order id and
      fresh ids, gives every product back exactly the stock it had before. */
  lemma CancelUndoesOrder(lines: seq<CartItem>, products: map<int, Product>, write: bool, orderId: int, first: int)
    requires Price(lines, products, write).Ok?
    ensures var d := Price(lines, products, write).value;
            Restock(Tagged(d.items, orderId, first), d.products, write) == Ok(products)
  {
    var d := Price(lines, products, write).value;
    CancelUndoesCheckout(lines, products, write);
    RestockTagged(d.items, d.products, write, orderId, first);
  }

  /** Putting a line's quantity back on the stock it was taken from restores the row. */
  lemma PutBack(products: map<int, Product>, x: OrderItem)
    requires x.productId in products && products[x.productId].stock.Some?
    ensures RestockLine(TakeStock(products, x.productId, x.quantity), x, true) == Ok(products)
  {
    var p := products[x.productId];
    var t := p.(stock := Some(p.stock.value - x.quantity));
    assert TakeStock(products, x.productId, x.quantity) == products[x.productId := t];
    assert products[x.productId := t][x.productId := t.(stock := Some(t.stock.value + x.quantity))] == products;
  }

  /** One more turn of the checkout loop, after a prefix that succeeded. */
  lemma PriceTurn(lines: seq<CartItem>, products: map<int, Product>, write: bool, i: int, d: Draft)
    requires 0 <= i < |lines| && Price(lines[..i], products, write) == Ok(d)
    ensures Price(lines[..i + 1], products, write) == PriceLine(d, lines[i], write)
  {
    assert lines[..i + 1][..i] == lines[..i];
  }

  /** A turn of the checkout loop that fails decides the whole checkout. */
  lemma PriceFailsAt(lines: seq<CartItem>, products: map<int, Product>, write: bool, i: int, d: Draft)
    requires 0 <= i < |lines| && Price(lines[..i], products, write) == Ok(d)
    requires PriceLine(d, lines[i], write).Err?
    ensures Price(lines, products, write) == PriceLine(d, lines[i], write)
  {
    PriceTurn(lines, products, write, i, d);
    PriceStops(lines, products, write, i + 1);
  }

  /** One more turn of the restock loop, after a prefix that succeeded. */
  lemma RestockTurn(items: seq<OrderItem>, products: map<int, Product>, write: bool, i: int, m: map<int, Product>)
    requires 0 <= i < |items| && Restock(items[..i], products, write) == Ok(m)
    ensures Restock(items[..i + 1], products, write) == RestockLine(m, items[i], write)
  {
    assert items[..i + 1][..i] == items[..i];
  }

  /** A turn of the restock loop that fails decides the whole restock. */
  lemma RestockFailsAt(items: seq<OrderItem>, products: map<int, Product>, write: bool, i: int, m: map<int, Product>)
    requires 0 <= i < |items| && Restock(items[..i], products, write) == Ok(m)
    requires RestockLine(m, items[i], write).Err?
    ensures Restock(items, products, write) == RestockLine(m, items[i], write)
  {
    RestockTurn(items, products, write, i, m);
    RestockStops(items, products, write, i + 1);
  }

  /** Filing one more line of an order stores it under the next id. */
  lemma FiledNext(m: map<int, OrderItem>, items: seq<OrderItem>, orderId: int, first: int, j: int)
    requires 0 <= j < |items|
    ensures Filed(m, Tagged(items[..j + 1], orderId, first))
              == Filed(m, Tagged(items[..j], orderId, first))[first + j := items[j].(id := first + j, orderId := orderId)]
  {
    assert items[..j + 1][..j] == items[..j];
  }

  // ---------------------------------------------------------------------------
  // The service

  class OrderService {
    const db: Db
    const carts: CartService

    /** The order service and the cart service it calls share one database. */
    ghost predicate Valid()
      reads db
    {
      carts.db == db && db.Valid()
    }

    constructor (db: Db, carts: CartService)
      requires carts.db == db
      ensures this.db == db && this.carts == carts
    {
      this.db := db;
      this.carts := carts;
    }

    /** The checkout loop over the session's cart as the database stands now. */
    function Quote(sessionId: string): Result<Draft>
      reads db
    {
      Price(db.LinesOfSession(sessionId), db.products, ProductTable !in db.refused)
    }

    /** The restock loop over the stored lines of order `orderId` as the database stands now. */
    function Refund(orderId: int): Result<map<int, Product>>
      reads db
    {
      Restock(db.ItemsOf(orderId), db.products, ProductTable !in db.refused)
    }

    /** The first loop of `createOrderFromCart`: prices every line and takes its
        quantity off the product's stock, stopping at the first line that fails. */
    method Reserve(lines: seq<CartItem>) returns (r: Result<Draft>)
      requires db.Valid()
      modifies db`products
      ensures db.Valid()
      ensures r == Price(lines, old(db.products), ProductTable !in db.refused)
      ensures r.Ok? ==> db.products == r.value.products
    {
      ghost var w := ProductTable !in db.refused;
      ghost var start := db.products;
      var items: seq<OrderItem> := [];
      var total := 0;
      var i := 0;
      while i < |lines|
        invariant 0 <= i <= |lines| && db.Valid()
        invariant Price(lines[..i], start, w) == Ok(Draft(items, total, db.products))
      {
        ghost var d := Draft(items, total, db.products);
        var item := ReserveLine(lines[i], d);
        if item.Err? {
          PriceFailsAt(lines, start, w, i, d);
          return Err(item.error);
        }
        PriceTurn(lines, start, w, i, d);
        items := items + [item.value];
        total := total + item.value.subtotal;
        i := i + 1;
      }
      assert lines[..i] == lines;
      r := Ok(Draft(items, total, db.products));
    }

    /** One turn of the first loop of `createOrderFromCart`, for cart line `c`. */
    method ReserveLine(c: CartItem, ghost d: Draft) returns (r: Result<OrderItem>)
      requires db.Valid() && d.products == db.products
      modifies db`products
      ensures db.Valid()
      ensures r.Err? <==> PriceLine(d, c, ProductTable !in db.refused).Err?
      ensures r.Err? ==> r.error == PriceLine(d, c, ProductTable !in db.refused).error
      ensures r.Ok? ==> PriceLine(d, c, ProductTable !in db.refused).value
                          == Draft(d.items + [r.value], d.total + r.value.subtotal, db.products)
    {
      var product := db.ProductById(c.productId);
      if product.None? {
        return Err(ProductNotFound(c.productId));
      }
      var p := product.value;
      if p.stock.None? {
        return Err(NullValue);
      }
      if p.stock.value < c.quantity {
        return Err(InsufficientStock(p.name));
      }
      if p.price.None? {
        return Err(NullValue);
      }
      var item := OrderItem(0, 0, c.productId, c.quantity, p.price.value, p.price.value * c.quantity);
      var rows := db.UpdateProduct(p.(stock := Some(p.stock.value - c.quantity)));
      r := Ok(item);
    }

    /** The second loop of `createOrderFromCart`: stores every line under order
        `orderId`, stopping when the store refuses one. */
    method File(items: seq<OrderItem>, orderId: int) returns (ok: bool)
      requires db.Valid() && orderId in db.orders
      modifies db`orderItems, db`next
      ensures db.Valid() && old(db.next).Le(db.next) && db.orders == old(db.orders)
      ensures db.next == old(db.next).(orderItem := db.next.orderItem)
      ensures ok <==> items == [] || OrderItemTable !in db.refused
      ensures ok ==>
                && db.orderItems == Filed(old(db.orderItems), Tagged(items, orderId, old(db.next.orderItem)))
                && db.next == old(db.next).(orderItem := old(db.next.orderItem) + |items|)
    {
      ghost var m := db.orderItems;
      ghost var n := db.next;
      for j := 0 to |items|
        invariant db.Valid() && db.orders == old(db.orders)
        invariant db.next == n.(orderItem := n.orderItem + j)
        invariant db.orderItems == Filed(m, Tagged(items[..j], orderId, n.orderItem))
        invariant j > 0 ==> OrderItemTable !in db.refused
      {
        FiledNext(m, items, orderId, n.orderItem, j);
        var rows, id := db.InsertOrderItem(items[j].(orderId := orderId));
        if rows == 0 {
          return false;
        }
      }
      assert items[..|items|] == items;
      ok := true;
    }

    /** `createOrderFromCart`: turns the session's cart into a stored order with one
        line per cart line, takes the ordered quantities off the stock, and empties
        the cart. Any failure leaves every table as it was. */
    method CreateOrderFromCart(sessionId: string, userId: Option<int>, shippingAddress: string,
                               paymentMethod: string, now: Timestamp) returns (r: Result<Order>)
      requires Valid()
      modifies db
      ensures Valid() && old(db.next).Le(db.next)
      ensures old(db.LinesOfSession(sessionId)) == [] ==> r == Err(EmptyCart)
      ensures (old(db.LinesOfSession(sessionId)) != [] && old(Quote(sessionId)).Err?) ==>
                r == Err(old(Quote(sessionId)).error)
      ensures (old(db.LinesOfSession(sessionId)) != [] && old(Quote(sessionId)).Ok?
                && OrderTable in db.refused) ==>
                r == Err(CreateOrderFailed)
      ensures (old(db.LinesOfSession(sessionId)) != [] && old(Quote(sessionId)).Ok?
                && OrderTable !in db.refused && OrderItemTable in db.refused) ==>
                r == Err(CreateOrderItemFailed)
      ensures r.Err? ==> db.State() == old(db.State())
      ensures (old(db.LinesOfSession(sessionId)) != [] && old(Quote(sessionId)).Ok?
                && OrderTable !in db.refused && OrderItemTable !in db.refused) ==>
                && r == Ok(Order(old(db.next.order), userId, now, PENDING, old(Quote(sessionId)).value.total,
                                 shippingAddress, paymentMethod, None, None))
                && db.products == old(Quote(sessionId)).value.products
                && db.orders == old(db.orders)[r.value.id := r.value]
                && db.ItemsOf(r.value.id) == Tagged(old(Quote(sessionId)).value.items, r.value.id, old(db.next.orderItem))
                && db.orderItems == Filed(old(db.orderItems), db.ItemsOf(r.value.id))
                && db.carts == old(db.carts) && db.cartItems == old(db.Cleared(sessionId))
                && db.LinesOfSession(sessionId) == []
                && Refund(r.value.id) == Ok(old(db.products))
    {
      var lines := carts.GetCartItems(sessionId);
      if lines == [] {
        return Err(EmptyCart);
      }
      var saved := db.State();
      ghost var at := db.next;
      ghost var quote := Quote(sessionId);
      ghost var cleared := db.Cleared(sessionId);
      var draft := Reserve(lines);
      assert draft == quote;
      if draft.Err? {
        db.Rollback(saved, at);
        return Err(draft.error);
      }
      r := Record(draft.value, userId, shippingAddress, paymentMethod, now);
      if r.Err? {
        db.Rollback(saved, at);
        return;
      }
      carts.ClearCart(sessionId);
      assert db.cartItems == cleared;
      CancelUndoesOrder(lines, saved.products, ProductTable !in db.refused, r.value.id, at.orderItem);
    }

    /** The part of `createOrderFromCart` after the stock check: stores the header
        under a new id, then every line of `d` tagged with that id. */
    method Record(d: Draft, userId: Option<int>, shippingAddress: string, paymentMethod: string,
                  now: Timestamp) returns (r: Result<Order>)
      requires db.Valid()
      modifies db`orders, db`orderItems, db`next
      ensures db.Valid() && old(db.next).Le(db.next)
      ensures db.next.cart == old(db.next.cart) && db.next.cartItem == old(db.next.cartItem)
      ensures OrderTable in db.refused ==> r == Err(CreateOrderFailed)
      ensures (OrderTable !in db.refused && OrderItemTable in db.refused && d.items != []) ==>
                r == Err(CreateOrderItemFailed)
      ensures r.Ok? <==> OrderTable !in db.refused && (d.items == [] || OrderItemTable !in db.refused)
      ensures r.Ok? ==>
                && r.value == Order(old(db.next.order), userId, now, PENDING, d.total, shippingAddress, paymentMethod, None, None)
                && db.orders == old(db.orders)[r.value.id := r.value]
                && db.ItemsOf(r.value.id) == Tagged(d.items, r.value.id, old(db.next.orderItem))
                && db.orderItems == Filed(old(db.orderItems), db.ItemsOf(r.value.id))
    {
      ghost var m := db.orderItems;
      ghost var n := db.next;
      var order := Order(0, userId, now, PENDING, d.total, shippingAddress, paymentMethod, None, None);
      var rows, id := db.InsertOrder(order);
      if rows == 0 {
        return Err(CreateOrderFailed);
      }
      order := order.(id := id);
      var filed := File(d.items, id);
      if !filed {
        return Err(CreateOrderItemFailed);
      }
      assert forall k :: k in m ==> k < n.orderItem && m[k].orderId != id;
      LinesOfFiled(m, d.items, id, n.orderItem);
      r := Ok(order);
    }

    /** `getOrderHistory`: the orders of a user, in id order; a null user id is refused. */
    method GetOrderHistory(userId: Option<int>) returns (r: Result<seq<Order>>)
      requires Valid()
      ensures userId.None? ==> r == Err(NullUserId)
      ensures userId.Some? ==> r == Ok(db.OrdersOf(userId.value))
      ensures r.Ok? ==> forall o :: o in r.value <==> o.id in db.orders && db.orders[o.id] == o && o.userId == userId
      ensures r.Ok? ==> forall i, j :: 0 <= i < j < |r.value| ==> r.value[i].id < r.value[j].id
    {
      if userId.None? {
        return Err(NullUserId);
      }
      db.OrdersOfExact(userId.value);
      r := Ok(db.OrdersOf(userId.value));
    }

    /** `getOrderById`: the order header with its lines attached. */
    method GetOrderById(orderId: int) returns (r: Result<Order>)
      requires Valid()
      ensures orderId !in db.orders ==> r == Err(OrderNotFound(orderId))
      ensures orderId in db.orders ==> r == Ok(db.orders[orderId].(items := Some(db.ItemsOf(orderId))))
      ensures r.Ok? ==> r.value.id == orderId && r.value.items.Some?
      ensures r.Ok? ==> forall x :: x in r.value.items.value <==>
                x.id in db.orderItems && db.orderItems[x.id] == x && x.orderId == orderId
      ensures r.Ok? ==> forall i, j :: 0 <= i < j < |r.value.items.value| ==>
                r.value.items.value[i].id < r.value.items.value[j].id
    {
      var order := db.OrderById(orderId);
      if order.None? {
        return Err(OrderNotFound(orderId));
      }
      db.ItemsOfExact(orderId);
      var items := db.ItemsOf(orderId);
      r := Ok(order.value.(items := Some(items)));
    }

    /** `cancelOrder`: a pending or processing order becomes cancelled, and every
        line's quantity goes back on its product's stock; products that no longer
        exist are skipped. Any failure leaves every table as it was. */
    method CancelOrder(orderId: int, now: Timestamp) returns (r: Result<()>)
      requires Valid()
      modifies db
      ensures Valid() && db.next == old(db.next)
      ensures orderId !in old(db.orders) ==> r == Err(OrderNotFound(orderId))
      ensures (orderId in old(db.orders) && !Cancellable(old(db.orders[orderId].status))) ==>
                r == Err(NotCancellable(old(db.orders[orderId].status)))
      ensures (orderId in old(db.orders) && Cancellable(old(db.orders[orderId].status))
                && OrderTable in db.refused) ==>
                r == Err(CancelFailed)
      ensures (orderId in old(db.orders) && Cancellable(old(db.orders[orderId].status))
                && OrderTable !in db.refused) ==>
                r == if old(Refund(orderId)).Ok? then Ok(()) else Err(NullValue)
      ensures r.Err? ==> db.State() == old(db.State())
      ensures r.Ok? ==>
                && db.orders == old(db.orders)[orderId := old(db.orders[orderId]).(status := CANCELLED, cancelledAt := Some(now))]
                && db.products == old(Refund(orderId)).value
                && db.carts == old(db.carts) && db.cartItems == old(db.cartItems)
                && db.orderItems == old(db.orderItems)
    {
      var found := GetOrderById(orderId);
      if found.Err? {
        return Err(found.error);
      }
      var order := found.value;
      if order.status != PENDING && order.status != PROCESSING {
        return Err(NotCancellable(order.status));
      }
      var saved := db.State();
      ghost var at := db.next;
      order := order.(status := CANCELLED, cancelledAt := Some(now));
      var rows := db.UpdateOrder(order);
      if rows == 0 {
        return Err(CancelFailed);
      }
      var back := Restore(order.items.value);
      if back.Err? {
        db.Rollback(saved, at);
        return Err(back.error);
      }
      r := Ok(());
    }

    /** The loop of `cancelOrder`: puts every line's quantity back on its product's
        stock, stopping at the first line that fails. */
    method Restore(items: seq<OrderItem>) returns (r: Result<()>)
      requires db.Valid()
      modifies db`products
      ensures db.Valid()
      ensures r.Ok? <==> Restock(items, old(db.products), ProductTable !in db.refused).Ok?
      ensures r.Err? ==> r.error == Restock(items, old(db.products), ProductTable !in db.refused).error
      ensures r.Ok? ==> db.products == Restock(items, old(db.products), ProductTable !in db.refused).value
    {
      ghost var w := ProductTable !in db.refused;
      ghost var start := db.products;
      for i := 0 to |items|
        invariant db.Valid()
        invariant Restock(items[..i], start, w) == Ok(db.products)
      {
        var x := items[i];
        ghost var m := db.products;
        RestockTurn(items, start, w, i, m);
        var product := db.ProductById(x.productId);
        if product.Some? {
          var p := product.value;
          if p.stock.None? {
            RestockFailsAt(items, start, w, i, m);
            return Err(NullValue);
          }
          var rows := db.UpdateProduct(p.(stock := Some(p.stock.value + x.quantity)));
        }
      }
      assert items[..|items|] == items;
      r := Ok(());
    }
  }
}
