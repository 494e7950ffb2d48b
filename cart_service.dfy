/** `CartService`: the session cart. A session has at most one cart; a cart holds
    lines (product, quantity). Every operation runs in one transaction: when it
    fails, the rows it wrote are put back. */
module Carts {
  import opened Entities
  import opened Store

  class CartService {
    const db: Db

    constructor (db: Db)
      ensures this.db == db
    {
      this.db := db;
    }

    /** `getCartItems`: the lines of the session's cart in id order, none when the
        session has no cart. */
    method GetCartItems(sessionId: string) returns (lines: seq<CartItem>)
      requires db.Valid()
      ensures lines == db.LinesOfSession(sessionId)
      ensures db.CartOfSession(sessionId).None? ==> lines == []
      ensures forall x :: x in lines <==>
                x.id in db.cartItems && db.cartItems[x.id] == x && db.CartOfSession(sessionId).Some?
                && x.cartId == db.CartOfSession(sessionId).value.id
      ensures forall i, j :: 0 <= i < j < |lines| ==> lines[i].id < lines[j].id
    {
      db.LinesOfSessionExact(sessionId);
      var cart := db.CartOfSession(sessionId);
      if cart.Some? {
        lines := db.LinesOf(cart.value.id);
      } else {
        lines := [];
      }
    }

    /** `addToCart`: reuses the session's cart or creates it, then stores a new line.
        Lines are never merged, so a second line for a product already in the cart
        breaks the (cart, product) key and nothing is kept. */
    method AddToCart(sessionId: string, productId: int, quantity: int) returns (r: Result<CartItem>)
      requires db.Valid()
      modifies db
      ensures db.Valid() && old(db.next).Le(db.next)
      ensures r.Ok? <==> quantity > 0 && forall x :: x in old(db.LinesOfSession(sessionId)) ==> x.productId != productId
      ensures r.Err? ==> r.error == IntegrityViolation && db.State() == old(db.State())
      ensures r.Ok? ==>
                && r.value == CartItem(old(db.next.cartItem), r.value.cartId, productId, quantity)
                && db.CartOfSession(sessionId) == Some(Cart(r.value.cartId, sessionId))
                && db.cartItems == old(db.cartItems)[r.value.id := r.value]
                && db.LinesOfSession(sessionId) == old(db.LinesOfSession(sessionId)) + [r.value]
                && db.products == old(db.products) && db.orders == old(db.orders)
                && db.orderItems == old(db.orderItems)
      ensures r.Ok? && old(db.CartOfSession(sessionId)).Some? ==>
                r.value.cartId == old(db.CartOfSession(sessionId)).value.id && db.carts == old(db.carts)
      ensures r.Ok? && old(db.CartOfSession(sessionId)).None? ==>
                r.value.cartId == old(db.next.cart) && db.carts == old(db.carts)[r.value.cartId := Cart(r.value.cartId, sessionId)]
    {
      var saved := db.State();
      ghost var at := db.next;
      db.CartOfSessionExact(sessionId);
      var found := db.CartOfSession(sessionId);
      var cart: Cart;
      if found.Some? {
        cart := found.value;
      } else {
        var made := db.InsertCart(sessionId);
        cart := made.value;
      }
      assert db.LinesOf(cart.id) == old(db.LinesOfSession(sessionId));
      db.AcceptsNewLine(cart.id, productId, quantity);
      r := db.InsertCartItem(cart.id, productId, quantity);
      if r.Err? {
        db.Rollback(saved, at);
      }
    }

    /** `updateCartItem`: after three guards (the session has a cart, the line
        exists, the line is in that cart) sets the line's quantity. */
    method UpdateCartItem(sessionId: string, itemId: int, quantity: int) returns (r: Result<()>)
      requires db.Valid()
      modifies db
      ensures db.Valid() && db.next == old(db.next)
      ensures old(db.CartOfSession(sessionId)).None? ==> r == Err(CartNotFound)
      ensures old(db.CartOfSession(sessionId)).Some? && itemId !in old(db.cartItems) ==> r == Err(CartItemNotFound)
      ensures (old(db.CartOfSession(sessionId)).Some? && itemId in old(db.cartItems)
                && old(db.cartItems[itemId].cartId) != old(db.CartOfSession(sessionId)).value.id) ==> r == Err(NotInCart)
      ensures (old(db.CartOfSession(sessionId)).Some? && itemId in old(db.cartItems)
                && old(db.cartItems[itemId].cartId) == old(db.CartOfSession(sessionId)).value.id) ==>
                  r == if quantity > 0 then Ok(()) else Err(IntegrityViolation)
      ensures r.Err? ==> db.State() == old(db.State())
      ensures r.Ok? ==>
                && db.cartItems == old(db.cartItems)[itemId := old(db.cartItems[itemId]).(quantity := quantity)]
                && db.products == old(db.products) && db.carts == old(db.carts)
                && db.orders == old(db.orders) && db.orderItems == old(db.orderItems)
    {
      var cart := db.CartOfSession(sessionId);
      if cart.None? {
        return Err(CartNotFound);
      }
      var line := db.CartItemById(itemId);
      if line.None? {
        return Err(CartItemNotFound);
      }
      if line.value.cartId != cart.value.id {
        return Err(NotInCart);
      }
      db.CartOfSessionExact(sessionId);
      var written := db.UpdateCartItem(line.value.(quantity := quantity));
      if written.Err? {
        return Err(written.error);
      }
      r := Ok(());
    }

    /** `removeFromCart`: the same three guards, then deletes that one line. */
    method RemoveFromCart(sessionId: string, itemId: int) returns (r: Result<()>)
      requires db.Valid()
      modifies db
      ensures db.Valid() && db.next == old(db.next)
      ensures old(db.CartOfSession(sessionId)).None? ==> r == Err(CartNotFound)
      ensures old(db.CartOfSession(sessionId)).Some? && itemId !in old(db.cartItems) ==> r == Err(CartItemNotFound)
      ensures (old(db.CartOfSession(sessionId)).Some? && itemId in old(db.cartItems)
                && old(db.cartItems[itemId].cartId) != old(db.CartOfSession(sessionId)).value.id) ==> r == Err(NotInCart)
      ensures (old(db.CartOfSession(sessionId)).Some? && itemId in old(db.cartItems)
                && old(db.cartItems[itemId].cartId) == old(db.CartOfSession(sessionId)).value.id) ==>
                  r == Ok(())
      ensures r.Err? ==> db.State() == old(db.State())
      ensures r.Ok? ==>
                && db.cartItems == old(db.cartItems) - {itemId}
                && db.products == old(db.products) && db.carts == old(db.carts)
                && db.orders == old(db.orders) && db.orderItems == old(db.orderItems)
    {
      var cart := db.CartOfSession(sessionId);
      if cart.None? {
        return Err(CartNotFound);
      }
      var line := db.CartItemById(itemId);
      if line.None? {
        return Err(CartItemNotFound);
      }
      if line.value.cartId != cart.value.id {
        return Err(NotInCart);
      }
      var rows := db.DeleteCartItem(line.value);
      r := Ok(());
    }

    /** `clearCart`: deletes the lines of the session's cart one by one; the lines
        of other carts stay, and nothing happens when the session has no cart. */
    method ClearCart(sessionId: string)
      requires db.Valid()
      modifies db
      ensures db.Valid() && db.next == old(db.next)
      ensures db.cartItems == old(db.Cleared(sessionId))
      ensures db.LinesOfSession(sessionId) == []
      ensures db.products == old(db.products) && db.carts == old(db.carts)
      ensures db.orders == old(db.orders) && db.orderItems == old(db.orderItems)
    {
      var cart := db.CartOfSession(sessionId);
      if cart.Some? {
        var c := cart.value.id;
        var lines := db.LinesOf(c);
        ghost var start := db.cartItems;
        ghost var n := db.next.cartItem;
        assert lines == LinesOfCart(start, c, n);
        ghost var cleared := db.Cleared(sessionId);
        assert cleared == map k | k in start && start[k].cartId != c :: start[k];
        DeleteLines(lines);
        LinesOfCartExact(start, c, n);
        ClearedAll(start, lines, c);
        assert db.cartItems == cleared;
        LinesOfCartNone(db.cartItems, c, n);
        assert db.CartOfSession(sessionId) == cart;
        assert db.LinesOfSession(sessionId) == LinesOfCart(db.cartItems, c, n);
      }
    }

    /** The loop of `clearCart`: deletes each of `lines` by id, in order. */
    method DeleteLines(lines: seq<CartItem>)
      requires db.Valid()
      modifies db`cartItems
      ensures db.Valid()
      ensures db.cartItems == old(db.cartItems) - (set j | 0 <= j < |lines| :: lines[j].id)
    {
      ghost var start := db.cartItems;
      ghost var gone: set<int> := {};
      for i := 0 to |lines|
        invariant db.Valid()
        invariant gone == set j | 0 <= j < i :: lines[j].id
        invariant db.cartItems == start - gone
      {
        var rows := db.DeleteCartItem(lines[i]);
        gone := gone + {lines[i].id};
      }
    }
  }

  /** Deleting, by id, every line a complete cart query returned leaves exactly the
      lines of the other carts. */
  lemma ClearedAll(start: map<int, CartItem>, lines: seq<CartItem>, c: int)
    requires forall k :: k in start ==> start[k].id == k
    requires forall i :: 0 <= i < |lines| ==> lines[i].id in start && start[lines[i].id] == lines[i] && lines[i].cartId == c
    requires forall k :: k in start && start[k].cartId == c ==> start[k] in lines
    ensures start - (set j | 0 <= j < |lines| :: lines[j].id) == map k | k in start && start[k].cartId != c :: start[k]
  {
    var gone := set j | 0 <= j < |lines| :: lines[j].id;
    var after := start - gone;
    forall k | k in start
      ensures k in gone <==> start[k].cartId == c
    {
      if start[k].cartId == c {
        var j :| 0 <= j < |lines| && lines[j] == start[k];
        assert lines[j].id == k;
      }
      if k in gone {
        var j :| 0 <= j < |lines| && lines[j].id == k;
      }
    }
    var want := map k | k in start && start[k].cartId != c :: start[k];
    forall k
      ensures k in after <==> k in want
    {
    }
    forall k | k in after
      ensures after[k] == want[k]
    {
    }
  }
}
