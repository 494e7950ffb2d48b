/** `ProductService`: catalogue lookups, the copy-over update of a product, and the
    validated creation of one. Every operation runs in one transaction. */
module Products {
  import opened Entities
  import opened Store

  // ---------------------------------------------------------------------------
  // `String.trim`: strips every leading and trailing character up to U+0020

  /** Whether `c` is one of the characters `String.trim` strips. */
  predicate Strippable(c: char) {
    c <= ' '
  }

  /** `s` without its leading strippable characters. */
  function TrimStart(s: string): (r: string)
    ensures |r| <= |s| && r == s[|s| - |r|..]
    ensures r == [] || !Strippable(r[0])
    ensures forall i :: 0 <= i < |s| - |r| ==> Strippable(s[i])
  {
    if s != [] && Strippable(s[0]) then TrimStart(s[1..]) else s
  }

  /** `s` without its trailing strippable characters. */
  function TrimEnd(s: string): (r: string)
    ensures |r| <= |s| && r == s[..|r|]
    ensures r == [] || !Strippable(r[|r| - 1])
    ensures forall i :: |r| <= i < |s| ==> Strippable(s[i])
  {
    if s != [] && Strippable(s[|s| - 1]) then TrimEnd(s[..|s| - 1]) else s
  }

  /** `String.trim`. */
  function Trim(s: string): string
  {
    TrimEnd(TrimStart(s))
  }

  /** Trimming leaves nothing exactly when every character is strippable. */
  lemma TrimBlank(s: string)
    ensures Trim(s) == [] <==> forall i :: 0 <= i < |s| ==> Strippable(s[i])
  {
    var t := TrimStart(s);
    if Trim(s) == [] {
      forall i | 0 <= i < |s|
        ensures Strippable(s[i])
      {
        if i >= |s| - |t| {
          assert s[i] == t[i - (|s| - |t|)];
        }
      }
    }
    if forall i :: 0 <= i < |s| ==> Strippable(s[i]) {
      if t != [] {
        assert t[0] == s[|s| - |t|];
      }
    }
  }

  /** A trimmed string is a slice of the original that starts and ends with a kept
      character, everything cut off being strippable. */
  lemma TrimSlice(s: string) returns (a: int, b: int)
    ensures 0 <= a <= b <= |s| && Trim(s) == s[a..b]
    ensures Trim(s) == [] || (!Strippable(Trim(s)[0]) && !Strippable(Trim(s)[|Trim(s)| - 1]))
    ensures forall i :: 0 <= i < a ==> Strippable(s[i])
    ensures forall i :: b <= i < |s| ==> Strippable(s[i])
  {
    var t := TrimStart(s);
    var u := TrimEnd(t);
    a := |s| - |t|;
    b := a + |u|;
    assert Trim(s) == s[a..b] by {
      assert t == s[a..];
      assert u == t[..|u|];
    }
    assert Trim(s) == [] || (!Strippable(Trim(s)[0]) && !Strippable(Trim(s)[|Trim(s)| - 1])) by {
      assert Trim(s) == u;
      if u != [] {
        assert u[0] == t[0];
      }
    }
    forall i | b <= i < |s|
      ensures Strippable(s[i])
    {
      assert s[i] == t[i - a];
    }
  }

  /** Trimming twice trims nothing more. */
  lemma TrimIdempotent(s: string)
    ensures Trim(Trim(s)) == Trim(s)
  {
    var t := Trim(s);
    var _, _ := TrimSlice(s);
    if t != [] {
      assert TrimStart(t) == t;
      assert TrimEnd(t) == t;
    }
  }

  // ---------------------------------------------------------------------------
  // The create-time validation

  /** The name test of `createProduct`: null, or nothing left after trimming. */
  predicate IsBlank(name: Option<string>) {
    name.None? || Trim(name.value) == []
  }

  /** The price test of `createProduct`: present and not negative; zero is accepted. */
  predicate ValidPrice(price: Option<int>) {
    price.Some? && price.value >= 0
  }

  /** The first validation error of `createProduct`, if any, in the order it checks. */
  function CreateCheck(product: Option<Product>): (r: Option<Error>)
    ensures r.None? <==> product.Some? && !IsBlank(product.value.name) && ValidPrice(product.value.price)
    ensures r.Some? ==> r.value in {NullProduct, BlankName, InvalidPrice}
    ensures product.None? ==> r == Some(NullProduct)
    ensures (product.Some? && product.value.name.Some?
              && forall i :: 0 <= i < |product.value.name.value| ==> Strippable(product.value.name.value[i])) ==>
              r == Some(BlankName)
    ensures product.Some? && IsBlank(product.value.name) ==> r == Some(BlankName)
    ensures product.Some? && !IsBlank(product.value.name) && !ValidPrice(product.value.price) ==>
              r == Some(InvalidPrice)
  {
    if product.None? then Some(NullProduct)
    else if product.value.name.None? || (TrimBlank(product.value.name.value); Trim(product.value.name.value) == []) then
      Some(BlankName)
    else if !ValidPrice(product.value.price) then Some(InvalidPrice)
    else None
  }

  /** `existing` after `updateProduct` copied the editable fields of `given` onto it
      at time `now`. */
  function Updated(existing: Product, given: Product, now: Timestamp): (r: Product)
    ensures r.id == existing.id && r.createdAt == existing.createdAt && r.updatedAt == Some(now)
    ensures (r.name, r.description, r.price, r.stock, r.imageUrl)
              == (given.name, given.description, given.price, given.stock, given.imageUrl)
  {
    existing.(name := given.name, description := given.description, price := given.price,
              stock := given.stock, imageUrl := given.imageUrl, updatedAt := Some(now))
  }

  // ---------------------------------------------------------------------------
  // The service

  class ProductService {
    const db: Db

    constructor (db: Db)
      ensures this.db == db
    {
      this.db := db;
    }

    /** `getAllProducts`: the whole catalogue, in id order. */
    method GetAllProducts() returns (ps: seq<Product>)
      requires db.Valid()
      ensures forall i :: 0 <= i < |ps| ==>
                ps[i].id.Some? && ps[i].id.value in db.products && db.products[ps[i].id.value] == ps[i]
      ensures forall k :: k in db.products ==> db.products[k] in ps
      ensures forall i, j :: 0 <= i < j < |ps| ==> ps[i].id.value < ps[j].id.value
    {
      ps := db.SelectAllProducts();
    }

    /** `getProductById`: the stored product, or not-found. */
    method GetProductById(id: int) returns (r: Result<Product>)
      requires db.Valid()
      ensures id !in db.products ==> r == Err(ProductNotFound(id))
      ensures id in db.products ==> r == Ok(db.products[id]) && r.value.id == Some(id)
    {
      var product := db.ProductById(id);
      if product.None? {
        return Err(ProductNotFound(id));
      }
      r := Ok(product.value);
    }

    /** `updateProduct`: copies the editable fields of `product` onto the stored row
        with its id, keeping the creation time and stamping the update time. */
    method UpdateProduct(product: Option<Product>, now: Timestamp) returns (r: Result<Product>)
      requires db.Valid()
      modifies db
      ensures db.Valid() && db.next == old(db.next)
      ensures product.None? ==> r == Err(NullProduct)
      ensures product.Some? && product.value.id.None? ==> r == Err(NullProductId)
      ensures (product.Some? && product.value.id.Some? && product.value.id.value !in old(db.products)) ==>
                r == Err(ProductNotFound(product.value.id.value))
      ensures (product.Some? && product.value.id.Some? && product.value.id.value in old(db.products)
                && ProductTable in db.refused) ==>
                r == Err(UpdateProductFailed(product.value.id.value))
      ensures (product.Some? && product.value.id.Some? && product.value.id.value in old(db.products)
                && ProductTable !in db.refused) ==>
                && r == Ok(Updated(old(db.products[product.value.id.value]), product.value, now))
                && db.products == old(db.products)[product.value.id.value := r.value]
      ensures r.Err? ==> db.State() == old(db.State())
      ensures db.carts == old(db.carts) && db.cartItems == old(db.cartItems)
      ensures db.orders == old(db.orders) && db.orderItems == old(db.orderItems)
    {
      if product.None? {
        return Err(NullProduct);
      }
      if product.value.id.None? {
        return Err(NullProductId);
      }
      var id := product.value.id.value;
      var existing := GetProductById(id);
      if existing.Err? {
        return Err(existing.error);
      }
      var updated := Updated(existing.value, product.value, now);
      var rows := db.UpdateProduct(updated);
      if rows == 0 {
        return Err(UpdateProductFailed(id));
      }
      r := Ok(updated);
    }

    /** `createProduct`: validates the name and price, stamps both times with `now`
        and stores the product under its own id. */
    method CreateProduct(product: Option<Product>, now: Timestamp) returns (r: Result<Product>)
      requires db.Valid()
      modifies db
      ensures db.Valid() && db.next == old(db.next)
      ensures CreateCheck(product).Some? ==> r == Err(CreateCheck(product).value)
      ensures (CreateCheck(product).None? && (product.value.id.None? || product.value.id.value in old(db.products))) ==>
                r == Err(IntegrityViolation)
      ensures (CreateCheck(product).None? && product.value.id.Some? && product.value.id.value !in old(db.products)
                && ProductTable in db.refused) ==>
                r == Err(CreateProductFailed)
      ensures (CreateCheck(product).None? && product.value.id.Some? && product.value.id.value !in old(db.products)
                && ProductTable !in db.refused) ==>
                && r == Ok(product.value.(createdAt := Some(now), updatedAt := Some(now)))
                && db.products == old(db.products)[product.value.id.value := r.value]
      ensures r.Err? ==> db.State() == old(db.State())
      ensures db.carts == old(db.carts) && db.cartItems == old(db.cartItems)
      ensures db.orders == old(db.orders) && db.orderItems == old(db.orderItems)
    {
      if product.None? {
        return Err(NullProduct);
      }
      var p := product.value;
      if p.name.None? || Trim(p.name.value) == [] {
        return Err(BlankName);
      }
      if p.price.None? || p.price.value < 0 {
        return Err(InvalidPrice);
      }
      p := p.(createdAt := Some(now), updatedAt := Some(now));
      var rows := db.InsertProduct(p);
      if rows.Err? {
        return Err(rows.error);
      }
      if rows.value == 0 {
        return Err(CreateProductFailed);
      }
      r := Ok(p);
    }
  }
}
