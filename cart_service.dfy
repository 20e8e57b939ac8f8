/** CartService: fetching or creating a user's cart, adding, removing and
    re-quantifying line items, and the cart projection with its total.

    The pure functions `WithAdded`, `Removed` and `Requantified` say what each
    mutator does to a cart's line items; the lemmas below them prove what the
    service promises about those edits; the methods perform the edits in place
    on the `Cart` object and are proved to produce exactly those line items. */
module CartService {
  import opened Common
  import opened CartItems
  import opened Carts
  import opened Store

  // ---------------------------------------------------------------------
  // Projections (mapToCartItemResponse, mapToCartResponse)
  // ---------------------------------------------------------------------

  datatype CartItemView = CartItemView(productId: ProductId, quantity: int, price: Money, subtotal: Money)

  datatype CartView = CartView(
    cartId: CartId,
    username: UserName,
    items: seq<CartItemView>,
    totalAmount: Money,
    createdAt: Timestamp,
    updatedAt: Option<Timestamp>)

  /** `mapToCartItemResponse`: the line's own quantity and stored price, and
      a subtotal consistent with them. */
  function ItemView(item: CartItem): (v: CartItemView)
    ensures v.productId == item.product && v.quantity == item.quantity && v.price == item.price
    ensures v.subtotal == v.price * v.quantity as real
  {
    CartItemView(item.product, item.quantity, item.price, Subtotal(item))
  }

  /** The reduce over the item views' subtotals. */
  function ViewsTotal(views: seq<CartItemView>): Money
  {
    if views == [] then 0.0 else ViewsTotal(views[..|views| - 1]) + views[|views| - 1].subtotal
  }

  /** Summing the views' subtotals gives the sum of price × quantity over the
      lines they were made from. */
  lemma {:induction false} ViewsTotalIsTotal(items: seq<CartItem>, views: seq<CartItemView>)
    requires |views| == |items|
    requires forall i | 0 <= i < |items| :: views[i] == ItemView(items[i])
    ensures ViewsTotal(views) == Total(items)
  {
    if items != [] {
      var n := |items|;
      ViewsTotalIsTotal(items[..n - 1], views[..n - 1]);
    }
  }

  /** `mapToCartResponse`: one view per line, in the cart's order, and a
      total equal to the sum of price × quantity over the lines (zero for an
      empty cart). */
  function CartResponse(cart: Cart): (v: CartView)
    reads cart
    ensures v.cartId == cart.id && v.username == cart.user
    ensures v.createdAt == cart.createdAt && v.updatedAt == cart.updatedAt
    ensures |v.items| == |cart.items|
    ensures forall i | 0 <= i < |cart.items| :: v.items[i] == ItemView(cart.items[i])
    ensures v.totalAmount == Total(cart.items)
  {
    var items := cart.items;
    var views := seq(|items|, i requires 0 <= i < |items| => ItemView(items[i]));
    ViewsTotalIsTotal(items, views);
    CartView(cart.id, cart.user, views, ViewsTotal(views), cart.createdAt, cart.updatedAt)
  }

  // ---------------------------------------------------------------------
  // The edits the mutators make to a cart's line items
  // ---------------------------------------------------------------------

  /** addProductToCart: a line already present for the product gets the
      requested quantity added and the product's current price; otherwise a
      new line is appended. */
  function WithAdded(items: seq<CartItem>, product: ProductId, quantity: int, price: Money, now: Timestamp)
    : (r: seq<CartItem>)
    ensures |r| == if Find(items, product).Some? then |items| else |items| + 1
  {
    match Find(items, product)
    case Some(i) => items[i := items[i].(quantity := items[i].quantity + quantity, price := price)]
    case None => items + [CartItem(product, quantity, price, now)]
  }

  /** removeProductFromCart: the line for the product is dropped. */
  function Removed(items: seq<CartItem>, product: ProductId): (r: seq<CartItem>)
    ensures |r| == if Find(items, product).Some? then |items| - 1 else |items|
  {
    match Find(items, product)
    case Some(i) => items[..i] + items[i + 1..]
    case None => items
  }

  /** updateCartItemQuantity with a positive quantity: the line's quantity is
      set (not incremented) and its price re-read from the product. */
  function Requantified(items: seq<CartItem>, product: ProductId, quantity: int, price: Money): (r: seq<CartItem>)
    ensures |r| == |items|
  {
    match Find(items, product)
    case Some(i) => items[i := items[i].(quantity := quantity, price := price)]
    case None => items
  }

  /** Find returns the first match, so a position with a match and none
      before it is the one found. */
  lemma {:induction false} FindFirst(items: seq<CartItem>, product: ProductId, k: nat)
    requires k < |items| && items[k].product == product
    requires forall j | 0 <= j < k :: items[j].product != product
    ensures Find(items, product) == Some(k)
  {
  }

  /** Replacing the line at `i` by one for the same product leaves the lookup
      of every other product as it was. */
  lemma {:induction false} ReplaceKeepsOthers(items: seq<CartItem>, i: nat, x: CartItem, other: ProductId)
    requires UniqueProducts(items)
    requires i < |items| && x.product == items[i].product && other != x.product
    ensures Lookup(items[i := x], other) == Lookup(items, other)
  {
    FindSameProducts(items[i := x], items, other);
    match Find(items, other)
    case None =>
    case Some(k) =>
      assert k != i;
  }

  /** Adding a product already in the cart: its quantity becomes the old
      quantity plus the requested one, its price the product's current price,
      the number of lines stays the same, every other line is untouched, and
      the total moves by the difference of the two subtotals. */
  lemma {:induction false} AddExistingIncrements(items: seq<CartItem>, product: ProductId, quantity: int, price: Money, now: Timestamp)
    requires UniqueProducts(items)
    requires Find(items, product).Some?
    ensures var i := Find(items, product).value;
            var r := WithAdded(items, product, quantity, price, now);
            && |r| == |items|
            && r[i] == CartItem(product, items[i].quantity + quantity, price, items[i].addedAt)
            && Lookup(r, product) == Some(r[i])
            && (forall j | 0 <= j < |items| && j != i :: r[j] == items[j])
            && (forall p | p != product :: Lookup(r, p) == Lookup(items, p))
            && Total(r) == Total(items) - Subtotal(items[i]) + Subtotal(r[i])
  {
    var i := Find(items, product).value;
    var x := items[i].(quantity := items[i].quantity + quantity, price := price);
    var r := items[i := x];
    assert r == WithAdded(items, product, quantity, price, now);
    FindSameProducts(r, items, product);
    forall p | p != product
      ensures Lookup(r, p) == Lookup(items, p)
    {
      ReplaceKeepsOthers(items, i, x, p);
    }
    TotalReplace(items, i, x);
  }

  /** Adding a product not yet in the cart: exactly one line is appended,
      with the requested quantity, the current price and the current time;
      every other product's line is untouched and the total grows by
      price × quantity. */
  lemma {:induction false} AddNewInserts(items: seq<CartItem>, product: ProductId, quantity: int, price: Money, now: Timestamp)
    requires Find(items, product).None?
    ensures var r := WithAdded(items, product, quantity, price, now);
            && |r| == |items| + 1
            && r[..|items|] == items
            && Lookup(r, product) == Some(CartItem(product, quantity, price, now))
            && (forall p | p != product :: Lookup(r, p) == Lookup(items, p))
            && Total(r) == Total(items) + price * quantity as real
  {
    var x := CartItem(product, quantity, price, now);
    var r := items + [x];
    FindFirst(r, product, |items|);
    forall p | p != product
      ensures Lookup(r, p) == Lookup(items, p)
    {
      match Find(items, p)
      case None =>
      case Some(k) =>
        FindFirst(r, p, k);
    }
    TotalAppend(items, x);
  }

  /** Adding keeps a cart well formed: one line per product, quantities at
      least one. */
  lemma {:induction false} AddPreservesWellFormed(items: seq<CartItem>, product: ProductId, quantity: int, price: Money, now: Timestamp)
    requires WellFormed(items)
    requires quantity >= 1
    ensures WellFormed(WithAdded(items, product, quantity, price, now))
  {
  }

  /** Dropping the line at `i` shifts the later lines down by one. */
  lemma {:induction false} DropAt(items: seq<CartItem>, i: nat)
    requires i < |items|
    ensures var r := items[..i] + items[i + 1..];
            && |r| == |items| - 1
            && (forall j | 0 <= j < i :: r[j] == items[j])
            && (forall j | i <= j < |r| :: r[j] == items[j + 1])
  {
  }

  /** Dropping the line at `i` leaves the lookup of every other product as it
      was. */
  lemma {:induction false} DropKeepsOthers(items: seq<CartItem>, i: nat, other: ProductId)
    requires i < |items| && other != items[i].product
    ensures Lookup(items[..i] + items[i + 1..], other) == Lookup(items, other)
  {
    var r := items[..i] + items[i + 1..];
    DropAt(items, i);
    match Find(items, other)
    case None =>
      assert forall j | 0 <= j < |r| :: r[j].product != other by {
        forall j | 0 <= j < |r| ensures r[j].product != other {
          if j >= i { assert r[j] == items[j + 1]; }
        }
      }
    case Some(k) =>
      if k < i {
        FindFirst(r, other, k);
      } else {
        assert k != i;
        forall j | 0 <= j < k - 1 ensures r[j].product != other {
          if j >= i { assert r[j] == items[j + 1]; }
        }
        FindFirst(r, other, k - 1);
      }
  }

  /** Removing deletes exactly the line for the product: one line fewer, the
      product no longer found, every other product's line untouched and the
      total lowered by the removed subtotal. */
  lemma {:induction false} RemovedDeletesOnly(items: seq<CartItem>, product: ProductId)
    requires UniqueProducts(items)
    requires Find(items, product).Some?
    ensures var i := Find(items, product).value;
            var r := Removed(items, product);
            && |r| == |items| - 1
            && Lookup(r, product) == None
            && (forall p | p != product :: Lookup(r, p) == Lookup(items, p))
            && Total(r) == Total(items) - Subtotal(items[i])
  {
    var i := Find(items, product).value;
    var r := items[..i] + items[i + 1..];
    DropAt(items, i);
    assert Find(r, product).None? by {
      forall j | 0 <= j < |r| ensures r[j].product != product {
        if j >= i { assert r[j] == items[j + 1]; }
      }
    }
    forall p | p != product
      ensures Lookup(r, p) == Lookup(items, p)
    {
      DropKeepsOthers(items, i, p);
    }
    TotalRemove(items, i);
  }

  /** Removing keeps a cart well formed. */
  lemma {:induction false} RemovedPreservesWellFormed(items: seq<CartItem>, product: ProductId)
    requires WellFormed(items)
    ensures WellFormed(Removed(items, product))
  {
    match Find(items, product)
    case None =>
    case Some(i) =>
      var r := items[..i] + items[i + 1..];
      DropAt(items, i);
      forall a, b | 0 <= a < b < |r| ensures r[a].product != r[b].product {
        var a' := if a < i then a else a + 1;
        var b' := if b < i then b else b + 1;
        assert r[a] == items[a'] && r[b] == items[b'];
      }
      forall a | 0 <= a < |r| ensures r[a].quantity >= 1 {
        var a' := if a < i then a else a + 1;
        assert r[a] == items[a'];
      }
  }

  /** Setting a quantity: the line's quantity becomes exactly the new
      quantity and its price the product's current price, and every other
      line is untouched. */
  lemma {:induction false} RequantifiedSetsExactly(items: seq<CartItem>, product: ProductId, quantity: int, price: Money)
    requires UniqueProducts(items)
    requires Find(items, product).Some?
    ensures var i := Find(items, product).value;
            var r := Requantified(items, product, quantity, price);
            && |r| == |items|
            && r[i] == CartItem(product, quantity, price, items[i].addedAt)
            && Lookup(r, product) == Some(r[i])
            && (forall j | 0 <= j < |items| && j != i :: r[j] == items[j])
            && (forall p | p != product :: Lookup(r, p) == Lookup(items, p))
            && Total(r) == Total(items) - Subtotal(items[i]) + price * quantity as real
  {
    var i := Find(items, product).value;
    var x := items[i].(quantity := quantity, price := price);
    var r := items[i := x];
    assert r == Requantified(items, product, quantity, price);
    FindSameProducts(r, items, product);
    forall p | p != product
      ensures Lookup(r, p) == Lookup(items, p)
    {
      ReplaceKeepsOthers(items, i, x, p);
    }
    TotalReplace(items, i, x);
  }

  /** Setting a quantity of at least one keeps one line per product and
      every quantity at least one. */
  lemma {:induction false} RequantifiedPreservesWellFormed(items: seq<CartItem>, product: ProductId, quantity: int, price: Money)
    requires WellFormed(items)
    requires quantity >= 1
    ensures WellFormed(Requantified(items, product, quantity, price))
  {
    match Find(items, product)
    case None =>
    case Some(i) =>
      var r := items[i := items[i].(quantity := quantity, price := price)];
      assert forall j | 0 <= j < |r| :: r[j].product == items[j].product;
  }

  /** Adding q1 and then q2 of a product not yet in the cart leaves one line
      for it, with quantity q1 + q2 and the price seen by the second add. */
  lemma {:induction false} AddTwiceAccumulates(items: seq<CartItem>, product: ProductId, q1: int, q2: int,
                            price1: Money, price2: Money, t1: Timestamp, t2: Timestamp)
    requires UniqueProducts(items)
    requires Find(items, product).None?
    ensures var r := WithAdded(WithAdded(items, product, q1, price1, t1), product, q2, price2, t2);
            && |r| == |items| + 1
            && Lookup(r, product) == Some(CartItem(product, q1 + q2, price2, t1))
  {
    var once := WithAdded(items, product, q1, price1, t1);
    AddNewInserts(items, product, q1, price1, t1);
    assert UniqueProducts(once);
    AddExistingIncrements(once, product, q2, price2, t2);
  }

  // ---------------------------------------------------------------------
  // The quantity increment as the source writes it
  // ---------------------------------------------------------------------

  /** Java `int` addition, which wraps around modulo 2^32. */
  function JavaIntAdd(a: Int32, b: Int32): (r: Int32)
    ensures MinInt32 <= a + b <= MaxInt32 ==> r == a + b
    ensures a + b > MaxInt32 ==> r == a + b - 0x1_0000_0000
    ensures a + b < MinInt32 ==> r == a + b + 0x1_0000_0000
  {
    (a + b - MinInt32) % 0x1_0000_0000 + MinInt32
  }

  /** The increment of an existing line as written: the stored `Integer`
      quantity plus the requested `Integer` quantity. */
  function IncrementAsWritten(current: Int32, requested: Int32): Int32
  {
    JavaIntAdd(current, requested)
  }

  /** A line holding the largest `Integer` quantity that is added to once
      more ends with a negative quantity and a negative subtotal. */
  lemma {:induction false} IncrementAsWrittenOverflows(product: ProductId, price: Money, addedAt: Timestamp)
    requires price > 0.0
    ensures var line := CartItem(product, MaxInt32, price, addedAt);
            var q := IncrementAsWritten(line.quantity, 1);
            && q == MinInt32
            && Subtotal(line.(quantity := q)) < 0.0
  {
  }

  // ---------------------------------------------------------------------
  // The service operations
  // ---------------------------------------------------------------------

  /** getOrCreateCart: the user's cart as it is if one exists; otherwise a new
      empty cart, stamped with the current time, filed under the user. */
  method GetOrCreateCart(db: Db, user: UserName, now: Timestamp) returns (r: Result<CartView>)
    requires db.Valid()
    modifies db
    ensures db.Valid()
    ensures db.users == old(db.users) && db.products == old(db.products)
    ensures db.orders == old(db.orders) && db.nextOrderId == old(db.nextOrderId)
    ensures user !in db.users ==> r == Err(UserNotFound(user)) && unchanged(db)
    ensures user in db.users && user in old(db.carts) ==>
              unchanged(db) && r == Ok(CartResponse(db.carts[user]))
    ensures user in db.users && user !in old(db.carts) ==>
              && user in db.carts
              && fresh(db.carts[user])
              && db.carts == old(db.carts)[user := db.carts[user]]
              && db.carts[user].id == old(db.nextCartId)
              && db.nextCartId == old(db.nextCartId) + 1
              && db.carts[user].items == []
              && db.carts[user].createdAt == now
              && db.carts[user].updatedAt == None
              && r == Ok(CartResponse(db.carts[user]))
  {
    if user !in db.users {
      return Err(UserNotFound(user));
    }
    if user in db.carts {
      return Ok(CartResponse(db.carts[user]));
    }
    var cart := new Cart(db.nextCartId, user, now);
    cart.OnCreate(now);
    db.carts := db.carts[user := cart];
    db.nextCartId := db.nextCartId + 1;
    r := Ok(CartResponse(cart));
  }

  /** Two getOrCreateCart calls in a row for a registered user both succeed
      and return the same cart. */
  method GetOrCreateCartTwice(db: Db, user: UserName, t1: Timestamp, t2: Timestamp)
    returns (first: Result<CartView>, second: Result<CartView>)
    requires db.Valid()
    requires user in db.users
    modifies db
    ensures db.Valid()
    ensures first.Ok? && second.Ok?
    ensures first.value.cartId == second.value.cartId
  {
    first := GetOrCreateCart(db, user, t1);
    second := GetOrCreateCart(db, user, t2);
  }

  /** addProductToCart: fails if the user, their cart or the product is
      missing, and never creates a cart; otherwise applies `WithAdded` with
      the product's current price and returns the view of the resulting line. */
  method AddProductToCart(db: Db, user: UserName, product: ProductId, quantity: Int32, now: Timestamp)
    returns (r: Result<CartItemView>)
    requires db.Valid()
    requires quantity >= 1
    modifies db.carts.Values
    ensures db.Valid()
    ensures user !in db.users ==> r == Err(UserNotFound(user))
    ensures user in db.users && user !in db.carts ==> r == Err(CartNotFound(user))
    ensures user in db.users && user in db.carts && product !in db.products ==>
              r == Err(ProductNotFound(product))
    ensures r.Ok? <==> user in db.users && user in db.carts && product in db.products
    ensures r.Err? ==> unchanged(db.carts.Values)
    ensures r.Ok? ==>
              var cart := db.carts[user];
              && cart.items == WithAdded(old(cart.items), product, quantity, db.products[product], now)
              && Lookup(cart.items, product).Some?
              && r.value == ItemView(Lookup(cart.items, product).value)
              && cart.updatedAt == Some(now)
              && cart.createdAt == old(cart.createdAt)
    ensures forall u | u in db.carts && u != user :: unchanged(db.carts[u])
  {
    if user !in db.users {
      return Err(UserNotFound(user));
    }
    if user !in db.carts {
      return Err(CartNotFound(user));
    }
    if product !in db.products {
      return Err(ProductNotFound(product));
    }
    var cart := db.carts[user];
    var item := AddLine(cart, product, quantity, db.products[product], now);
    r := Ok(ItemView(item));
    assert forall u | u in db.carts && u != user :: db.carts[u] != cart;
  }

  /** The in-place edit behind addProductToCart, on one cart: increment the
      product's line or append a new one, then stamp the update time. */
  method AddLine(cart: Cart, product: ProductId, quantity: int, price: Money, now: Timestamp)
    returns (item: CartItem)
    requires cart.Valid()
    requires quantity >= 1
    modifies cart
    ensures cart.Valid()
    ensures cart.items == WithAdded(old(cart.items), product, quantity, price, now)
    ensures Lookup(cart.items, product) == Some(item)
    ensures cart.updatedAt == Some(now) && cart.createdAt == old(cart.createdAt)
  {
    ghost var before := cart.items;
    match Find(cart.items, product) {
      case Some(i) =>
        item := cart.items[i].(quantity := cart.items[i].quantity + quantity, price := price);
        cart.items := cart.items[i := item];
        AddExistingIncrements(before, product, quantity, price, now);
      case None =>
        item := CartItem(product, quantity, price, now);
        cart.items := cart.items + [item];
        AddNewInserts(before, product, quantity, price, now);
    }
    AddPreservesWellFormed(before, product, quantity, price, now);
    cart.updatedAt := Some(now);
    cart.OnUpdate(now);
  }

  /** removeProductFromCart: fails if the user, their cart or the line for
      the product is missing; otherwise applies `Removed`. */
  method RemoveProductFromCart(db: Db, user: UserName, product: ProductId, now: Timestamp)
    returns (r: Result<()>)
    requires db.Valid()
    modifies db.carts.Values
    ensures db.Valid()
    ensures user !in db.users ==> r == Err(UserNotFound(user))
    ensures user in db.users && user !in db.carts ==> r == Err(CartNotFound(user))
    ensures user in db.users && user in db.carts && old(Find(db.carts[user].items, product)).None? ==>
              r == Err(ItemNotFound(product))
    ensures r.Ok? <==>
              user in db.users && user in db.carts && old(Find(db.carts[user].items, product)).Some?
    ensures r.Err? ==> unchanged(db.carts.Values)
    ensures r.Ok? ==>
              var cart := db.carts[user];
              && cart.items == Removed(old(cart.items), product)
              && cart.updatedAt == Some(now)
              && cart.createdAt == old(cart.createdAt)
    ensures forall u | u in db.carts && u != user :: unchanged(db.carts[u])
  {
    if user !in db.users {
      return Err(UserNotFound(user));
    }
    if user !in db.carts {
      return Err(CartNotFound(user));
    }
    var cart := db.carts[user];
    if Find(cart.items, product).None? {
      return Err(ItemNotFound(product));
    }
    RemoveLine(cart, product, now);
    r := Ok(());
    assert forall u | u in db.carts && u != user :: db.carts[u] != cart;
  }

  /** The in-place edit behind removeProductFromCart, on one cart: drop the
      product's line, then stamp the update time. */
  method RemoveLine(cart: Cart, product: ProductId, now: Timestamp)
    requires cart.Valid()
    requires Find(cart.items, product).Some?
    modifies cart
    ensures cart.Valid()
    ensures cart.items == Removed(old(cart.items), product)
    ensures cart.updatedAt == Some(now) && cart.createdAt == old(cart.createdAt)
  {
    var i := Find(cart.items, product).value;
    RemovedPreservesWellFormed(cart.items, product);
    cart.items := cart.items[..i] + cart.items[i + 1..];
    cart.updatedAt := Some(now);
    cart.OnUpdate(now);
  }

  /** updateCartItemQuantity. A quantity of zero or less behaves exactly as
      removeProductFromCart and returns no line. A positive quantity needs
      the user, the cart and the line; the line's quantity is set to it and
      its price re-read from the product it refers to. */
  method UpdateCartItemQuantity(db: Db, user: UserName, product: ProductId, newQuantity: Int32, now: Timestamp)
    returns (r: Result<Option<CartItemView>>)
    requires db.Valid()
    modifies db.carts.Values
    ensures db.Valid()
    ensures user !in db.users ==> r == Err(UserNotFound(user))
    ensures user in db.users && user !in db.carts ==> r == Err(CartNotFound(user))
    ensures user in db.users && user in db.carts && old(Find(db.carts[user].items, product)).None? ==>
              r == Err(ItemNotFound(product))
    ensures r.Err? ==> unchanged(db.carts.Values)
    ensures forall u | u in db.carts && u != user :: unchanged(db.carts[u])
    ensures newQuantity <= 0 ==>
              && (r.Ok? <==> user in db.users && user in db.carts && old(Find(db.carts[user].items, product)).Some?)
              && (r.Ok? ==>
                    var cart := db.carts[user];
                    && r.value == None
                    && cart.items == Removed(old(cart.items), product)
                    && cart.updatedAt == Some(now)
                    && cart.createdAt == old(cart.createdAt))
    ensures newQuantity > 0 ==>
              && (r.Ok? <==> user in db.users && user in db.carts
                             && old(Find(db.carts[user].items, product)).Some? && product in db.products)
              && ((user in db.users && user in db.carts && old(Find(db.carts[user].items, product)).Some?
                    && product !in db.products) ==> r == Err(ProductNotFound(product)))
              && (r.Ok? ==>
                    var cart := db.carts[user];
                    && cart.items == Requantified(old(cart.items), product, newQuantity, db.products[product])
                    && Lookup(cart.items, product).Some?
                    && r.value == Some(ItemView(Lookup(cart.items, product).value))
                    && cart.updatedAt == Some(now)
                    && cart.createdAt == old(cart.createdAt))
  {
    if newQuantity <= 0 {
      var removed := RemoveProductFromCart(db, user, product, now);
      if removed.Err? {
        return Err(removed.error);
      }
      return Ok(None);
    }
    if user !in db.users {
      return Err(UserNotFound(user));
    }
    if user !in db.carts {
      return Err(CartNotFound(user));
    }
    var cart := db.carts[user];
    if Find(cart.items, product).None? {
      return Err(ItemNotFound(product));
    }
    // the price is read through the line's product reference
    if product !in db.products {
      return Err(ProductNotFound(product));
    }
    var item := SetLine(cart, product, newQuantity, db.products[product], now);
    r := Ok(Some(ItemView(item)));
    assert forall u | u in db.carts && u != user :: db.carts[u] != cart;
  }

  /** The in-place edit behind updateCartItemQuantity with a positive
      quantity, on one cart: overwrite the line's quantity and price, then
      stamp the update time. */
  method SetLine(cart: Cart, product: ProductId, quantity: int, price: Money, now: Timestamp)
    returns (item: CartItem)
    requires cart.Valid()
    requires Find(cart.items, product).Some?
    requires quantity >= 1
    modifies cart
    ensures cart.Valid()
    ensures cart.items == Requantified(old(cart.items), product, quantity, price)
    ensures Lookup(cart.items, product) == Some(item)
    ensures cart.updatedAt == Some(now) && cart.createdAt == old(cart.createdAt)
  {
    var i := Find(cart.items, product).value;
    RequantifiedSetsExactly(cart.items, product, quantity, price);
    RequantifiedPreservesWellFormed(cart.items, product, quantity, price);
    item := cart.items[i].(quantity := quantity, price := price);
    cart.items := cart.items[i := item];
    cart.updatedAt := Some(now);
    cart.OnUpdate(now);
  }

  /** getCart: the projection of the user's cart; reading it changes
      nothing, and it fails if the user or the cart is missing. */
  function GetCart(db: Db, user: UserName): (r: Result<CartView>)
    reads db, db.carts.Values
    ensures user !in db.users ==> r == Err(UserNotFound(user))
    ensures user in db.users && user !in db.carts ==> r == Err(CartNotFound(user))
    ensures r.Ok? <==> user in db.users && user in db.carts
    ensures r.Ok? ==>
              && r.value.cartId == db.carts[user].id
              && |r.value.items| == |db.carts[user].items|
              && r.value.totalAmount == Total(db.carts[user].items)
  {
    if user !in db.users then Err(UserNotFound(user))
    else if user !in db.carts then Err(CartNotFound(user))
    else Ok(CartResponse(db.carts[user]))
  }
}
