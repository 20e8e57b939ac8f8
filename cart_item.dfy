/** The CartItem entity and the line-item collection of a cart.

    A cart's `Set<CartItem>` is kept as a sequence: the service looks a line
    up with `stream().filter(...).findFirst()`, a front-to-back search, and
    the sequence fixes the iteration order that a Java hash set leaves open.
    A line item is identified by its (cart, product) pair, so inside one cart
    no two lines share a product. */
module CartItems {
  import opened Common

  /** One line of a cart: product, quantity, price snapshot, time added.
      Quantity and price are never null in the source. */
  datatype CartItem = CartItem(product: ProductId, quantity: int, price: Money, addedAt: Timestamp)

  /** `CartItem.getSubtotal`: price × quantity. */
  function Subtotal(item: CartItem): Money
  {
    item.price * item.quantity as real
  }

  /** At most one line per product: the composite (cart, product) key. */
  ghost predicate UniqueProducts(items: seq<CartItem>)
  {
    forall i, j | 0 <= i < j < |items| :: items[i].product != items[j].product
  }

  /** Every stored quantity is at least one: adding requires one or more, and
      setting a quantity of zero or less removes the line instead. */
  ghost predicate PositiveQuantities(items: seq<CartItem>)
  {
    forall i | 0 <= i < |items| :: items[i].quantity >= 1
  }

  ghost predicate WellFormed(items: seq<CartItem>)
  {
    UniqueProducts(items) && PositiveQuantities(items)
  }

  /** The position of the first line for `product`, as
      `stream().filter(item -> product matches).findFirst()` finds it. */
  function Find(items: seq<CartItem>, product: ProductId): (r: Option<nat>)
    ensures r.Some? ==> r.value < |items| && items[r.value].product == product
    ensures r.Some? ==> forall j | 0 <= j < r.value :: items[j].product != product
    ensures r.None? <==> forall j | 0 <= j < |items| :: items[j].product != product
  {
    if items == [] then None
    else if items[0].product == product then Some(0)
    else match Find(items[1..], product)
      case None => None
      case Some(i) => Some(i + 1)
  }

  /** The line for `product`, if the cart has one. */
  function Lookup(items: seq<CartItem>, product: ProductId): Option<CartItem>
  {
    match Find(items, product)
    case None => None
    case Some(i) => Some(items[i])
  }

  /** Two line sequences with the same products position by position are
      searched alike. */
  lemma FindSameProducts(a: seq<CartItem>, b: seq<CartItem>, product: ProductId)
    requires |a| == |b|
    requires forall j | 0 <= j < |a| :: a[j].product == b[j].product
    ensures Find(a, product) == Find(b, product)
  {
    match Find(a, product)
    case None =>
    case Some(i) =>
      assert b[i].product == product;
  }

  /** Sum of the line subtotals, folded from the left starting at zero, as
      `reduce(BigDecimal.ZERO, BigDecimal::add)` does. */
  function Total(items: seq<CartItem>): (r: Money)
    ensures items == [] ==> r == 0.0
  {
    if items == [] then 0.0 else Total(items[..|items| - 1]) + Subtotal(items[|items| - 1])
  }

  /** With catalog prices of at least 0.01 and quantities of at least one,
      a cart with lines has a positive total. */
  lemma {:induction false} TotalPositive(items: seq<CartItem>)
    requires PositiveQuantities(items)
    requires forall i | 0 <= i < |items| :: items[i].price > 0.0
    requires items != []
    ensures Total(items) > 0.0
  {
    var n := |items|;
    var init := items[..n - 1];
    assert Subtotal(items[n - 1]) >= items[n - 1].price;
    if init != [] {
      assert forall i | 0 <= i < |init| :: init[i] == items[i];
      TotalPositive(init);
    }
  }

  lemma TotalAppend(items: seq<CartItem>, x: CartItem)
    ensures Total(items + [x]) == Total(items) + Subtotal(x)
  {
    assert (items + [x])[..|items|] == items;
  }

  /** Replacing one line changes the total by exactly the difference of the
      two subtotals. */
  lemma {:induction false} TotalReplace(items: seq<CartItem>, i: nat, x: CartItem)
    requires i < |items|
    ensures Total(items[i := x]) == Total(items) - Subtotal(items[i]) + Subtotal(x)
  {
    var n := |items|;
    if i == n - 1 {
      assert items[i := x][..n - 1] == items[..n - 1];
    } else {
      assert items[i := x][..n - 1] == items[..n - 1][i := x];
      TotalReplace(items[..n - 1], i, x);
    }
  }

  /** Dropping one line lowers the total by exactly its subtotal. */
  lemma {:induction false} TotalRemove(items: seq<CartItem>, i: nat)
    requires i < |items|
    ensures Total(items[..i] + items[i + 1..]) == Total(items) - Subtotal(items[i])
  {
    var n := |items|;
    var rest := items[..i] + items[i + 1..];
    if i == n - 1 {
      assert rest == items[..n - 1];
    } else {
      var front := items[..n - 1];
      assert rest[..|rest| - 1] == front[..i] + front[i + 1..];
      assert rest[|rest| - 1] == items[n - 1];
      TotalRemove(front, i);
    }
  }
}
