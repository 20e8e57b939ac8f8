/** The persistent state the services work on: users, the product catalog,
    carts and orders, with the identity generators of the cart and order
    tables. Each service call is one transaction over this state. */
module Store {
  import opened Common
  import opened CartItems
  import opened Carts
  import opened Orders

  class Db {
    /** Registered user names; the identity subsystem owns them. */
    var users: set<UserName>
    /** The catalog: product id to current price. It is maintained outside
        this core and may change between calls, so a cart may name a product
        that is no longer listed. */
    var products: map<ProductId, Money>
    /** The cart of each user that has one. */
    var carts: map<UserName, Cart>
    var orders: map<OrderId, Order>
    var nextCartId: CartId
    var nextOrderId: OrderId

    ghost predicate Valid()
      reads this, carts.Values
    {
      && 1 <= nextCartId
      && 1 <= nextOrderId
      // the owner column is unique: each cart belongs to the user it is filed under
      && (forall u | u in carts :: carts[u].user == u && carts[u].Valid() && 1 <= carts[u].id < nextCartId)
      && (forall u, v | u in carts && v in carts && u != v :: carts[u].id != carts[v].id)
      // an order's frozen total is the sum of its items' subtotals
      && (forall id | id in orders :: 1 <= id < nextOrderId && ItemsTotal(orders[id].items) == orders[id].total)
    }

    /** A store with the given users and catalog, no carts and no orders. */
    constructor (users: set<UserName>, products: map<ProductId, Money>)
      ensures Valid()
      ensures this.users == users && this.products == products
      ensures carts == map[] && orders == map[]
    {
      this.users := users;
      this.products := products;
      carts := map[];
      orders := map[];
      nextCartId := 1;
      nextOrderId := 1;
    }
  }
}
