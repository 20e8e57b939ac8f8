/** OrderService: turning a cart into an order, reading orders, the
    administrative status override and payment reconciliation. */
module OrderService {
  import opened Common
  import opened CartItems
  import opened Carts
  import opened Orders
  import opened Store

  // ---------------------------------------------------------------------
  // Checkout (createOrderFromCart)
  // ---------------------------------------------------------------------

  /** The order item made from one cart line: its quantity and its stored
      cart price, not a fresh catalog price. */
  function ToOrderItem(item: CartItem): (o: OrderItem)
    ensures o.product == item.product && o.quantity == item.quantity
    ensures ItemSubtotal(o) == Subtotal(item)
  {
    OrderItem(item.product, item.quantity, item.price)
  }

  /** `orderItems` holds one item per cart line, in the same order, each
      copying that line's product, quantity and stored price. */
  ghost predicate SnapshotOf(orderItems: seq<OrderItem>, items: seq<CartItem>)
  {
    && |orderItems| == |items|
    && forall i | 0 <= i < |items| ::
         orderItems[i] == OrderItem(items[i].product, items[i].quantity, items[i].price)
  }

  /** Line `k` is the first whose product is no longer in the catalog. */
  ghost predicate FirstMissing(items: seq<CartItem>, products: map<ProductId, Money>, k: int)
  {
    && 0 <= k < |items|
    && items[k].product !in products
    && forall j | 0 <= j < k :: items[j].product in products
  }

  /** The items of an order snapshot add up to the cart total they were
      copied from. */
  lemma {:induction false} SnapshotTotal(orderItems: seq<OrderItem>, items: seq<CartItem>)
    requires SnapshotOf(orderItems, items)
    ensures ItemsTotal(orderItems) == Total(items)
  {
    if items != [] {
      var n := |items|;
      SnapshotTotal(orderItems[..n - 1], items[..n - 1]);
    }
  }

  /** The loop of createOrderFromCart: for each cart line, re-resolve its
      product (failing on the first that is gone) and copy the line into an
      order item. It changes nothing. */
  method SnapshotItems(items: seq<CartItem>, products: map<ProductId, Money>)
    returns (r: Result<seq<OrderItem>>)
    ensures r.Ok? <==> forall i | 0 <= i < |items| :: items[i].product in products
    ensures r.Ok? ==> SnapshotOf(r.value, items)
    ensures r.Err? ==>
              exists k :: FirstMissing(items, products, k) && r.error == ProductNotFound(items[k].product)
  {
    var acc: seq<OrderItem> := [];
    for i := 0 to |items|
      invariant |acc| == i
      invariant forall j | 0 <= j < i :: items[j].product in products
      invariant forall j | 0 <= j < i :: acc[j] == ToOrderItem(items[j])
    {
      if items[i].product !in products {
        assert FirstMissing(items, products, i);
        return Err(ProductNotFound(items[i].product));
      }
      acc := acc + [ToOrderItem(items[i])];
    }
    return Ok(acc);
  }

  /** createOrderFromCart. It fails if the user or the cart is missing, if
      the cart has no lines, or if a line's product has left the catalog;
      a failure changes nothing, because the transaction is rolled back.
      Otherwise a new PENDING order for the user is stored under a fresh id,
      its total frozen at the cart's total and its items copied from the
      cart's lines; the cart is kept with no lines; nothing else changes. */
  method CreateOrderFromCart(db: Db, user: UserName, now: Timestamp) returns (r: Result<OrderView>)
    requires db.Valid()
    modifies db, db.carts.Values
    ensures db.Valid()
    ensures db.users == old(db.users) && db.products == old(db.products)
    ensures db.carts == old(db.carts) && db.nextCartId == old(db.nextCartId)
    ensures forall u | u in db.carts && u != user :: unchanged(db.carts[u])
    ensures user !in db.users ==> r == Err(UserNotFound(user))
    ensures user in db.users && user !in db.carts ==> r == Err(CartNotFound(user))
    ensures user in db.users && user in old(db.carts) && old(db.carts[user].items) == [] ==>
              r == Err(EmptyCart)
    ensures user in db.users && user in old(db.carts) && old(db.carts[user].items) != [] ==>
              var items := old(db.carts[user].items);
              && (r.Ok? <==> forall i | 0 <= i < |items| :: items[i].product in db.products)
              && (r.Err? ==>
                    exists k :: FirstMissing(items, db.products, k) && r.error == ProductNotFound(items[k].product))
    ensures r.Err? ==> unchanged(db) && unchanged(db.carts.Values)
    ensures r.Ok? ==>
              var id := old(db.nextOrderId);
              var items := old(db.carts[user].items);
              && user in db.users && user in db.carts
              && id !in old(db.orders)
              && db.nextOrderId == id + 1
              && id in db.orders
              && db.orders == old(db.orders)[id := db.orders[id]]
              && db.orders[id].user == user
              && db.orders[id].status == Pending
              && db.orders[id].orderDate == now
              && db.orders[id].total == Total(items)
              && SnapshotOf(db.orders[id].items, items)
              && db.carts[user].items == []
              && db.carts[user].createdAt == old(db.carts[user].createdAt)
              && db.carts[user].updatedAt == old(db.carts[user].updatedAt)
              && r.value == OrderResponse(id, db.orders[id])
  {
    if user !in db.users {
      return Err(UserNotFound(user));
    }
    if user !in db.carts {
      return Err(CartNotFound(user));
    }
    var cart := db.carts[user];
    if |cart.items| == 0 {
      return Err(EmptyCart);
    }
    var total := Total(cart.items);
    var snapshot := SnapshotItems(cart.items, db.products);
    if snapshot.Err? {
      return Err(snapshot.error);
    }
    SnapshotTotal(snapshot.value, cart.items);
    var order := Order(user, snapshot.value, total, now, Pending);
    var id := InsertOrder(db, order);
    cart.Clear();
    assert forall u | u in db.carts && u != user :: db.carts[u] != cart;
    r := Ok(OrderResponse(id, order));
  }

  /** Saving a new order: it takes the next identity value of the order
      table; nothing else in the store changes. */
  method InsertOrder(db: Db, order: Order) returns (id: OrderId)
    requires db.Valid()
    requires ItemsTotal(order.items) == order.total
    modifies db
    ensures db.Valid()
    ensures id == old(db.nextOrderId) && id !in old(db.orders)
    ensures db.orders == old(db.orders)[id := order] && db.nextOrderId == id + 1
    ensures db.users == old(db.users) && db.products == old(db.products)
    ensures db.carts == old(db.carts) && db.nextCartId == old(db.nextCartId)
  {
    id := db.nextOrderId;
    db.orders := db.orders[id := order];
    db.nextOrderId := id + 1;
  }

  // ---------------------------------------------------------------------
  // Reading orders
  // ---------------------------------------------------------------------

  /** getOrderById: the projection of the order, or NotFound. */
  function GetOrderById(db: Db, id: OrderId): (r: Result<OrderView>)
    reads db
    ensures r.Ok? <==> id in db.orders
    ensures r.Err? ==> r.error == OrderNotFound(id)
    ensures r.Ok? ==>
              && r.value.orderId == id
              && r.value.username == db.orders[id].user
              && r.value.totalAmount == db.orders[id].total
              && r.value.status == db.orders[id].status
  {
    if id in db.orders then Ok(OrderResponse(id, db.orders[id])) else Err(OrderNotFound(id))
  }

  /** The order belongs to `owner`, or no owner is asked for. */
  predicate Owns(owner: Option<UserName>, order: Order)
  {
    owner.None? || order.user == owner.value
  }

  /** The projections of the orders with ids in [lo, hi) that belong to
      `owner`, by increasing id: exactly those orders, each once. */
  function OrdersIn(orders: map<OrderId, Order>, owner: Option<UserName>, lo: int, hi: int): (r: seq<OrderView>)
    decreases hi - lo
    ensures forall k | 0 <= k < |r| ::
              && lo <= r[k].orderId < hi
              && r[k].orderId in orders
              && Owns(owner, orders[r[k].orderId])
              && r[k] == OrderResponse(r[k].orderId, orders[r[k].orderId])
    ensures forall k, l | 0 <= k < l < |r| :: r[k].orderId < r[l].orderId
    ensures forall id | lo <= id < hi && id in orders && Owns(owner, orders[id]) ::
              OrderResponse(id, orders[id]) in r
  {
    if lo >= hi then []
    else
      var rest := OrdersIn(orders, owner, lo + 1, hi);
      if lo in orders && Owns(owner, orders[lo]) then [OrderResponse(lo, orders[lo])] + rest else rest
  }

  /** getUserOrders: the user's orders, or NotFound for an unknown user. */
  function GetUserOrders(db: Db, user: UserName): (r: Result<seq<OrderView>>)
    requires db.Valid()
    reads db, db.carts.Values
    ensures r.Ok? <==> user in db.users
    ensures r.Err? ==> r.error == UserNotFound(user)
    ensures r.Ok? ==> forall v | v in r.value :: v.orderId in db.orders && v.username == user
    ensures r.Ok? ==> forall k, l | 0 <= k < l < |r.value| :: r.value[k].orderId < r.value[l].orderId
    ensures r.Ok? ==>
              forall id | id in db.orders && db.orders[id].user == user ::
                OrderResponse(id, db.orders[id]) in r.value
  {
    if user !in db.users then Err(UserNotFound(user))
    else Ok(OrdersIn(db.orders, Some(user), 1, db.nextOrderId))
  }

  /** getAllOrders: every order, each once. */
  function GetAllOrders(db: Db): (r: seq<OrderView>)
    requires db.Valid()
    reads db, db.carts.Values
    ensures forall v | v in r :: v.orderId in db.orders && v == OrderResponse(v.orderId, db.orders[v.orderId])
    ensures forall id | id in db.orders :: OrderResponse(id, db.orders[id]) in r
    ensures forall k, l | 0 <= k < l < |r| :: r[k].orderId < r[l].orderId
  {
    OrdersIn(db.orders, None, 1, db.nextOrderId)
  }

  // ---------------------------------------------------------------------
  // Administrative status override (updateOrderStatus)
  // ---------------------------------------------------------------------

  /** updateOrderStatus: sets the status to any value whatever the current
      one; the total, items, owner and date stay as they were. NotFound for
      an unknown id. */
  method UpdateOrderStatus(db: Db, id: OrderId, status: OrderStatus) returns (r: Result<OrderView>)
    requires db.Valid()
    modifies db
    ensures db.Valid()
    ensures id !in old(db.orders) ==> r == Err(OrderNotFound(id)) && unchanged(db)
    ensures id in old(db.orders) ==>
              && db.orders == old(db.orders)[id := old(db.orders[id]).(status := status)]
              && r == Ok(OrderResponse(id, db.orders[id]))
    ensures db.users == old(db.users) && db.products == old(db.products) && db.carts == old(db.carts)
    ensures db.nextCartId == old(db.nextCartId) && db.nextOrderId == old(db.nextOrderId)
  {
    if id !in db.orders {
      return Err(OrderNotFound(id));
    }
    var order := db.orders[id].(status := status);
    db.orders := db.orders[id := order];
    r := Ok(OrderResponse(id, order));
  }

  // ---------------------------------------------------------------------
  // Payment reconciliation (processPayment)
  // ---------------------------------------------------------------------

  datatype PaymentStatus = Success | Failed

  /** Which of the three reports the payment produced. */
  datatype PaymentMessage = AmountMismatch | NotPending(current: OrderStatus) | Processed

  datatype PaymentResponse = PaymentResponse(
    orderId: OrderId,
    amountPaid: Money,
    paymentMethod: string,
    transactionId: Option<string>,
    paymentStatus: PaymentStatus,
    newOrderStatus: OrderStatus,
    paymentDate: Timestamp,
    message: PaymentMessage)

  /** The decision of processPayment for one order: an amount that differs
      from the stored total fails without a transaction id; the exact amount
      on a PENDING order succeeds and moves it to PROCESSING; the exact amount
      on any other order fails and leaves its status. `newOrderStatus` is the
      order's status after the call. */
  function Reconcile(id: OrderId, order: Order, amount: Money, paymentMethod: string,
                     transactionId: string, now: Timestamp): (r: PaymentResponse)
    ensures r.orderId == id && r.amountPaid == amount && r.paymentMethod == paymentMethod
    ensures r.paymentDate == now
    ensures r.paymentStatus == Success <==> amount == order.total && order.status == Pending
    ensures r.paymentStatus == Success ==>
              r.newOrderStatus == Processing && r.transactionId == Some(transactionId) && r.message == Processed
    ensures r.paymentStatus == Failed ==> r.newOrderStatus == order.status
    ensures r.transactionId.None? <==> amount != order.total
    ensures amount != order.total ==> r.message == AmountMismatch
    ensures amount == order.total && order.status != Pending ==> r.message == NotPending(order.status)
  {
    if amount != order.total then
      PaymentResponse(id, amount, paymentMethod, None, Failed, order.status, now, AmountMismatch)
    else if order.status == Pending then
      PaymentResponse(id, amount, paymentMethod, Some(transactionId), Success, Processing, now, Processed)
    else
      PaymentResponse(id, amount, paymentMethod, Some(transactionId), Failed, order.status, now,
                      NotPending(order.status))
  }

  /** Paying again after a successful payment fails: the order is no longer
      PENDING. */
  lemma RetryAfterSuccessFails(id: OrderId, order: Order, amount: Money, paymentMethod: string,
                               tx1: string, tx2: string, t1: Timestamp, t2: Timestamp)
    requires Reconcile(id, order, amount, paymentMethod, tx1, t1).paymentStatus == Success
    ensures var paid := order.(status := Reconcile(id, order, amount, paymentMethod, tx1, t1).newOrderStatus);
            var again := Reconcile(id, paid, amount, paymentMethod, tx2, t2);
            && again.paymentStatus == Failed
            && again.newOrderStatus == Processing
            && again.message == NotPending(Processing)
  {
  }

  /** processPayment. NotFound for an unknown order id. Otherwise the reply is
      `Reconcile` of the stored order, and the stored status becomes the
      reply's `newOrderStatus`; nothing else changes. The transaction id and
      the clock reading are supplied by the caller; the card details are not
      used. */
  method ProcessPayment(db: Db, orderId: OrderId, amount: Money, paymentMethod: string, cardDetails: string,
                        transactionId: string, now: Timestamp)
    returns (r: Result<PaymentResponse>)
    requires db.Valid()
    requires amount >= 0.01
    modifies db
    ensures db.Valid()
    ensures orderId !in old(db.orders) ==> r == Err(OrderNotFound(orderId)) && unchanged(db)
    ensures orderId in old(db.orders) ==>
              var order := old(db.orders[orderId]);
              && r == Ok(Reconcile(orderId, order, amount, paymentMethod, transactionId, now))
              && db.orders == old(db.orders)[orderId := order.(status := r.value.newOrderStatus)]
    ensures r.Ok? && r.value.paymentStatus == Failed ==> db.orders == old(db.orders)
    ensures db.users == old(db.users) && db.products == old(db.products) && db.carts == old(db.carts)
    ensures db.nextCartId == old(db.nextCartId) && db.nextOrderId == old(db.nextOrderId)
  {
    if orderId !in db.orders {
      return Err(OrderNotFound(orderId));
    }
    var order := db.orders[orderId];
    if amount != order.total {
      return Ok(PaymentResponse(orderId, amount, paymentMethod, None, Failed, order.status, now, AmountMismatch));
    }
    if order.status == Pending {
      db.orders := db.orders[orderId := order.(status := Processing)];
    } else {
      return Ok(PaymentResponse(orderId, amount, paymentMethod, Some(transactionId), Failed, order.status, now,
                                NotPending(order.status)));
    }
    r := Ok(PaymentResponse(orderId, amount, paymentMethod, Some(transactionId), Success, Processing, now, Processed));
  }

  /** Of two payment attempts on the same order, one after the other, at
      most one succeeds. */
  method PayTwice(db: Db, orderId: OrderId, amount: Money, paymentMethod: string, cardDetails: string,
                  tx1: string, tx2: string, t1: Timestamp, t2: Timestamp)
    returns (first: Result<PaymentResponse>, second: Result<PaymentResponse>)
    requires db.Valid()
    requires amount >= 0.01
    modifies db
    ensures db.Valid()
    ensures !(first.Ok? && first.value.paymentStatus == Success && second.Ok? && second.value.paymentStatus == Success)
  {
    first := ProcessPayment(db, orderId, amount, paymentMethod, cardDetails, tx1, t1);
    second := ProcessPayment(db, orderId, amount, paymentMethod, cardDetails, tx2, t2);
  }
}
