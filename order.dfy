/** Orders: the status enumeration, the order and its items, and the order
    projection returned to callers. An order is a snapshot taken at checkout;
    only its status changes afterwards. */
module Orders {
  import opened Common

  /** The six values of `OrderStatus`. */
  datatype OrderStatus = Pending | Processing | Shipped | Delivered | Cancelled | Refunded

  /** A copy of one cart line: product, quantity and the cart's stored price. */
  datatype OrderItem = OrderItem(product: ProductId, quantity: int, price: Money)

  datatype Order = Order(
    user: UserName,
    items: seq<OrderItem>,
    total: Money,
    orderDate: Timestamp,
    status: OrderStatus)

  function ItemSubtotal(item: OrderItem): Money
  {
    item.price * item.quantity as real
  }

  /** Sum of the order items' subtotals. */
  function ItemsTotal(items: seq<OrderItem>): Money
  {
    if items == [] then 0.0 else ItemsTotal(items[..|items| - 1]) + ItemSubtotal(items[|items| - 1])
  }

  datatype OrderItemView = OrderItemView(productId: ProductId, quantity: int, price: Money, subtotal: Money)

  datatype OrderView = OrderView(
    orderId: OrderId,
    username: UserName,
    items: seq<OrderItemView>,
    totalAmount: Money,
    orderDate: Timestamp,
    status: OrderStatus)

  /** `mapToOrderItemResponse`. */
  function ItemResponse(item: OrderItem): (v: OrderItemView)
    ensures v.productId == item.product && v.quantity == item.quantity && v.price == item.price
    ensures v.subtotal == v.price * v.quantity as real
  {
    OrderItemView(item.product, item.quantity, item.price, ItemSubtotal(item))
  }

  /** `mapToOrderResponse`: the stored total is reported as it is, never
      recomputed from the items. */
  function OrderResponse(id: OrderId, order: Order): (v: OrderView)
    ensures v.orderId == id && v.username == order.user
    ensures v.totalAmount == order.total && v.status == order.status && v.orderDate == order.orderDate
    ensures |v.items| == |order.items|
    ensures forall i | 0 <= i < |order.items| :: v.items[i] == ItemResponse(order.items[i])
  {
    var views := seq(|order.items|, i requires 0 <= i < |order.items| => ItemResponse(order.items[i]));
    OrderView(id, order.user, views, order.total, order.orderDate, order.status)
  }
}
