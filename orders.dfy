/** The order view model of the MVVM prototype (`OrderViewModel`): turning
    the cart into an order, the order history with its status changes, and
    the per-customer analytics. */
module Orders {
  import opened Wrappers
  import opened Seqs
  import opened Cart

  datatype OrderStatus = PENDING | PROCESSING | SHIPPED | DELIVERED | CANCELLED

  datatype OrderItem = OrderItem(productId: int, productName: string, price: real, quantity: int, total: real)

  datatype Address = Address(street: string, city: string, state: string, zipCode: string, country: string)

  datatype PaymentType = CreditCard | DebitCard | Pix | Boleto

  datatype PaymentMethod = PaymentMethod(kind: PaymentType, details: string)

  /** Times are milliseconds since the epoch, as `Date.getTime()` gives. */
  datatype Order = Order(
    id: string,
    customerId: string,
    items: seq<OrderItem>,
    status: OrderStatus,
    createdAt: int,
    updatedAt: int,
    subtotal: real,
    shipping: real,
    tax: real,
    total: real,
    shippingAddress: Address,
    paymentMethod: PaymentMethod)

  const EMPTY_CART := "Carrinho vazio"
  const ORDER_NOT_FOUND := "Pedido não encontrado"
  const ALREADY_SHIPPED := "Não é possível cancelar pedido já enviado"

  function HasOrderId(id: string): Order -> bool {
    (o: Order) => o.id == id
  }

  function OfCustomer(c: string): Order -> bool {
    (o: Order) => o.customerId == c
  }

  function OfCustomerWithStatus(c: string, s: OrderStatus): Order -> bool {
    (o: Order) => o.customerId == c && o.status == s
  }

  function OfCustomerNotCancelled(c: string): Order -> bool {
    (o: Order) => o.customerId == c && o.status != CANCELLED
  }

  function OrderTotal(o: Order): real {
    o.total
  }

  function ItemTotal(i: OrderItem): real {
    i.total
  }

  // ------------------------------------------------ building an order

  /** One order item per cart line, with its line total. */
  function ToOrderItem(l: CartItem): OrderItem {
    OrderItem(l.product.id, l.product.name, l.product.price, l.quantity, l.product.price * l.quantity as real)
  }

  function ToOrderItems(lines: seq<CartItem>): (r: seq<OrderItem>)
    ensures |r| == |lines|
    ensures forall i :: 0 <= i < |lines| ==> r[i] == ToOrderItem(lines[i])
  {
    seq(|lines|, i requires 0 <= i < |lines| => ToOrderItem(lines[i]))
  }

  /** The order a cart summary becomes: PENDING, its items in cart order and
      the summary's figures frozen. */
  function OrderFromSummary(id: string, customerId: string, summary: CartSummary, now: int,
                            shippingAddress: Address, paymentMethod: PaymentMethod): (o: Order)
    ensures o.id == id && o.customerId == customerId && o.status == PENDING
    ensures |o.items| == |summary.items|
    ensures forall i :: 0 <= i < |o.items| ==>
      && o.items[i].productId == summary.items[i].product.id
      && o.items[i].productName == summary.items[i].product.name
      && o.items[i].price == summary.items[i].product.price
      && o.items[i].quantity == summary.items[i].quantity
      && o.items[i].total == o.items[i].price * o.items[i].quantity as real
    ensures SumReal(o.items, ItemTotal) == Subtotal(summary.items)
    ensures o.subtotal == summary.subtotal && o.shipping == summary.shipping
    ensures o.tax == summary.tax && o.total == summary.total
    ensures o.createdAt == now && o.updatedAt == now
  {
    OrderItemsAddUpToSubtotal(summary.items);
    Order(id, customerId, ToOrderItems(summary.items), PENDING, now, now,
          summary.subtotal, summary.shipping, summary.tax, summary.total,
          shippingAddress, paymentMethod)
  }

  /** The items of an order made from a cart add up to the cart subtotal. */
  lemma {:induction false} OrderItemsAddUpToSubtotal(lines: seq<CartItem>)
    ensures SumReal(ToOrderItems(lines), ItemTotal) == Subtotal(lines)
  {
    SumRealPointwise(ToOrderItems(lines), ItemTotal, lines, LineTotal);
  }

  // ------------------------------------------------ history, on values

  /** The history after the status of the first order with id `id` is set
      to `status` at time `now`; a missing id changes nothing. */
  function WithStatus(orders: seq<Order>, id: string, status: OrderStatus, now: int): seq<Order> {
    match FindIndex(orders, HasOrderId(id))
    case Some(i) => orders[i := orders[i].(status := status, updatedAt := now)]
    case None => orders
  }

  /** A status update touches only the order it finds: every lookup by id
      still finds the same position, that order carries the new status and
      time, and all others are as they were. */
  lemma {:induction false} WithStatusEffect(orders: seq<Order>, id: string, status: OrderStatus, now: int, other: string)
    ensures |WithStatus(orders, id, status, now)| == |orders|
    ensures FindIndex(WithStatus(orders, id, status, now), HasOrderId(other)) == FindIndex(orders, HasOrderId(other))
    ensures forall j :: 0 <= j < |orders| && Some(j) != FindIndex(orders, HasOrderId(id)) ==>
      WithStatus(orders, id, status, now)[j] == orders[j]
    ensures FindIndex(orders, HasOrderId(id)).Some? ==>
      var i := FindIndex(orders, HasOrderId(id)).value;
      WithStatus(orders, id, status, now)[i] == orders[i].(status := status, updatedAt := now)
  {
    FindIndexPointwise(WithStatus(orders, id, status, now), orders, HasOrderId(other), HasOrderId(other));
  }

  /** `cancelOrder` goes ahead unless the order has been shipped. */
  predicate CancelPermitted(s: OrderStatus) {
    !(s == SHIPPED || s == DELIVERED)
  }

  /** `canCancelOrder`: only pending and processing orders. */
  function CanCancelOrder(order: Order): (r: bool)
    ensures r <==> order.status in {PENDING, PROCESSING}
  {
    order.status == PENDING || order.status == PROCESSING
  }

  /** The two cancellation rules disagree on one status: every order that
      `canCancelOrder` accepts passes `cancelOrder`'s guard, but an order
      that is already CANCELLED passes the guard too. */
  lemma CancelGuardAcceptsMore(order: Order)
    ensures CanCancelOrder(order) ==> CancelPermitted(order.status)
    ensures CancelPermitted(order.status) && !CanCancelOrder(order) <==> order.status == CANCELLED
  {
  }

  /** Days until the estimated delivery: faster with free shipping. */
  function EstimatedDeliveryDays(order: Order): (d: int)
    ensures order.shipping == 0.0 ==> d == 3
    ensures order.shipping != 0.0 ==> d == 7
  {
    if order.shipping == 0.0 then 3 else 7
  }

  // ------------------------------------------------ analytics, on values

  /** Newest first, by creation time. */
  function NewestFirst(): (Order, Order) -> int {
    (a: Order, b: Order) => b.createdAt - a.createdAt
  }

  /** The customer's orders, newest first. */
  function CustomerOrders(orders: seq<Order>, c: string): seq<Order> {
    SortBy(Filter(orders, OfCustomer(c)), NewestFirst())
  }

  lemma {:induction false} NewestFirstPreorder(s: seq<Order>)
    ensures Preorder(NewestFirst(), s)
  {
  }

  /** Exactly the customer's orders, each as often as in the history, and
      ordered newest first; orders created at the same time keep their
      history order. */
  lemma {:induction false} CustomerOrdersExactly(orders: seq<Order>, c: string, e: Order)
    ensures forall o :: o in CustomerOrders(orders, c) <==> o in orders && o.customerId == c
    ensures multiset(CustomerOrders(orders, c)) == multiset(Filter(orders, OfCustomer(c)))
    ensures var r := CustomerOrders(orders, c);
      forall i, j :: 0 <= i < j < |r| ==> r[i].createdAt >= r[j].createdAt
    ensures Filter(CustomerOrders(orders, c), EquivTo(NewestFirst(), e)) ==
            Filter(Filter(orders, OfCustomer(c)), EquivTo(NewestFirst(), e))
  {
    var m := Filter(orders, OfCustomer(c));
    FilterMembers(orders, OfCustomer(c));
    SortByMembers(m, NewestFirst());
    NewestFirstSorts(m, SortBy(m, NewestFirst()));
    NewestFirstPreorder(m + [e]);
    SortByStable(m, NewestFirst(), e);
  }

  /** Sorting newest first leaves the creation times non-increasing. */
  lemma {:induction false} NewestFirstSorts(s: seq<Order>, r: seq<Order>)
    requires r == SortBy(s, NewestFirst())
    ensures forall i, j :: 0 <= i < j < |r| ==> r[i].createdAt >= r[j].createdAt
  {
    NewestFirstPreorder(s);
    SortBySorted(s, NewestFirst());
    forall i, j | 0 <= i < j < |r| ensures r[i].createdAt >= r[j].createdAt {
      assert NewestFirst()(r[i], r[j]) <= 0;
    }
  }

  /** What the customer has spent: the totals of the orders not cancelled. */
  function TotalSpent(orders: seq<Order>, c: string): real {
    SumReal(Filter(orders, OfCustomerNotCancelled(c)), OrderTotal)
  }

  /** One order's part in a customer's spending. */
  function Spending(c: string): Order -> real {
    (o: Order) => if o.customerId == c && o.status != CANCELLED then o.total else 0.0
  }

  /** Spending is the sum over the whole history of each order's part. */
  lemma {:induction false} TotalSpentPerOrder(orders: seq<Order>, c: string)
    ensures TotalSpent(orders, c) == SumReal(orders, Spending(c))
  {
    SumRealFilter(orders, OfCustomerNotCancelled(c), OrderTotal, Spending(c));
  }

  /** A new order adds its total to its customer's spending, unless it is
      cancelled, and leaves every other customer's spending alone. */
  lemma {:induction false} TotalSpentAfterAppend(orders: seq<Order>, o: Order, c: string)
    ensures TotalSpent(orders + [o], c) ==
      TotalSpent(orders, c) + if o.customerId == c && o.status != CANCELLED then o.total else 0.0
  {
    TotalSpentPerOrder(orders, c);
    TotalSpentPerOrder(orders + [o], c);
    SumRealConcat(orders, [o], Spending(c));
    assert [o][..0] == [];
  }

  /** A status change moves the spending of the order's customer by that
      order's part before and after. */
  lemma {:induction false} TotalSpentAfterStatusChange(orders: seq<Order>, id: string, status: OrderStatus, now: int, c: string)
    requires FindIndex(orders, HasOrderId(id)).Some?
    ensures var i := FindIndex(orders, HasOrderId(id)).value;
      TotalSpent(WithStatus(orders, id, status, now), c) ==
        TotalSpent(orders, c) - Spending(c)(orders[i]) + Spending(c)(orders[i].(status := status, updatedAt := now))
  {
    var i := FindIndex(orders, HasOrderId(id)).value;
    TotalSpentPerOrder(orders, c);
    TotalSpentPerOrder(WithStatus(orders, id, status, now), c);
    SumRealUpdate(orders, i, orders[i].(status := status, updatedAt := now), Spending(c));
  }

  /** The most recent `limit` orders: a prefix of the newest-first list. */
  function RecentOrders(orders: seq<Order>, c: string, limit: int): (r: seq<Order>)
    ensures |r| <= |CustomerOrders(orders, c)| && r == CustomerOrders(orders, c)[..|r|]
    ensures limit >= 0 ==> |r| == if limit < |Filter(orders, OfCustomer(c))| then limit else |Filter(orders, OfCustomer(c))|
  {
    SliceFromStart(CustomerOrders(orders, c), limit)
  }

  // ------------------------------------------------------------ the model

  /** `OrderViewModel`: the order history, the shared cart and the last
      error message. */
  class OrderViewModel {
    var orders: seq<Order>
    const cartModel: CartModel
    var error: Option<string>

    /** The seed orders are a parameter. */
    constructor(cartModel: CartModel, seed: seq<Order>)
      ensures this.cartModel == cartModel && orders == seed && error == None
    {
      this.cartModel := cartModel;
      orders := seed;
      error := None;
    }

    /** Turn the cart into a PENDING order, record it and empty the cart;
        an empty cart is refused. `orderId` and `now` stand for the
        generated id and the clock. */
    method CreateOrder(customerId: string, shippingAddress: Address, paymentMethod: PaymentMethod,
                       orderId: string, now: int) returns (r: Option<Order>)
      modifies this, cartModel
      ensures old(cartModel.items) == [] ==>
        && r.None? && error == Some(EMPTY_CART)
        && orders == old(orders) && cartModel.items == old(cartModel.items)
      ensures old(cartModel.items) != [] ==>
        && r == Some(OrderFromSummary(orderId, customerId, old(cartModel.GetSummary()), now, shippingAddress, paymentMethod))
        && orders == old(orders) + [r.value]
        && cartModel.items == []
        && error == None
    {
      error := None;
      var cartSummary := cartModel.GetSummary();
      if |cartSummary.items| == 0 {
        error := Some(EMPTY_CART);
        return None;
      }
      var order := OrderFromSummary(orderId, customerId, cartSummary, now, shippingAddress, paymentMethod);
      orders := orders + [order];
      cartModel.Clear();
      return Some(order);
    }

    /** The customer's orders, newest first; clears the error. */
    method GetOrders(customerId: string) returns (r: seq<Order>)
      modifies this
      ensures r == CustomerOrders(orders, customerId)
      ensures orders == old(orders) && error == None
    {
      error := None;
      r := SortBy(Filter(orders, OfCustomer(customerId)), NewestFirst());
    }

    /** The first order with that id, if any; clears the error. */
    method GetOrderById(orderId: string) returns (r: Option<Order>)
      modifies this
      ensures r.None? <==> forall i :: 0 <= i < |orders| ==> orders[i].id != orderId
      ensures r.Some? ==> r.value in orders && r.value.id == orderId
      ensures r.Some? ==> exists i :: 0 <= i < |orders| && orders[i] == r.value &&
                                      forall j :: 0 <= j < i ==> orders[j].id != orderId
      ensures orders == old(orders) && error == None
    {
      error := None;
      var i := FindIndex(orders, HasOrderId(orderId));
      if i.Some? {
        r := Some(orders[i.value]);
      } else {
        r := None;
      }
    }

    /** Set the status whatever it was; only a missing id fails. */
    method UpdateOrderStatus(orderId: string, status: OrderStatus, now: int) returns (ok: bool)
      modifies this
      ensures ok <==> exists i :: 0 <= i < |old(orders)| && old(orders)[i].id == orderId
      ensures orders == WithStatus(old(orders), orderId, status, now)
      ensures error == if ok then None else Some(ORDER_NOT_FOUND)
    {
      error := None;
      var i := FindIndex(orders, HasOrderId(orderId));
      if i.None? {
        error := Some(ORDER_NOT_FOUND);
        return false;
      }
      var order := orders[i.value];
      orders := orders[i.value := order.(status := status, updatedAt := now)];
      return true;
    }

    /** Cancel unless shipped or delivered; a missing id fails too. */
    method CancelOrder(orderId: string, now: int) returns (ok: bool)
      modifies this
      ensures var i := FindIndex(old(orders), HasOrderId(orderId));
        && (ok <==> i.Some? && CancelPermitted(old(orders)[i.value].status))
        && orders == (if ok then WithStatus(old(orders), orderId, CANCELLED, now) else old(orders))
        && error == (if ok then None
                     else if i.None? then Some(ORDER_NOT_FOUND)
                     else Some(ALREADY_SHIPPED))
    {
      var i := FindIndex(orders, HasOrderId(orderId));
      if i.None? {
        error := Some(ORDER_NOT_FOUND);
        return false;
      }
      var order := orders[i.value];
      if order.status == SHIPPED || order.status == DELIVERED {
        error := Some(ALREADY_SHIPPED);
        return false;
      }
      ok := UpdateOrderStatus(orderId, CANCELLED, now);
    }

    /** The customer's orders with that status, in history order. */
    function GetOrdersByStatus(customerId: string, status: OrderStatus): (r: seq<Order>)
      reads this
      ensures forall o :: o in r <==> o in orders && o.customerId == customerId && o.status == status
    {
      FilterMembers(orders, OfCustomerWithStatus(customerId, status));
      Filter(orders, OfCustomerWithStatus(customerId, status))
    }

    /** The sum of the totals of the customer's orders not cancelled. */
    function GetTotalSpent(customerId: string): (r: real)
      reads this
      ensures r == SumReal(orders, Spending(customerId))
    {
      TotalSpentPerOrder(orders, customerId);
      TotalSpent(orders, customerId)
    }

    /** How many orders the customer has. */
    function GetOrderCount(customerId: string): (r: nat)
      reads this
      ensures r == |CustomerOrders(orders, customerId)|
    {
      |Filter(orders, OfCustomer(customerId))|
    }

    /** The customer's `limit` newest orders (the default is 5). */
    function GetRecentOrders(customerId: string, limit: int): (r: seq<Order>)
      reads this
      ensures |r| <= |CustomerOrders(orders, customerId)| && r == CustomerOrders(orders, customerId)[..|r|]
      ensures limit >= 0 ==> |r| == if limit < GetOrderCount(customerId) then limit else GetOrderCount(customerId)
    {
      RecentOrders(orders, customerId, limit)
    }
  }
}
