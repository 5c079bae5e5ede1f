/** The backend's `Order` entity: its status rules and the status update. */
module OrderEntity {
  import opened Wrappers

  datatype OrderStatus = PENDING | CONFIRMED | PROCESSING | SHIPPED | DELIVERED | CANCELLED | RETURNED

  datatype PaymentStatus = PENDING | PAID | FAILED | REFUNDED | PARTIALLY_REFUNDED

  /** Only an order nobody has started to work on may be cancelled. */
  predicate Cancellable(s: OrderStatus) {
    s == OrderStatus.PENDING || s == CONFIRMED
  }

  /** A cancellable order is neither completed nor past processing. */
  lemma CancellableIsNotCompleted(s: OrderStatus)
    ensures Cancellable(s) ==> s != DELIVERED && s != PROCESSING && s != SHIPPED
    ensures Cancellable(s) <==> s in {OrderStatus.PENDING, CONFIRMED}
  {
  }

  /** Times are a count of clock ticks; `LocalDateTime.now()` is the
      parameter `now`. `updatedAt` is null until something sets it. */
  class Order {
    var orderNumber: string
    var totalAmount: real
    var status: OrderStatus
    var paymentStatus: PaymentStatus
    var updatedAt: Option<int>

    /** The builder: status and payment status default to PENDING, and the
        update time has no default. */
    constructor(orderNumber: string, totalAmount: real)
      ensures this.orderNumber == orderNumber && this.totalAmount == totalAmount
      ensures status == OrderStatus.PENDING && paymentStatus == PaymentStatus.PENDING
      ensures updatedAt == None
    {
      this.orderNumber := orderNumber;
      this.totalAmount := totalAmount;
      status := OrderStatus.PENDING;
      paymentStatus := PaymentStatus.PENDING;
      updatedAt := None;
    }

    function CanBeCancelled(): (r: bool)
      reads this
      ensures r <==> status in {OrderStatus.PENDING, CONFIRMED}
    {
      Cancellable(status)
    }

    function IsCompleted(): (r: bool)
      reads this
      ensures r <==> status == DELIVERED
      ensures r ==> !CanBeCancelled()
    {
      status == DELIVERED
    }

    function IsPaid(): (r: bool)
      reads this
      ensures r <==> paymentStatus == PAID
    {
      paymentStatus == PAID
    }

    /** Any status may be set; only the status and the update time change. */
    method UpdateStatus(newStatus: OrderStatus, now: int)
      modifies this
      ensures status == newStatus && updatedAt == Some(now)
      ensures orderNumber == old(orderNumber) && totalAmount == old(totalAmount)
      ensures paymentStatus == old(paymentStatus)
      ensures IsPaid() == old(IsPaid())
    {
      status := newStatus;
      updatedAt := Some(now);
    }
  }
}
