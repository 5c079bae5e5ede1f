/** The backend's `OrderItem` entity: its stored total and the update that
    recomputes it from the unit price and the quantity. */
module OrderItemEntity {
  import opened Wrappers
  import opened JavaLang
  import opened CartItemEntity

  /** The stored total after `updateTotalPrice`: the computed line price,
      or the old total when computing it throws. */
  function AfterTotalUpdate(unitPrice: Option<real>, quantity: Option<Int32>, totalPrice: Option<real>): Option<real> {
    match LinePrice(unitPrice, quantity)
    case Success(v) => Some(v)
    case Failure(_) => totalPrice
  }

  /** Updating twice is updating once, and after an update that did not
      throw the stored total is the computed one. */
  lemma TotalUpdateIdempotent(unitPrice: Option<real>, quantity: Option<Int32>, totalPrice: Option<real>)
    ensures var once := AfterTotalUpdate(unitPrice, quantity, totalPrice);
      && AfterTotalUpdate(unitPrice, quantity, once) == once
      && (LinePrice(unitPrice, quantity).Success? ==> once == Some(LinePrice(unitPrice, quantity).value))
      && (LinePrice(unitPrice, quantity).Failure? ==> once == totalPrice)
  {
  }

  class OrderItem {
    var quantity: Option<Int32>
    var unitPrice: Option<real>
    var totalPrice: Option<real>

    constructor(quantity: Int32, unitPrice: real, totalPrice: real)
      ensures this.quantity == Some(quantity) && this.unitPrice == Some(unitPrice)
      ensures this.totalPrice == Some(totalPrice)
    {
      this.quantity := Some(quantity);
      this.unitPrice := Some(unitPrice);
      this.totalPrice := Some(totalPrice);
    }

    /** The same expression as `CartItem.getTotalPrice`. */
    function CalculateTotalPrice(): (r: Result<real, JavaError>)
      reads this
      ensures r.Failure? <==> unitPrice.None? || quantity.None?
      ensures r.Success? ==> r.value == unitPrice.value * quantity.value as real
    {
      LinePrice(unitPrice, quantity)
    }

    /** Store the computed total; only `totalPrice` changes, and when the
        computation throws nothing does. */
    method UpdateTotalPrice() returns (thrown: Option<JavaError>)
      modifies this
      ensures thrown.None? <==> old(CalculateTotalPrice()).Success?
      ensures totalPrice == AfterTotalUpdate(unitPrice, quantity, old(totalPrice))
      ensures thrown.None? ==> totalPrice.Some? && CalculateTotalPrice() == Success(totalPrice.value)
      ensures quantity == old(quantity) && unitPrice == old(unitPrice)
    {
      var total := CalculateTotalPrice();
      if total.Failure? {
        return Some(total.error);
      }
      totalPrice := Some(total.value);
      return None;
    }
  }
}
