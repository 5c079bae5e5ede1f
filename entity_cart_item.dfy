/** The backend's `CartItem` entity: its line price and the quantity
    update that keeps the declared minimum of 1. */
module CartItemEntity {
  import opened Wrappers
  import opened JavaLang

  const QUANTITY_TOO_SMALL := "Quantity must be at least 1"

  /** `unitPrice.multiply(BigDecimal.valueOf(quantity))`: exact, and a null
      price or quantity throws. */
  function LinePrice(unitPrice: Option<real>, quantity: Option<Int32>): (r: Result<real, JavaError>)
    ensures r.Failure? <==> unitPrice.None? || quantity.None?
    ensures r.Failure? ==> r.error == NullPointer
    ensures r.Success? && unitPrice.value > 0.0 && quantity.value >= 1 ==> r.value >= unitPrice.value
  {
    if unitPrice.None? || quantity.None? then Failure(NullPointer)
    else Success(unitPrice.value * quantity.value as real)
  }

  /** Under the declared constraints (a positive price, at least one unit)
      the line price is positive and grows with every unit. */
  lemma LinePricePositive(unitPrice: real, quantity: Int32)
    requires unitPrice > 0.0 && quantity >= 1
    ensures LinePrice(Some(unitPrice), Some(quantity)).value > 0.0
    ensures quantity < MAX ==>
      LinePrice(Some(unitPrice), Some(quantity + 1)).value == LinePrice(Some(unitPrice), Some(quantity)).value + unitPrice
  {
  }

  class CartItem {
    var quantity: Option<Int32>
    var unitPrice: Option<real>

    /** The declared constraints: both set, at least one unit, a positive
        price. */
    ghost predicate Valid()
      reads this
    {
      quantity.Some? && quantity.value >= 1 && unitPrice.Some? && unitPrice.value > 0.0
    }

    constructor(quantity: Int32, unitPrice: real)
      ensures this.quantity == Some(quantity) && this.unitPrice == Some(unitPrice)
      ensures quantity >= 1 && unitPrice > 0.0 ==> Valid()
    {
      this.quantity := Some(quantity);
      this.unitPrice := Some(unitPrice);
    }

    function GetTotalPrice(): (r: Result<real, JavaError>)
      reads this
      ensures r.Failure? <==> unitPrice.None? || quantity.None?
      ensures Valid() ==> r.Success? && r.value > 0.0
    {
      LinePrice(unitPrice, quantity)
    }

    /** A quantity below 1 is refused and nothing changes; otherwise the
        quantity is exactly the new one. */
    method UpdateQuantity(newQuantity: Int32) returns (thrown: Option<JavaError>)
      modifies this
      ensures newQuantity < 1 ==> thrown == Some(IllegalArgument(QUANTITY_TOO_SMALL)) && quantity == old(quantity)
      ensures newQuantity >= 1 ==> thrown.None? && quantity == Some(newQuantity)
      ensures unitPrice == old(unitPrice)
      ensures old(Valid()) ==> Valid()
    {
      if newQuantity < 1 {
        return Some(IllegalArgument(QUANTITY_TOO_SMALL));
      }
      quantity := Some(newQuantity);
      return None;
    }
  }
}
