/** The backend's `Product` entity: only the stock and the active flag take
    part in its helpers. */
module ProductEntity {
  import opened Wrappers
  import opened JavaLang
  import opened StockRules

  class Product {
    var stockQuantity: Option<Int32>
    var isActive: Option<bool>

    /** What the builder gives when neither field is set. */
    constructor()
      ensures stockQuantity == Some(0) && isActive == Some(true)
    {
      stockQuantity := Some(0);
      isActive := Some(true);
    }

    function IsInStock(): (r: bool)
      reads this
      ensures r <==> stockQuantity.Some? && stockQuantity.value > 0
    {
      InStock(stockQuantity)
    }

    function IsAvailable(): (r: Result<bool, JavaError>)
      reads this
      ensures r.Failure? <==> isActive.None?
      ensures r.Success? ==> (r.value <==> isActive.value && IsInStock())
    {
      Available(isActive, stockQuantity)
    }

    /** Take `quantity` units if the stock covers them; otherwise throw
        and leave the stock alone. */
    method DecreaseStock(quantity: Int32) returns (thrown: Option<JavaError>)
      modifies this
      ensures thrown.None? <==> Decreased(old(stockQuantity), quantity).Success?
      ensures thrown.Some? ==> thrown.value == Decreased(old(stockQuantity), quantity).error
      ensures stockQuantity == if thrown.None? then Some(Decreased(old(stockQuantity), quantity).value)
                               else old(stockQuantity)
      ensures isActive == old(isActive)
    {
      if stockQuantity.None? {
        return Some(NullPointer);
      }
      if stockQuantity.value >= quantity {
        stockQuantity := Some(Wrap(stockQuantity.value - quantity));
        return None;
      }
      return Some(IllegalArgument(INSUFFICIENT_STOCK));
    }

    method IncreaseStock(quantity: Int32) returns (thrown: Option<JavaError>)
      modifies this
      ensures thrown.None? <==> Increased(old(stockQuantity), quantity).Success?
      ensures thrown.Some? ==> thrown.value == NullPointer
      ensures stockQuantity == if thrown.None? then Some(Increased(old(stockQuantity), quantity).value)
                               else old(stockQuantity)
      ensures isActive == old(isActive)
    {
      if stockQuantity.None? {
        return Some(NullPointer);
      }
      stockQuantity := Some(Wrap(stockQuantity.value + quantity));
      return None;
    }
  }
}
