/** The backend's `SimpleProduct` entity, the hand-written twin of `Product`:
    its helpers are the same, and so is this model of them. */
module SimpleProductEntity {
  import opened Wrappers
  import opened JavaLang
  import opened StockRules

  class SimpleProduct {
    var stockQuantity: Option<Int32>
    var isActive: Option<bool>

    /** The no-argument constructor: the field initialisers. */
    constructor()
      ensures stockQuantity == Some(0) && isActive == Some(true)
    {
      stockQuantity := Some(0);
      isActive := Some(true);
    }

    /** The constructor taking name, description, price and stock: the
        stock given, which may be null, replaces the initial 0. */
    constructor WithStock(stockQuantity: Option<Int32>)
      ensures this.stockQuantity == stockQuantity && isActive == Some(true)
    {
      this.stockQuantity := stockQuantity;
      isActive := Some(true);
    }

    function IsInStock(): (r: bool)
      reads this
      ensures r <==> stockQuantity.Some? && stockQuantity.value > 0
    {
      InStock(stockQuantity)
    }

    function IsAvailable(): (r: Result<bool, JavaError>)
      reads this
      ensures r.Failure? <==> isActive.None?
      ensures r.Success? ==> (r.value <==> isActive.value && IsInStock())
    {
      Available(isActive, stockQuantity)
    }

    /** Take `quantity` units if the stock covers them; otherwise throw
        and leave the stock alone. */
    method DecreaseStock(quantity: Int32) returns (thrown: Option<JavaError>)
      modifies this
      ensures thrown.None? <==> Decreased(old(stockQuantity), quantity).Success?
      ensures thrown.Some? ==> thrown.value == Decreased(old(stockQuantity), quantity).error
      ensures stockQuantity == if thrown.None? then Some(Decreased(old(stockQuantity), quantity).value)
                               else old(stockQuantity)
      ensures isActive == old(isActive)
    {
      if stockQuantity.None? {
        return Some(NullPointer);
      }
      if stockQuantity.value >= quantity {
        stockQuantity := Some(Wrap(stockQuantity.value - quantity));
        return None;
      }
      return Some(IllegalArgument(INSUFFICIENT_STOCK));
    }

    method IncreaseStock(quantity: Int32) returns (thrown: Option<JavaError>)
      modifies this
      ensures thrown.None? <==> Increased(old(stockQuantity), quantity).Success?
      ensures thrown.Some? ==> thrown.value == NullPointer
      ensures stockQuantity == if thrown.None? then Some(Increased(old(stockQuantity), quantity).value)
                               else old(stockQuantity)
      ensures isActive == old(isActive)
    {
      if stockQuantity.None? {
        return Some(NullPointer);
      }
      stockQuantity := Some(Wrap(stockQuantity.value + quantity));
      return None;
    }
  }
}
