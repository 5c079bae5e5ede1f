/** The stock helpers that the backend's two product entities, `Product` and
    `SimpleProduct`, share word for word: the stock is a nullable Java
    `Integer`, the active flag a nullable `Boolean`, and the arithmetic is
    32-bit. */
module StockRules {
  import opened Wrappers
  import opened JavaLang

  const INSUFFICIENT_STOCK := "Insufficient stock"

  /** `isInStock`: the stock is set and positive. */
  function InStock(stock: Option<Int32>): (r: bool)
    ensures r <==> stock.Some? && stock.value > 0
  {
    stock != None && stock.value > 0
  }

  /** `isAvailable`: `isActive && isInStock()`. Unboxing a null `isActive`
      throws; a false one short-circuits before the stock is looked at. */
  function Available(isActive: Option<bool>, stock: Option<Int32>): (r: Result<bool, JavaError>)
    ensures r.Failure? <==> isActive.None?
    ensures r.Failure? ==> r.error == NullPointer
    ensures r.Success? ==> (r.value <==> isActive.value && stock.Some? && stock.value > 0)
  {
    match isActive
    case None => Failure(NullPointer)
    case Some(active) => Success(active && InStock(stock))
  }

  /** An available product is in stock. */
  lemma AvailableImpliesInStock(isActive: Option<bool>, stock: Option<Int32>)
    ensures Available(isActive, stock) == Success(true) ==> InStock(stock)
    ensures !InStock(stock) && isActive.Some? ==> Available(isActive, stock) == Success(false)
  {
  }

  /** `decreaseStock(quantity)`: the new stock, or what is thrown. Comparing
      with a null stock unboxes it. */
  function Decreased(stock: Option<Int32>, quantity: Int32): (r: Result<Int32, JavaError>)
    ensures stock.None? ==> r == Failure(NullPointer)
    ensures stock.Some? && stock.value < quantity ==> r == Failure(IllegalArgument(INSUFFICIENT_STOCK))
    ensures stock.Some? && stock.value >= quantity ==>
      r.Success? && (r.value - (stock.value - quantity)) % 0x1_0000_0000 == 0
  {
    match stock
    case None => Failure(NullPointer)
    case Some(s) =>
      if s >= quantity then Success(Wrap(s - quantity))
      else Failure(IllegalArgument(INSUFFICIENT_STOCK))
  }

  /** `increaseStock(quantity)`: the new stock, or what is thrown. */
  function Increased(stock: Option<Int32>, quantity: Int32): (r: Result<Int32, JavaError>)
    ensures stock.None? <==> r == Failure(NullPointer)
    ensures stock.Some? ==> r.Success? && (r.value - (stock.value + quantity)) % 0x1_0000_0000 == 0
  {
    match stock
    case None => Failure(NullPointer)
    case Some(s) => Success(Wrap(s + quantity))
  }

  /** A decrease by a quantity that is not negative takes exactly that
      many units and keeps a non-negative stock non-negative. */
  lemma DecreaseKeepsStockNonNegative(s: Int32, quantity: Int32)
    requires s >= 0 && quantity >= 0
    ensures s >= quantity ==> Decreased(Some(s), quantity) == Success(s - quantity)
    ensures Decreased(Some(s), quantity).Success? ==> Decreased(Some(s), quantity).value >= 0
  {
    if s >= quantity {
      WrapCongruent(s - quantity, s - quantity);
    }
  }

  /** An increase keeps a non-negative stock non-negative exactly when the
      sum fits in an `int`; past `Integer.MAX_VALUE` it wraps negative. */
  lemma IncreaseKeepsStockNonNegative(s: Int32, quantity: Int32)
    requires s >= 0 && quantity >= 0
    ensures Increased(Some(s), quantity).value >= 0 <==> s + quantity <= MAX
    ensures s + quantity <= MAX ==> Increased(Some(s), quantity) == Success(s + quantity)
  {
    if s + quantity > MAX {
      assert Wrap(s + quantity) == s + quantity - 0x1_0000_0000 by {
        WrapCongruent(s + quantity, s + quantity - 0x1_0000_0000);
      }
    }
  }

  /** A decrease undoes an increase by the same quantity whenever it is
      allowed, wrap-around included; and it is allowed whenever the stock
      was not negative and the increase did not overflow. */
  lemma IncreaseThenDecreaseRestores(s: Int32, quantity: Int32)
    ensures var up := Increased(Some(s), quantity).value;
      && (Decreased(Some(up), quantity).Success? ==> Decreased(Some(up), quantity).value == s)
      && (s >= 0 && s + quantity <= MAX ==> Decreased(Some(up), quantity) == Success(s))
  {
    var up := Wrap(s + quantity);
    if up >= quantity {
      assert ((up - quantity) - s) % 0x1_0000_0000 == 0 by {
        assert (up - quantity) - s == up - (s + quantity);
      }
      WrapCongruent(up - quantity, s);
    }
  }
}
