/** The pricing helpers of the mobile API controller and the cart summary
    they fill in. Amounts are exact decimals (`BigDecimal`). */
module MobilePricing {
  import opened JavaLang

  const FREE_SHIPPING_FROM: real := 50.00
  const SHIPPING_FEE: real := 9.99
  const TAX_RATE: real := 0.08

  /** Free shipping from 50.00 on, 9.99 below. */
  function CalculateShipping(subtotal: real): (r: real)
    ensures r == 0.0 <==> subtotal >= FREE_SHIPPING_FROM
    ensures r == 0.0 || r == SHIPPING_FEE
  {
    if subtotal >= FREE_SHIPPING_FROM then 0.0 else SHIPPING_FEE
  }

  /** Eight per cent of the subtotal. */
  function CalculateTax(subtotal: real): (r: real)
    ensures subtotal >= 0.0 ==> 0.0 <= r <= subtotal
    ensures r * 25.0 == subtotal * 2.0
  {
    subtotal * TAX_RATE
  }

  function CalculateTotal(subtotal: real): (r: real)
    ensures r == subtotal + CalculateShipping(subtotal) + CalculateTax(subtotal)
    ensures subtotal >= 0.0 ==> r >= subtotal
  {
    subtotal + CalculateShipping(subtotal) + CalculateTax(subtotal)
  }

  /** The total in closed form on either side of the free-shipping line. */
  lemma TotalClosedForm(subtotal: real)
    ensures subtotal >= 50.0 ==> CalculateTotal(subtotal) == 1.08 * subtotal
    ensures subtotal < 50.0 ==> CalculateTotal(subtotal) == 1.08 * subtotal + 9.99
  {
  }

  /** Spending more never lowers the total, except across the free-shipping
      line, where the total drops by at most the fee. */
  lemma TotalMonotone(a: real, b: real)
    requires a <= b
    ensures CalculateTotal(a) <= CalculateTotal(b) + SHIPPING_FEE
    ensures (b < FREE_SHIPPING_FROM || a >= FREE_SHIPPING_FROM) ==> CalculateTotal(a) <= CalculateTotal(b)
  {
  }

  /** `CartSummaryDto`; the items are passed through as they are. */
  datatype CartSummary<T> = CartSummary(items: seq<T>, subtotal: real, shipping: real, tax: real,
                                         total: real, itemCount: Int32)

  /** `getCartSummary`: the cart total is the subtotal, the three helpers
      are applied to it, and the `long` item count is narrowed with
      `intValue`. */
  function CartSummaryOf<T>(items: seq<T>, cartTotal: real, count: int): (r: CartSummary<T>)
    ensures r.items == items && r.subtotal == cartTotal
    ensures r.shipping == CalculateShipping(cartTotal) && r.tax == CalculateTax(cartTotal)
    ensures r.total == r.subtotal + r.shipping + r.tax
    ensures MIN <= count <= MAX ==> r.itemCount == count
  {
    CartSummary(items, cartTotal, CalculateShipping(cartTotal), CalculateTax(cartTotal),
                CalculateTotal(cartTotal), Wrap(count))
  }
}
