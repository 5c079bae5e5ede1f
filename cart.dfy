/** The shopping cart of the MVVM prototype (`CartModel`): an ordered list of
    lines, at most one per product id, and the totals derived from it. */
module Cart {
  import opened Wrappers
  import opened Seqs
  import opened Catalog

  /** A cart line; `addedAt` is the time the line was created. */
  datatype CartItem = CartItem(product: Product, quantity: int, addedAt: int)

  datatype CartSummary = CartSummary(
    items: seq<CartItem>,
    totalItems: int,
    subtotal: real,
    shipping: real,
    tax: real,
    total: real)

  const TAX_RATE: real := 0.08
  const FREE_SHIPPING_THRESHOLD: real := 500.0
  const SHIPPING_COST: real := 25.0

  function ForProduct(id: int): CartItem -> bool {
    (l: CartItem) => l.product.id == id
  }

  function NotForProduct(id: int): CartItem -> bool {
    (l: CartItem) => l.product.id != id
  }

  function LineQuantity(l: CartItem): int {
    l.quantity
  }

  function LineTotal(l: CartItem): real {
    l.product.price * l.quantity as real
  }

  /** No two lines share a product id. */
  ghost predicate UniqueIds(items: seq<CartItem>) {
    forall i, j :: 0 <= i < j < |items| ==> items[i].product.id != items[j].product.id
  }

  // ------------------------------------------------- derived quantities

  /** The quantity on the line for `id`, 0 when there is none. */
  function QuantityOf(items: seq<CartItem>, id: int): (r: int)
    ensures FindIndex(items, ForProduct(id)).None? ==> r == 0
  {
    match FindIndex(items, ForProduct(id))
    case Some(i) => items[i].quantity
    case None => 0
  }

  /** The sum of the quantities. */
  function ItemCount(items: seq<CartItem>): (r: int)
    ensures items == [] ==> r == 0
  {
    Sum(items, LineQuantity)
  }

  /** The sum of price times quantity. */
  function Subtotal(items: seq<CartItem>): (r: real)
    ensures items == [] ==> r == 0.0
  {
    SumReal(items, LineTotal)
  }

  /** Free shipping from the threshold on, a flat fee below it. */
  function Shipping(subtotal: real): (r: real)
    ensures r == 0.0 <==> subtotal >= FREE_SHIPPING_THRESHOLD
    ensures r == 0.0 || r == SHIPPING_COST
  {
    if subtotal >= FREE_SHIPPING_THRESHOLD then 0.0 else SHIPPING_COST
  }

  /** Tax at the flat rate. */
  function Tax(subtotal: real): (r: real)
    ensures subtotal >= 0.0 ==> 0.0 <= r <= subtotal
  {
    subtotal * TAX_RATE
  }

  /** Subtotal plus shipping plus tax. */
  function Total(subtotal: real): (r: real)
    ensures subtotal >= 0.0 ==> r >= subtotal
  {
    subtotal + Shipping(subtotal) + Tax(subtotal)
  }

  /** The total in closed form on both sides of the free-shipping threshold. */
  lemma TotalClosedForm(subtotal: real)
    ensures subtotal >= 500.0 ==> Total(subtotal) == 1.08 * subtotal
    ensures subtotal < 500.0 ==> Total(subtotal) == 1.08 * subtotal + 25.0
  {
  }

  // ------------------------------------------------- the edits, on values

  /** `addItem`: raise the quantity of the line for the product, or append a
      new line at the end. */
  function Added(items: seq<CartItem>, product: Product, quantity: int, now: int): seq<CartItem> {
    match FindIndex(items, ForProduct(product.id))
    case Some(i) => items[i := items[i].(quantity := items[i].quantity + quantity)]
    case None => items + [CartItem(product, quantity, now)]
  }

  /** `removeItem`: delete the line for `id`, if there is one. */
  function Removed(items: seq<CartItem>, id: int): seq<CartItem> {
    match FindIndex(items, ForProduct(id))
    case Some(i) => items[..i] + items[i + 1..]
    case None => items
  }

  /** `updateQuantity` with a positive quantity: overwrite the quantity of the
      line for `id`, if there is one. */
  function WithQuantity(items: seq<CartItem>, id: int, quantity: int): seq<CartItem> {
    match FindIndex(items, ForProduct(id))
    case Some(i) => items[i := items[i].(quantity := quantity)]
    case None => items
  }

  /** The price a quantity added for `product` is charged at: that of the
      line already there, else the product's own. */
  function ChargedPrice(items: seq<CartItem>, product: Product): real {
    match FindIndex(items, ForProduct(product.id))
    case Some(i) => items[i].product.price
    case None => product.price
  }

  /** Lines keep their ids when only quantities change, so lookups agree. */
  lemma {:induction false} LookupAfterQuantityChange(items: seq<CartItem>, i: nat, q: int, id: int)
    requires i < |items|
    ensures FindIndex(items[i := items[i].(quantity := q)], ForProduct(id)) == FindIndex(items, ForProduct(id))
  {
    FindIndexPointwise(items[i := items[i].(quantity := q)], items, ForProduct(id), ForProduct(id));
  }

  /** Adding keeps one line per product. */
  lemma {:induction false} AddedUnique(items: seq<CartItem>, product: Product, quantity: int, now: int)
    requires UniqueIds(items)
    ensures UniqueIds(Added(items, product, quantity, now))
  {
    var r := Added(items, product, quantity, now);
    match FindIndex(items, ForProduct(product.id))
    case Some(i) =>
      assert forall k :: 0 <= k < |r| ==> r[k].product.id == items[k].product.id;
    case None =>
      assert forall k :: 0 <= k < |items| ==> r[k] == items[k] && items[k].product.id != product.id;
  }

  /** Adding raises the product's quantity by `quantity` and changes no
      other product's quantity. */
  lemma {:induction false} AddedQuantities(items: seq<CartItem>, product: Product, quantity: int, now: int)
    ensures forall id :: QuantityOf(Added(items, product, quantity, now), id) ==
                         QuantityOf(items, id) + if id == product.id then quantity else 0
  {
    forall id {
      AddedQuantity(items, product, quantity, now, id);
    }
  }

  lemma {:induction false} AddedQuantity(items: seq<CartItem>, product: Product, quantity: int, now: int, id: int)
    ensures QuantityOf(Added(items, product, quantity, now), id) ==
            QuantityOf(items, id) + if id == product.id then quantity else 0
  {
    match FindIndex(items, ForProduct(product.id))
    case Some(i) =>
      var r := items[i := items[i].(quantity := items[i].quantity + quantity)];
      assert Added(items, product, quantity, now) == r;
      LookupAfterQuantityChange(items, i, items[i].quantity + quantity, id);
      match FindIndex(items, ForProduct(id)) {
        case Some(k) =>
          assert k == i <==> id == product.id;
          assert QuantityOf(r, id) == r[k].quantity;
        case None =>
      }
    case None =>
      var r := items + [CartItem(product, quantity, now)];
      assert Added(items, product, quantity, now) == r;
      FindIndexAppend(items, CartItem(product, quantity, now), ForProduct(id));
  }

  /** Adding raises the item count by `quantity`. */
  lemma {:induction false} AddedCount(items: seq<CartItem>, product: Product, quantity: int, now: int)
    ensures ItemCount(Added(items, product, quantity, now)) == ItemCount(items) + quantity
  {
    match FindIndex(items, ForProduct(product.id))
    case Some(i) =>
      SumUpdate(items, i, items[i].(quantity := items[i].quantity + quantity), LineQuantity);
    case None =>
      var l := CartItem(product, quantity, now);
      SumConcat(items, [l], LineQuantity);
      assert [l][..0] == [];
  }

  lemma LineTotalGrows(l: CartItem, quantity: int)
    ensures LineTotal(l.(quantity := l.quantity + quantity)) == LineTotal(l) + l.product.price * quantity as real
  {
    assert (l.quantity + quantity) as real == l.quantity as real + quantity as real;
  }

  /** Adding raises the subtotal by `quantity` at the charged price. */
  lemma {:induction false} AddedSubtotal(items: seq<CartItem>, product: Product, quantity: int, now: int)
    ensures Subtotal(Added(items, product, quantity, now)) ==
            Subtotal(items) + ChargedPrice(items, product) * quantity as real
  {
    match FindIndex(items, ForProduct(product.id))
    case Some(i) =>
      var l := items[i].(quantity := items[i].quantity + quantity);
      assert Added(items, product, quantity, now) == items[i := l];
      SumRealUpdate(items, i, l, LineTotal);
      LineTotalGrows(items[i], quantity);
    case None =>
      var l := CartItem(product, quantity, now);
      assert Added(items, product, quantity, now) == items + [l];
      SumRealConcat(items, [l], LineTotal);
      assert [l][..0] == [];
  }

  /** Removing keeps one line per product. */
  lemma {:induction false} RemovedUnique(items: seq<CartItem>, id: int)
    requires UniqueIds(items)
    ensures UniqueIds(Removed(items, id))
  {
    match FindIndex(items, ForProduct(id))
    case Some(i) =>
      var r := items[..i] + items[i + 1..];
      forall a, b | 0 <= a < b < |r| ensures r[a].product.id != r[b].product.id {
        var a', b' := if a < i then a else a + 1, if b < i then b else b + 1;
        assert r[a] == items[a'] && r[b] == items[b'];
      }
    case None =>
  }

  /** Removing deletes the product's line for good and changes no other
      product's quantity; the count drops by the removed quantity. */
  lemma {:induction false} RemovedQuantities(items: seq<CartItem>, id: int)
    requires UniqueIds(items)
    ensures QuantityOf(Removed(items, id), id) == 0
    ensures FindIndex(Removed(items, id), ForProduct(id)).None?
    ensures forall other :: other != id ==> QuantityOf(Removed(items, id), other) == QuantityOf(items, other)
    ensures ItemCount(Removed(items, id)) == ItemCount(items) - QuantityOf(items, id)
  {
    match FindIndex(items, ForProduct(id))
    case Some(i) =>
      var r := items[..i] + items[i + 1..];
      forall k | 0 <= k < |r| ensures !ForProduct(id)(r[k]) {
        var k' := if k < i then k else k + 1;
        assert r[k] == items[k'];
      }
      forall other | other != id
        ensures QuantityOf(r, other) == QuantityOf(items, other)
      {
        FindIndexRemove(items, i, ForProduct(other));
      }
      SumRemove(items, i, LineQuantity);
    case None =>
  }

  /** Under one line per product, removal is filtering that product out: the
      other lines stay, in their order. */
  lemma {:induction false} RemovedIsFilter(items: seq<CartItem>, id: int)
    requires UniqueIds(items)
    ensures Removed(items, id) == Filter(items, NotForProduct(id))
  {
    match FindIndex(items, ForProduct(id))
    case Some(i) =>
      FilterDropsOne(items, i, NotForProduct(id));
    case None =>
      FilterKeepsAll(items, NotForProduct(id));
  }

  /** Setting a quantity overwrites that product's quantity and no other. */
  lemma {:induction false} WithQuantityEffect(items: seq<CartItem>, id: int, quantity: int)
    requires UniqueIds(items)
    ensures UniqueIds(WithQuantity(items, id, quantity))
    ensures forall other :: QuantityOf(WithQuantity(items, id, quantity), other) ==
                            if other == id && FindIndex(items, ForProduct(id)).Some? then quantity else QuantityOf(items, other)
  {
    match FindIndex(items, ForProduct(id))
    case Some(i) =>
      forall other ensures QuantityOf(WithQuantity(items, id, quantity), other) ==
        (if other == id then quantity else QuantityOf(items, other))
      {
        LookupAfterQuantityChange(items, i, quantity, other);
      }
    case None =>
  }

  /** Every line holds at least one unit. Neither `addItem` nor
      `updateQuantity` checks the sign of a quantity it adds, so the carts
      keep this only while callers add positive quantities. */
  ghost predicate PositiveLines(items: seq<CartItem>) {
    forall i :: 0 <= i < |items| ==> items[i].quantity >= 1
  }

  /** Adding at least one unit keeps every line positive. */
  lemma {:induction false} AddedKeepsPositive(items: seq<CartItem>, product: Product, quantity: int, now: int)
    requires PositiveLines(items) && quantity >= 1
    ensures PositiveLines(Added(items, product, quantity, now))
  {
  }

  /** Overwriting with a positive quantity keeps every line positive. */
  lemma {:induction false} WithQuantityKeepsPositive(items: seq<CartItem>, id: int, quantity: int)
    requires PositiveLines(items) && quantity > 0
    ensures PositiveLines(WithQuantity(items, id, quantity))
  {
  }

  /** Removing a line keeps the others positive. */
  lemma {:induction false} RemovedKeepsPositive(items: seq<CartItem>, id: int)
    requires PositiveLines(items)
    ensures PositiveLines(Removed(items, id))
  {
    match FindIndex(items, ForProduct(id))
    case Some(i) =>
      var r := items[..i] + items[i + 1..];
      forall k | 0 <= k < |r| ensures r[k].quantity >= 1 {
        assert r[k] == items[if k < i then k else k + 1];
      }
    case None =>
  }

  /** Adding a product that has no line with fewer than one unit stores a
      line that is not positive: adding 0 units to an empty cart leaves a
      line of quantity 0. */
  lemma {:induction false} AddedNonPositiveBreaksLines(items: seq<CartItem>, product: Product, quantity: int, now: int)
    requires quantity < 1 && FindIndex(items, ForProduct(product.id)).None?
    ensures !PositiveLines(Added(items, product, quantity, now))
    ensures Added([], product, 0, now) == [CartItem(product, 0, now)]
  {
    var r := Added(items, product, quantity, now);
    assert r[|items|].quantity == quantity;
    assert Added([], product, 0, now) == [] + [CartItem(product, 0, now)];
  }

  // ------------------------------------------------------------ the model

  /** `CartModel`: the lines, held as a mutable list. */
  class CartModel {
    var items: seq<CartItem>

    ghost predicate Valid()
      reads this
    {
      UniqueIds(items)
    }

    constructor()
      ensures items == [] && Valid()
    {
      items := [];
    }

    /** Merge into the product's line or append a new line; always succeeds. */
    method AddItem(product: Product, quantity: int, now: int) returns (ok: bool)
      requires Valid()
      modifies this
      ensures Valid() && ok
      ensures items == Added(old(items), product, quantity, now)
      ensures PositiveLines(old(items)) && quantity >= 1 ==> PositiveLines(items)
      ensures forall id :: GetItemQuantity(id) == old(GetItemQuantity(id)) + if id == product.id then quantity else 0
    {
      AddedUnique(items, product, quantity, now);
      AddedQuantities(items, product, quantity, now);
      if PositiveLines(items) && quantity >= 1 {
        AddedKeepsPositive(items, product, quantity, now);
      }
      var existing := FindIndex(items, ForProduct(product.id));
      if existing.Some? {
        var i := existing.value;
        items := items[i := items[i].(quantity := items[i].quantity + quantity)];
      } else {
        items := items + [CartItem(product, quantity, now)];
      }
      return true;
    }

    /** Delete the product's line; true iff there was one. */
    method RemoveItem(productId: int) returns (ok: bool)
      requires Valid()
      modifies this
      ensures Valid()
      ensures ok <==> old(HasItem(productId))
      ensures items == Removed(old(items), productId)
      ensures PositiveLines(old(items)) ==> PositiveLines(items)
      ensures !HasItem(productId)
    {
      RemovedUnique(items, productId);
      if PositiveLines(items) {
        RemovedKeepsPositive(items, productId);
      }
      RemovedQuantities(items, productId);
      var index := FindIndex(items, ForProduct(productId));
      if index.Some? {
        items := items[..index.value] + items[index.value + 1..];
        return true;
      }
      return false;
    }

    /** A quantity of 0 or less removes the line; otherwise the quantity is
        overwritten. True iff the product had a line. */
    method UpdateQuantity(productId: int, quantity: int) returns (ok: bool)
      requires Valid()
      modifies this
      ensures Valid()
      ensures ok <==> old(HasItem(productId))
      ensures quantity <= 0 ==> items == Removed(old(items), productId)
      ensures quantity > 0 ==> items == WithQuantity(old(items), productId, quantity)
      ensures quantity > 0 && ok ==> GetItemQuantity(productId) == quantity
      ensures PositiveLines(old(items)) ==> PositiveLines(items)
    {
      if quantity <= 0 {
        ok := RemoveItem(productId);
        return;
      }
      WithQuantityEffect(items, productId, quantity);
      if PositiveLines(items) {
        WithQuantityKeepsPositive(items, productId, quantity);
      }
      var item := FindIndex(items, ForProduct(productId));
      if item.Some? {
        items := items[item.value := items[item.value].(quantity := quantity)];
        return true;
      }
      return false;
    }

    /** A copy of the lines, in cart order. */
    function GetItems(): (r: seq<CartItem>)
      reads this
      ensures r == items
    {
      items
    }

    function GetItemCount(): (r: int)
      reads this
      ensures items == [] ==> r == 0
      ensures (forall i :: 0 <= i < |items| ==> items[i].quantity >= 0) ==> r >= 0
    {
      NonNegativeCount(items);
      ItemCount(items)
    }

    function GetSubtotal(): (r: real)
      reads this
      ensures items == [] ==> r == 0.0
    {
      Subtotal(items)
    }

    function GetShipping(): (r: real)
      reads this
      ensures r == 0.0 <==> GetSubtotal() >= FREE_SHIPPING_THRESHOLD
    {
      Shipping(GetSubtotal())
    }

    function GetTax(): (r: real)
      reads this
      ensures GetSubtotal() >= 0.0 ==> 0.0 <= r <= GetSubtotal()
    {
      Tax(GetSubtotal())
    }

    function GetTotal(): (r: real)
      reads this
      ensures r == GetSubtotal() + GetShipping() + GetTax()
    {
      Total(GetSubtotal())
    }

    /** All the derived figures at once. */
    function GetSummary(): (r: CartSummary)
      reads this
      ensures r.items == items && r.totalItems == GetItemCount()
      ensures r.subtotal == GetSubtotal() && r.shipping == GetShipping() && r.tax == GetTax()
      ensures r.total == r.subtotal + r.shipping + r.tax
    {
      CartSummary(GetItems(), GetItemCount(), GetSubtotal(), GetShipping(), GetTax(), GetTotal())
    }

    /** Empty the cart. */
    method Clear()
      modifies this
      ensures items == [] && Valid()
      ensures IsEmpty() && GetItemCount() == 0 && GetSubtotal() == 0.0
      ensures forall id :: !HasItem(id) && GetItemQuantity(id) == 0
    {
      items := [];
    }

    function IsEmpty(): (r: bool)
      reads this
      ensures r <==> |items| == 0
      ensures r ==> GetItemCount() == 0 && GetSubtotal() == 0.0
    {
      |items| == 0
    }

    /** `some` line is for the product. */
    function HasItem(productId: int): (r: bool)
      reads this
      ensures r <==> exists i :: 0 <= i < |items| && items[i].product.id == productId
    {
      FindIndex(items, ForProduct(productId)).Some?
    }

    /** The quantity on the product's line, 0 without one. */
    function GetItemQuantity(productId: int): (r: int)
      reads this
      ensures !HasItem(productId) ==> r == 0
      ensures HasItem(productId) ==> exists i :: 0 <= i < |items| && items[i].product.id == productId && items[i].quantity == r
    {
      QuantityOf(items, productId)
    }
  }

  /** With no negative line quantities the count is not negative. */
  lemma {:induction false} NonNegativeCount(items: seq<CartItem>)
    ensures (forall i :: 0 <= i < |items| ==> items[i].quantity >= 0) ==> ItemCount(items) >= 0
  {
    if items != [] {
      NonNegativeCount(items[..|items| - 1]);
    }
  }
}
