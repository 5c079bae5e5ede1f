/** The product view model of the MVVM prototype (`ProductViewModel`): the
    search state, putting products in the cart against the catalog's stock,
    the checks the screens show and the catalog analytics. */
module ProductView {
  import opened Wrappers
  import opened Text
  import opened Seqs
  import opened Catalog
  import opened Cart

  const INSUFFICIENT_STOCK := "Estoque insuficiente. Disponível: "
  const QUANTITY_NOT_POSITIVE := "Quantidade deve ser maior que zero"
  const UNAVAILABLE := "Produto indisponível"

  const OUT_OF_STOCK := "Esgotado"
  const LAST_UNITS := "Últimas unidades"
  const AVAILABLE := "Disponível"

  /** The message shown when the stock cannot cover a request. */
  function InsufficientStock(stock: int): string {
    INSUFFICIENT_STOCK + IntToString(stock)
  }

  /** The answer of `validateAddToCart`. */
  datatype Validation = Validation(isValid: bool, message: Option<string>)

  // ------------------------------------------------------- product checks

  function IsProductAvailable(product: Product): (r: bool)
    ensures r <==> product.stock > 0
  {
    product.stock > 0
  }

  /** The stock label: sold out at exactly zero, "last units" below ten. */
  function GetStockStatus(product: Product): (r: string)
    ensures r == OUT_OF_STOCK <==> product.stock == 0
    ensures r == LAST_UNITS <==> product.stock != 0 && product.stock < 10
    ensures r == AVAILABLE <==> product.stock >= 10
  {
    if product.stock == 0 then OUT_OF_STOCK
    else if product.stock < 10 then LAST_UNITS
    else AVAILABLE
  }

  /** The label and the availability test agree for every stock that is not
      negative; a negative stock is labelled "last units" yet unavailable. */
  lemma StockStatusAgreesWithAvailability(product: Product)
    ensures product.stock >= 0 ==> (GetStockStatus(product) == OUT_OF_STOCK <==> !IsProductAvailable(product))
    ensures product.stock < 0 ==> GetStockStatus(product) == LAST_UNITS && !IsProductAvailable(product)
  {
  }

  /** A positive quantity the stock covers; the "unavailable" answer cannot
      be reached, because a positive quantity within the stock makes the
      stock positive. */
  function ValidateAddToCart(product: Product, quantity: int): (r: Validation)
    ensures r.isValid <==> 0 < quantity <= product.stock
    ensures r.isValid <==> r.message.None?
    ensures quantity <= 0 ==> r.message == Some(QUANTITY_NOT_POSITIVE)
    ensures 0 < quantity && product.stock < quantity ==> r.message == Some(InsufficientStock(product.stock))
  {
    if quantity <= 0 then
      Validation(false, Some(QUANTITY_NOT_POSITIVE))
    else if quantity > product.stock then
      Validation(false, Some(InsufficientStock(product.stock)))
    else if !IsProductAvailable(product) then
      assert false;
      Validation(false, Some(UNAVAILABLE))
    else
      Validation(true, None)
  }

  /** `addToCart` checks only the stock, so it accepts everything the
      validation accepts and, besides, the quantities that are not
      positive. */
  lemma ValidationIsStricterThanAddToCart(product: Product, quantity: int)
    ensures ValidateAddToCart(product, quantity).isValid ==> product.stock >= quantity
    ensures product.stock >= quantity && !ValidateAddToCart(product, quantity).isValid <==>
      product.stock >= quantity && quantity <= 0
  {
  }

  // ------------------------------------------------ reserving, on values

  /** The stock the catalog holds for `id`, 0 when it has no such product. */
  function StockOf(products: seq<Product>, id: int): int {
    match FindIndex(products, HasId(id))
    case Some(i) => products[i].stock
    case None => 0
  }

  /** Putting `quantity` units of a catalog product in the cart moves them
      from the catalog's stock to the cart: the sum of stock and cart
      quantity is unchanged, the stock does not go negative and no other
      product's stock or cart quantity moves. */
  lemma {:induction false} ReservationConservesStock(products: seq<Product>, items: seq<CartItem>, product: Product,
                                  quantity: int, now: int, other: int)
    requires FindIndex(products, HasId(product.id)).Some?
    requires StockOf(products, product.id) >= quantity
    ensures var after := WithStockReduced(products, product.id, quantity);
      && StockOf(after, product.id) + QuantityOf(Added(items, product, quantity, now), product.id) ==
         StockOf(products, product.id) + QuantityOf(items, product.id)
      && StockOf(after, product.id) >= 0
      && (other != product.id ==>
            StockOf(after, other) == StockOf(products, other)
            && QuantityOf(Added(items, product, quantity, now), other) == QuantityOf(items, other))
  {
    StockReducedLookup(products, product.id, quantity, product.id);
    StockReducedLookup(products, product.id, quantity, other);
    AddedQuantity(items, product, quantity, now, product.id);
    AddedQuantity(items, product, quantity, now, other);
  }

  // ---------------------------------------------------------- analytics

  /** `reviews || 0` and `rating || 0`. */
  function ReviewsOrZero(p: Product): int {
    if p.reviews.Some? then p.reviews.value else 0
  }

  function RatingOrZero(p: Product): real {
    if p.rating.Some? then p.rating.value else 0.0
  }

  /** The sign of a real difference: all that `sort` makes of a
      comparator's result. */
  function Sign(x: real): (r: int)
    ensures r < 0 <==> x < 0.0
    ensures r > 0 <==> x > 0.0
  {
    if x < 0.0 then -1 else if x > 0.0 then 1 else 0
  }

  function MostReviewedFirst(): (Product, Product) -> int {
    (a: Product, b: Product) => ReviewsOrZero(b) - ReviewsOrZero(a)
  }

  function BestRatedFirst(): (Product, Product) -> int {
    (a: Product, b: Product) => Sign(RatingOrZero(b) - RatingOrZero(a))
  }

  function LeastStockFirst(): (Product, Product) -> int {
    (a: Product, b: Product) => a.stock - b.stock
  }

  function HighlyRated(): Product -> bool {
    (p: Product) => RatingOrZero(p) >= 4.5
  }

  function LowOnStock(): Product -> bool {
    (p: Product) => p.stock < 10 && p.stock > 0
  }

  const POPULAR_COUNT := 5

  /** The five most reviewed products. */
  function PopularProducts(products: seq<Product>): seq<Product> {
    SliceFromStart(SortBy(products, MostReviewedFirst()), POPULAR_COUNT)
  }

  function HighRatedProducts(products: seq<Product>): seq<Product> {
    SortBy(Filter(products, HighlyRated()), BestRatedFirst())
  }

  function LowStockProducts(products: seq<Product>): seq<Product> {
    SortBy(Filter(products, LowOnStock()), LeastStockFirst())
  }

  /** At most five products, the most reviewed first, and none of the
      products left out has more reviews than one that was kept. */
  lemma {:induction false} PopularProductsAreTheMostReviewed(products: seq<Product>)
    ensures var r := PopularProducts(products);
      var all := SortBy(products, MostReviewedFirst());
      && |r| == (if |products| < POPULAR_COUNT then |products| else POPULAR_COUNT)
      && multiset(all) == multiset(products)
      && r == all[..|r|]
      && (forall i, j :: 0 <= i < j < |all| ==> ReviewsOrZero(all[i]) >= ReviewsOrZero(all[j]))
  {
    var all := SortBy(products, MostReviewedFirst());
    SortBySorted(products, MostReviewedFirst());
    forall i, j | 0 <= i < j < |all| ensures ReviewsOrZero(all[i]) >= ReviewsOrZero(all[j]) {
      assert MostReviewedFirst()(all[i], all[j]) <= 0;
    }
  }

  /** Exactly the products rated 4.5 or more (a missing rating counts as
      0), best rated first. */
  lemma {:induction false} HighRatedProductsExactly(products: seq<Product>)
    ensures var r := HighRatedProducts(products);
      && multiset(r) == multiset(Filter(products, HighlyRated()))
      && (forall p :: p in r <==> p in products && RatingOrZero(p) >= 4.5)
      && (forall i, j :: 0 <= i < j < |r| ==> RatingOrZero(r[i]) >= RatingOrZero(r[j]))
  {
    var m := Filter(products, HighlyRated());
    FilterMembers(products, HighlyRated());
    SortByMembers(m, BestRatedFirst());
    BestRatedFirstSorts(m, SortBy(m, BestRatedFirst()));
    assert HighRatedProducts(products) == SortBy(m, BestRatedFirst());
  }

  /** Best rated first puts `a` no later than `b` exactly when `a` is
      rated at least as well. */
  lemma BestRatedFirstMeans(a: Product, b: Product)
    ensures BestRatedFirst()(a, b) <= 0 <==> RatingOrZero(b) <= RatingOrZero(a)
  {
  }

  lemma {:induction false} BestRatedFirstPreorder(s: seq<Product>)
    ensures Preorder(BestRatedFirst(), s)
  {
    forall a, b | a in s && b in s
      ensures BestRatedFirst()(a, b) <= 0 || BestRatedFirst()(b, a) <= 0
    {
      BestRatedFirstMeans(a, b);
      BestRatedFirstMeans(b, a);
    }
    forall a, b, c | a in s && b in s && c in s && BestRatedFirst()(a, b) <= 0 && BestRatedFirst()(b, c) <= 0
      ensures BestRatedFirst()(a, c) <= 0
    {
      BestRatedFirstMeans(a, b);
      BestRatedFirstMeans(b, c);
      BestRatedFirstMeans(a, c);
    }
  }

  /** Sorting best rated first leaves the ratings non-increasing. */
  lemma {:induction false} BestRatedFirstSorts(s: seq<Product>, r: seq<Product>)
    requires r == SortBy(s, BestRatedFirst())
    ensures forall i, j :: 0 <= i < j < |r| ==> RatingOrZero(r[i]) >= RatingOrZero(r[j])
  {
    BestRatedFirstPreorder(s);
    SortBySorted(s, BestRatedFirst());
    forall i, j | 0 <= i < j < |r| ensures RatingOrZero(r[i]) >= RatingOrZero(r[j]) {
      BestRatedFirstMeans(r[i], r[j]);
    }
  }

  /** Exactly the products with between 1 and 9 units, fewest first. */
  lemma {:induction false} LowStockProductsExactly(products: seq<Product>)
    ensures var r := LowStockProducts(products);
      && multiset(r) == multiset(Filter(products, LowOnStock()))
      && (forall p :: p in r <==> p in products && 0 < p.stock < 10)
      && (forall i, j :: 0 <= i < j < |r| ==> r[i].stock <= r[j].stock)
  {
    var m := Filter(products, LowOnStock());
    FilterMembers(products, LowOnStock());
    SortByMembers(m, LeastStockFirst());
    LeastStockFirstSorts(m, SortBy(m, LeastStockFirst()));
    assert LowStockProducts(products) == SortBy(m, LeastStockFirst());
  }

  lemma {:induction false} LeastStockFirstPreorder(s: seq<Product>)
    ensures Preorder(LeastStockFirst(), s)
  {
  }

  /** Sorting fewest units first leaves the stock non-decreasing. */
  lemma {:induction false} LeastStockFirstSorts(s: seq<Product>, r: seq<Product>)
    requires r == SortBy(s, LeastStockFirst())
    ensures forall i, j :: 0 <= i < j < |r| ==> r[i].stock <= r[j].stock
  {
    LeastStockFirstPreorder(s);
    SortBySorted(s, LeastStockFirst());
    forall i, j | 0 <= i < j < |r| ensures r[i].stock <= r[j].stock {
      assert LeastStockFirst()(r[i], r[j]) <= 0;
    }
  }

  // ------------------------------------------------------------ the model

  /** `ProductViewModel`: the catalog and the cart it works on, the filter
      of the last search and the last error message. */
  class ProductViewModel {
    const productModel: ProductModel
    const cartModel: CartModel
    var currentFilter: ProductFilter
    var error: Option<string>

    constructor(productModel: ProductModel, cartModel: CartModel)
      ensures this.productModel == productModel && this.cartModel == cartModel
      ensures currentFilter == NoFilter && error == None
    {
      this.productModel := productModel;
      this.cartModel := cartModel;
      currentFilter := NoFilter;
      error := None;
    }

    /** The whole catalog; clears the error. */
    method LoadProducts() returns (r: seq<Product>)
      modifies this
      ensures r == productModel.products
      ensures error == None && currentFilter == old(currentFilter)
    {
      error := None;
      r := productModel.GetAllProducts();
    }

    /** Remember the filter, clear the error and run the catalog search. */
    method SearchProducts(filter: ProductFilter) returns (r: seq<Product>)
      modifies this
      ensures currentFilter == filter && error == None
      ensures filter.sortBy.None? ==> r == Matching(productModel.products, filter)
      ensures filter.sortBy.Some? ==>
        r == SortBy(Matching(productModel.products, filter), Comparator(filter.sortBy.value, Direction(filter)))
    {
      error := None;
      currentFilter := filter;
      r := productModel.SearchProducts(filter);
    }

    /** The catalog lookup; clears the error. */
    method GetProductById(id: int) returns (r: Option<Product>)
      modifies this
      ensures r == productModel.GetProductById(id)
      ensures error == None && currentFilter == old(currentFilter)
    {
      error := None;
      r := productModel.GetProductById(id);
    }

    function GetCategories(): (r: seq<string>)
      reads productModel
      ensures NoDuplicates(r)
      ensures forall c :: c in r <==> exists p :: p in productModel.products && p.category == c
    {
      productModel.GetCategories()
    }

    /** Check the given product's stock, put the product in the cart and
        take the units from the catalog's stock. The check reads the stock
        of the product value passed in; the catalog is lowered only when
        its own entry still covers the quantity. */
    method AddToCart(product: Product, quantity: int, now: int) returns (ok: bool)
      requires cartModel.Valid()
      modifies this, cartModel, productModel
      ensures cartModel.Valid()
      ensures ok <==> product.stock >= quantity
      ensures !ok ==>
        && error == Some(InsufficientStock(product.stock))
        && cartModel.items == old(cartModel.items)
        && productModel.products == old(productModel.products)
      ensures ok ==>
        && error == old(error)
        && cartModel.items == Added(old(cartModel.items), product, quantity, now)
        && productModel.products ==
             if StockOf(old(productModel.products), product.id) >= quantity
                && FindIndex(old(productModel.products), HasId(product.id)).Some?
             then WithStockReduced(old(productModel.products), product.id, quantity)
             else old(productModel.products)
      ensures currentFilter == old(currentFilter)
    {
      if product.stock < quantity {
        error := Some(InsufficientStock(product.stock));
        return false;
      }
      var success := cartModel.AddItem(product, quantity, now);
      if success {
        var _ := productModel.UpdateStock(product.id, quantity);
      }
      return success;
    }

    method RemoveFromCart(productId: int) returns (ok: bool)
      requires cartModel.Valid()
      modifies cartModel
      ensures cartModel.Valid()
      ensures ok <==> old(cartModel.HasItem(productId))
      ensures cartModel.items == Removed(old(cartModel.items), productId)
    {
      ok := cartModel.RemoveItem(productId);
    }

    /** Refuse a quantity above the catalog's stock; otherwise the cart's
        own update (which removes the line for a quantity of 0 or less). */
    method UpdateCartQuantity(productId: int, quantity: int) returns (ok: bool)
      requires cartModel.Valid()
      modifies this, cartModel
      ensures cartModel.Valid()
      ensures var p := productModel.GetProductById(productId);
        if p.Some? && quantity > p.value.stock then
          && !ok && error == Some(InsufficientStock(p.value.stock))
          && cartModel.items == old(cartModel.items)
        else
          && error == old(error)
          && (ok <==> old(cartModel.HasItem(productId)))
          && cartModel.items == if quantity <= 0 then Removed(old(cartModel.items), productId)
                                else WithQuantity(old(cartModel.items), productId, quantity)
      ensures currentFilter == old(currentFilter)
    {
      var product := productModel.GetProductById(productId);
      if product.Some? && quantity > product.value.stock {
        error := Some(InsufficientStock(product.value.stock));
        return false;
      }
      ok := cartModel.UpdateQuantity(productId, quantity);
    }

    method ClearCart()
      modifies cartModel
      ensures cartModel.items == [] && cartModel.Valid()
    {
      cartModel.Clear();
    }

    function IsProductInCart(productId: int): (r: bool)
      reads cartModel
      ensures r <==> exists i :: 0 <= i < |cartModel.items| && cartModel.items[i].product.id == productId
    {
      cartModel.HasItem(productId)
    }

    function GetProductCartQuantity(productId: int): (r: int)
      reads cartModel
      ensures r == QuantityOf(cartModel.items, productId)
    {
      cartModel.GetItemQuantity(productId)
    }

    method ClearError()
      modifies this
      ensures error == None && currentFilter == old(currentFilter)
    {
      error := None;
    }

    function GetPopularProducts(): (r: seq<Product>)
      reads productModel
      ensures |r| <= POPULAR_COUNT
      ensures forall p :: p in r ==> p in productModel.products
    {
      PopularProductsAreTheMostReviewed(productModel.products);
      var all := SortBy(productModel.products, MostReviewedFirst());
      assert forall p :: p in all ==> p in productModel.products by {
        forall p | p in all ensures p in productModel.products {
          assert p in multiset(all);
        }
      }
      PopularProducts(productModel.products)
    }

    function GetHighRatedProducts(): (r: seq<Product>)
      reads productModel
      ensures forall p :: p in r <==> p in productModel.products && RatingOrZero(p) >= 4.5
    {
      HighRatedProductsExactly(productModel.products);
      HighRatedProducts(productModel.products)
    }

    function GetLowStockProducts(): (r: seq<Product>)
      reads productModel
      ensures forall p :: p in r <==> p in productModel.products && 0 < p.stock < 10
    {
      LowStockProductsExactly(productModel.products);
      LowStockProducts(productModel.products)
    }
  }
}
