# Shopping core: catalog, cart, orders and the backend entity helpers

This project models the business logic of a small e-commerce system in Dafny
and proves properties of that model. It covers two parts.

* **The MVVM prototype (TypeScript).**
  * `ProductModel`: an in-memory catalog. It supports lookup, category
    listing, distinct categories, and a search that combines an optional
    category, inclusive price bounds, a case-insensitive term and a stable
    sort. It also lowers stock.
  * `CartModel`: the cart. It holds lines, and applies the pricing rule:
    8 % tax, and 25.00 shipping below a 500.00 subtotal.
  * `OrderViewModel`: turns the cart into an order. It keeps the order
    history with status changes and cancellation, and computes per-customer
    analytics.
  * `ProductViewModel`: keeps the search state and puts products in the
    cart against the catalog's stock. It also provides the stock label, the
    add-to-cart validation, and the popular, high-rated and low-stock lists.
* **The Java backend helpers.**
  * Stock rules shared by `Product` and `SimpleProduct`. The stock is a
    nullable `Integer` and the arithmetic is 32-bit.
  * The `Order` status rules.
  * The line prices of `CartItem` and `OrderItem`.
  * The pricing helpers of `MobileApiController`: 9.99 shipping below
    50.00, and 8 % tax.

Each TypeScript or Java file is one module. State that the source updates in
place is a `class`: the cart, the catalog, the order history, the view
models and the entities. Pure logic is functions and lemmas. Each method is
specified by a function on values (`Added`, `Removed`, `WithQuantity`,
`WithStockReduced`, `WithStatus`, `Decreased`, `Increased`, ...). Lemmas
then state what the source promises about those functions.

The JavaScript library operations live in helper modules. `Seqs` holds
`filter`, `find`/`findIndex`, `reduce`, the stable comparator `sort`,
`new Set` de-duplication and `slice`. `Text` holds `toLowerCase`,
`includes`, string `<` and number printing. `JavaLang` holds 32-bit
wrap-around and the exceptions.

Numbers are modelled as follows:
* Money is an exact `real`.
* TypeScript counts are unbounded `int`s.
* Java `int`/`Integer` values are `Int32`, with explicit wrap-around.
* Clocks, generated ids and seed data are parameters.

Behaviours of the code that are easy to misread:
* `cancelOrder` refuses only SHIPPED and DELIVERED orders. It therefore also
  "cancels" an order that is already CANCELLED. `canCancelOrder` allows only
  PENDING and PROCESSING (`Orders.CancelGuardAcceptsMore`).
* `addToCart` does not run `validateAddToCart`. Its only check is that the
  given product's stock covers the quantity. It therefore accepts a
  quantity of 0 or less (`ProductView.ValidationIsStricterThanAddToCart`).
* `addToCart` is not all-or-nothing. The cart line is added whenever the
  passed product's stock covers the quantity. The catalog stock is lowered
  only if the catalog's own entry still covers it
  (`ProductView.ProductViewModel.AddToCart`).
* Neither `addItem` nor `addToCart` checks the sign of the quantity, so
  `addToCart(p, 0)` stores a line of quantity 0. Lines stay at one unit or
  more only while callers add positive quantities
  (`Cart.AddedKeepsPositive`, `Cart.AddedNonPositiveBreaksLines`).
* The TypeScript `canCancelOrder` allows PENDING and PROCESSING. The Java
  `canBeCancelled` allows PENDING and CONFIRMED.

## Model

| member | source | states |
|---|---|---|
| Catalog.ProductModel.constructor | test-mvvm/models/Product.ts:21-90 | the catalog starts as the given seed list |
| Catalog.ProductModel.GetAllProducts | test-mvvm/models/Product.ts:92-94 | returns the catalog's products in stored order and changes nothing |
| Catalog.ProductModel.GetProductById | test-mvvm/models/Product.ts:96-98 | None exactly when no product has the id; otherwise the catalog product with that id that no earlier product shares it with (the first one) |
| Catalog.ProductModel.GetProductsByCategory | test-mvvm/models/Product.ts:100-102 | a product is listed iff it is in the catalog with exactly that category |
| Catalog.MatchesIsSatisfies | test-mvvm/models/Product.ts:104-125 | the four pipeline stages together accept a product iff it meets every supplied criterion; an absent or empty one imposes nothing |
| Catalog.MatchingExactly | test-mvvm/models/Product.ts:104-125 | soundness and completeness of the search: in the result iff in the catalog and satisfying the filter |
| Catalog.MatchingNoFilter | test-mvvm/models/Product.ts:104-125 | the empty filter returns the whole catalog in stored order |
| Catalog.MatchingCategoryOnly | test-mvvm/models/Product.ts:100-109 | a search by a non-empty category alone equals the category listing |
| Catalog.MatchingIgnoresEmptyStrings | test-mvvm/models/Product.ts:107-120 | an empty category or search term means no constraint, the same as an absent one |
| Catalog.ProductModel.SearchProducts | test-mvvm/models/Product.ts:104-143 | the staged filters produce exactly the matching products in catalog order; with `sortBy` they are sorted by the ascending or descending field comparator; the catalog is unchanged |
| Catalog.Direction | test-mvvm/models/Product.ts:129 | the sort factor is -1 iff the order is 'desc', else 1 |
| Catalog.FieldCompareAntisymmetric | test-mvvm/models/Product.ts:130-139 | the field comparison is antisymmetric for name, price and rating |
| Catalog.FieldCompareTransitive | test-mvvm/models/Product.ts:130-139 | the field comparison is transitive when the field is defined on all three products |
| Catalog.ComparatorPreorder | test-mvvm/models/Product.ts:127-140 | every comparator the search builds is a total preorder on products whose sort field is defined |
| Catalog.SortedMeansInOrder | test-mvvm/models/Product.ts:127-140 | sorted by the comparator means ordered by the field in the requested direction |
| Catalog.SortedSearch | test-mvvm/models/Product.ts:104-143 | a sorted search result is a permutation of the matching products, ordered by the field, and stable: products that tie keep their catalog order |
| Catalog.ProductModel.UpdateStock | test-mvvm/models/Product.ts:145-152 | succeeds iff the product exists and has at least `quantity` in stock; then exactly that product's stock drops by `quantity`, otherwise nothing changes |
| Catalog.StockReducedLookup | test-mvvm/models/Product.ts:145-152 | after a stock reduction every lookup finds the same position; the reduced product differs only in its stock, and every other product is unchanged |
| Catalog.ProductModel.GetCategories | test-mvvm/models/Product.ts:154-156 | each category of the catalog exactly once, and nothing else |
| Catalog.CategoriesInFirstOccurrenceOrder | test-mvvm/models/Product.ts:154-156 | the categories come in the order of their first occurrence, as `new Set` keeps them |
| Text.Includes | test-mvvm/models/Product.ts:121-124 | the left-to-right scan answers true iff the term occurs as a contiguous block |
| Text.IncludesEmpty | test-mvvm/models/Product.ts:121-124 | the empty term occurs in every string |
| Text.LowerIdempotent | test-mvvm/models/Product.ts:120-124 | lower-casing twice is lower-casing once |
| Text.LessTrichotomy | test-mvvm/models/Product.ts:134-135 | string `<` is a strict total order: exactly one of less, equal or greater holds |
| Text.LessTransitive | test-mvvm/models/Product.ts:134-135 | string `<` is transitive |
| Cart.Shipping | test-mvvm/models/Cart.ts:75-78 | shipping is 0 iff the subtotal reaches 500, and otherwise 25 |
| Cart.Tax | test-mvvm/models/Cart.ts:80-82 | for a non-negative subtotal, tax lies between 0 and the subtotal |
| Cart.Total | test-mvvm/models/Cart.ts:84-86 | for a non-negative subtotal, the total is at least the subtotal |
| Cart.TotalClosedForm | test-mvvm/models/Cart.ts:75-86 | the total is 1.08 × subtotal from 500 on, and 1.08 × subtotal + 25 below |
| Cart.CartModel.constructor | test-mvvm/models/Cart.ts:19 | a new cart is empty and has unique product ids |
| Cart.CartModel.AddItem | test-mvvm/models/Cart.ts:24-37 | always succeeds; adds `quantity` to the product's line or appends a new line; the quantity of every other product is unchanged; ids stay unique; every line stays positive when at least one unit is added |
| Cart.AddedUnique | test-mvvm/models/Cart.ts:24-37 | adding keeps product ids unique across lines |
| Cart.AddedQuantities | test-mvvm/models/Cart.ts:24-37 | after adding, the product's quantity grew by exactly `quantity` and no other quantity moved |
| Cart.AddedCount | test-mvvm/models/Cart.ts:24-37 | adding raises the item count by exactly `quantity` |
| Cart.AddedSubtotal | test-mvvm/models/Cart.ts:24-37 | adding raises the subtotal by the charged unit price × `quantity`; an existing line keeps the price it was added with |
| Cart.CartModel.RemoveItem | test-mvvm/models/Cart.ts:39-46 | succeeds iff the product had a line; afterwards it has none; positive lines stay positive |
| Cart.RemovedQuantities | test-mvvm/models/Cart.ts:39-46 | removal zeroes that product's quantity, leaves every other quantity unchanged, and lowers the count by the removed quantity |
| Cart.RemovedIsFilter | test-mvvm/models/Cart.ts:39-46 | with unique ids, splicing out the line equals filtering out the product |
| Cart.CartModel.UpdateQuantity | test-mvvm/models/Cart.ts:48-59 | a quantity of 0 or less removes the line; otherwise the line's quantity becomes exactly the new one; succeeds iff the product was in the cart; positive lines stay positive |
| Cart.WithQuantityEffect | test-mvvm/models/Cart.ts:48-59 | setting a quantity changes only that product's quantity and keeps ids unique |
| Cart.AddedKeepsPositive | test-mvvm/models/Cart.ts:24-37 | adding at least one unit keeps every line at one unit or more |
| Cart.WithQuantityKeepsPositive | test-mvvm/models/Cart.ts:48-59 | overwriting with a positive quantity keeps every line at one unit or more |
| Cart.RemovedKeepsPositive | test-mvvm/models/Cart.ts:39-46 | removing a line keeps every remaining line at one unit or more |
| Cart.AddedNonPositiveBreaksLines | test-mvvm/models/Cart.ts:24-36 | since `addItem` never checks the sign, adding fewer than one unit of a product with no line stores a line below one unit; adding 0 to an empty cart stores a line of quantity 0 |
| Cart.CartModel.GetItems | test-mvvm/models/Cart.ts:61-63 | a copy of the lines in cart order |
| Cart.CartModel.GetItemCount | test-mvvm/models/Cart.ts:65-67 | the count of an empty cart is 0, and it is never negative when no line is |
| Cart.NonNegativeCount | test-mvvm/models/Cart.ts:65-67 | with no negative line quantity the item count is not negative |
| Cart.CartModel.GetSubtotal | test-mvvm/models/Cart.ts:69-73 | the subtotal of an empty cart is 0 |
| Cart.CartModel.GetShipping | test-mvvm/models/Cart.ts:75-78 | shipping is free iff the subtotal reaches the threshold |
| Cart.CartModel.GetTax | test-mvvm/models/Cart.ts:80-82 | tax lies between 0 and a non-negative subtotal |
| Cart.CartModel.GetTotal | test-mvvm/models/Cart.ts:84-86 | the total is subtotal + shipping + tax |
| Cart.CartModel.GetSummary | test-mvvm/models/Cart.ts:88-97 | the summary carries the lines and the count, subtotal, shipping and tax of the cart, and total = subtotal + shipping + tax |
| Cart.CartModel.Clear | test-mvvm/models/Cart.ts:99-101 | afterwards the cart is empty: no lines, count 0, subtotal 0, no product present |
| Cart.CartModel.IsEmpty | test-mvvm/models/Cart.ts:103-105 | true iff there are no lines, and then count and subtotal are 0 |
| Cart.CartModel.HasItem | test-mvvm/models/Cart.ts:107-109 | true iff some line is for the product |
| Cart.CartModel.GetItemQuantity | test-mvvm/models/Cart.ts:111-114 | 0 without a line for the product, otherwise the quantity of that line |
| Orders.OrderFromSummary | test-mvvm/viewmodels/OrderViewModel.ts:76-95 | a new order is PENDING; it has one item per cart line, in order, with the product's id, name and price frozen, the quantity and the line total, and the line totals add up to the cart subtotal; it carries the summary's subtotal, shipping, tax and total, and the creation time as both timestamps |
| Orders.OrderItemsAddUpToSubtotal | test-mvvm/viewmodels/OrderViewModel.ts:79-89 | the items' line totals add up to the cart subtotal recorded in the order |
| Orders.OrderViewModel.constructor | test-mvvm/viewmodels/OrderViewModel.ts:53-56 | starts with the seed orders, the shared cart and no error |
| Orders.OrderViewModel.CreateOrder | test-mvvm/viewmodels/OrderViewModel.ts:59-110 | an empty cart gives null, error 'Carrinho vazio', and no change to orders or cart; otherwise the order built from the cart summary is appended and returned, the cart is emptied and the error is cleared |
| Orders.OrderViewModel.GetOrders | test-mvvm/viewmodels/OrderViewModel.ts:113-130 | returns the customer's orders, newest first; clears the error; the history is unchanged |
| Orders.NewestFirstPreorder | test-mvvm/viewmodels/OrderViewModel.ts:121 | the newest-first comparator is a total preorder on orders |
| Orders.NewestFirstSorts | test-mvvm/viewmodels/OrderViewModel.ts:121 | sorting newest first leaves the creation times non-increasing along the result |
| Orders.CustomerOrdersExactly | test-mvvm/viewmodels/OrderViewModel.ts:119-121 | exactly the customer's orders, each as often as in the history, ordered by non-increasing creation time; orders created at the same time keep their history order |
| Orders.OrderViewModel.GetOrderById | test-mvvm/viewmodels/OrderViewModel.ts:132-146 | null iff no order has the id, otherwise the first order of the history with that id, as `find` returns; clears the error |
| Orders.OrderViewModel.UpdateOrderStatus | test-mvvm/viewmodels/OrderViewModel.ts:149-172 | succeeds iff an order has the id; that order gets the new status and update time, whatever its status was; otherwise error 'Pedido não encontrado' |
| Orders.WithStatusEffect | test-mvvm/viewmodels/OrderViewModel.ts:155-164 | a status update keeps every lookup's position; it changes only the found order's status and time, and leaves every other order as it was |
| Orders.OrderViewModel.CancelOrder | test-mvvm/viewmodels/OrderViewModel.ts:174-188 | a missing id fails with 'Pedido não encontrado'; SHIPPED or DELIVERED fails with 'Não é possível cancelar pedido já enviado', and nothing changes; otherwise the order becomes CANCELLED |
| Orders.CanCancelOrder | test-mvvm/viewmodels/OrderViewModel.ts:243-245 | true iff the order is PENDING or PROCESSING |
| Orders.CancelGuardAcceptsMore | test-mvvm/viewmodels/OrderViewModel.ts:243-245 | every order `canCancelOrder` accepts passes `cancelOrder`'s guard; CANCELLED is the only status the guard accepts beyond them |
| Orders.OrderViewModel.GetOrdersByStatus | test-mvvm/viewmodels/OrderViewModel.ts:191-193 | an order is listed iff it is the customer's and has that status |
| Orders.OrderViewModel.GetTotalSpent | test-mvvm/viewmodels/OrderViewModel.ts:195-199 | the sum over the history of each order's part: its total if it is the customer's and not cancelled, 0 otherwise |
| Orders.TotalSpentPerOrder | test-mvvm/viewmodels/OrderViewModel.ts:195-199 | summing the filtered orders equals summing every order's part |
| Orders.TotalSpentAfterAppend | test-mvvm/viewmodels/OrderViewModel.ts:195-199 | a new order adds its total to its customer's spending unless it is cancelled, and leaves other customers' spending unchanged |
| Orders.TotalSpentAfterStatusChange | test-mvvm/viewmodels/OrderViewModel.ts:195-199 | a status change moves the spending by the order's part before and after; cancelling removes its total |
| Orders.OrderViewModel.GetOrderCount | test-mvvm/viewmodels/OrderViewModel.ts:201-203 | the number of the customer's orders, the length of `getOrders` |
| Orders.OrderViewModel.GetRecentOrders | test-mvvm/viewmodels/OrderViewModel.ts:205-210 | a prefix of the newest-first list, of length min(limit, count) for a limit that is not negative |
| Orders.RecentOrders | test-mvvm/viewmodels/OrderViewModel.ts:205-210 | `slice(0, limit)` of the newest-first list: a prefix, of length min(limit, count) for a limit that is not negative |
| Orders.EstimatedDeliveryDays | test-mvvm/viewmodels/OrderViewModel.ts:247-252 | 3 days when shipping is free, 7 otherwise |
| Seqs.SliceFromStart | test-mvvm/viewmodels/OrderViewModel.ts:209 | `slice(0, end)` is a prefix; its length is min(end, length) for end ≥ 0, and counts back from the end for negative end |
| Seqs.SortBySorted | test-mvvm/models/Product.ts:129-140 | `sort` with a comparator that is a total preorder on the elements gives a sorted sequence |
| Seqs.SortByStable | test-mvvm/models/Product.ts:129-140 | `sort` is stable: the elements tying with any given one keep their relative order |
| Seqs.FilterMembers | test-mvvm/models/Product.ts:106-125 | `filter` keeps exactly the elements that pass |
| Seqs.FilterMultiset | test-mvvm/models/Product.ts:106-125 | `filter` keeps every passing element as often as it occurs, and drops the rest |
| Seqs.FindIndex | test-mvvm/models/Cart.ts:40 | `findIndex` returns none iff no element passes; otherwise the first one that passes |
| Seqs.Distinct | test-mvvm/models/Product.ts:155 | `[...new Set(s)]` has no duplicates and the same members as `s` |
| Seqs.DistinctInFirstOccurrenceOrder | test-mvvm/models/Product.ts:155 | the de-duplicated elements keep the order of their first occurrence |
| ProductView.ProductViewModel.constructor | test-mvvm/viewmodels/ProductViewModel.ts:7-18 | starts with the given catalog and cart, the empty filter and no error |
| ProductView.ProductViewModel.LoadProducts | test-mvvm/viewmodels/ProductViewModel.ts:21-36 | clears the error and returns the whole catalog |
| ProductView.ProductViewModel.SearchProducts | test-mvvm/viewmodels/ProductViewModel.ts:38-53 | remembers the filter, clears the error, and returns the catalog search result |
| ProductView.ProductViewModel.GetProductById | test-mvvm/viewmodels/ProductViewModel.ts:55-69 | clears the error and returns the catalog lookup |
| ProductView.ProductViewModel.GetCategories | test-mvvm/viewmodels/ProductViewModel.ts:71-73 | each catalog category exactly once |
| ProductView.ProductViewModel.AddToCart | test-mvvm/viewmodels/ProductViewModel.ts:76-93 | fails iff the given product's stock is below the quantity; then the error is 'Estoque insuficiente. Disponível: ' + stock, and neither cart nor catalog changes; otherwise the product is added to the cart, and the catalog stock is lowered if its entry covers the quantity |
| ProductView.ReservationConservesStock | test-mvvm/viewmodels/ProductViewModel.ts:84-87 | reserving a catalog product keeps stock + cart quantity unchanged, leaves the stock non-negative, and moves no other product's stock or quantity |
| ProductView.ProductViewModel.RemoveFromCart | test-mvvm/viewmodels/ProductViewModel.ts:95-102 | the cart's removal: succeeds iff the product was in the cart |
| ProductView.ProductViewModel.UpdateCartQuantity | test-mvvm/viewmodels/ProductViewModel.ts:104-117 | a quantity above the catalog stock of an existing product is refused with the stock message and the cart is unchanged; otherwise the cart's update (removal at 0 or less) |
| ProductView.ProductViewModel.ClearCart | test-mvvm/viewmodels/ProductViewModel.ts:127-129 | the cart is empty afterwards |
| ProductView.ProductViewModel.IsProductInCart | test-mvvm/viewmodels/ProductViewModel.ts:132-134 | true iff some cart line is for the product |
| ProductView.ProductViewModel.GetProductCartQuantity | test-mvvm/viewmodels/ProductViewModel.ts:136-138 | the cart quantity of the product, 0 without a line |
| ProductView.ProductViewModel.ClearError | test-mvvm/viewmodels/ProductViewModel.ts:149-151 | the error is cleared |
| ProductView.IsProductAvailable | test-mvvm/viewmodels/ProductViewModel.ts:162-164 | available iff stock > 0 |
| ProductView.GetStockStatus | test-mvvm/viewmodels/ProductViewModel.ts:166-170 | 'Esgotado' iff stock is 0; 'Últimas unidades' iff stock is below 10 and not 0; 'Disponível' iff stock ≥ 10 |
| ProductView.StockStatusAgreesWithAvailability | test-mvvm/viewmodels/ProductViewModel.ts:162-170 | for stock ≥ 0, 'Esgotado' iff unavailable; a negative stock reads 'Últimas unidades' yet is unavailable |
| ProductView.ValidateAddToCart | test-mvvm/viewmodels/ProductViewModel.ts:186-200 | valid iff 0 < quantity ≤ stock; a message iff invalid; the zero-quantity and insufficient-stock messages come in that order; the 'Produto indisponível' branch is unreachable |
| ProductView.ValidationIsStricterThanAddToCart | test-mvvm/viewmodels/ProductViewModel.ts:186-200 | what validation accepts passes `addToCart`'s check; `addToCart` additionally accepts exactly the quantities ≤ 0 |
| ProductView.PopularProductsAreTheMostReviewed | test-mvvm/viewmodels/ProductViewModel.ts:203-207 | at most five products: a prefix of a permutation of the catalog in non-increasing review count, so none left out has more reviews than one kept |
| ProductView.ProductViewModel.GetPopularProducts | test-mvvm/viewmodels/ProductViewModel.ts:203-207 | at most five products, all from the catalog |
| ProductView.BestRatedFirstMeans | test-mvvm/viewmodels/ProductViewModel.ts:212 | the rating comparator puts one product no later than another exactly when it is rated at least as well |
| ProductView.BestRatedFirstPreorder | test-mvvm/viewmodels/ProductViewModel.ts:212 | the rating comparator is a total preorder on products |
| ProductView.BestRatedFirstSorts | test-mvvm/viewmodels/ProductViewModel.ts:212 | sorting best rated first leaves the ratings non-increasing along the result |
| ProductView.HighRatedProductsExactly | test-mvvm/viewmodels/ProductViewModel.ts:209-213 | exactly the products rated ≥ 4.5 (a missing rating counts as 0), each as often as in the catalog, best rated first |
| ProductView.ProductViewModel.GetHighRatedProducts | test-mvvm/viewmodels/ProductViewModel.ts:209-213 | a product is listed iff it is in the catalog with rating ≥ 4.5 |
| ProductView.LeastStockFirstPreorder | test-mvvm/viewmodels/ProductViewModel.ts:218 | the stock comparator is a total preorder on products |
| ProductView.LeastStockFirstSorts | test-mvvm/viewmodels/ProductViewModel.ts:218 | sorting fewest units first leaves the stock non-decreasing along the result |
| ProductView.LowStockProductsExactly | test-mvvm/viewmodels/ProductViewModel.ts:215-219 | exactly the products with 1 to 9 units, each as often as in the catalog, fewest first |
| ProductView.ProductViewModel.GetLowStockProducts | test-mvvm/viewmodels/ProductViewModel.ts:215-219 | a product is listed iff it is in the catalog with 0 < stock < 10 |
| ProductView.Sign | test-mvvm/viewmodels/ProductViewModel.ts:212 | the sign of the real rating difference, which is all `sort` uses of it |
| StockRules.InStock | backend/src/main/java/com/shopping/model/Product.java:83-85 | in stock iff the stock is non-null and positive |
| StockRules.Available | backend/src/main/java/com/shopping/model/Product.java:87-89 | a null `isActive` throws a NullPointerException; otherwise available iff active and in stock |
| StockRules.AvailableImpliesInStock | backend/src/main/java/com/shopping/model/Product.java:83-89 | an available product is in stock, and one out of stock is not available |
| StockRules.Decreased | backend/src/main/java/com/shopping/model/Product.java:91-97 | a null stock throws a NullPointerException; a stock below the quantity throws IllegalArgumentException("Insufficient stock"); otherwise stock − quantity modulo 2^32 |
| StockRules.Increased | backend/src/main/java/com/shopping/model/Product.java:99-101 | a null stock throws a NullPointerException; otherwise stock + quantity modulo 2^32 |
| StockRules.DecreaseKeepsStockNonNegative | backend/src/main/java/com/shopping/model/Product.java:91-97 | for stock ≥ 0 and quantity ≥ 0, an allowed decrease takes exactly the quantity and keeps the stock ≥ 0 |
| StockRules.IncreaseKeepsStockNonNegative | backend/src/main/java/com/shopping/model/Product.java:99-101 | for stock ≥ 0 and quantity ≥ 0, the increased stock stays ≥ 0 iff the sum fits in an int |
| StockRules.IncreaseThenDecreaseRestores | backend/src/main/java/com/shopping/model/Product.java:91-101 | a decrease that follows an increase by the same quantity restores the stock, wrap-around included; it is allowed whenever the stock was ≥ 0 and the increase did not overflow |
| JavaLang.WrapCongruent | backend/src/main/java/com/shopping/model/Product.java:93-100 | int results that agree modulo 2^32 are equal, so an opposite operation undoes wrap-around |
| ProductEntity.Product.constructor | backend/src/main/java/com/shopping/model/Product.java:46-64 | the builder defaults: stock 0, active |
| ProductEntity.Product.IsInStock | backend/src/main/java/com/shopping/model/Product.java:83-85 | true iff the stock is non-null and positive |
| ProductEntity.Product.IsAvailable | backend/src/main/java/com/shopping/model/Product.java:87-89 | throws iff `isActive` is null; otherwise true iff active and in stock |
| ProductEntity.Product.DecreaseStock | backend/src/main/java/com/shopping/model/Product.java:91-97 | the stock becomes the decreased value, or stays as it was when the method throws; the active flag is untouched |
| ProductEntity.Product.IncreaseStock | backend/src/main/java/com/shopping/model/Product.java:99-101 | the stock becomes the increased value, or throws a NullPointerException on a null stock without change |
| SimpleProductEntity.SimpleProduct.constructor | backend/src/main/java/com/shopping/model/SimpleProduct.java:40-73 | the field initialisers: stock 0, active |
| SimpleProductEntity.SimpleProduct.WithStock | backend/src/main/java/com/shopping/model/SimpleProduct.java:75-80 | the given stock, which may be null, and active |
| SimpleProductEntity.SimpleProduct.IsInStock | backend/src/main/java/com/shopping/model/SimpleProduct.java:123-125 | true iff the stock is non-null and positive |
| SimpleProductEntity.SimpleProduct.IsAvailable | backend/src/main/java/com/shopping/model/SimpleProduct.java:127-129 | throws iff `isActive` is null; otherwise true iff active and in stock |
| SimpleProductEntity.SimpleProduct.DecreaseStock | backend/src/main/java/com/shopping/model/SimpleProduct.java:131-137 | the stock becomes the decreased value, or stays as it was when the method throws |
| SimpleProductEntity.SimpleProduct.IncreaseStock | backend/src/main/java/com/shopping/model/SimpleProduct.java:139-141 | the stock becomes the increased value, or throws a NullPointerException on a null stock without change |
| OrderEntity.CancellableIsNotCompleted | backend/src/main/java/com/shopping/model/Order.java:85-91 | cancellable exactly for PENDING and CONFIRMED, never for PROCESSING, SHIPPED or DELIVERED |
| OrderEntity.Order.constructor | backend/src/main/java/com/shopping/model/Order.java:40-74 | a freshly built order has status PENDING and payment status PENDING, and no update time (`updatedAt` has no builder default) |
| OrderEntity.Order.CanBeCancelled | backend/src/main/java/com/shopping/model/Order.java:85-87 | true iff the status is PENDING or CONFIRMED |
| OrderEntity.Order.IsCompleted | backend/src/main/java/com/shopping/model/Order.java:89-91 | true iff DELIVERED, and a completed order cannot be cancelled |
| OrderEntity.Order.IsPaid | backend/src/main/java/com/shopping/model/Order.java:93-95 | true iff the payment status is PAID |
| OrderEntity.Order.UpdateStatus | backend/src/main/java/com/shopping/model/Order.java:97-100 | any status is set, together with the update time; no other field changes, so the payment state is kept |
| CartItemEntity.LinePrice | backend/src/main/java/com/shopping/model/CartItem.java:57-59 | a null price or quantity throws a NullPointerException; otherwise unit price × quantity, at least the unit price for a positive price and ≥ 1 unit |
| CartItemEntity.LinePricePositive | backend/src/main/java/com/shopping/model/CartItem.java:38-59 | under the declared constraints the line price is positive, and each extra unit adds the unit price |
| CartItemEntity.CartItem.constructor | backend/src/main/java/com/shopping/model/CartItem.java:38-46 | sets quantity and price, valid when they meet the declared constraints |
| CartItemEntity.CartItem.GetTotalPrice | backend/src/main/java/com/shopping/model/CartItem.java:57-59 | throws iff price or quantity is null; positive for a valid line |
| CartItemEntity.CartItem.UpdateQuantity | backend/src/main/java/com/shopping/model/CartItem.java:61-66 | a quantity below 1 throws "Quantity must be at least 1" and changes nothing; otherwise the quantity is exactly the new one; the constraint quantity ≥ 1 is preserved |
| OrderItemEntity.OrderItem.constructor | backend/src/main/java/com/shopping/model/OrderItem.java:37-50 | sets quantity, unit price and stored total |
| OrderItemEntity.OrderItem.CalculateTotalPrice | backend/src/main/java/com/shopping/model/OrderItem.java:57-59 | throws iff price or quantity is null; otherwise unit price × quantity |
| OrderItemEntity.OrderItem.UpdateTotalPrice | backend/src/main/java/com/shopping/model/OrderItem.java:61-63 | only the stored total changes; afterwards it equals `calculateTotalPrice()`, or it is unchanged when that throws |
| OrderItemEntity.TotalUpdateIdempotent | backend/src/main/java/com/shopping/model/OrderItem.java:61-63 | updating the total twice is updating it once |
| MobilePricing.CalculateShipping | backend/src/main/java/com/shopping/controller/MobileApiController.java:271-275 | shipping is 0 iff the subtotal reaches 50.00, otherwise 9.99 |
| MobilePricing.CalculateTax | backend/src/main/java/com/shopping/controller/MobileApiController.java:277-279 | the tax is 8 % of the subtotal (25 × tax = 2 × subtotal), between 0 and a non-negative subtotal |
| MobilePricing.CalculateTotal | backend/src/main/java/com/shopping/controller/MobileApiController.java:281-283 | total = subtotal + shipping + tax, at least the subtotal when that is non-negative |
| MobilePricing.TotalClosedForm | backend/src/main/java/com/shopping/controller/MobileApiController.java:271-283 | the total is 1.08 × subtotal from 50 on, and 1.08 × subtotal + 9.99 below |
| MobilePricing.TotalMonotone | backend/src/main/java/com/shopping/controller/MobileApiController.java:271-283 | a larger subtotal never gives a smaller total unless it crosses the free-shipping line, and then the total drops by at most the fee |
| MobilePricing.CartSummaryOf | backend/src/main/java/com/shopping/controller/MobileApiController.java:131-152 | the cart total is the summary's subtotal; shipping, tax and total come from the three helpers; the `long` count is narrowed to an int and kept exactly when it fits |

## Left out

- Loading flags, the simulated network `delay`, `formatPrice`, `formatRating`, `formatOrderDate`, and the status label and colour maps: presentation only, with no logic to prove.
- The `try`/`catch` branches ('Erro ao criar pedido' and the like): nothing in the modelled bodies throws, so they cannot be reached.
- Generated order ids, `new Date()` and `LocalDateTime.now()`: they are the parameters `orderId` and `now`. The seed catalog and seed orders are constructor parameters.
- Default arguments: `addItem(product, quantity = 1)`, `addToCart(product, quantity = 1)` and `getRecentOrders(customerId, limit = 5)` take the quantity and the limit as required parameters; a caller that omits them corresponds to passing 1 or 5.
- `Order.updatedAt` in the backend is also filled by Spring's `@LastModifiedDate` auditing on save; persistence is not modelled, so a freshly built order has no update time until `updateStatus` sets one.
- Orders.EstimatedDeliveryDays: returns the number of days, not the calendar `Date` an amount of days after creation; date arithmetic is not modelled.
- Catalog.SortedSearch: when sorting by rating, ordering and stability are proved only if every product has a rating. With a missing rating the JavaScript comparator answers 0 and is not transitive, so only the permutation is proved.
- Aliasing: cart lines hold a copy of the product, and orders are values in the history. In the source a cart line references the catalog object, and `createOrder` returns the object it stores. The cart reads only a product's id, name and price, which never change.
- Floating point: money is exact; IEEE rounding in subtotals, tax and `BigDecimal` scale is not modelled.
- `toLowerCase` folds ASCII and the Latin-1 capitals only; string `<` compares characters as code points, not UTF-16 code units.
- The Java entities model only the fields their helpers touch (stock, active flag, status, payment status, update time, quantity and prices). The rest is plain data with generated accessors. `Order.status` is never null in the model.
- The backend services, repositories, controllers other than the three pricing helpers, the web and mobile front ends, and the validation annotations (stated as predicates, never enforced).
