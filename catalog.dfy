/** The in-memory product catalog of the MVVM prototype (`ProductModel`):
    lookups, category listing, the filter-then-sort search and the guarded
    stock update. */
module Catalog {
  import opened Wrappers
  import opened Text
  import opened Seqs

  /** A catalog product; `rating` and `reviews` may be absent. */
  datatype Product = Product(
    id: int,
    name: string,
    price: real,
    description: string,
    imageUrl: string,
    category: string,
    stock: int,
    rating: Option<real>,
    reviews: Option<int>)

  datatype SortField = Name | Price | Rating
  datatype SortOrder = Asc | Desc

  /** Every criterion of a search is optional. */
  datatype ProductFilter = ProductFilter(
    category: Option<string>,
    minPrice: Option<real>,
    maxPrice: Option<real>,
    searchTerm: Option<string>,
    sortBy: Option<SortField>,
    sortOrder: Option<SortOrder>)

  /** The empty filter `{}`. */
  const NoFilter := ProductFilter(None, None, None, None, None, None)

  /** JavaScript truthiness of an optional string: present and not empty. */
  predicate Truthy(s: Option<string>) {
    s.Some? && s.value != ""
  }

  function HasId(id: int): Product -> bool {
    (p: Product) => p.id == id
  }

  function InCategory(c: string): Product -> bool {
    (p: Product) => p.category == c
  }

  function PriceAtLeast(min: real): Product -> bool {
    (p: Product) => p.price >= min
  }

  function PriceAtMost(max: real): Product -> bool {
    (p: Product) => p.price <= max
  }

  /** The lower-cased name or description contains the (lower-cased) term. */
  function MentionsTerm(term: string): Product -> bool {
    (p: Product) => Includes(Lower(p.name), term) || Includes(Lower(p.description), term)
  }

  // ---------------------------------------------------------- the filter

  /** What a product must satisfy to pass a filter, criterion by criterion.
      A criterion that is absent (or an empty string) imposes nothing. */
  ghost predicate Satisfies(f: ProductFilter, p: Product) {
    && (Truthy(f.category) ==> p.category == f.category.value)
    && (f.minPrice.Some? ==> f.minPrice.value <= p.price)
    && (f.maxPrice.Some? ==> p.price <= f.maxPrice.value)
    && (Truthy(f.searchTerm) ==>
          Occurs(Lower(f.searchTerm.value), Lower(p.name)) ||
          Occurs(Lower(f.searchTerm.value), Lower(p.description)))
  }

  // The four stages of the search pipeline, each vacuous when its criterion
  // is absent.

  function CategoryStage(f: ProductFilter): Product -> bool {
    (p: Product) => Truthy(f.category) ==> p.category == f.category.value
  }

  function MinPriceStage(f: ProductFilter): Product -> bool {
    (p: Product) => f.minPrice.Some? ==> p.price >= f.minPrice.value
  }

  function MaxPriceStage(f: ProductFilter): Product -> bool {
    (p: Product) => f.maxPrice.Some? ==> p.price <= f.maxPrice.value
  }

  function TermStage(f: ProductFilter): Product -> bool {
    (p: Product) => Truthy(f.searchTerm) ==> MentionsTerm(Lower(f.searchTerm.value))(p)
  }

  /** The stages one after the other, as the search applies them. */
  function Matches(f: ProductFilter): Product -> bool {
    And(And(And(CategoryStage(f), MinPriceStage(f)), MaxPriceStage(f)), TermStage(f))
  }

  /** The pipeline's test is exactly the filter's meaning. */
  lemma MatchesIsSatisfies(f: ProductFilter, p: Product)
    ensures Matches(f)(p) <==> Satisfies(f, p)
  {
    assert Matches(f)(p) == (CategoryStage(f)(p) && MinPriceStage(f)(p) && MaxPriceStage(f)(p) && TermStage(f)(p));
    if Truthy(f.searchTerm) {
      var t := Lower(f.searchTerm.value);
      assert TermStage(f)(p) == MentionsTerm(t)(p);
      assert MentionsTerm(t)(p) == (Includes(Lower(p.name), t) || Includes(Lower(p.description), t));
    }
  }

  /** The products passing all criteria, in catalog order. */
  function Matching(products: seq<Product>, f: ProductFilter): seq<Product> {
    Filter(products, Matches(f))
  }

  /** Soundness and completeness of the search: a product is in the result
      iff it is in the catalog and satisfies every supplied criterion. */
  lemma {:induction false} MatchingExactly(products: seq<Product>, f: ProductFilter)
    ensures forall p :: p in Matching(products, f) <==> p in products && Satisfies(f, p)
  {
    FilterMembers(products, Matches(f));
    forall p {
      MatchesIsSatisfies(f, p);
    }
  }

  /** The empty filter keeps the whole catalog in order. */
  lemma {:induction false} MatchingNoFilter(products: seq<Product>)
    ensures Matching(products, NoFilter) == products
  {
    FilterKeepsAll(products, Matches(NoFilter));
  }

  /** Searching by a (non-empty) category alone is the category listing. */
  lemma {:induction false} MatchingCategoryOnly(products: seq<Product>, c: string)
    requires c != ""
    ensures Matching(products, NoFilter.(category := Some(c))) == Filter(products, InCategory(c))
  {
    var f := NoFilter.(category := Some(c));
    forall p | p in products ensures Matches(f)(p) == InCategory(c)(p) {
      assert Matches(f)(p) == (CategoryStage(f)(p) && MinPriceStage(f)(p) && MaxPriceStage(f)(p) && TermStage(f)(p));
      assert Truthy(f.category) && !Truthy(f.searchTerm);
      assert CategoryStage(f)(p) == (p.category == c);
      assert MinPriceStage(f)(p) && MaxPriceStage(f)(p) && TermStage(f)(p);
    }
    FilterSame(products, Matches(f), InCategory(c));
  }

  /** An empty search term or category is no constraint at all. */
  lemma {:induction false} MatchingIgnoresEmptyStrings(products: seq<Product>, f: ProductFilter)
    ensures Matching(products, f.(category := Some(""), searchTerm := Some("")))
         == Matching(products, f.(category := None, searchTerm := None))
  {
    FilterSame(products, Matches(f.(category := Some(""), searchTerm := Some(""))),
                         Matches(f.(category := None, searchTerm := None)));
  }

  // ------------------------------------------------------------ sorting

  /** The sort callback's comparison of one field: -1, 0 or 1 for
      ascending order, and 0 when either value is undefined. */
  function FieldCompare(field: SortField, a: Product, b: Product): int {
    match field
    case Name =>
      if Less(a.name, b.name) then -1 else if Less(b.name, a.name) then 1 else 0
    case Price =>
      if a.price < b.price then -1 else if b.price < a.price then 1 else 0
    case Rating =>
      if a.rating.Some? && b.rating.Some? then
        (if a.rating.value < b.rating.value then -1
         else if b.rating.value < a.rating.value then 1 else 0)
      else 0
  }

  /** -1 for a descending search, 1 otherwise. */
  function Direction(f: ProductFilter): (d: int)
    ensures d == -1 <==> f.sortOrder == Some(Desc)
    ensures d == 1 || d == -1
  {
    if f.sortOrder == Some(Desc) then -1 else 1
  }

  /** The comparator handed to `sort`. */
  function Comparator(field: SortField, order: int): (Product, Product) -> int {
    (a: Product, b: Product) => FieldCompare(field, a, b) * order
  }

  /** `a` may come before `b` in the requested order. */
  ghost predicate InOrder(field: SortField, desc: bool, a: Product, b: Product) {
    match field
    case Name => if desc then !Less(a.name, b.name) else !Less(b.name, a.name)
    case Price => if desc then a.price >= b.price else a.price <= b.price
    case Rating =>
      a.rating.Some? && b.rating.Some? ==>
        if desc then a.rating.value >= b.rating.value else a.rating.value <= b.rating.value
  }

  /** Swapping the arguments negates the comparison. */
  lemma FieldCompareAntisymmetric(field: SortField, a: Product, b: Product)
    ensures FieldCompare(field, a, b) == -FieldCompare(field, b, a)
  {
    if field == Name {
      LessTrichotomy(a.name, b.name);
    }
  }

  /** "Not after" is transitive, except across an undefined rating. */
  lemma FieldCompareTransitive(field: SortField, a: Product, b: Product, c: Product)
    requires field == Rating ==> a.rating.Some? && b.rating.Some? && c.rating.Some?
    requires FieldCompare(field, a, b) <= 0 && FieldCompare(field, b, c) <= 0
    ensures FieldCompare(field, a, c) <= 0
  {
    if field == Name {
      LessTrichotomy(a.name, b.name);
      LessTrichotomy(b.name, c.name);
      LessTrichotomy(a.name, c.name);
      if Less(c.name, a.name) {
        if a.name == b.name {
        } else if b.name == c.name {
        } else {
          LessTransitive(a.name, b.name, c.name);
        }
      }
    }
  }

  /** Every comparator the search can build is a total preorder on products
      whose sort field is defined. */
  lemma {:induction false} ComparatorPreorder(field: SortField, order: int, s: seq<Product>)
    requires order == 1 || order == -1
    requires field == Rating ==> forall p :: p in s ==> p.rating.Some?
    ensures Preorder(Comparator(field, order), s)
  {
    var cmp := Comparator(field, order);
    forall a, b | a in s && b in s ensures cmp(a, b) <= 0 || cmp(b, a) <= 0 {
      FieldCompareAntisymmetric(field, a, b);
    }
    forall a, b, c | a in s && b in s && c in s && cmp(a, b) <= 0 && cmp(b, c) <= 0
      ensures cmp(a, c) <= 0
    {
      if order == 1 {
        FieldCompareTransitive(field, a, b, c);
      } else {
        FieldCompareAntisymmetric(field, a, b);
        FieldCompareAntisymmetric(field, b, c);
        FieldCompareAntisymmetric(field, a, c);
        FieldCompareTransitive(field, c, b, a);
      }
    }
  }

  /** Sorted by the comparator means ordered by the field, in the requested
      direction. */
  lemma {:induction false} SortedMeansInOrder(field: SortField, order: int, r: seq<Product>)
    requires order == 1 || order == -1
    requires Sorted(Comparator(field, order), r)
    ensures forall i, j :: 0 <= i < j < |r| ==> InOrder(field, order == -1, r[i], r[j])
  {
    forall i, j | 0 <= i < j < |r| ensures InOrder(field, order == -1, r[i], r[j]) {
      assert Comparator(field, order)(r[i], r[j]) <= 0;
      if field == Name {
        LessTrichotomy(r[i].name, r[j].name);
      }
    }
  }

  /** The sorted search result: a permutation of the matching products,
      ordered by the field in the requested direction when the field is
      defined on all of them, and stable on ties. */
  lemma {:induction false} SortedSearch(products: seq<Product>, f: ProductFilter, e: Product)
    requires f.sortBy.Some?
    requires f.sortBy.value == Rating ==> forall p :: p in products ==> p.rating.Some?
    requires f.sortBy.value == Rating ==> e.rating.Some?
    ensures var cmp := Comparator(f.sortBy.value, Direction(f));
      var r := SortBy(Matching(products, f), cmp);
      && multiset(r) == multiset(Matching(products, f))
      && (forall i, j :: 0 <= i < j < |r| ==> InOrder(f.sortBy.value, f.sortOrder == Some(Desc), r[i], r[j]))
      && Filter(r, EquivTo(cmp, e)) == Filter(Matching(products, f), EquivTo(cmp, e))
  {
    var cmp := Comparator(f.sortBy.value, Direction(f));
    var m := Matching(products, f);
    FilterMembers(products, Matches(f));
    ComparatorPreorder(f.sortBy.value, Direction(f), m);
    SortBySorted(m, cmp);
    SortedMeansInOrder(f.sortBy.value, Direction(f), SortBy(m, cmp));
    ComparatorPreorder(f.sortBy.value, Direction(f), m + [e]);
    SortByStable(m, cmp, e);
  }

  // ------------------------------------------------------------ the model

  /** `ProductModel`: the catalog, held as a mutable list of products. */
  class ProductModel {
    var products: seq<Product>

    /** The seed catalog is a parameter. */
    constructor(seed: seq<Product>)
      ensures products == seed
    {
      products := seed;
    }

    /** A copy of the catalog, in stored order. */
    function GetAllProducts(): (r: seq<Product>)
      reads this
      ensures r == products
    {
      products
    }

    /** `find` by id: the first product with that id, if any. */
    function GetProductById(id: int): (r: Option<Product>)
      reads this
      ensures r.None? <==> forall i :: 0 <= i < |products| ==> products[i].id != id
      ensures r.Some? ==> r.value in products && r.value.id == id
      ensures r.Some? ==> exists i :: 0 <= i < |products| && products[i] == r.value &&
                                      forall j :: 0 <= j < i ==> products[j].id != id
    {
      match FindIndex(products, HasId(id))
      case Some(i) => Some(products[i])
      case None => None
    }

    /** The products of category `c`, in catalog order. */
    function GetProductsByCategory(c: string): (r: seq<Product>)
      reads this
      ensures forall p :: p in r <==> p in products && p.category == c
      ensures forall i :: 0 <= i < |r| ==> r[i].category == c
    {
      FilterMembers(products, InCategory(c));
      Filter(products, InCategory(c))
    }

    /** The search, stage by stage as the source applies them to a local
        copy, then the optional sort. */
    method SearchProducts(filter: ProductFilter) returns (filtered: seq<Product>)
      ensures filter.sortBy.None? ==> filtered == Matching(products, filter)
      ensures filter.sortBy.Some? ==>
        filtered == SortBy(Matching(products, filter), Comparator(filter.sortBy.value, Direction(filter)))
    {
      filtered := products;
      FilterKeepsAll(products, (p: Product) => true);
      assert filtered == Filter(products, (p: Product) => true);
      ghost var passed: Product -> bool := (p: Product) => true;

      FilterStage(products, passed, CategoryStage(filter), Truthy(filter.category),
                  if Truthy(filter.category) then InCategory(filter.category.value) else passed);
      if Truthy(filter.category) {
        filtered := Filter(filtered, InCategory(filter.category.value));
      }
      passed := And(passed, CategoryStage(filter));

      FilterStage(products, passed, MinPriceStage(filter), filter.minPrice.Some?,
                  if filter.minPrice.Some? then PriceAtLeast(filter.minPrice.value) else passed);
      if filter.minPrice.Some? {
        filtered := Filter(filtered, PriceAtLeast(filter.minPrice.value));
      }
      passed := And(passed, MinPriceStage(filter));

      FilterStage(products, passed, MaxPriceStage(filter), filter.maxPrice.Some?,
                  if filter.maxPrice.Some? then PriceAtMost(filter.maxPrice.value) else passed);
      if filter.maxPrice.Some? {
        filtered := Filter(filtered, PriceAtMost(filter.maxPrice.value));
      }
      passed := And(passed, MaxPriceStage(filter));

      FilterStage(products, passed, TermStage(filter), Truthy(filter.searchTerm),
                  if Truthy(filter.searchTerm) then MentionsTerm(Lower(filter.searchTerm.value)) else passed);
      if Truthy(filter.searchTerm) {
        var term := Lower(filter.searchTerm.value);
        filtered := Filter(filtered, MentionsTerm(term));
      }
      passed := And(passed, TermStage(filter));

      FilterSame(products, passed, Matches(filter));
      if filter.sortBy.Some? {
        var field := filter.sortBy.value;
        var order := if filter.sortOrder == Some(Desc) then -1 else 1;
        filtered := SortBy(filtered, Comparator(field, order));
      }
    }

    /** Decrement the stock of the product `productId` if it has enough. */
    method UpdateStock(productId: int, quantity: int) returns (ok: bool)
      modifies this
      ensures ok <==> old(GetProductById(productId)).Some? && old(GetProductById(productId)).value.stock >= quantity
      ensures products == if ok then WithStockReduced(old(products), productId, quantity) else old(products)
    {
      var i := FindIndex(products, HasId(productId));
      if i.Some? && products[i.value].stock >= quantity {
        var product := products[i.value];
        products := products[i.value := product.(stock := product.stock - quantity)];
        return true;
      }
      return false;
    }

    /** `[...new Set(categories)]`: each category once. */
    function GetCategories(): (r: seq<string>)
      reads this
      ensures NoDuplicates(r)
      ensures forall c :: c in r <==> exists p :: p in products && p.category == c
    {
      var cats := CategoriesOf(products);
      assert forall c :: c in cats <==> exists p :: p in products && p.category == c by {
        forall c ensures c in cats <==> exists p :: p in products && p.category == c {
          if c in cats {
            var i :| 0 <= i < |cats| && cats[i] == c;
            assert products[i] in products;
          }
          if exists p :: p in products && p.category == c {
            var p :| p in products && p.category == c;
            var i :| 0 <= i < |products| && products[i] == p;
            assert cats[i] == c;
          }
        }
      }
      Distinct(cats)
    }
  }

  /** `products.map(p => p.category)`. */
  function CategoriesOf(products: seq<Product>): (r: seq<string>)
    ensures |r| == |products|
    ensures forall i :: 0 <= i < |products| ==> r[i] == products[i].category
  {
    seq(|products|, i requires 0 <= i < |products| => products[i].category)
  }

  /** The categories are listed in the order they first occur. */
  lemma CategoriesInFirstOccurrenceOrder(m: ProductModel)
    ensures var r := m.GetCategories();
      forall i, j :: 0 <= i < j < |r| ==>
        IndexOf(CategoriesOf(m.products), r[i]) < IndexOf(CategoriesOf(m.products), r[j])
  {
    DistinctInFirstOccurrenceOrder(CategoriesOf(m.products));
  }

  /** The catalog after the stock of the first product with id `id` is
      lowered by `q`; a missing id changes nothing. */
  function WithStockReduced(products: seq<Product>, id: int, q: int): seq<Product> {
    match FindIndex(products, HasId(id))
    case Some(i) => products[i := products[i].(stock := products[i].stock - q)]
    case None => products
  }

  /** What a lookup sees after a stock reduction: that product's stock is
      `q` lower, and every other lookup is unchanged. */
  lemma {:induction false} StockReducedLookup(products: seq<Product>, id: int, q: int, other: int)
    ensures var before := FindIndex(products, HasId(other));
      var after := FindIndex(WithStockReduced(products, id, q), HasId(other));
      && after == before
      && (before.Some? ==>
            WithStockReduced(products, id, q)[after.value] ==
              if other == id then products[before.value].(stock := products[before.value].stock - q)
              else products[before.value])
  {
    var s := WithStockReduced(products, id, q);
    FindIndexPointwise(s, products, HasId(other), HasId(other));
    var before := FindIndex(products, HasId(other));
    if before.Some? && other != id {
      match FindIndex(products, HasId(id))
      case Some(i) => assert i != before.value;
      case None =>
    }
  }
}
