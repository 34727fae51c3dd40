/**
 * The marketplace page: the category list offered by the filter panel, the
 * search/category/in-stock product filter and the cart badge.
 */
module Marketplace {
  import opened Common
  import opened Types
  import Catalog
  import CartStore

  datatype ProductFilters = ProductFilters(search: string, category: string, inStock: bool)

  /** The initial filters, which both reset buttons restore. */
  const DefaultFilters: ProductFilters := ProductFilters("", "all", false)

  // ---------------------------------------------------------------------
  // Categories

  function CategoryColumn(products: seq<Product>): (r: seq<string>)
    ensures |r| == |products|
    ensures forall i :: 0 <= i < |products| ==> r[i] == products[i].category
  {
    seq(|products|, i requires 0 <= i < |products| => products[i].category)
  }

  /** `['all', ...new Set(products.map(p => p.category))]`. */
  function Categories(products: seq<Product>): seq<string> {
    ["all"] + Dedupe(CategoryColumn(products))
  }

  /** `'all'` comes first, then each product category exactly once, ordered
      by where it first occurs in the catalog. */
  lemma CategoriesSpec(products: seq<Product>)
    ensures var r := Categories(products);
      |r| >= 1 && r[0] == "all" &&
      NoDup(r[1..]) &&
      (forall c :: c in r[1..] <==> exists p :: p in products && p.category == c) &&
      (forall i, j :: 1 <= i < j < |r| ==>
        IndexOf(CategoryColumn(products), r[i]) < IndexOf(CategoryColumn(products), r[j]))
  {
    var col := CategoryColumn(products);
    var r := Categories(products);
    assert r[1..] == Dedupe(col);
    DedupeFirstOccurrenceOrder(col);
    forall c ensures c in col <==> exists p :: p in products && p.category == c {
      if c in col {
        var i :| 0 <= i < |col| && col[i] == c;
        assert products[i] in products;
      }
      if exists p :: p in products && p.category == c {
        var p :| p in products && p.category == c;
        var i :| 0 <= i < |products| && products[i] == p;
        assert col[i] == c;
      }
    }
    forall i, j | 1 <= i < j < |r| ensures IndexOf(col, r[i]) < IndexOf(col, r[j]) {
      assert r[i] == Dedupe(col)[i - 1] && r[j] == Dedupe(col)[j - 1];
    }
  }

  // ---------------------------------------------------------------------
  // The product filter

  /** Lower-cased name or description contains the lower-cased search. */
  predicate MatchesSearch(p: Product, search: string) {
    var q := ToLower(search);
    Contains(ToLower(p.name), q) || Contains(ToLower(p.description), q)
  }

  function SearchPass(f: ProductFilters): Product -> bool {
    (p: Product) => f.search == "" || MatchesSearch(p, f.search)
  }

  function CategoryPass(f: ProductFilters): Product -> bool {
    (p: Product) => f.category == "all" || p.category == f.category
  }

  function StockPass(f: ProductFilters): Product -> bool {
    (p: Product) => !f.inStock || p.inStock
  }

  /** The reference definition: the conjunction of the three predicates. */
  predicate ProductMatches(f: ProductFilters, p: Product) {
    SearchPass(f)(p) && CategoryPass(f)(p) && StockPass(f)(p)
  }

  function MatchesPass(f: ProductFilters): Product -> bool {
    (p: Product) => ProductMatches(f, p)
  }

  /** The effect's guarded filter chain. */
  function FilterProducts(products: seq<Product>, f: ProductFilters): seq<Product> {
    var s1 := if f.search != "" then Filter(products, SearchPass(f)) else products;
    var s2 := if f.category != "all" then Filter(s1, CategoryPass(f)) else s1;
    if f.inStock then Filter(s2, StockPass(f)) else s2
  }

  function ShownProducts(f: ProductFilters): seq<Product> {
    FilterProducts(Catalog.MockProducts, f)
  }

  lemma FilterProductsIsConjunction(products: seq<Product>, f: ProductFilters)
    ensures FilterProducts(products, f) == Filter(products, MatchesPass(f))
  {
    var s0 := Filter(products, SearchPass(f));
    if f.search == "" {
      FilterAllPass(products, SearchPass(f));
    }
    var sc := (p: Product) => SearchPass(f)(p) && CategoryPass(f)(p);
    if f.category == "all" {
      FilterAllPass(s0, CategoryPass(f));
    }
    FilterFilter(products, SearchPass(f), CategoryPass(f), sc);
    var s2 := Filter(products, sc);
    if !f.inStock {
      FilterAllPass(s2, StockPass(f));
    }
    FilterFilter(products, sc, StockPass(f), MatchesPass(f));
  }

  /** The result is the catalog's matching products in catalog order: a
      product survives exactly when its lower-cased name or description holds
      the lower-cased search (any product for an empty search), its category
      equals the chosen one (any for `'all'`) and, when the flag is set, it is
      in stock. */
  lemma FilterProductsSpec(products: seq<Product>, f: ProductFilters)
    ensures var r := FilterProducts(products, f);
      IsSubsequence(r, products) &&
      forall p :: p in r <==>
        p in products &&
        (f.search == "" || MatchesSearch(p, f.search)) &&
        (f.category == "all" || p.category == f.category) &&
        (f.inStock ==> p.inStock)
  {
    FilterProductsIsConjunction(products, f);
    FilterIsSubsequence(products, MatchesPass(f));
  }

  /** The default (and reset) filters show the whole catalog. */
  lemma DefaultFiltersShowAll(products: seq<Product>)
    ensures FilterProducts(products, DefaultFilters) == products
  {
  }

  // ---------------------------------------------------------------------
  // The cart badge

  /** The badge count: shown only for a non-empty cart, holding Σ quantities. */
  function CartBadge(items: seq<CartItem>): (r: Option<int>)
    ensures r.Some? <==> |items| > 0
  {
    if |items| > 0 then Some(CartStore.TotalQuantity(items)) else None
  }

  lemma {:induction false} TotalQuantityAppend(items: seq<CartItem>, item: CartItem)
    ensures CartStore.TotalQuantity(items + [item]) == CartStore.TotalQuantity(items) + item.quantity
  {
    if items != [] {
      assert (items + [item])[1..] == items[1..] + [item];
      TotalQuantityAppend(items[1..], item);
    }
  }

  lemma {:induction false} TotalQuantityUpdate(items: seq<CartItem>, i: int, item: CartItem)
    requires 0 <= i < |items|
    ensures CartStore.TotalQuantity(items[i := item]) ==
      CartStore.TotalQuantity(items) - items[i].quantity + item.quantity
  {
    if i > 0 {
      assert items[i := item][1..] == items[1..][i - 1 := item];
      TotalQuantityUpdate(items[1..], i - 1, item);
    }
  }

  /** Adding `quantity` of a product raises the badge count by `quantity`. */
  lemma AddToCartRaisesBadge(items: seq<CartItem>, productId: string, quantity: int, product: Product)
    ensures CartBadge(CartStore.AddItem(items, productId, quantity, product)) ==
      Some(CartStore.TotalQuantity(items) + quantity)
  {
    var i := CartStore.ItemIndex(items, productId);
    if i >= 0 {
      TotalQuantityUpdate(items, i, items[i].(quantity := items[i].quantity + quantity));
    } else {
      TotalQuantityAppend(items, CartItem(productId, quantity, product));
    }
  }
}
