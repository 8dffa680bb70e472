/**
 * The product listing page: the filter state and the pipeline that recomputes
 * the shown products (category, then search, then price, then sort) whenever a
 * filter changes.
 */
module ProductsPage {
  import opened Wrappers
  import opened Seqs
  import opened Sorting
  import opened Text
  import opened Catalog

  /** The filter state: category, search text, price range in cents (both ends inclusive), sort option. */
  datatype Filters = Filters(category: string, query: string, low: int, high: int, sortBy: string)

  /** The first render: the `category` query parameter or "all", no search, $0-$200, "featured". */
  function InitialFilters(categoryParam: Option<string>): (f: Filters)
    ensures f.category == "all" <==> categoryParam.None? || categoryParam.value in {"", "all"}
    ensures f.category != "all" ==> categoryParam == Some(f.category)
    ensures f.query == "" && f.low == 0 && f.high == 20000 && f.sortBy == "featured"
  {
    Filters(if categoryParam.Some? && categoryParam.value != "" then categoryParam.value else "all",
            "", 0, 20000, "featured")
  }

  /** A product passes the category stage. */
  function CategoryPass(category: string): Product -> bool
  {
    (p: Product) => category == "all" || p.category == category
  }

  /** The search: the lower-cased query occurs in the lower-cased name, description or some tag. */
  function MatchesQuery(lowerQuery: string): Product -> bool
  {
    (p: Product) =>
      || Includes(ToLower(p.name), lowerQuery)
      || Includes(ToLower(p.description), lowerQuery)
      || exists tag :: tag in p.tags && Includes(ToLower(tag), lowerQuery)
  }

  /** A product passes the search stage: an empty query keeps everything. */
  function QueryPass(query: string): Product -> bool
  {
    (p: Product) => query == "" || MatchesQuery(ToLower(query))(p)
  }

  function PricePass(low: int, high: int): Product -> bool
  {
    (p: Product) => low <= p.price <= high
  }

  /** The three stages as one test. */
  function Passes(f: Filters): Product -> bool
  {
    (p: Product) => CategoryPass(f.category)(p) && QueryPass(f.query)(p) && PricePass(f.low, f.high)(p)
  }

  function CategoryAndQuery(f: Filters): Product -> bool
  {
    (p: Product) => CategoryPass(f.category)(p) && QueryPass(f.query)(p)
  }

  /** The category stage: skipped for "all". */
  function ByCategory(ps: seq<Product>, category: string): (r: seq<Product>)
    ensures category == "all" ==> r == ps
    ensures forall p :: p in r <==> p in ps && (category == "all" || p.category == category)
  {
    if category != "all" then Filter(ps, (p: Product) => p.category == category) else ps
  }

  /** The search stage: skipped for an empty query. */
  function BySearch(ps: seq<Product>, query: string): (r: seq<Product>)
    ensures query == "" ==> r == ps
    ensures forall p :: p in r <==> p in ps && (query == "" || MatchesQuery(ToLower(query))(p))
  {
    if query != "" then Filter(ps, MatchesQuery(ToLower(query))) else ps
  }

  /** The price stage: `low <= price <= high`. */
  function ByPrice(ps: seq<Product>, low: int, high: int): (r: seq<Product>)
    ensures forall p :: p in r <==> p in ps && low <= p.price <= high
  {
    Filter(ps, PricePass(low, high))
  }

  /** The list before sorting: exactly the products passing all three stages. */
  function Filtered(ps: seq<Product>, f: Filters): (r: seq<Product>)
    ensures forall p :: p in r <==> p in ps && Passes(f)(p)
  {
    ByPrice(BySearch(ByCategory(ps, f.category), f.query), f.low, f.high)
  }

  lemma ByCategoryIsFilter(ps: seq<Product>, category: string)
    ensures ByCategory(ps, category) == Filter(ps, CategoryPass(category))
  {
    if category == "all" {
      FilterKeepsAll(ps, CategoryPass(category));
    } else {
      FilterExt(ps, (p: Product) => p.category == category, CategoryPass(category));
    }
  }

  lemma BySearchIsFilter(ps: seq<Product>, query: string)
    ensures BySearch(ps, query) == Filter(ps, QueryPass(query))
  {
    if query == "" {
      FilterKeepsAll(ps, QueryPass(query));
    } else {
      FilterExt(ps, MatchesQuery(ToLower(query)), QueryPass(query));
    }
  }

  /**
   * The three stages together keep exactly the products passing all three
   * tests, in catalog order.
   */
  lemma FilteredIsOneFilter(ps: seq<Product>, f: Filters)
    ensures Filtered(ps, f) == Filter(ps, Passes(f))
    ensures forall p :: p in Filtered(ps, f) <==> p in ps && Passes(f)(p)
    ensures IsSubsequence(Filtered(ps, f), ps)
  {
    var c := ByCategory(ps, f.category);
    ByCategoryIsFilter(ps, f.category);
    BySearchIsFilter(c, f.query);
    FilterFilter(ps, CategoryPass(f.category), QueryPass(f.query), CategoryAndQuery(f));
    FilterFilter(ps, CategoryAndQuery(f), PricePass(f.low, f.high), Passes(f));
    FilterIsSubsequence(ps, Passes(f));
  }

  /** The "featured" comparator's key: featured products first. */
  function FeaturedRank(p: Product): (r: int)
    ensures r == 0 <==> p.featured
    ensures r == 0 || r == 1
  {
    if p.featured then 0 else 1
  }

  /**
   * The key each sort option orders by. `collate` ranks names as `localeCompare`
   * does; an unknown option sorts like "featured".
   */
  function SortKey(sortBy: string, collate: string -> int): (key: Product -> int)
    ensures sortBy == "price-low" ==> forall p, q :: key(p) <= key(q) <==> p.price <= q.price
    ensures sortBy == "price-high" ==> forall p, q :: key(p) <= key(q) <==> p.price >= q.price
    ensures sortBy == "name" ==> forall p, q :: key(p) <= key(q) <==> collate(p.name) <= collate(q.name)
    ensures sortBy !in {"price-low", "price-high", "name"} ==>
      forall p, q :: key(p) < key(q) <==> p.featured && !q.featured
  {
    if sortBy == "price-low" then (p: Product) => p.price
    else if sortBy == "price-high" then (p: Product) => -p.price
    else if sortBy == "name" then (p: Product) => collate(p.name)
    else (p: Product) => FeaturedRank(p)
  }

  /** The shown products: the filtered products, reordered by the chosen option's key. */
  function Results(ps: seq<Product>, f: Filters, collate: string -> int): (r: seq<Product>)
    ensures multiset(r) == multiset(Filtered(ps, f))
    ensures SortedBy(r, SortKey(f.sortBy, collate))
  {
    SortBy(Filtered(ps, f), SortKey(f.sortBy, collate))
  }

  /** Every sort option shows exactly the filtered products, each as often as it passes. */
  lemma ResultsArePermutationOfFiltered(ps: seq<Product>, f: Filters, collate: string -> int)
    ensures multiset(Results(ps, f, collate)) == multiset(Filter(ps, Passes(f)))
    ensures forall p :: p in Results(ps, f, collate) <==> p in ps && Passes(f)(p)
  {
    FilteredIsOneFilter(ps, f);
    var r := Results(ps, f, collate);
    assert forall p :: p in r <==> p in multiset(r);
  }

  /** "price-low" shows non-decreasing prices. */
  lemma PriceLowAscends(ps: seq<Product>, f: Filters, collate: string -> int)
    requires f.sortBy == "price-low"
    ensures var r := Results(ps, f, collate);
      forall i, j :: 0 <= i < j < |r| ==> r[i].price <= r[j].price
  {
    var r := Results(ps, f, collate);
    assert SortedBy(r, SortKey(f.sortBy, collate));
  }

  /** "price-high" shows non-increasing prices. */
  lemma PriceHighDescends(ps: seq<Product>, f: Filters, collate: string -> int)
    requires f.sortBy == "price-high"
    ensures var r := Results(ps, f, collate);
      forall i, j :: 0 <= i < j < |r| ==> r[i].price >= r[j].price
  {
    var r := Results(ps, f, collate);
    assert SortedBy(r, SortKey(f.sortBy, collate));
    forall i, j | 0 <= i < j < |r|
      ensures r[i].price >= r[j].price
    {
      assert SortKey(f.sortBy, collate)(r[i]) <= SortKey(f.sortBy, collate)(r[j]);
    }
  }

  /** "name" shows names in collation order. */
  lemma NameAscends(ps: seq<Product>, f: Filters, collate: string -> int)
    requires f.sortBy == "name"
    ensures var r := Results(ps, f, collate);
      forall i, j :: 0 <= i < j < |r| ==> collate(r[i].name) <= collate(r[j].name)
  {
    var r := Results(ps, f, collate);
    assert SortedBy(r, SortKey(f.sortBy, collate));
  }

  /** Products the chosen order ties keep their filtered (catalog) order. */
  lemma TiesKeepCatalogOrder(ps: seq<Product>, f: Filters, collate: string -> int, k: int)
    ensures var key := SortKey(f.sortBy, collate);
      Filter(Results(ps, f, collate), KeyEquals(key, k)) == Filter(Filter(ps, Passes(f)), KeyEquals(key, k))
  {
    FilteredIsOneFilter(ps, f);
    SortByIsStable(Filtered(ps, f), SortKey(f.sortBy, collate), k);
  }

  /**
   * "featured", and any option the page does not know, shows the featured
   * products first and then the others, each group in catalog order.
   */
  lemma FeaturedFirst(ps: seq<Product>, f: Filters, collate: string -> int)
    requires f.sortBy !in {"price-low", "price-high", "name"}
    ensures var passing := Filter(ps, Passes(f));
      Results(ps, f, collate) == Filter(passing, Featured) + Filter(passing, NotFeatured)
  {
    var passing := Filter(ps, Passes(f));
    FilteredIsOneFilter(ps, f);
    var key := SortKey(f.sortBy, collate);
    assert forall x :: key(x) == FeaturedRank(x);
    SortByTwoKeysPartitions(passing, key);
    FilterExt(passing, KeyEquals(key, 0), Featured);
    FilterExt(passing, KeyEquals(key, 1), NotFeatured);
  }
}
