/**
 * The home page's product pipeline (src/pages/Home.js): a case-insensitive search over
 * name, description and category, an exact category filter, inclusive price bounds, a sort
 * chosen by key with a "featured" score as the default, the trending top eight, per-category
 * counts, and the rotating daily deal.
 */
module Home {
  import opened Text
  import opened Sequences
  import opened Products

  // ---------------------------------------------------------------------------------------
  // Selection

  /** The page's query state; price bounds are Blank or the rendering of a whole number. */
  datatype Query = Query(searchTerm: string, category: string, priceMin: PriceText, priceMax: PriceText, sortBy: string)

  /**
   * The lower-cased term occurs in the lower-cased name, description or category; an empty
   * term matches every product.
   */
  predicate MatchesSearch(p: Product, term: string)
    ensures term == "" ==> MatchesSearch(p, term)
  {
    var t := ToLower(term);
    assert term == "" ==> t == "";
    Contains(ToLower(p.name), t) || Contains(ToLower(p.description), t) || Contains(ToLower(p.category), t)
  }

  function MatchesTerm(term: string): Product -> bool
  {
    p => MatchesSearch(p, term)
  }

  function InCategory(category: string): Product -> bool
  {
    (p: Product) => p.category == category
  }

  function AtLeast(min: int): Product -> bool
  {
    (p: Product) => p.price >= min as real
  }

  function AtMost(max: int): Product -> bool
  {
    (p: Product) => p.price <= max as real
  }

  predicate PassesCategory(q: Query, p: Product)
  {
    q.category == "All" || p.category == q.category
  }

  predicate PassesMin(q: Query, p: Product)
  {
    q.priceMin.Blank? || p.price >= q.priceMin.n as real
  }

  predicate PassesMax(q: Query, p: Product)
  {
    q.priceMax.Blank? || p.price <= q.priceMax.n as real
  }

  /**
   * The products the effect keeps: the search matches, the category is 'All' or equal, and
   * each price bound that is not blank holds inclusively. A minimum above the maximum keeps
   * nothing.
   */
  predicate Selected(q: Query, p: Product)
    ensures q.priceMin.Amount? && q.priceMax.Amount? && q.priceMax.n < q.priceMin.n ==> !Selected(q, p)
  {
    MatchesSearch(p, q.searchTerm) && PassesCategory(q, p) && PassesMin(q, p) && PassesMax(q, p)
  }

  /**
   * The search is a substring test: it holds exactly when the lower-cased term occurs at some
   * offset of one of the three lower-cased fields, and the term's case does not matter.
   */
  lemma {:induction false} SearchIff(p: Product, term: string)
    ensures MatchesSearch(p, term) <==>
      exists i :: OccursAt(ToLower(p.name), ToLower(term), i)
        || OccursAt(ToLower(p.description), ToLower(term), i)
        || OccursAt(ToLower(p.category), ToLower(term), i)
    ensures MatchesSearch(p, term) == MatchesSearch(p, ToLower(term))
  {
    ContainsIff(ToLower(p.name), ToLower(term));
    ContainsIff(ToLower(p.description), ToLower(term));
    ContainsIff(ToLower(p.category), ToLower(term));
    ToLowerIdempotent(term);
  }

  // ---------------------------------------------------------------------------------------
  // Sorting

  /** The featured score: twice the rating plus a hundredth of the sales. */
  function Score(p: Product): real
  {
    p.rating * 2.0 + p.sales as real / 100.0
  }

  /**
   * The comparator of each sort key, read as "may come first": a JavaScript comparator c
   * puts a before b when c(a, b) <= 0. Any key other than the five named ones, 'trending'
   * among them, uses the featured score, highest first.
   */
  function SortOrder(sortBy: string): (le: (Product, Product) -> bool)
    ensures sortBy !in NamedSortKeys ==> forall a, b :: le(a, b) == (Score(a) >= Score(b))
  {
    if sortBy == "price-low" then (a: Product, b: Product) => a.price <= b.price
    else if sortBy == "price-high" then (a: Product, b: Product) => a.price >= b.price
    else if sortBy == "rating" then (a: Product, b: Product) => a.rating >= b.rating
    else if sortBy == "name" then (a: Product, b: Product) => LexLe(a.name, b.name)
    else if sortBy == "popular" then (a: Product, b: Product) => a.sales >= b.sales
    else (a: Product, b: Product) => Score(a) >= Score(b)
  }

  /** The sort keys with a case of their own. */
  const NamedSortKeys: set<string> := {"price-low", "price-high", "rating", "name", "popular"}

  /** Every sort key's comparator is a total preorder, so sorting by it yields a sorted list. */
  lemma {:induction false} SortOrderTotal(sortBy: string)
    ensures TotalPreorder(SortOrder(sortBy))
  {
    if sortBy == "name" {
      forall a: Product, b: Product ensures LexLe(a.name, b.name) || LexLe(b.name, a.name) {
        LexLeTotal(a.name, b.name);
      }
      forall a: Product, b: Product, c: Product | LexLe(a.name, b.name) && LexLe(b.name, c.name)
        ensures LexLe(a.name, c.name)
      {
        LexLeTransitive(a.name, b.name, c.name);
      }
    }
  }

  /** The 'trending' entry of the sort menu has no case of its own and orders by the featured score. */
  lemma {:induction false} TrendingKeyIsFeatured(a: Product, b: Product)
    ensures SortOrder("trending")(a, b) == (Score(a) >= Score(b))
    ensures SortOrder("trending")(a, b) == SortOrder("default")(a, b)
  {
  }

  /**
   * The filtering half of the effect: `filtered` is narrowed by each active filter in turn.
   * The result holds each selected product exactly as often as the catalogue does.
   */
  method ApplyFilters(products: seq<Product>, q: Query) returns (filtered: seq<Product>)
    ensures forall p :: multiset(filtered)[p] == if Selected(q, p) then multiset(products)[p] else 0
  {
    filtered := Filter(products, MatchesTerm(q.searchTerm));
    forall p ensures multiset(filtered)[p] == if MatchesSearch(p, q.searchTerm) then multiset(products)[p] else 0 {
      FilterMultiplicity(products, MatchesTerm(q.searchTerm), p);
    }
    ghost var afterSearch := filtered;
    if q.category != "All" {
      filtered := Filter(filtered, InCategory(q.category));
      forall p ensures multiset(filtered)[p] == if p.category == q.category then multiset(afterSearch)[p] else 0 {
        FilterMultiplicity(afterSearch, InCategory(q.category), p);
      }
    }
    assert forall p :: multiset(filtered)[p] ==
            if MatchesSearch(p, q.searchTerm) && PassesCategory(q, p) then multiset(products)[p] else 0;
    ghost var afterCategory := filtered;
    if q.priceMin.Amount? {
      filtered := Filter(filtered, AtLeast(q.priceMin.n));
      forall p ensures multiset(filtered)[p] == if p.price >= q.priceMin.n as real then multiset(afterCategory)[p] else 0 {
        FilterMultiplicity(afterCategory, AtLeast(q.priceMin.n), p);
      }
    }
    assert forall p :: multiset(filtered)[p] ==
            if MatchesSearch(p, q.searchTerm) && PassesCategory(q, p) && PassesMin(q, p) then multiset(products)[p] else 0;
    ghost var afterMin := filtered;
    if q.priceMax.Amount? {
      filtered := Filter(filtered, AtMost(q.priceMax.n));
      forall p ensures multiset(filtered)[p] == if p.price <= q.priceMax.n as real then multiset(afterMin)[p] else 0 {
        FilterMultiplicity(afterMin, AtMost(q.priceMax.n), p);
      }
    }
  }



  /** What sortedness under each key's comparator says about the field that key names. */
  lemma {:induction false} SortedByKey(s: seq<Product>, sortBy: string)
    requires Sorted(s, SortOrder(sortBy))
    ensures sortBy == "price-low" ==> forall i, j :: 0 <= i < j < |s| ==> s[i].price <= s[j].price
    ensures sortBy == "price-high" ==> forall i, j :: 0 <= i < j < |s| ==> s[i].price >= s[j].price
    ensures sortBy == "rating" ==> forall i, j :: 0 <= i < j < |s| ==> s[i].rating >= s[j].rating
    ensures sortBy == "name" ==> forall i, j :: 0 <= i < j < |s| ==> LexLe(s[i].name, s[j].name)
    ensures sortBy == "popular" ==> forall i, j :: 0 <= i < j < |s| ==> s[i].sales >= s[j].sales
    ensures sortBy !in {"price-low", "price-high", "rating", "name", "popular"} ==>
      forall i, j :: 0 <= i < j < |s| ==> Score(s[i]) >= Score(s[j])
  {
  }

  /**
   * The filter-and-sort effect body: the filtered list sorted by the chosen key. The result
   * holds each selected product exactly as often as the catalogue does, in the key's order.
   */
  method FilterAndSort(products: seq<Product>, q: Query) returns (filtered: seq<Product>)
    ensures forall p :: multiset(filtered)[p] == if Selected(q, p) then multiset(products)[p] else 0
    ensures forall p :: p in filtered <==> p in products && Selected(q, p)
    ensures Sorted(filtered, SortOrder(q.sortBy))
    ensures q.sortBy == "price-low" ==> forall i, j :: 0 <= i < j < |filtered| ==> filtered[i].price <= filtered[j].price
    ensures q.sortBy == "price-high" ==> forall i, j :: 0 <= i < j < |filtered| ==> filtered[i].price >= filtered[j].price
    ensures q.sortBy == "rating" ==> forall i, j :: 0 <= i < j < |filtered| ==> filtered[i].rating >= filtered[j].rating
    ensures q.sortBy == "name" ==> forall i, j :: 0 <= i < j < |filtered| ==> LexLe(filtered[i].name, filtered[j].name)
    ensures q.sortBy == "popular" ==> forall i, j :: 0 <= i < j < |filtered| ==> filtered[i].sales >= filtered[j].sales
    ensures q.sortBy !in {"price-low", "price-high", "rating", "name", "popular"} ==>
      forall i, j :: 0 <= i < j < |filtered| ==> Score(filtered[i]) >= Score(filtered[j])
  {
    filtered := ApplyFilters(products, q);
    ghost var selected := filtered;
    SortOrderTotal(q.sortBy);
    SortSorted(filtered, SortOrder(q.sortBy));
    filtered := Sort(filtered, SortOrder(q.sortBy));
    assert multiset(filtered) == multiset(selected);
    SortedByKey(filtered, q.sortBy);
    forall p ensures p in filtered <==> p in products && Selected(q, p) {
      assert p in filtered <==> p in multiset(filtered);
      assert p in products <==> p in multiset(products);
    }
  }

  /** With no term, category 'All' and blank bounds, nothing is filtered out. */
  lemma {:induction false} DefaultQuerySelectsAll(sortBy: string, p: Product)
    ensures Selected(Query("", "All", Blank, Blank, sortBy), p)
  {
    assert MatchesSearch(p, "");
  }

  // ---------------------------------------------------------------------------------------
  // Trending, category counts, deals

  predicate IsTrendCandidate(p: Product)
  {
    p.sales > 100 || p.rating >= 4.5
  }

  function TrendScore(p: Product): real
  {
    p.sales as real * p.rating
  }

  /** The trending comparator `b.sales*b.rating - a.sales*a.rating`, read as "may come first". */
  predicate TrendOrder(a: Product, b: Product)
  {
    TrendScore(a) >= TrendScore(b)
  }

  /**
   * The trending products: at most eight, every one a candidate (sales over 100 or rating at
   * least 4.5), highest sales-times-rating first, and no candidate left out scores above one
   * taken.
   */
  function Trending(products: seq<Product>): (r: seq<Product>)
    ensures var c := Filter(products, IsTrendCandidate); |r| == if |c| <= 8 then |c| else 8
    ensures forall i :: 0 <= i < |r| ==> IsTrendCandidate(r[i])
    ensures multiset(r) <= multiset(products)
    ensures forall i, j :: 0 <= i < j < |r| ==> TrendScore(r[i]) >= TrendScore(r[j])
    ensures forall i, y :: 0 <= i < |r| && y in multiset(Filter(products, IsTrendCandidate)) - multiset(r) ==>
      TrendScore(y) <= TrendScore(r[i])
  {
    TrendingIsTop(products);
    Take(Sort(Filter(products, IsTrendCandidate), TrendOrder), 8)
  }

  /** The top-eight property of the trending selection, stated on the catalogue itself. */
  lemma {:induction false} TrendingIsTop(products: seq<Product>)
    ensures var c := Filter(products, IsTrendCandidate);
      var r := Take(Sort(c, TrendOrder), 8);
      && |r| == (if |c| <= 8 then |c| else 8)
      && (forall i :: 0 <= i < |r| ==> IsTrendCandidate(r[i]))
      && multiset(r) <= multiset(products)
      && (forall i, j :: 0 <= i < j < |r| ==> TrendScore(r[i]) >= TrendScore(r[j]))
      && forall i, y :: 0 <= i < |r| && y in multiset(c) - multiset(r) ==> TrendScore(y) <= TrendScore(r[i])
  {
    var c := Filter(products, IsTrendCandidate);
    var r := Take(Sort(c, TrendOrder), 8);
    TrendOrderTotal();
    TopOf(c, 8, TrendOrder);
    forall i | 0 <= i < |r| ensures IsTrendCandidate(r[i]) {
      var k :| 0 <= k < |c| && c[k] == r[i];
    }
    forall i, j | 0 <= i < j < |r| ensures TrendScore(r[i]) >= TrendScore(r[j]) {
      assert TrendOrder(r[i], r[j]);
    }
    forall i, y | 0 <= i < |r| && y in multiset(c) - multiset(r) ensures TrendScore(y) <= TrendScore(r[i]) {
      assert TrendOrder(r[i], y);
    }
    assert multiset(r) <= multiset(c) <= multiset(products);
  }

  lemma {:induction false} TrendOrderTotal()
    ensures TotalPreorder(TrendOrder)
  {
  }

  /** Products in a category: the number of times it occurs in the list of categories. */
  function CategoryOf(p: Product): string
  {
    p.category
  }

  lemma {:induction false} CategoryFilterCount(products: seq<Product>, category: string)
    ensures |Filter(products, InCategory(category))| == multiset(Keys(products, CategoryOf))[category]
  {
    if products != [] {
      var rest := products[1..];
      CategoryFilterCount(rest, category);
      var one := if products[0].category == category then 1 else 0;
      assert multiset(Keys(products, CategoryOf))[category] == one + multiset(Keys(rest, CategoryOf))[category] by {
        assert Keys(products, CategoryOf) == [products[0].category] + Keys(rest, CategoryOf);
      }
      assert |Filter(products, InCategory(category))| == one + |Filter(rest, InCategory(category))|;
    }
  }

  /** getCategoryCount: every product for 'All', otherwise the products of that category. */
  function CategoryCount(products: seq<Product>, category: string): (r: nat)
    ensures category == "All" ==> r == |products|
    ensures category != "All" ==> r == multiset(Keys(products, CategoryOf))[category]
  {
    if category == "All" then |products|
    else
      CategoryFilterCount(products, category);
      |Filter(products, InCategory(category))|
  }

  /** The number of daily deals. */
  const DealCount := 3

  /**
    * JavaScript's `%`: the remainder takes the sign of the dividend, is smaller than the divisor
    * in magnitude, and differs from the dividend by a multiple of the divisor. These three
    * together leave exactly one candidate.
    */
  function JsRem(a: int, b: int): (r: int)
    requires b != 0
    ensures a >= 0 ==> 0 <= r < if b > 0 then b else -b
    ensures a <= 0 ==> -(if b > 0 then b else -b) < r <= 0
    ensures (a - r) % (if b > 0 then b else -b) == 0
  {
    var m := if b > 0 then b else -b;
    if a >= 0 then
      RemNonNegative(a, m);
      a % m
    else
      RemNegative(a, m);
      -((-a) % m)
  }

  lemma {:induction false} RemNonNegative(a: int, m: int)
    requires a >= 0 && m > 0
    ensures 0 <= a % m < m && (a - a % m) % m == 0
    ensures a == 0 ==> a % m == 0
  {
    assert a - a % m == (a / m) * m;
    MultipleRem(a / m, m);
  }

  lemma {:induction false} RemNegative(a: int, m: int)
    requires a < 0 && m > 0
    ensures -m < -((-a) % m) <= 0 && (a + (-a) % m) % m == 0
  {
    var q := (-a) / m;
    assert -a == q * m + (-a) % m;
    assert a + (-a) % m == (-q) * m;
    MultipleRem(-q, m);
  }

  lemma {:induction false} MultipleRem(q: int, m: int)
    requires m > 0
    ensures (q * m) % m == 0
  {
    var d, r := (q * m) / m, (q * m) % m;
    assert q * m == d * m + r && 0 <= r < m;
    assert (q - d) * m == r by {
      assert (q - d) * m == q * m - d * m;
    }
    if q - d >= 1 {
      assert false;
    } else if q - d <= -1 {
      assert false;
    }
  }

  /** The deal rotation step `(prev + 1) % dailyDeals.length`: the next deal, wrapping after the last. */
  function NextDeal(prev: int): (r: int)
    ensures prev >= -1 ==> 0 <= r < DealCount
    ensures -1 <= prev < DealCount - 1 ==> r == prev + 1
    ensures prev == DealCount - 1 ==> r == 0
  {
    JsRem(prev + 1, DealCount)
  }

  /** Three steps bring any shown deal back round to itself, visiting each deal once. */
  lemma {:induction false} DealCycle(d: int)
    requires 0 <= d < DealCount
    ensures NextDeal(NextDeal(NextDeal(d))) == d
    ensures NextDeal(d) != d && NextDeal(NextDeal(d)) != d
  {
  }

  // ---------------------------------------------------------------------------------------
  // The page

  class HomeView {
    const catalogue: seq<Product>
    var searchTerm: string
    var selectedCategory: string
    var priceMin: PriceText
    var priceMax: PriceText
    var sortBy: string
    var filteredProducts: seq<Product>
    var activeDeal: int

    function CurrentQuery(): Query
      reads this
    {
      Query(searchTerm, selectedCategory, priceMin, priceMax, sortBy)
    }

    ghost predicate Valid()
      reads this
    {
      0 <= activeDeal < DealCount
    }

    constructor (products: seq<Product>)
      ensures catalogue == products && CurrentQuery() == Query("", "All", Blank, Blank, "default")
      ensures filteredProducts == [] && activeDeal == 0
      ensures Valid()
    {
      catalogue := products;
      searchTerm, selectedCategory, priceMin, priceMax, sortBy := "", "All", Blank, Blank, "default";
      filteredProducts, activeDeal := [], 0;
    }

    /** The effect run after the query changes: the shown list becomes the filtered, sorted catalogue. */
    method Refresh()
      modifies this`filteredProducts
      ensures forall p :: multiset(filteredProducts)[p] == if Selected(CurrentQuery(), p) then multiset(catalogue)[p] else 0
      ensures Sorted(filteredProducts, SortOrder(sortBy))
    {
      filteredProducts := FilterAndSort(catalogue, CurrentQuery());
    }

    /** Clear All: empty term, category 'All', blank bounds, sort 'default'. */
    method ClearAll()
      modifies this`searchTerm, this`selectedCategory, this`priceMin, this`priceMax, this`sortBy
      ensures CurrentQuery() == Query("", "All", Blank, Blank, "default")
    {
      searchTerm, selectedCategory, priceMin, priceMax, sortBy := "", "All", Blank, Blank, "default";
    }

    /** One tick of the deal rotation. */
    method RotateDeal()
      modifies this`activeDeal
      ensures activeDeal == NextDeal(old(activeDeal))
      ensures old(Valid()) ==> Valid()
    {
      activeDeal := NextDeal(activeDeal);
    }
  }
}
