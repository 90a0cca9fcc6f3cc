/**
 * The filter sidebar (src/components/FilterSidebar.js): category counts, the sorted list of
 * brands, rating-option counts, the price slider with its clamped ends, the rating, brand
 * and feature selection lists, the "has active filters" test and Clear All.
 */
module FilterSidebar {
  import opened Wrappers
  import opened Text
  import opened Sequences
  import opened Products
  import opened Home

  // ---------------------------------------------------------------------------------------
  // Selection lists

  function Other<T(==)>(x: T): T -> bool
  {
    y => y != x
  }

  /** The rating, brand and feature handlers: drop every copy of a present value, append an absent one. */
  function Toggle<T(==)>(xs: seq<T>, x: T): (r: seq<T>)
    ensures x in r <==> x !in xs
    ensures forall i :: 0 <= i < |xs| && xs[i] != x ==> xs[i] in r
    ensures forall i :: 0 <= i < |r| ==> r[i] == x || r[i] in xs
  {
    if x in xs then Filter(xs, Other(x)) else xs + [x]
  }

  /**
   * Toggling an absent value appends exactly one copy at the end; toggling a present value
   * removes all of its copies. No other value's count changes either way.
   */
  lemma {:induction false} ToggleSpec<T>(xs: seq<T>, x: T)
    ensures x !in xs ==> Toggle(xs, x) == xs + [x] && multiset(Toggle(xs, x))[x] == 1
    ensures x in xs ==> x !in Toggle(xs, x)
    ensures forall y :: y != x ==> multiset(Toggle(xs, x))[y] == multiset(xs)[y]
  {
    if x in xs {
      FilterMultiplicity(xs, Other(x), x);
      forall y | y != x ensures multiset(Toggle(xs, x))[y] == multiset(xs)[y] {
        FilterMultiplicity(xs, Other(x), y);
      }
    } else {
      assert multiset(xs + [x]) == multiset(xs) + multiset{x};
    }
  }

  /** Toggling the same value twice, starting without it, gives back the original list. */
  lemma {:induction false} ToggleTwice<T>(xs: seq<T>, x: T)
    requires x !in xs
    ensures Toggle(Toggle(xs, x), x) == xs
  {
    assert x in xs + [x];
    FilterAppend(xs, [x], Other(x));
    FilterAll(xs, Other(x));
    assert Filter([x], Other(x)) == [];
  }

  // ---------------------------------------------------------------------------------------
  // Counts and brands

  /**
   * categoryCounts: 'All' maps to the catalogue size and every other listed category to the
   * number of products in it; nothing else has an entry.
   */
  function CategoryCounts(products: seq<Product>, categories: seq<string>): (m: map<string, nat>)
    ensures "All" in m && m["All"] == |products|
    ensures forall c :: c in m <==> c == "All" || c in categories
    ensures forall c :: c in m ==> m[c] == CategoryCount(products, c)
  {
    if categories == [] then map["All" := |products|]
    else
      var rest := CategoryCounts(products, categories[1..]);
      var c := categories[0];
      assert forall d :: d in categories <==> d == c || d in categories[1..];
      if c != "All" then rest[c := CategoryCount(products, c)] else rest
  }

  /** An absent brand field is the empty string, which is falsy. */
  function BrandOf(p: Product): string
  {
    p.brand
  }

  /**
   * productBrands: every non-empty brand of the catalogue, each once, in the default sort
   * order; the loop is the reduce that pushes a brand not yet in the accumulator.
   */
  method ProductBrands(products: seq<Product>) returns (brands: seq<string>)
    ensures Distinct(brands)
    ensures forall b :: b in brands <==> b != "" && b in Keys(products, BrandOf)
    ensures Sorted(brands, LexLe)
  {
    var acc: seq<string> := [];
    var i := 0;
    while i < |products|
      invariant 0 <= i <= |products|
      invariant Distinct(acc)
      invariant forall b :: b in acc <==> b != "" && b in Keys(products[..i], BrandOf)
    {
      var brand := products[i].brand;
      assert Keys(products[..i + 1], BrandOf) == Keys(products[..i], BrandOf) + [brand] by {
        assert products[..i + 1] == products[..i] + [products[i]];
        KeysAppend(products[..i], [products[i]], BrandOf);
      }
      if brand != "" && brand !in acc {
        DistinctAppend(acc, brand);
        acc := acc + [brand];
      }
      i := i + 1;
    }
    assert products[..i] == products;
    LexOrderTotal();
    SortDistinct(acc, LexLe);
    brands := Sort(acc, LexLe);
  }

  lemma {:induction false} LexOrderTotal()
    ensures TotalPreorder(LexLe)
  {
    forall a, b ensures LexLe(a, b) || LexLe(b, a) {
      LexLeTotal(a, b);
    }
    forall a, b, c | LexLe(a, b) && LexLe(b, c) ensures LexLe(a, c) {
      LexLeTransitive(a, b, c);
    }
  }

  function RatedAtLeast(threshold: real): Product -> bool
  {
    (p: Product) => p.rating >= threshold
  }

  /** The count shown beside a rating option: products rated at least the threshold. */
  function RatingCount(products: seq<Product>, threshold: real): (r: nat)
    ensures r <= |products|
  {
    |Filter(products, RatedAtLeast(threshold))|
  }

  /** A higher threshold never counts more products. */
  lemma {:induction false} RatingCountMonotone(products: seq<Product>, lo: real, hi: real)
    requires lo <= hi
    ensures RatingCount(products, hi) <= RatingCount(products, lo)
  {
    FilterLengthMonotone(products, RatedAtLeast(hi), RatedAtLeast(lo));
  }

  datatype RatingOption = RatingOption(value: real, count: nat)

  /** ratingOptions: the four thresholds from 4.5 down to 3 with their counts. */
  function RatingOptions(products: seq<Product>): (r: seq<RatingOption>)
    ensures |r| == 4
    ensures r[0].value == 4.5 && r[1].value == 4.0 && r[2].value == 3.5 && r[3].value == 3.0
    ensures forall i :: 0 <= i < 4 ==> r[i].count == RatingCount(products, r[i].value)
    ensures r[0].count <= r[1].count <= r[2].count <= r[3].count
  {
    RatingCountMonotone(products, 4.0, 4.5);
    RatingCountMonotone(products, 3.5, 4.0);
    RatingCountMonotone(products, 3.0, 3.5);
    [RatingOption(4.5, RatingCount(products, 4.5)), RatingOption(4.0, RatingCount(products, 4.0)),
     RatingOption(3.5, RatingCount(products, 3.5)), RatingOption(3.0, RatingCount(products, 3.0))]
  }

  // ---------------------------------------------------------------------------------------
  // Price slider

  /** The local price range; each end is blank or the rendering of a whole number. */
  datatype PriceRange = PriceRange(min: PriceText, max: PriceText)

  datatype SliderEnd = Low | High

  /** `parseInt(value) || 0`: an unparsable value (NaN) and 0 both give 0. */
  function ParsedOrZero(parsed: Option<int>): int
  {
    if parsed.Some? then parsed.value else 0
  }

  /**
   * handleSliderChange: the low end becomes the value capped at one below the slider's top,
   * the high end the value raised to one above the slider's bottom; the other end stays.
   */
  function SliderUpdate(range: PriceRange, end: SliderEnd, parsed: Option<int>, sliderMin: int, sliderMax: int): (r: PriceRange)
    ensures end == Low ==>
      && r.max == range.max && r.min.Amount?
      && r.min.n <= ParsedOrZero(parsed) && r.min.n <= sliderMax - 1
      && (r.min.n == ParsedOrZero(parsed) || r.min.n == sliderMax - 1)
    ensures end == High ==>
      && r.min == range.min && r.max.Amount?
      && r.max.n >= ParsedOrZero(parsed) && r.max.n >= sliderMin + 1
      && (r.max.n == ParsedOrZero(parsed) || r.max.n == sliderMin + 1)
  {
    var v := ParsedOrZero(parsed);
    match end
    case Low => range.(min := Amount(if v <= sliderMax - 1 then v else sliderMax - 1))
    case High => range.(max := Amount(if v >= sliderMin + 1 then v else sliderMin + 1))
  }

  /** A value already inside the slider's span is taken as it is. */
  lemma {:induction false} SliderInRange(range: PriceRange, v: int, sliderMin: int, sliderMax: int)
    requires sliderMin + 1 <= v <= sliderMax - 1
    ensures SliderUpdate(range, Low, Some(v), sliderMin, sliderMax).min == Amount(v)
    ensures SliderUpdate(range, High, Some(v), sliderMin, sliderMax).max == Amount(v)
  {
  }

  function Floor(x: real): int
  {
    x.Floor
  }

  function Ceil(x: real): int
  {
    -((-x).Floor)
  }

  function MinPrice(prices: seq<real>): (m: real)
    requires prices != []
    ensures m in prices && forall x :: x in prices ==> m <= x
  {
    if |prices| == 1 then prices[0]
    else
      var rest := MinPrice(prices[1..]);
      assert prices == [prices[0]] + prices[1..];
      if prices[0] <= rest then prices[0] else rest
  }

  function MaxPrice(prices: seq<real>): (m: real)
    requires prices != []
    ensures m in prices && forall x :: x in prices ==> x <= m
  {
    if |prices| == 1 then prices[0]
    else
      var rest := MaxPrice(prices[1..]);
      assert prices == [prices[0]] + prices[1..];
      if prices[0] >= rest then prices[0] else rest
  }

  function PriceOf(p: Product): real
  {
    p.price
  }

  /**
   * The slider's bounds: the lowest price rounded down and the highest rounded up, which
   * enclose every price. An empty catalogue has no finite bounds and gives None.
   */
  function SliderBounds(products: seq<Product>): (r: Option<(int, int)>)
    ensures r.None? <==> products == []
    ensures r.Some? ==>
      && r.value.0 <= r.value.1
      && (forall i :: 0 <= i < |products| ==> r.value.0 as real <= products[i].price <= r.value.1 as real)
      && (exists i :: 0 <= i < |products| && products[i].price < r.value.0 as real + 1.0)
      && (exists j :: 0 <= j < |products| && r.value.1 as real - 1.0 < products[j].price)
  {
    if products == [] then None
    else
      var prices := Keys(products, PriceOf);
      assert forall i :: 0 <= i < |products| ==> products[i].price in prices;
      var lo, hi := MinPrice(prices), MaxPrice(prices);
      var i :| 0 <= i < |prices| && prices[i] == lo;
      var j :| 0 <= j < |prices| && prices[j] == hi;
      assert products[i].price < Floor(lo) as real + 1.0;
      assert Ceil(hi) as real - 1.0 < products[j].price;
      Some((Floor(lo), Ceil(hi)))
  }

  // ---------------------------------------------------------------------------------------
  // The sidebar

  /**
   * The filters are active unless the category is 'All', the low end is blank, the high end is
   * the slider's top, all three lists are empty and the sort is 'default'. A rendered whole
   * number is never the empty string, so any Amount is truthy.
   */
  predicate AnyActive(category: string, range: PriceRange, sliderMax: int,
                      ratings: seq<real>, brands: seq<string>, features: seq<string>, sortBy: string)
    ensures !AnyActive(category, range, sliderMax, ratings, brands, features, sortBy) <==>
      && category == "All" && range == PriceRange(Blank, Amount(sliderMax))
      && ratings == [] && brands == [] && features == [] && sortBy == "default"
  {
    || category != "All"
    || range.min.Amount?
    || range.max != Amount(sliderMax)
    || |ratings| > 0 || |brands| > 0 || |features| > 0
    || sortBy != "default"
  }

  /** Picking any rating, brand or feature into an empty selection makes the filters active. */
  lemma {:induction false} ToggleActivates(category: string, range: PriceRange, sliderMax: int, r: real, b: string, f: string, sortBy: string)
    ensures AnyActive(category, range, sliderMax, Toggle([], r), [], [], sortBy)
    ensures AnyActive(category, range, sliderMax, [], Toggle([], b), [], sortBy)
    ensures AnyActive(category, range, sliderMax, [], [], Toggle([], f), sortBy)
  {
  }

  /**
   * The sidebar's state. The category, the sort key and the applied price range belong to
   * the page and change only through the sidebar's callbacks; they are fields here so that
   * those callbacks' effects can be stated.
   */
  class SidebarState {
    var category: string
    var sortBy: string
    var appliedRange: PriceRange
    var localRange: PriceRange
    var selectedRatings: seq<real>
    var selectedBrands: seq<string>
    var selectedFeatures: seq<string>
    var sliderMin: int
    var sliderMax: int

    /** The sidebar as first rendered: the page's values, empty lists and the 0..2000 slider. */
    constructor (category0: string, sortBy0: string, range0: PriceRange)
      ensures category == category0 && sortBy == sortBy0 && appliedRange == range0 && localRange == range0
      ensures selectedRatings == [] && selectedBrands == [] && selectedFeatures == []
      ensures sliderMin == 0 && sliderMax == 2000
    {
      category, sortBy, appliedRange, localRange := category0, sortBy0, range0, range0;
      selectedRatings, selectedBrands, selectedFeatures := [], [], [];
      sliderMin, sliderMax := 0, 2000;
    }

    predicate HasActiveFilters()
      reads this
      ensures !HasActiveFilters() <==>
        && category == "All" && localRange == PriceRange(Blank, Amount(sliderMax))
        && selectedRatings == [] && selectedBrands == [] && selectedFeatures == [] && sortBy == "default"
    {
      AnyActive(category, localRange, sliderMax, selectedRatings, selectedBrands, selectedFeatures, sortBy)
    }

    /** The mount effect: slider bounds from the catalogue, and a blank high end filled with the top. */
    method InitSliderBounds(products: seq<Product>)
      modifies this`sliderMin, this`sliderMax, this`localRange
      ensures match SliderBounds(products)
        case None => sliderMin == old(sliderMin) && sliderMax == old(sliderMax) && localRange == old(localRange)
        case Some(b) =>
          && sliderMin == b.0 && sliderMax == b.1
          && localRange == if old(localRange).max.Blank? then old(localRange).(max := Amount(b.1)) else old(localRange)
    {
      match SliderBounds(products)
      case None =>
      case Some(b) =>
        sliderMin, sliderMax := b.0, b.1;
        if localRange.max.Blank? {
          localRange := localRange.(max := Amount(b.1));
        }
    }

    method SliderChange(end: SliderEnd, parsed: Option<int>)
      modifies this`localRange
      ensures localRange == SliderUpdate(old(localRange), end, parsed, sliderMin, sliderMax)
    {
      localRange := SliderUpdate(localRange, end, parsed, sliderMin, sliderMax);
    }

    /** Releasing the slider or pressing Apply hands the local range to the page. */
    method ApplyPriceRange()
      modifies this`appliedRange
      ensures appliedRange == localRange
    {
      appliedRange := localRange;
    }

    /** A quick price button: from 0 up to the given price, locally and on the page at once. */
    method QuickPrice(price: int)
      modifies this`localRange, this`appliedRange
      ensures localRange == PriceRange(Amount(0), Amount(price)) && appliedRange == localRange
    {
      localRange := PriceRange(Amount(0), Amount(price));
      appliedRange := localRange;
    }

    method SelectCategory(c: string)
      modifies this`category
      ensures category == c
    {
      category := c;
    }

    method ToggleRating(r: real)
      modifies this`selectedRatings
      ensures selectedRatings == Toggle(old(selectedRatings), r)
      ensures selectedRatings != [] ==> HasActiveFilters()
    {
      selectedRatings := Toggle(selectedRatings, r);
    }

    method ToggleBrand(b: string)
      modifies this`selectedBrands
      ensures selectedBrands == Toggle(old(selectedBrands), b)
      ensures selectedBrands != [] ==> HasActiveFilters()
    {
      selectedBrands := Toggle(selectedBrands, b);
    }

    method ToggleFeature(f: string)
      modifies this`selectedFeatures
      ensures selectedFeatures == Toggle(old(selectedFeatures), f)
      ensures selectedFeatures != [] ==> HasActiveFilters()
    {
      selectedFeatures := Toggle(selectedFeatures, f);
    }

    /**
     * Clear All: category 'All', price range from blank to the slider's top (locally and on the
     * page), empty lists, sort 'default'; afterwards no filter is active.
     */
    method ClearAll()
      modifies this`category, this`localRange, this`appliedRange, this`selectedRatings,
        this`selectedBrands, this`selectedFeatures, this`sortBy
      ensures category == "All" && sortBy == "default"
      ensures localRange == PriceRange(Blank, Amount(sliderMax)) && appliedRange == localRange
      ensures selectedRatings == [] && selectedBrands == [] && selectedFeatures == []
      ensures !HasActiveFilters()
    {
      category := "All";
      localRange := PriceRange(Blank, Amount(sliderMax));
      appliedRange := PriceRange(Blank, Amount(sliderMax));
      selectedRatings, selectedBrands, selectedFeatures := [], [], [];
      sortBy := "default";
    }
  }
}
