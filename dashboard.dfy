/**
 * The dashboard's figures (src/pages/Dashboard.js): revenue and average order value over the
 * orders, the five best-selling products, the low-stock list, the five most recent orders,
 * and the monthly sales chart scaled to its largest month.
 */
module Dashboard {
  import opened Wrappers
  import opened Sequences
  import opened Products

  datatype Order = Order(id: int, date: string, customer: string, total: real, status: string)

  datatype MonthSales = MonthSales(month: string, sales: int)

  // ---------------------------------------------------------------------------------------
  // Revenue

  /** totalRevenue: the sum of the order totals. */
  function TotalRevenue(orders: seq<Order>): (r: real)
    ensures (forall i :: 0 <= i < |orders| ==> orders[i].total >= 0.0) ==> r >= 0.0
  {
    if orders == [] then 0.0 else orders[0].total + TotalRevenue(orders[1..])
  }

  /** averageOrderValue: revenue over the number of orders, or 0 when there are none. */
  function AverageOrderValue(orders: seq<Order>): (r: real)
    ensures |orders| == 0 ==> r == 0.0
    ensures |orders| > 0 ==> r * |orders| as real == TotalRevenue(orders)
  {
    if |orders| > 0 then TotalRevenue(orders) / |orders| as real else 0.0
  }

  /** When every order total lies in [lo, hi], the revenue lies between n*lo and n*hi. */
  lemma {:induction false} RevenueBounds(orders: seq<Order>, lo: real, hi: real)
    requires forall i :: 0 <= i < |orders| ==> lo <= orders[i].total <= hi
    ensures lo * |orders| as real <= TotalRevenue(orders) <= hi * |orders| as real
  {
    if orders != [] {
      var rest := orders[1..];
      RevenueBounds(rest, lo, hi);
      MulSucc(lo, |rest|);
      MulSucc(hi, |rest|);
      AddBounds(orders[0].total, TotalRevenue(rest), lo, hi, lo * |rest| as real, hi * |rest| as real);
    }
  }

  lemma {:induction false} AddBounds(x: real, y: real, lo: real, hi: real, ylo: real, yhi: real)
    requires lo <= x <= hi && ylo <= y <= yhi
    ensures lo + ylo <= x + y <= hi + yhi
  {
  }

  lemma {:induction false} MulSucc(a: real, m: nat)
    ensures a * (m + 1) as real == a + a * m as real
  {
    assert (m + 1) as real == m as real + 1.0;
  }

  /** The average lies between the smallest and the largest order total. */
  lemma {:induction false} AverageBetween(orders: seq<Order>, lo: real, hi: real)
    requires |orders| > 0
    requires forall i :: 0 <= i < |orders| ==> lo <= orders[i].total <= hi
    ensures lo <= AverageOrderValue(orders) <= hi
  {
    RevenueBounds(orders, lo, hi);
    DivBounds(TotalRevenue(orders), |orders| as real, lo, hi);
  }

  lemma {:induction false} DivBounds(t: real, n: real, lo: real, hi: real)
    requires n > 0.0 && lo * n <= t <= hi * n
    ensures lo <= t / n <= hi
  {
    UnscaleBetween(t / n, n, lo, hi, t);
  }

  lemma {:induction false} UnscaleBetween(x: real, n: real, lo: real, hi: real, total: real)
    requires n > 0.0 && x * n == total && lo * n <= total <= hi * n
    ensures lo <= x <= hi
  {
    UnscaleBelow(x, n, lo, total);
    UnscaleAbove(x, n, hi, total);
  }

  lemma {:induction false} ScaleStrict(a: real, b: real, n: real)
    requires a < b && n > 0.0
    ensures a * n < b * n
  {
    assert (b - a) * n > 0.0;
  }

  lemma {:induction false} UnscaleBelow(x: real, n: real, lo: real, total: real)
    requires n > 0.0 && x * n == total && lo * n <= total
    ensures lo <= x
  {
    if x < lo {
      ScaleStrict(x, lo, n);
      assert false;
    }
  }

  lemma {:induction false} UnscaleAbove(x: real, n: real, hi: real, total: real)
    requires n > 0.0 && x * n == total && total <= hi * n
    ensures x <= hi
  {
    if hi < x {
      ScaleStrict(hi, x, n);
      assert false;
    }
  }

  // ---------------------------------------------------------------------------------------
  // Products

  /** The comparator `b.sales - a.sales`, read as "may come first". */
  predicate SalesOrder(a: Product, b: Product)
  {
    a.sales >= b.sales
  }

  lemma {:induction false} SalesOrderTotal()
    ensures TotalPreorder(SalesOrder)
  {
  }

  /**
   * topSellingProducts: the first five of a sorted copy: as many as five, drawn from the
   * catalogue, best-selling first, and no product left out sold more than one taken.
   */
  function TopSelling(products: seq<Product>): (r: seq<Product>)
    ensures |r| == if |products| <= 5 then |products| else 5
    ensures multiset(r) <= multiset(products)
    ensures forall i, j :: 0 <= i < j < |r| ==> r[i].sales >= r[j].sales
    ensures forall i, y :: 0 <= i < |r| && y in multiset(products) - multiset(r) ==> y.sales <= r[i].sales
  {
    TopSellingIsTop(products);
    Take(Sort(products, SalesOrder), 5)
  }

  lemma {:induction false} TopSellingIsTop(products: seq<Product>)
    ensures IsTop(products, Take(Sort(products, SalesOrder), 5), SalesOrder)
  {
    SalesOrderTotal();
    TopOf(products, 5, SalesOrder);
  }

  predicate IsLowStock(p: Product)
  {
    p.stock < 10
  }

  /** lowStockProducts: the products with fewer than 10 in stock. */
  function LowStock(products: seq<Product>): (r: seq<Product>)
    ensures forall i :: 0 <= i < |r| ==> r[i].stock < 10
    ensures multiset(r) <= multiset(products)
  {
    Filter(products, IsLowStock)
  }

  /** Exactly the low-stock products are kept, each as often as in the catalogue. */
  lemma {:induction false} LowStockExact(products: seq<Product>)
    ensures forall p :: multiset(LowStock(products))[p] == if p.stock < 10 then multiset(products)[p] else 0
  {
    forall p ensures multiset(LowStock(products))[p] == if p.stock < 10 then multiset(products)[p] else 0 {
      FilterMultiplicity(products, IsLowStock, p);
    }
  }

  /** The low-stock list of a concatenation is the two lists joined, so catalogue order is kept. */
  lemma {:induction false} LowStockKeepsOrder(a: seq<Product>, b: seq<Product>)
    ensures LowStock(a + b) == LowStock(a) + LowStock(b)
  {
    FilterAppend(a, b, IsLowStock);
  }

  /** recentOrders: the first five orders, or all of them when there are fewer. */
  function RecentOrders(orders: seq<Order>): (r: seq<Order>)
    ensures |r| == if |orders| <= 5 then |orders| else 5
    ensures r == orders[..|r|]
  {
    Take(orders, 5)
  }

  // ---------------------------------------------------------------------------------------
  // Chart

  /** maxSales: the largest monthly figure; Math.max of no values is -Infinity, here None. */
  function MaxSales(data: seq<MonthSales>): (r: Option<int>)
    ensures r.None? <==> data == []
    ensures r.Some? ==>
      && (exists i :: 0 <= i < |data| && data[i].sales == r.value)
      && forall i :: 0 <= i < |data| ==> data[i].sales <= r.value
  {
    if data == [] then None
    else
      var rest := MaxSales(data[1..]);
      if rest.None? || data[0].sales >= rest.value then
        Some(data[0].sales)
      else
        assert exists i :: 0 <= i < |data[1..]| && data[1..][i].sales == rest.value;
        var k :| 0 <= k < |data[1..]| && data[1..][k].sales == rest.value;
        assert data[k + 1].sales == rest.value;
        rest
  }

  /** A bar's height in pixels, `(sales / maxSales) * 160`; a zero maximum divides by zero and gives no height. */
  function BarHeight(sales: int, maxSales: int): (h: Option<real>)
    ensures h.None? <==> maxSales == 0
    ensures h.Some? ==> h.value * maxSales as real == sales as real * 160.0
  {
    if maxSales == 0 then None
    else
      var q := sales as real / maxSales as real;
      assert q * maxSales as real == sales as real;
      assert (q * 160.0) * maxSales as real == (q * maxSales as real) * 160.0;
      Some(q * 160.0)
  }

  /** Under one positive maximum the bars are in proportion: more sales never give a lower bar. */
  lemma {:induction false} BarHeightMonotone(s1: int, s2: int, maxSales: int)
    requires maxSales > 0 && s1 <= s2
    ensures BarHeight(s1, maxSales).value <= BarHeight(s2, maxSales).value
  {
    var h1, h2 := BarHeight(s1, maxSales).value, BarHeight(s2, maxSales).value;
    assert h1 * maxSales as real <= h2 * maxSales as real;
    if h2 < h1 {
      ScaleStrict(h2, h1, maxSales as real);
      assert false;
    }
  }

  /** With non-negative sales every bar is between 0 and 160 pixels high, and the largest month is 160. */
  lemma {:induction false} BarHeightBounds(data: seq<MonthSales>, i: nat)
    requires i < |data|
    requires forall k :: 0 <= k < |data| ==> data[k].sales >= 0
    requires MaxSales(data).Some? && MaxSales(data).value > 0
    ensures var h := BarHeight(data[i].sales, MaxSales(data).value);
      h.Some? && 0.0 <= h.value <= 160.0
    ensures data[i].sales == MaxSales(data).value ==> BarHeight(data[i].sales, MaxSales(data).value) == Some(160.0)
  {
    var m := MaxSales(data).value as real;
    var s := data[i].sales as real;
    assert 0.0 <= s <= m;
    RatioBounds(s, m);
  }

  lemma {:induction false} RatioBounds(s: real, m: real)
    requires 0.0 <= s <= m && m > 0.0
    ensures 0.0 <= (s / m) * 160.0 <= 160.0
    ensures s == m ==> (s / m) * 160.0 == 160.0
  {
    UnscaleBelow(s / m, m, 0.0, s);
    UnscaleAbove(s / m, m, 1.0, s);
    if s == m {
      UnscaleBelow(s / m, m, 1.0, s);
    }
  }

  // ---------------------------------------------------------------------------------------
  // Sample data

  const SampleOrders: seq<Order> := [
    Order(1001, "2024-12-20", "John Doe", 249.98, "Delivered"),
    Order(1002, "2024-12-21", "Jane Smith", 899.99, "Shipped"),
    Order(1003, "2024-12-22", "Bob Johnson", 159.97, "Processing"),
    Order(1004, "2024-12-23", "Alice Williams", 79.99, "Delivered"),
    Order(1005, "2024-12-24", "Charlie Brown", 349.98, "Shipped"),
    Order(1006, "2024-12-25", "Diana Prince", 199.99, "Processing"),
    Order(1007, "2024-12-26", "Ethan Hunt", 89.97, "Pending")
  ]

  const SampleSales: seq<MonthSales> := [
    MonthSales("Jan", 4200), MonthSales("Feb", 3800), MonthSales("Mar", 5100),
    MonthSales("Apr", 4600), MonthSales("May", 5900), MonthSales("Jun", 6200),
    MonthSales("Jul", 5800), MonthSales("Aug", 6500), MonthSales("Sep", 7100),
    MonthSales("Oct", 6800), MonthSales("Nov", 7500), MonthSales("Dec", 8200)
  ]

  /** On the sample orders: revenue 2029.87 over seven orders, and the first five are the recent ones. */
  lemma {:induction false} SampleRevenue()
    ensures TotalRevenue(SampleOrders) == 2029.87
    ensures AverageOrderValue(SampleOrders) == 2029.87 / 7.0
    ensures RecentOrders(SampleOrders) == SampleOrders[..5]
  {
    var o := SampleOrders;
    assert TotalRevenue(o[6..]) == 89.97;
    assert TotalRevenue(o[5..]) == 199.99 + TotalRevenue(o[6..]);
    assert TotalRevenue(o[4..]) == 349.98 + TotalRevenue(o[5..]);
    assert TotalRevenue(o[3..]) == 79.99 + TotalRevenue(o[4..]);
    assert TotalRevenue(o[2..]) == 159.97 + TotalRevenue(o[3..]);
    assert TotalRevenue(o[1..]) == 899.99 + TotalRevenue(o[2..]);
    assert TotalRevenue(o) == 249.98 + TotalRevenue(o[1..]);
  }

  /** On the sample sales: December's 8200 is the chart's maximum, and it draws a full-height bar. */
  lemma {:induction false} SampleChartPeak()
    ensures MaxSales(SampleSales) == Some(8200)
    ensures BarHeight(8200, 8200) == Some(160.0)
  {
    SampleSalesBelowPeak(0, 6);
    SampleSalesBelowPeak(6, 12);
    MaxSalesIs(SampleSales, 11);
    RatioBounds(8200.0, 8200.0);
  }

  lemma {:induction false} SampleSalesBelowPeak(lo: nat, hi: nat)
    requires (lo == 0 && hi == 6) || (lo == 6 && hi == 12)
    ensures forall i :: lo <= i < hi ==> SampleSales[i].sales <= 8200
  {
  }

  /** A month no other month exceeds is the maximum. */
  lemma {:induction false} MaxSalesIs(data: seq<MonthSales>, k: nat)
    requires k < |data| && forall i :: 0 <= i < |data| ==> data[i].sales <= data[k].sales
    ensures MaxSales(data) == Some(data[k].sales)
  {
    var m := MaxSales(data);
    assert m.Some? by {
      assert data != [];
    }
    assert data[k].sales <= m.value;
    var j :| 0 <= j < |data| && data[j].sales == m.value;
    assert data[j].sales <= data[k].sales;
  }
}
