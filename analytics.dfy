/**
 * The aggregation behind the analytics page (`getAnalyticsData`,
 * `calculateCustomerSegments`, `getProductAnalytics` in `src/services/apiAnalytics.js`):
 * headline totals with month-over-month changes, a twelve-month series, revenue per
 * category, the top ten products and the customer segments. The fetched collections and
 * the current month are parameters.
 */
module Analytics {
  import opened Wrappers
  import opened Entities
  import opened Seqs
  import opened Tally
  import Sorting

  /** `Math.round(x)`: the nearest integer, halves rounded up. */
  function Round(x: real): (r: int)
    ensures x - 0.5 < r as real <= x + 0.5
  {
    (x + 0.5).Floor
  }

  /** `Math.round(x * 10) / 10`: `x` to one decimal place. */
  function RoundTenth(x: real): (r: real)
    ensures x - 0.05 < r <= x + 0.05
  {
    Round(x * 10.0) as real / 10.0
  }

  /** `previous > 0 ? ((current - previous) / previous) * 100 : 0`. */
  function ChangePercent(current: real, previous: real): (r: real)
    ensures previous <= 0.0 ==> r == 0.0
    ensures previous > 0.0 ==> r * previous == (current - previous) * 100.0
    ensures previous > 0.0 ==> (r > 0.0 <==> current > previous) && (r == 0.0 <==> current == previous)
  {
    if previous > 0.0 then (current - previous) / previous * 100.0 else 0.0
  }

  /** `d.getMonth() === monthIndex && d.getFullYear() === year` for a date that may be missing. */
  predicate CreatedIn(t: Option<Stamp>, year: int, monthIndex: int) {
    t.Some? && MonthIndexOf(t.value.month) == monthIndex && YearOf(t.value.month) == year
  }

  /** Testing the two fields of `month` is testing the month itself. */
  lemma CreatedInMonth(t: Option<Stamp>, month: int)
    ensures CreatedIn(t, YearOf(month), MonthIndexOf(month)) <==> t.Some? && t.value.month == month
  {
    if t.Some? {
      MonthFields(t.value.month, month);
    }
  }

  /** The month before (`currentMonth === 0 ? 11 : currentMonth - 1`), with its year. */
  function PreviousMonth(year: int, monthIndex: int): (r: (int, int))
    requires 0 <= monthIndex < 12
    ensures 0 <= r.1 < 12
    ensures r.0 * 12 + r.1 == year * 12 + monthIndex - 1
  {
    if monthIndex == 0 then (year - 1, 11) else (year, monthIndex - 1)
  }

  /** The month before January is December of the year before: it is the month `now - 1`. */
  lemma PreviousMonthWraps(now: int)
    ensures PreviousMonth(YearOf(now), MonthIndexOf(now)) == (YearOf(now - 1), MonthIndexOf(now - 1))
  {
    var (y, m) := PreviousMonth(YearOf(now), MonthIndexOf(now));
    MonthFields(y * 12 + m, now - 1);
  }

  function MonthTest(year: int, monthIndex: int): Order -> bool {
    (o: Order) => CreatedIn(o.createdAt, year, monthIndex)
  }

  /** The orders created in the given calendar month. */
  function OrdersIn(orders: seq<Order>, year: int, monthIndex: int): seq<Order> {
    Filter(orders, MonthTest(year, monthIndex))
  }

  /** The customers who joined in the given calendar month. */
  function CustomersIn(customers: seq<Customer>, year: int, monthIndex: int): seq<Customer> {
    Filter(customers, (c: Customer) => CreatedIn(c.createdAt, year, monthIndex))
  }

  /** `orders.reduce((sum, o) => sum + (o.totalPrice || 0), 0)`. */
  function Revenue(orders: seq<Order>): real {
    Sum(orders, PriceOf)
  }

  /**
   * `totalProducts`: the response's `total` when it is a non-zero number, else its
   * `results` when that is a non-zero number, else the number of products listed.
   */
  function TotalProducts(total: Option<int>, results: Option<int>, listed: nat): (r: int)
    ensures total.Some? && total.value != 0 ==> r == total.value
    ensures !(total.Some? && total.value != 0) && results.Some? && results.value != 0 ==> r == results.value
    ensures r == 0 ==> listed == 0
    ensures r == listed || (total.Some? && r == total.value) || (results.Some? && r == results.value)
  {
    if total.Some? && total.value != 0 then total.value
    else if results.Some? && results.value != 0 then results.value
    else listed
  }

  datatype Stats = Stats(
    totalRevenue: real,
    totalOrders: nat,
    totalCustomers: nat,
    totalProducts: int,
    revenueChange: real,
    ordersChange: real,
    customersChange: real,
    productsChange: real)

  /** The `stats` record for the month `now` (counted as `year * 12 + monthIndex`). */
  function ComputeStats(orders: seq<Order>, customers: seq<Customer>, totalProducts: int, now: int): (r: Stats)
    ensures r.totalRevenue == Sum(orders, PriceOf)
    ensures r.totalOrders == |orders| && r.totalCustomers == |customers|
    ensures r.totalProducts == totalProducts && r.productsChange == 0.0
  {
    var year := YearOf(now);
    var month := MonthIndexOf(now);
    var (lastYear, lastMonth) := PreviousMonth(year, month);
    var current := OrdersIn(orders, year, month);
    var previous := OrdersIn(orders, lastYear, lastMonth);
    var joined := CustomersIn(customers, year, month);
    var joinedBefore := CustomersIn(customers, lastYear, lastMonth);
    Stats(
      Revenue(orders), |orders|, |customers|, totalProducts,
      RoundTenth(ChangePercent(Revenue(current), Revenue(previous))),
      RoundTenth(ChangePercent(|current| as real, |previous| as real)),
      RoundTenth(ChangePercent(|joined| as real, |joinedBefore| as real)),
      0.0)
  }

  /** The orders created in the month `month`, counted as `year * 12 + monthIndex`. */
  function OrdersInMonth(orders: seq<Order>, month: int): seq<Order> {
    OrdersIn(orders, YearOf(month), MonthIndexOf(month))
  }

  /** The customers who joined in the month `month`, counted as `year * 12 + monthIndex`. */
  function CustomersInMonth(customers: seq<Customer>, month: int): seq<Customer> {
    CustomersIn(customers, YearOf(month), MonthIndexOf(month))
  }

  /**
   * The changes compare the month `now` with the month `now - 1`, also across a year
   * boundary: orders, revenue and newly joined customers.
   */
  lemma StatsCompareAdjacentMonths(orders: seq<Order>, customers: seq<Customer>, totalProducts: int, now: int)
    ensures ComputeStats(orders, customers, totalProducts, now).ordersChange
      == RoundTenth(ChangePercent(|OrdersInMonth(orders, now)| as real, |OrdersInMonth(orders, now - 1)| as real))
    ensures ComputeStats(orders, customers, totalProducts, now).revenueChange
      == RoundTenth(ChangePercent(Revenue(OrdersInMonth(orders, now)), Revenue(OrdersInMonth(orders, now - 1))))
    ensures ComputeStats(orders, customers, totalProducts, now).customersChange
      == RoundTenth(ChangePercent(|CustomersInMonth(customers, now)| as real, |CustomersInMonth(customers, now - 1)| as real))
  {
    PreviousMonthWraps(now);
    var (lastYear, lastMonth) := PreviousMonth(YearOf(now), MonthIndexOf(now));
    assert OrdersIn(orders, lastYear, lastMonth) == OrdersInMonth(orders, now - 1);
    assert CustomersIn(customers, lastYear, lastMonth) == CustomersInMonth(customers, now - 1);
  }

  /** With no order in the previous month both order changes are 0: the divide-by-zero guard. */
  lemma StatsNoPreviousOrders(orders: seq<Order>, customers: seq<Customer>, totalProducts: int, now: int)
    requires OrdersInMonth(orders, now - 1) == []
    ensures ComputeStats(orders, customers, totalProducts, now).ordersChange == 0.0
    ensures ComputeStats(orders, customers, totalProducts, now).revenueChange == 0.0
  {
    StatsCompareAdjacentMonths(orders, customers, totalProducts, now);
    assert Revenue([]) == 0.0;
    assert Round(0.0) == 0;
  }

  /** Every order has a non-negative price: then so has the total revenue. */
  lemma RevenueNonNegative(orders: seq<Order>)
    requires forall i :: 0 <= i < |orders| ==> orders[i].totalPrice >= 0.0
    ensures Revenue(orders) >= 0.0
  {
    SumNonNegative(orders, PriceOf);
  }

  /** One entry of `salesData`: the month, its revenue, its order count and its new customers. */
  datatype SalesPoint = SalesPoint(month: int, sales: real, orders: nat, customers: nat)

  function PointFor(orders: seq<Order>, customers: seq<Customer>, month: int): SalesPoint {
    var inMonth := OrdersInMonth(orders, month);
    SalesPoint(month, Revenue(inMonth), |inMonth|, |CustomersIn(customers, YearOf(month), MonthIndexOf(month))|)
  }

  /** The points for `n` consecutive months starting at `first`, oldest first. */
  function Series(orders: seq<Order>, customers: seq<Customer>, first: int, n: nat): (r: seq<SalesPoint>)
    ensures |r| == n
  {
    if n == 0 then [] else Series(orders, customers, first, n - 1) + [PointFor(orders, customers, first + n - 1)]
  }

  /** The `k`-th point of a series is the point of month `first + k`: oldest first, one per month. */
  lemma {:induction false} SeriesAt(orders: seq<Order>, customers: seq<Customer>, first: int, n: nat, k: nat)
    requires k < n
    ensures Series(orders, customers, first, n)[k] == PointFor(orders, customers, first + k)
  {
    var prev := Series(orders, customers, first, n - 1);
    var last := PointFor(orders, customers, first + n - 1);
    assert Series(orders, customers, first, n) == prev + [last];
    if k < n - 1 {
      SeriesAt(orders, customers, first, n - 1, k);
      assert (prev + [last])[k] == prev[k];
    }
  }

  /** `salesData`: the loop over the twelve months ending with the month `now`. */
  method SalesData(orders: seq<Order>, customers: seq<Customer>, now: int) returns (series: seq<SalesPoint>)
    ensures series == Series(orders, customers, now - 11, 12)
    ensures series[11].month == now
  {
    series := [];
    var i := 11;
    while i >= 0
      invariant -1 <= i <= 11
      invariant series == Series(orders, customers, now - 11, 11 - i)
    {
      var month := now - i;
      var monthOrders := OrdersIn(orders, YearOf(month), MonthIndexOf(month));
      var monthSales := Revenue(monthOrders);
      var monthCustomers := CustomersIn(customers, YearOf(month), MonthIndexOf(month));
      assert PointFor(orders, customers, month) == SalesPoint(month, monthSales, |monthOrders|, |monthCustomers|);
      series := series + [SalesPoint(month, monthSales, |monthOrders|, |monthCustomers|)];
      i := i - 1;
    }
  }

  /** The order was created in a month `lo <= month < hi`. */
  predicate InWindow(t: Option<Stamp>, lo: int, hi: int) {
    t.Some? && lo <= t.value.month < hi
  }

  function WindowTest(lo: int, hi: int): Order -> bool {
    (o: Order) => InWindow(o.createdAt, lo, hi)
  }

  function OrdersInWindow(orders: seq<Order>, lo: int, hi: int): seq<Order> {
    Filter(orders, WindowTest(lo, hi))
  }

  /** Extending the window by one month adds exactly that month's orders. */
  lemma WindowStep(orders: seq<Order>, lo: int, m: int)
    requires lo <= m
    ensures |OrdersInWindow(orders, lo, m + 1)| == |OrdersInWindow(orders, lo, m)| + |OrdersInMonth(orders, m)|
    ensures Revenue(OrdersInWindow(orders, lo, m + 1)) == Revenue(OrdersInWindow(orders, lo, m)) + Revenue(OrdersInMonth(orders, m))
  {
    forall o: Order
      ensures MonthTest(YearOf(m), MonthIndexOf(m))(o) <==> o.createdAt.Some? && o.createdAt.value.month == m
    {
      CreatedInMonth(o.createdAt, m);
    }
    FilterUnion(orders, WindowTest(lo, m), MonthTest(YearOf(m), MonthIndexOf(m)), WindowTest(lo, m + 1), PriceOf);
  }

  function PointOrders(p: SalesPoint): int { p.orders }

  function PointSales(p: SalesPoint): real { p.sales }

  /** Months do not overlap: the series counts every order of its window exactly once. */
  lemma {:induction false} SeriesCountsWindow(orders: seq<Order>, customers: seq<Customer>, first: int, n: nat)
    ensures SumInt(Series(orders, customers, first, n), PointOrders) == |OrdersInWindow(orders, first, first + n)|
  {
    if n > 0 {
      var s := Series(orders, customers, first, n);
      SeriesCountsWindow(orders, customers, first, n - 1);
      var last := PointFor(orders, customers, first + n - 1);
      assert s == Series(orders, customers, first, n - 1) + [last];
      assert s[..n - 1] == Series(orders, customers, first, n - 1);
      assert SumInt(s, PointOrders) == SumInt(s[..n - 1], PointOrders) + last.orders;
      WindowStep(orders, first, first + n - 1);
    } else {
      FilterNone(orders, WindowTest(first, first));
    }
  }

  /** The monthly sales of the series add up to the revenue of the orders in its window. */
  lemma {:induction false} SeriesSalesWindow(orders: seq<Order>, customers: seq<Customer>, first: int, n: nat)
    ensures Sum(Series(orders, customers, first, n), PointSales) == Revenue(OrdersInWindow(orders, first, first + n))
  {
    if n > 0 {
      var s := Series(orders, customers, first, n);
      SeriesSalesWindow(orders, customers, first, n - 1);
      var last := PointFor(orders, customers, first + n - 1);
      assert s == Series(orders, customers, first, n - 1) + [last];
      assert s[..n - 1] == Series(orders, customers, first, n - 1);
      assert Sum(s, PointSales) == Sum(s[..n - 1], PointSales) + last.sales;
      WindowStep(orders, first, first + n - 1);
    } else {
      FilterNone(orders, WindowTest(first, first));
    }
  }

  /** A product's category name: `product.category || "Uncategorized"`, objects by name, title or JSON. */
  function CategoryName(c: Category): string {
    match c
    case NoCategory => "Uncategorized"
    case CategoryText(t) => if t == "" then "Uncategorized" else t
    case CategoryObject(name, title, json) => if name != "" then name else if title != "" then title else json
  }

  /** The category an order item counts under; an unpopulated product id has no category. */
  function CategoryKey(r: ProductRef): string {
    if r.Populated? then CategoryName(r.product.category) else "Uncategorized"
  }

  /** One step of the revenue loop: an item with a product adds `price * quantity` to its category. */
  function CategoryStep(acc: Assoc<real>, item: OrderItem): Assoc<real> {
    if HasProduct(item.product) then Bump(acc, CategoryKey(item.product), ItemRevenue(item), 0.0, AddReal) else acc
  }

  /** One step of the fallback loop: a product adds 1 to its category. */
  function CountStep(acc: Assoc<real>, p: Product): Assoc<real> {
    Bump(acc, CategoryName(p.category), 1.0, 0.0, AddReal)
  }

  /** `categorySales`: revenue per category, or product counts when no item had a product. */
  function CategoryTotals(orders: seq<Order>, products: seq<Product>): Assoc<real> {
    var sales := FoldLeft(LineItems(orders), [], CategoryStep);
    if sales == [] then FoldLeft(products, [], CountStep) else sales
  }

  /** `orders.forEach(o => o.orderItems.forEach(item => acc = step(acc, item)))`. */
  method FoldItems<A>(orders: seq<Order>, init: A, step: (A, OrderItem) -> A) returns (acc: A)
    ensures acc == FoldLeft(LineItems(orders), init, step)
  {
    acc := init;
    for i := 0 to |orders|
      invariant acc == FoldLeft(LineItems(orders[..i]), init, step)
    {
      var items := ItemsOf(orders[i]);
      ghost var done := LineItems(orders[..i]);
      assert done + items[..0] == done;
      for j := 0 to |items|
        invariant acc == FoldLeft(done + items[..j], init, step)
      {
        assert (done + items[..j + 1])[..|done| + j] == done + items[..j];
        acc := step(acc, items[j]);
      }
      assert orders[..i + 1][..i] == orders[..i];
      assert items[..|items|] == items;
    }
    assert orders[..|orders|] == orders;
  }

  /** The category loop and its fallback, as the source runs them. */
  method CategoryBreakdown(orders: seq<Order>, products: seq<Product>) returns (totals: Assoc<real>)
    ensures totals == CategoryTotals(orders, products)
  {
    totals := FoldItems(orders, [], CategoryStep);
    if |totals| == 0 {
      for i := 0 to |products|
        invariant totals == FoldLeft(products[..i], [], CountStep)
      {
        assert products[..i + 1][..i] == products[..i];
        totals := CountStep(totals, products[i]);
      }
      assert products[..|products|] == products;
    }
  }

  function HasProductItem(item: OrderItem): bool { HasProduct(item.product) }

  /**
   * Each category's value is the revenue of exactly the items with a product in that
   * category; the categories are distinct and appear in order of first sale.
   */
  function InCategory(k: string): OrderItem -> bool {
    (i: OrderItem) => HasProduct(i.product) && CategoryKey(i.product) == k
  }

  /** Each category's value is the revenue of exactly the items with a product in that category. */
  lemma {:induction false} CategorySalesPerKey(items: seq<OrderItem>, k: string)
    ensures Get(FoldLeft(items, [], CategoryStep), k, 0.0) == Sum(Filter(items, InCategory(k)), ItemRevenue)
  {
    if items != [] {
      var init := items[..|items| - 1];
      var x := items[|items| - 1];
      CategorySalesPerKey(init, k);
      var f := Filter(items, InCategory(k));
      if InCategory(k)(x) {
        assert f[..|f| - 1] == Filter(init, InCategory(k));
      }
      if HasProduct(x.product) {
        BumpGet(FoldLeft(init, [], CategoryStep), CategoryKey(x.product), ItemRevenue(x), 0.0, AddReal, k, 0.0);
      }
    }
  }

  /**
   * The categories are distinct, and a category is listed exactly when some item with a
   * product belongs to it, in order of first sale.
   */
  lemma {:induction false} CategorySalesKeys(items: seq<OrderItem>, k: string)
    ensures DistinctKeys(FoldLeft(items, [], CategoryStep))
    ensures HasKey(FoldLeft(items, [], CategoryStep), k) <==> exists i :: 0 <= i < |items| && InCategory(k)(items[i])
  {
    if items != [] {
      var init := items[..|items| - 1];
      var x := items[|items| - 1];
      var acc := FoldLeft(init, [], CategoryStep);
      CategorySalesKeys(init, k);
      if HasProduct(x.product) {
        BumpKeys(acc, CategoryKey(x.product), ItemRevenue(x), 0.0, AddReal);
        BumpDistinct(acc, CategoryKey(x.product), ItemRevenue(x), 0.0, AddReal);
      }
      assert forall i :: 0 <= i < |init| ==> items[i] == init[i];
    }
  }

  /** The category values add up to the revenue of all items that have a product. */
  lemma {:induction false} CategorySalesTotal(items: seq<OrderItem>)
    ensures Total(FoldLeft(items, [], CategoryStep)) == Sum(Filter(items, HasProductItem), ItemRevenue)
  {
    if items != [] {
      var init := items[..|items| - 1];
      var x := items[|items| - 1];
      CategorySalesTotal(init);
      var f := Filter(items, HasProductItem);
      if HasProduct(x.product) {
        assert f[..|f| - 1] == Filter(init, HasProductItem);
        BumpTotal(FoldLeft(init, [], CategoryStep), CategoryKey(x.product), ItemRevenue(x));
      }
    }
  }

  /** The product-count fallback is taken exactly when no order item has a product. */
  lemma {:induction false} CategoryFallbackExactly(items: seq<OrderItem>)
    ensures FoldLeft(items, [], CategoryStep) == [] <==> forall i :: 0 <= i < |items| ==> !HasProduct(items[i].product)
  {
    if items != [] {
      var init := items[..|items| - 1];
      CategoryFallbackExactly(init);
      assert forall i :: 0 <= i < |init| ==> items[i] == init[i];
    }
  }

  /** In the fallback every product counts once: the counts add up to the number of products. */
  lemma {:induction false} CategoryCountTotal(products: seq<Product>)
    ensures Total(FoldLeft(products, [], CountStep)) == |products| as real
  {
    if products != [] {
      var init := products[..|products| - 1];
      CategoryCountTotal(init);
      BumpTotal(FoldLeft(init, [], CountStep), CategoryName(products[|products| - 1].category), 1.0);
    }
  }

  /** The eight chart colours, used in turn. */
  const Palette: seq<string> := ["#3b82f6", "#8b5cf6", "#f59e0b", "#10b981", "#ef4444", "#06b6d4", "#84cc16", "#f97316"]

  datatype ChartSlice = ChartSlice(name: string, value: int, color: string)

  /** `categoryData`: each entry in order, its value rounded, coloured `colors[index % 8]`. */
  function ChartSlices(totals: Assoc<real>): (r: seq<ChartSlice>)
    ensures |r| == |totals|
    ensures forall k :: 0 <= k < |r| ==> r[k].name == totals[k].0 && r[k].color == Palette[k % 8]
    ensures forall k :: 0 <= k < |r| ==> totals[k].1 - 0.5 < r[k].value as real <= totals[k].1 + 0.5
  {
    seq(|totals|, k requires 0 <= k < |totals| => ChartSlice(totals[k].0, Round(totals[k].1), Palette[k % 8]))
  }

  /** Units sold and revenue of one product name. */
  datatype ProductTally = ProductTally(sales: int, revenue: real)

  function AddTally(a: ProductTally, b: ProductTally): ProductTally {
    ProductTally(a.sales + b.sales, a.revenue + b.revenue)
  }

  const UnknownProduct := "Unknown Product"

  /** `item.product?.name || "Unknown Product"`. */
  function TopKey(r: ProductRef): string {
    if r.Populated? && Truthy(r.product.name) then r.product.name.value else UnknownProduct
  }

  /** One step of the `productSales` loop. */
  function TopStep(acc: Assoc<ProductTally>, item: OrderItem): Assoc<ProductTally> {
    Bump(acc, TopKey(item.product), ProductTally(QuantityOr0(item), ItemRevenue(item)), ProductTally(0, 0.0), AddTally)
  }

  /**
   * Each name's tally holds the units and revenue of exactly the items under that name;
   * in particular items without a product name are pooled under "Unknown Product".
   */
  function NamedAs(k: string): OrderItem -> bool {
    (i: OrderItem) => TopKey(i.product) == k
  }

  lemma {:induction false} TopTallyPerName(items: seq<OrderItem>, k: string)
    ensures DistinctKeys(FoldLeft(items, [], TopStep))
    ensures Get(FoldLeft(items, [], TopStep), k, ProductTally(0, 0.0))
      == ProductTally(SumInt(Filter(items, NamedAs(k)), QuantityOr0), Sum(Filter(items, NamedAs(k)), ItemRevenue))
  {
    if items != [] {
      var init := items[..|items| - 1];
      var x := items[|items| - 1];
      var acc := FoldLeft(init, [], TopStep);
      TopTallyPerName(init, k);
      var f := Filter(items, NamedAs(k));
      if NamedAs(k)(x) {
        assert f[..|f| - 1] == Filter(init, NamedAs(k));
      }
      var v := ProductTally(QuantityOr0(x), ItemRevenue(x));
      BumpGet(acc, TopKey(x.product), v, ProductTally(0, 0.0), AddTally, k, ProductTally(0, 0.0));
      BumpDistinct(acc, TopKey(x.product), v, ProductTally(0, 0.0), AddTally);
    }
  }

  datatype TopProduct = TopProduct(name: string, sales: int, revenue: real)

  /** `Object.entries(productSales).map(([name, data]) => ({name, ...data}))`. */
  function TopEntries(a: Assoc<ProductTally>): (r: seq<TopProduct>)
    ensures |r| == |a|
    ensures forall i :: 0 <= i < |a| ==>
      r[i].name == a[i].0 && r[i].sales == a[i].1.sales && r[i].revenue == a[i].1.revenue
    ensures DistinctKeys(a) ==> forall i, j :: 0 <= i < j < |r| ==> r[i].name != r[j].name
  {
    seq(|a|, i requires 0 <= i < |a| => TopProduct(a[i].0, a[i].1.sales, a[i].1.revenue))
  }

  /** The comparator `(a, b) => b.revenue - a.revenue`: `a` may come first when it earned no less. */
  function ByRevenue(a: TopProduct, b: TopProduct): bool { a.revenue >= b.revenue }

  /** `.sort(byRevenue).slice(0, 10)`. */
  function RankTop(a: Assoc<ProductTally>): seq<TopProduct> {
    SliceTo(Sorting.Sort(TopEntries(a), ByRevenue), 10)
  }

  /** `topProducts`: the tally loop over all line items, then the ranking. */
  method TopProducts(orders: seq<Order>) returns (top: seq<TopProduct>)
    ensures top == RankTop(FoldLeft(LineItems(orders), [], TopStep))
  {
    var tally := FoldItems(orders, [], TopStep);
    top := RankTop(tally);
  }

  /**
   * The ranking keeps the ten best-earning entries (all of them when fewer), in
   * non-increasing revenue order, each one of the tallied entries and none repeated beyond
   * the tally; the first one earned the most of all, and no entry left out earned more than
   * the last one kept.
   */
  lemma RankTopOrdered(a: Assoc<ProductTally>)
    ensures |RankTop(a)| == if |a| < 10 then |a| else 10
    ensures Sorting.Sorted(RankTop(a), ByRevenue)
    ensures forall k :: 0 <= k < |RankTop(a)| ==> RankTop(a)[k] in TopEntries(a)
    ensures a != [] ==> forall e :: e in TopEntries(a) ==> RankTop(a)[0].revenue >= e.revenue
    ensures multiset(RankTop(a)) <= multiset(TopEntries(a))
    ensures RankTop(a) != [] ==> forall e :: e in multiset(TopEntries(a)) - multiset(RankTop(a)) ==>
      e.revenue <= RankTop(a)[|RankTop(a)| - 1].revenue
  {
    var sorted := Sorting.Sort(TopEntries(a), ByRevenue);
    Sorting.SortSorted(TopEntries(a), ByRevenue);
    Sorting.SortedPrefix(sorted, ByRevenue, |RankTop(a)|);
    Sorting.SortedTop(TopEntries(a), ByRevenue, |RankTop(a)|);
    forall k | 0 <= k < |RankTop(a)|
      ensures RankTop(a)[k] in TopEntries(a)
    {
      assert RankTop(a)[k] in multiset(sorted);
    }
    if a != [] {
      forall e | e in TopEntries(a)
        ensures RankTop(a)[0].revenue >= e.revenue
      {
        assert e in multiset(sorted);
        var k :| 0 <= k < |sorted| && sorted[k] == e;
        Sorting.SortedFirst(sorted, ByRevenue, k);
      }
    }
  }

  /** The segment a customer falls in by the number of their orders. */
  datatype SegmentKind = NewCustomer | Returning | Loyal

  function SegmentOf(orderCount: nat): SegmentKind {
    if orderCount == 0 then NewCustomer else if orderCount <= 2 then Returning else Loyal
  }

  /** `order.user?._id || order.user` as an object key; `None` when it is falsy. */
  function CustomerKey(o: Order): Option<string> {
    match o.user
    case NoUser => None
    case UserId(id) => if id != "" then Some(id) else None
    case UserObject(id, _, _) => if Truthy(id) then Some(id.value) else Some("[object Object]")
  }

  /** `customer._id` as an object key. */
  function LookupKey(c: Customer): string {
    if c.id.Some? then c.id.value else "undefined"
  }

  /** `customerOrderCount[key] || 0`: the orders whose customer key is `key`. */
  function OrderCountOf(orders: seq<Order>, key: string): nat {
    if orders == [] then 0
    else OrderCountOf(orders[..|orders| - 1], key) + (if CustomerKey(orders[|orders| - 1]) == Some(key) then 1 else 0)
  }

  /** The number of customers that fall in segment `kind`. */
  function SegmentCount(customers: seq<Customer>, orders: seq<Order>, kind: SegmentKind): nat {
    if customers == [] then 0
    else
      SegmentCount(customers[..|customers| - 1], orders, kind)
      + (if SegmentOf(OrderCountOf(orders, LookupKey(customers[|customers| - 1]))) == kind then 1 else 0)
  }

  /** `total > 0 ? Math.round((count / total) * 100) : 0`. */
  function Percentage(count: nat, total: nat): (r: int)
    ensures total == 0 ==> r == 0
    ensures count <= total ==> 0 <= r <= 100
  {
    if total > 0 then Round(count as real / total as real * 100.0) else 0
  }

  datatype Segment = Segment(segment: string, count: nat, percentage: int)

  function Get0(m: map<string, nat>, k: string): nat {
    if k in m then m[k] else 0
  }

  /** `calculateCustomerSegments`: the counting loop over orders, then the bucketing loop over customers. */
  method CustomerSegments(customers: seq<Customer>, orders: seq<Order>) returns (segments: seq<Segment>)
    ensures |segments| == 3
    ensures segments[0].count == SegmentCount(customers, orders, NewCustomer)
    ensures segments[1].count == SegmentCount(customers, orders, Returning)
    ensures segments[2].count == SegmentCount(customers, orders, Loyal)
    ensures segments[0].count + segments[1].count + segments[2].count == |customers|
    ensures forall k :: 0 <= k < 3 ==> segments[k].percentage == Percentage(segments[k].count, |customers|)
    ensures segments[0].segment == "New Customers" && segments[1].segment == "Returning" && segments[2].segment == "Loyal"
  {
    var counts: map<string, nat> := map[];
    for i := 0 to |orders|
      invariant forall k :: Get0(counts, k) == OrderCountOf(orders[..i], k)
    {
      assert orders[..i + 1][..i] == orders[..i];
      var key := CustomerKey(orders[i]);
      if key.Some? {
        counts := counts[key.value := Get0(counts, key.value) + 1];
      }
    }
    assert orders[..|orders|] == orders;
    var newCustomers, returning, loyal := 0, 0, 0;
    for j := 0 to |customers|
      invariant newCustomers == SegmentCount(customers[..j], orders, NewCustomer)
      invariant returning == SegmentCount(customers[..j], orders, Returning)
      invariant loyal == SegmentCount(customers[..j], orders, Loyal)
      invariant newCustomers + returning + loyal == j
    {
      assert customers[..j + 1][..j] == customers[..j];
      var orderCount := Get0(counts, LookupKey(customers[j]));
      if orderCount == 0 {
        newCustomers := newCustomers + 1;
      } else if orderCount <= 2 {
        returning := returning + 1;
      } else {
        loyal := loyal + 1;
      }
    }
    assert customers[..|customers|] == customers;
    var total := |customers|;
    segments := [
      Segment("New Customers", newCustomers, Percentage(newCustomers, total)),
      Segment("Returning", returning, Percentage(returning, total)),
      Segment("Loyal", loyal, Percentage(loyal, total))
    ];
  }

  /** With no orders at all, every customer is new. */
  lemma {:induction false} NoOrdersAllNew(customers: seq<Customer>)
    ensures SegmentCount(customers, [], NewCustomer) == |customers|
  {
    if customers != [] {
      NoOrdersAllNew(customers[..|customers| - 1]);
    }
  }

  /** `item.product?._id === product._id || item.product === product._id` (absent ids are equal). */
  predicate Matches(r: ProductRef, id: Option<string>) {
    (if r.Populated? then r.product.dbId else None) == id || (r.ProductId? && Some(r.id) == id)
  }

  /** One step of the per-product loop in `getProductAnalytics`. */
  function MatchStep(id: Option<string>): (ProductTally, OrderItem) -> ProductTally {
    (acc: ProductTally, item: OrderItem) =>
      if Matches(item.product, id) then AddTally(acc, ProductTally(QuantityOr0(item), ItemRevenue(item))) else acc
  }

  /** The per-product loop adds up the units and revenue of exactly the items that match the product. */
  function MatchesId(id: Option<string>): OrderItem -> bool {
    (i: OrderItem) => Matches(i.product, id)
  }

  /** The tally of the items that match a product: units and revenue summed over them. */
  function MatchedTally(items: seq<OrderItem>, id: Option<string>): ProductTally {
    ProductTally(SumInt(Filter(items, MatchesId(id)), QuantityOr0), Sum(Filter(items, MatchesId(id)), ItemRevenue))
  }

  /** The per-product loop adds up the units and revenue of exactly the items that match the product. */
  lemma {:induction false} MatchStepSums(items: seq<OrderItem>, id: Option<string>)
    ensures FoldLeft(items, ProductTally(0, 0.0), MatchStep(id)) == MatchedTally(items, id)
  {
    if items != [] {
      var init := items[..|items| - 1];
      var x := items[|items| - 1];
      MatchStepSums(init, id);
      var f := Filter(items, MatchesId(id));
      if MatchesId(id)(x) {
        assert f[..|f| - 1] == Filter(init, MatchesId(id));
      }
    }
  }

  datatype Performance = Performance(name: Option<string>, sales: int, revenue: real, rating: real, views: int)

  function ByPerformance(a: Performance, b: Performance): bool { a.revenue >= b.revenue }

  /** The record for one product given its tally. */
  function PerformanceOf(p: Product, t: ProductTally): Performance {
    Performance(p.name, t.sales, t.revenue, p.ratingsAverage, p.ratingsQuantity)
  }

  /** The record of every product, in the order of the list. */
  function Performances(products: seq<Product>, orders: seq<Order>): seq<Performance> {
    seq(|products|, i requires 0 <= i < |products| => PerformanceOf(products[i], MatchedTally(LineItems(orders), products[i].dbId)))
  }

  /** The records the loop builds with its per-product folds are the products' records. */
  lemma FoldsArePerformances(all: seq<Performance>, products: seq<Product>, orders: seq<Order>)
    requires |all| == |products|
    requires forall j :: 0 <= j < |products| ==> all[j] == PerformanceOf(products[j],
      FoldLeft(LineItems(orders), ProductTally(0, 0.0), MatchStep(products[j].dbId)))
    ensures all == Performances(products, orders)
  {
    forall j | 0 <= j < |products|
      ensures all[j] == Performances(products, orders)[j]
    {
      MatchStepSums(LineItems(orders), products[j].dbId);
    }
  }

  /**
   * Sorting the records by revenue and keeping ten keeps the best-earning ten, best first,
   * and no record left out earned more than the last one kept.
   */
  lemma BestTenOrdered(all: seq<Performance>)
    ensures |SliceTo(Sorting.Sort(all, ByPerformance), 10)| == if |all| < 10 then |all| else 10
    ensures Sorting.Sorted(SliceTo(Sorting.Sort(all, ByPerformance), 10), ByPerformance)
    ensures multiset(SliceTo(Sorting.Sort(all, ByPerformance), 10)) <= multiset(all)
    ensures var top := SliceTo(Sorting.Sort(all, ByPerformance), 10);
      top != [] ==> forall x :: x in multiset(all) - multiset(top) ==> x.revenue <= top[|top| - 1].revenue
  {
    var sorted := Sorting.Sort(all, ByPerformance);
    var top := SliceTo(sorted, 10);
    Sorting.SortSorted(all, ByPerformance);
    Sorting.SortedPrefix(sorted, ByPerformance, |top|);
    Sorting.SortedTop(all, ByPerformance, |top|);
  }

  /** The loop of `getProductAnalytics`: each product's record, its items tallied one order at a time. */
  method TallyEach(products: seq<Product>, orders: seq<Order>) returns (all: seq<Performance>)
    ensures all == Performances(products, orders)
  {
    all := [];
    for i := 0 to |products|
      invariant |all| == i
      invariant forall j :: 0 <= j < i ==> all[j] == PerformanceOf(products[j],
        FoldLeft(LineItems(orders), ProductTally(0, 0.0), MatchStep(products[j].dbId)))
    {
      var tally := FoldItems(orders, ProductTally(0, 0.0), MatchStep(products[i].dbId));
      all := all + [PerformanceOf(products[i], tally)];
    }
    FoldsArePerformances(all, products, orders);
  }

  /**
   * `getProductAnalytics`: a tally per product, then sorted by revenue and cut to ten. The
   * result is the ten best-earning product records (all when fewer), best first: none is
   * repeated beyond the list, and no product left out earned more than the last one kept.
   */
  method ProductAnalytics(products: seq<Product>, orders: seq<Order>) returns (top: seq<Performance>)
    ensures |top| == if |products| < 10 then |products| else 10
    ensures Sorting.Sorted(top, ByPerformance)
    ensures multiset(top) <= multiset(Performances(products, orders))
    ensures top != [] ==> forall x :: x in multiset(Performances(products, orders)) - multiset(top) ==>
      x.revenue <= top[|top| - 1].revenue
    ensures forall k :: 0 <= k < |top| ==>
      exists i :: 0 <= i < |products| && top[k] == PerformanceOf(products[i], MatchedTally(LineItems(orders), products[i].dbId))
  {
    var all := TallyEach(products, orders);
    var sorted := Sorting.Sort(all, ByPerformance);
    top := SliceTo(sorted, 10);
    BestTenOrdered(all);
    forall k | 0 <= k < |top|
      ensures exists i :: 0 <= i < |products| && top[k] == PerformanceOf(products[i], MatchedTally(LineItems(orders), products[i].dbId))
    {
      assert top[k] in multiset(all);
      var j :| 0 <= j < |all| && all[j] == top[k];
    }
  }
}
